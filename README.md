# Cricket Hub Live: a Dafny model of the scoring and data core

Cricket Hub Live is a web application for running cricket tournaments. Admins
create tournaments, register teams and players, schedule matches and score
them ball by ball. Viewers follow live scores, and a subscription unlocks
live viewing.

In its demo mode, all data sits in the browser's key-value storage as JSON
arrays under fixed keys. The storage is seeded with demo tournaments, teams,
players, matches and scores on first load. This project models that core:

- **Storage** (`storage.dfy`): the key-value store as a class `LocalStore`
  with an `entries` map. It models reads that fall back to the seed data,
  writes, and first-load seeding, which never overwrites what is already
  stored.
- **Records** (`records.dfy`): the record types, the demo accounts and the
  seed tables.
- **Live scoring** (`realtime_scores.dfy`, `live_scoring.dfy`):
  - the score session hook as a class `ScoreSession`, whose `FetchScore`,
    `UpdateScore` and `AddBall` update the in-memory score and the stored
    score table together;
  - the scoring page as a class `LiveScoringPage` with its "this over"
    strip.
  
  Overs are written the cricket way, as `completed.ballsInOver` (15.2 means
  15 overs and 2 balls). Here they are encoded exactly as a count of tenths
  (`152`).
- **Data hooks** (`mock_data_hooks.dfy`): the filtered fetches, the look-ups,
  the dashboard statistics, and the create/delete/update operations that
  rewrite a stored table.
- **Pages** (`schedule_match.dfy`, `teams_page.dfy`, `players_page.dfy`,
  `tournaments_page.dfy`, `matches_list.dfy`, `dashboard.dfy`,
  `create_tournament.dfy`, `signup.dfy`): the form guards, list filters,
  sort orders and record construction of each page.
- **Authentication and routing** (`auth.dfy`, `protected_route.dfy`,
  `nav_link.dfy`, `validations.dfy`):
  - the demo authentication provider as a class `AuthProvider`;
  - the two route guards;
  - active-link detection;
  - the form validation rules.
- **Helpers** (`tables.dfy`, `text.dfy`, `wrappers.dfy`): the JavaScript
  array built-ins the code relies on (`filter`, `find`, a stable `sort`,
  `slice`), ASCII lower-casing, substring search and `parseInt`/`toString`
  on integers.

The clock and the id generators (`Date.now()`, `new Date().toISOString()`)
are parameters of the operations that use them. Date parsing
(`new Date(s).getTime()`) is a parameter `time: string -> int`.

## Model

| member | source | states |
|---|---|---|
| Tables.Filter | frontend/src/hooks/useMockData.ts:22-29 | The result keeps only records satisfying the predicate, is no longer than the input, and contains every input record that satisfies it |
| Tables.FilterIsSubsequence | frontend/src/hooks/useMockData.ts:22-29 | Filtering keeps the surviving records in their original relative order |
| Tables.FilterAll | frontend/src/hooks/useMockData.ts:22-29 | A filter every record passes returns the table unchanged |
| Tables.FilterNone | src/pages/Teams.tsx:93-115 | A filter no record passes returns the empty table |
| Tables.FilterAgree | src/pages/Teams.tsx:162-166 | Two predicates that agree on every record filter the table identically |
| Tables.FilterLength | frontend/src/hooks/useMockData.ts:142-145 | The length of a filtered table is the count of records satisfying the predicate |
| Tables.CountMonotone | frontend/src/hooks/useMockData.ts:235-254 | Counting under a stronger predicate never gives more than under a weaker one |
| Tables.FirstIndex | frontend/src/hooks/useMockData.ts:96-99 | Returns the first index whose record satisfies the predicate, or the table length when none does |
| Tables.FirstOfBothShift | src/pages/Teams.tsx:104 | A first position in the tail moves one place along when the head does not qualify |
| Tables.FilterFirst | src/pages/Teams.tsx:93-104 | A `find` on a filtered table returns the first record of the whole table that passes both the filter and the search |
| Tables.Find | frontend/src/hooks/useMockData.ts:96-99 | Gives no record exactly when none satisfies the predicate; otherwise gives the first record of the table that satisfies it, at `FirstIndex` |
| Tables.MapWhere | frontend/src/hooks/useMockData.ts:199-206 | Rewriting the matching records keeps the table length |
| Tables.MapWhereAt | frontend/src/hooks/useMockData.ts:199-206 | At each position the record is rewritten exactly when it matches the predicate |
| Tables.Insert | src/pages/Players.tsx:78-84 | Inserting into a sorted table keeps it sorted and adds exactly the one record (as a multiset) |
| Tables.SortBy | src/pages/Players.tsx:78-84 | The result is ascending by the key and is a permutation of the input |
| Tables.SortByMembers | src/pages/Players.tsx:78-84 | Sorting keeps exactly the given records: every sorted record is an input record and every input record is in the result |
| Tables.Take | frontend/src/pages/Dashboard.tsx:57 | `slice(0, n)` yields the first min(n, length) records |
| Text.AsciiLower | frontend/src/pages/Tournaments.tsx:41 | Lower-casing keeps the length, maps each character through `LowerChar` and leaves no upper-case letter |
| Text.AsciiLowerIdempotent | frontend/src/pages/Tournaments.tsx:41 | Lower-casing twice equals lower-casing once |
| Text.ContainsIff | frontend/src/pages/Tournaments.tsx:41 | `includes` holds exactly when the needle occurs at some position |
| Text.NatDigits | src/pages/LiveScoring.tsx:34 | The decimal rendering of a natural number is a non-empty run of digits |
| Text.NatDigitsValue | src/pages/LiveScoring.tsx:34 | Reading back the rendered digits gives the number |
| Text.DigitPrefixLength | frontend/src/pages/CreateTournament.tsx:41 | Measures the longest leading run of digits: every character before it is a digit and the next one is not |
| Text.TrimStart | frontend/src/pages/CreateTournament.tsx:41 | `parseInt`'s white-space skip: the result is the suffix of the text left after a run of white space (the ECMAScript white space and line terminators), and it is empty or starts with a non-space |
| Text.DigitRunPrefix | frontend/src/pages/CreateTournament.tsx:41 | On an all-digit text, the digit run is the whole text |
| Text.ParseUnsignedDigits | frontend/src/pages/CreateTournament.tsx:41 | An all-digit text is read as the value of all its digits |
| Text.TrimStartNoSpace | frontend/src/pages/CreateTournament.tsx:41 | A text that starts with a non-space is left as it is by the whitespace skip |
| Text.ParseIntOfIntToString | src/pages/Players.tsx:103 | `parseInt(n.toString())` gives back `n` for every exact integer, negative ones included (JavaScript doubles are not modelled) |
| Text.ParseNonNegative | src/pages/Players.tsx:103 | A rendered natural number is read back by `parseInt` |
| Text.ParseNegative | src/pages/Players.tsx:103 | A minus sign and a rendered positive number are read back as the negative number |
| Text.ParseMinus | src/pages/Players.tsx:103 | A minus sign followed by digits is read as the negated digits' value |
| Records.ZeroScore | frontend/src/hooks/useMockData.ts:178-193 | A new score row is tied to its match, with all team totals at zero, an empty ball log and no batting team |
| Records.SeedMatchIds | src/lib/mockData.ts:228-275 | The seed holds exactly the four demo matches match-001 to match-004, in that order |
| Records.SeedIdsDistinct | src/lib/mockData.ts:228-275 | The four demo match ids are pairwise different |
| Records.SeedScoreCount | src/lib/mockData.ts:276-329 | The number of seed score rows for an id is the number of demo matches with that id |
| Records.SeedMatchesScoredOnce | src/lib/mockData.ts:228-329 | Every seed match has exactly one seed score row |
| Records.SeedScoresNameSeedMatches | src/lib/mockData.ts:228-329 | Every seed score row belongs to a seed match |
| Records.SeedScoresMatchSeedMatches | src/lib/mockData.ts:228-329 | Every seed match has exactly one seed score row, and every seed score row belongs to a seed match |
| Records.SeedOversWellFormed | src/lib/mockData.ts:276-329 | Every seed over count has at most 5 balls in the current over |
| Records.TournamentById | src/pages/MatchesList.tsx:37 | Finds the first tournament with the id, and finds none exactly when no tournament has it |
| Storage.GetStoredData | src/lib/mockData.ts:373-380 | A present key whose value decodes reads as that value; a missing (or empty) key, or a value that does not decode, reads as the fallback |
| Storage.SetThenGet | src/lib/mockData.ts:383-389 | Reading a key right after writing a value to it gives that value back |
| Storage.SetOtherKey | src/lib/mockData.ts:383-389 | Writing one key leaves what every other key reads unchanged |
| Storage.SeedKey | src/lib/mockData.ts:392-411 | Seeding a key changes nothing when the key is present; otherwise it stores the seed there |
| Storage.SeedKeyFacts | src/lib/mockData.ts:392-411 | Seeding keeps every present entry, touches no other key and leaves the seeded key present |
| Storage.KeysDistinct | src/lib/mockData.ts:392-409 | The six storage keys are pairwise different |
| Storage.SeedingAt | src/lib/mockData.ts:392-411 | Seen from one key, seeding keeps a present value, fills an absent seeded key with its seed and leaves any other key untouched |
| Storage.SeedingNeverOverwrites | src/lib/mockData.ts:392-411 | For any non-empty seeds, seeding keeps every present entry, touches no other key and leaves all six keys present |
| Storage.SeedingIdempotent | src/lib/mockData.ts:392-411 | Seeding twice with the same seeds equals seeding once |
| Storage.SeedingInvisible | src/lib/mockData.ts:373-411 | A seeded key whose seed decodes to the read's fallback reads the same before and after seeding |
| Storage.InitializeNeverOverwrites | src/lib/mockData.ts:392-411 | Initialisation keeps every present entry, leaves all non-seed keys as they were, and makes every seed key present |
| Storage.InitializeIdempotent | src/lib/mockData.ts:392-411 | Initialising twice equals initialising once |
| Storage.InitializeInvisibleToReads | src/lib/mockData.ts:373-411 | Every table reads the same before and after initialisation, because reads already fall back to the seeds |
| Storage.LocalStore.constructor | src/lib/mockData.ts:373-389 | A store starts with the given entries and clock |
| Storage.LocalStore.SetStoredData | src/lib/mockData.ts:383-389 | Writing a key replaces that entry and nothing else |
| Storage.LocalStore.SeedIfAbsent | src/lib/mockData.ts:393-395 | One seeding line: the seed is written only when the key holds nothing |
| Storage.LocalStore.InitializeMockData | src/lib/mockData.ts:392-411 | The new entries are the initialised old entries |
| RealtimeScores.NextOvers | frontend/src/hooks/useRealtimeScores.tsx:117-125 | A wide or no-ball leaves the overs unchanged; a legal ball adds one ball, rolling over to the next whole over at ball 5 |
| RealtimeScores.OversStayWellFormed | frontend/src/hooks/useRealtimeScores.tsx:117-125 | From a well-formed count (at most 5 balls in the over), the next count is well-formed |
| RealtimeScores.OversOfLegalBalls | frontend/src/hooks/useRealtimeScores.tsx:117-125 | A well-formed over count converted to legal balls and back is unchanged |
| RealtimeScores.LegalBallsOfOvers | frontend/src/hooks/useRealtimeScores.tsx:117-125 | Converting n legal balls to overs gives a well-formed count that converts back to n |
| RealtimeScores.NextOversCountsLegalBalls | frontend/src/hooks/useRealtimeScores.tsx:117-125 | A ball raises the count of legal balls by one exactly when it is legal |
| RealtimeScores.NewEntry | frontend/src/hooks/useRealtimeScores.tsx:106-114 | A log entry carries the ball and the time, and numbers the over and the ball from 1 after the current count |
| RealtimeScores.MergeSemantics | frontend/src/hooks/useRealtimeScores.tsx:76-80 | A partial update overrides exactly the fields it sets, id and match id included, keeps the others, stamps the time, and is idempotent |
| RealtimeScores.BallRuns | frontend/src/hooks/useRealtimeScores.tsx:127-132 | A legal ball adds its runs; a wide or no-ball adds its runs plus one extra |
| RealtimeScores.WicketIffFlag | frontend/src/hooks/useRealtimeScores.tsx:127-132 | The wicket count rises by one exactly when the ball is a wicket, and is unchanged otherwise |
| RealtimeScores.BallLogAppends | frontend/src/hooks/useRealtimeScores.tsx:106-132 | A ball appends exactly one entry to the ball-by-ball log and keeps the earlier log |
| RealtimeScores.BallTouchesOnlyTeamA | frontend/src/hooks/useRealtimeScores.tsx:127-132 | A ball changes only team A's runs, wickets and overs, the log and the time |
| RealtimeScores.AllLegalCount | frontend/src/hooks/useRealtimeScores.tsx:117-125 | In a run of legal balls, every ball is counted as legal |
| RealtimeScores.InningsTotals | frontend/src/hooks/useRealtimeScores.tsx:96-135 | Over any run of balls: legal balls accumulate by the legal count, runs by the runs plus extras, wickets by the wickets. The log grows by one per ball, over counts stay well-formed, and team B is untouched |
| RealtimeScores.SixLegalBallsCompleteOver | frontend/src/hooks/useRealtimeScores.tsx:117-125 | Six legal balls from the start of an over complete exactly one over |
| RealtimeScores.MergeStoredOnlyThisMatch | frontend/src/hooks/useRealtimeScores.tsx:85-91 | The stored table keeps its length; rows of other matches are unchanged, and this match's rows get the merged update |
| RealtimeScores.LoadOrCreate | frontend/src/hooks/useRealtimeScores.tsx:33-66 | When the match has a row, the first such row is returned and the table is kept; otherwise a zero score for the match is appended |
| RealtimeScores.ScoreSession.constructor | frontend/src/hooks/useRealtimeScores.tsx:21-23 | A session starts loading with no score |
| RealtimeScores.ScoreSession.FetchScore | frontend/src/hooks/useRealtimeScores.tsx:26-68 | Without a match id nothing changes. With one, the score is the first stored row of the match and the store is unchanged, or, when there is none, a newly created zero row that is appended and the table stored. Loading ends in both cases |
| RealtimeScores.ScoreSession.UpdateScore | frontend/src/hooks/useRealtimeScores.tsx:73-94 | Without a match or score nothing changes; otherwise the score becomes the merged score, and the stored table gets the update for this match only |
| RealtimeScores.ScoreSession.AddBall | frontend/src/hooks/useRealtimeScores.tsx:96-135 | Without a match or score nothing changes; otherwise the score becomes the score after the ball, and the stored table gets the same update |
| LiveScoring.RunButtonValues | src/pages/LiveScoring.tsx:85 | The run buttons offer 0 to 4 and 6; 5 is not offered |
| LiveScoring.RunBall | src/pages/LiveScoring.tsx:32-35 | A run button records a legal, non-wicket ball with those runs |
| LiveScoring.WicketBall | src/pages/LiveScoring.tsx:37-40 | The wicket button records a legal wicket ball with no runs |
| LiveScoring.ExtraBall | src/pages/LiveScoring.tsx:42-45 | An extra button records a one-run, non-wicket, illegal ball: a wide or a no-ball as pressed |
| LiveScoring.ExtraButtonAddsTwo | src/pages/LiveScoring.tsx:42-45 | An extra adds two runs (its run plus the extra) and changes neither overs nor wickets |
| LiveScoring.RunAndWicketButtons | src/pages/LiveScoring.tsx:32-40 | A run button adds its runs and one legal ball; the wicket button adds one wicket and one legal ball, and no runs |
| LiveScoring.JoinMatch | src/pages/LiveScoring.tsx:24-30 | The match is found exactly when its id is stored, and it is the first match with the id; its teams and tournament are the first stored records with their ids, and missing only when no stored record has the id |
| LiveScoring.LiveScoringPage.constructor | src/pages/LiveScoring.tsx:18-20 | The page starts with an empty over strip and no match shown |
| LiveScoring.LiveScoringPage.FetchMatch | src/pages/LiveScoring.tsx:24-30 | With a match id and a stored match of that id, the page shows that match joined to its teams and tournament; otherwise it keeps what it showed. The over strip, the score and the store are unchanged |
| LiveScoring.LiveScoringPage.AddRun | src/pages/LiveScoring.tsx:32-35 | The strip gains the run count as text, and the session records a run ball |
| LiveScoring.LiveScoringPage.Wicket | src/pages/LiveScoring.tsx:37-40 | The strip gains "W", and the session records a wicket ball |
| LiveScoring.LiveScoringPage.Extra | src/pages/LiveScoring.tsx:42-45 | The strip gains "WD" or "NB", and the session records the extra ball |
| LiveScoring.LiveScoringPage.EndOver | src/pages/LiveScoring.tsx:47 | Ending the over clears the strip only; the score and storage are untouched |
| LiveScoring.LiveScoringPage.Undo | src/pages/LiveScoring.tsx:79 | Undo drops the last strip entry, if any, and leaves the score and storage untouched |
| MockDataHooks.TournamentsFor | frontend/src/hooks/useMockData.ts:22-29 | Without an admin id, all tournaments are returned; with one, exactly that admin's tournaments |
| MockDataHooks.TeamsIn | frontend/src/hooks/useMockData.ts:63-70 | With no or an empty id list, all teams are returned; otherwise exactly the teams of the listed tournaments |
| MockDataHooks.PlayersFor | frontend/src/hooks/useMockData.ts:109-116 | Without a team id, all players are returned; with one, exactly that team's players |
| MockDataHooks.MatchesIn | frontend/src/hooks/useMockData.ts:155-162 | With no or an empty id list, all matches are returned; otherwise exactly the matches of the listed tournaments |
| MockDataHooks.FetchesKeepOrder | frontend/src/hooks/useMockData.ts:22-162 | Every fetch returns its records in stored order |
| MockDataHooks.TeamById | frontend/src/hooks/useMockData.ts:96-99 | Finds the first team with the id, and finds none exactly when no team has it |
| MockDataHooks.MatchById | frontend/src/hooks/useMockData.ts:208-211 | Finds the first match with the id, and finds none exactly when no match has it |
| MockDataHooks.ScoreByMatchId | frontend/src/hooks/useMockData.ts:218-221 | Finds the first score row of the match, and finds none exactly when no row belongs to it |
| MockDataHooks.PlayerCountByTeam | frontend/src/hooks/useMockData.ts:142-145 | The count is the number of players of the team, at most all players |
| MockDataHooks.TournamentIds | frontend/src/hooks/useMockData.ts:240 | The ids list the tournaments' ids position by position |
| MockDataHooks.StatsFor | frontend/src/hooks/useMockData.ts:235-254 | The tournament count is the admin's tournaments; teams and matches are those in the admin's tournaments. Live matches never exceed matches, and matches never exceed all matches |
| MockDataHooks.LiveCount | frontend/src/hooks/useMockData.ts:245-247 | Filtering to the tournaments and then to live matches counts the matches that satisfy both |
| MockDataHooks.CreateTournament | frontend/src/hooks/useMockData.ts:35-46 | The new tournament is the draft with a fresh id and creation time, appended to the stored table |
| MockDataHooks.DeleteTournament | frontend/src/hooks/useMockData.ts:48-53 | The stored table loses exactly the tournaments with the id |
| MockDataHooks.CreateTeam | frontend/src/hooks/useMockData.ts:76-87 | The new team is the draft with a fresh id and creation time, appended to the stored table |
| MockDataHooks.DeleteTeam | frontend/src/hooks/useMockData.ts:89-94 | The stored table loses exactly the teams with the id |
| MockDataHooks.CreatePlayer | frontend/src/hooks/useMockData.ts:122-133 | The new player is the draft with a fresh id and creation time, appended to the stored table |
| MockDataHooks.DeletePlayer | frontend/src/hooks/useMockData.ts:135-140 | The stored table loses exactly the players with the id |
| MockDataHooks.CreateMatch | frontend/src/hooks/useMockData.ts:168-197 | The match is appended to the match table, and a zero score row for it to the score table |
| MockDataHooks.UpdateMatchStatus | frontend/src/hooks/useMockData.ts:199-206 | The stored match table has the status set on the matches with the id |
| MockDataHooks.DeleteKeepsOthers | frontend/src/hooks/useMockData.ts:48-140 | A delete keeps every record with another id, in order, and no record with the deleted id |
| MockDataHooks.StatusUpdateOnlyStatus | frontend/src/hooks/useMockData.ts:199-206 | A status update keeps the length; other matches are unchanged, and the updated matches differ only in status |
| ScheduleMatch.Guard | src/pages/ScheduleMatch.tsx:93-109 | Rejects a missing required field first, then identical teams; accepts exactly the forms passing both checks |
| ScheduleMatch.MatchDateTimeShape | src/pages/ScheduleMatch.tsx:113-115 | The match time is `date + "T" + time + ":00"`, with a missing time written as 00:00 |
| ScheduleMatch.TeamBOptions | frontend/src/pages/ScheduleMatch.tsx:74 | Team B can be any team except team A, listed in stored order |
| ScheduleMatch.AdminTournaments | frontend/src/pages/ScheduleMatch.tsx:29-32 | The choices are exactly the admin's tournaments |
| ScheduleMatch.TournamentTeams | frontend/src/pages/ScheduleMatch.tsx:34-39 | The choices are exactly the teams of the chosen tournament |
| ScheduleMatch.OversAfterChoice | src/pages/ScheduleMatch.tsx:57-65 | When the first listed tournament with the chosen id has a set, non-zero overs format, the overs become that format; otherwise they stay as they were |
| ScheduleMatch.NewMatch | frontend/src/pages/ScheduleMatch.tsx:49-55 | The new match is upcoming and carries the form's tournament, teams, venue, overs and combined date-time |
| ScheduleMatch.ScheduleLocal | frontend/src/pages/ScheduleMatch.tsx:42-55 | A rejected form changes nothing and reports the guard's message; an accepted one appends the match and its zero score |
| ScheduleMatch.RemoteInsertOrder | src/pages/ScheduleMatch.tsx:117-151 | Nothing is inserted for a rejected form. The score row is inserted only after the match insert returns an id, and only then does the page navigate |
| Validations.Check | src/lib/validations.ts:8-47 | A rule reports its message exactly when it fails |
| Validations.PasswordIssues | src/lib/validations.ts:8-12 | A password is accepted exactly when it has a length of 8 or more UTF-16 code units, an upper-case letter and a digit, with one message per failed rule |
| Validations.LoginIssues | src/lib/validations.ts:14-17 | A login is accepted exactly when the email is valid and the password non-empty |
| Validations.SignupIssues | src/lib/validations.ts:19-23 | A sign-up is accepted exactly when the name has a length of two or more, the email is valid and the password passes the password rule; lengths count UTF-16 code units |
| Validations.TournamentIssues | src/lib/validations.ts:25-32 | A tournament form is accepted exactly when every field rule passes |
| Validations.TeamIssues | src/lib/validations.ts:34-39 | A team form is accepted exactly when the name has a length of two or more and the short name one to five, counted in UTF-16 code units |
| Validations.ShortNameCountsCodeUnits | src/lib/validations.ts:36 | Three emoji are a short name of length six, which the team rule refuses |
| Validations.PlayerIssues | src/lib/validations.ts:41-47 | A player form is accepted exactly when the name has a length of two or more UTF-16 code units and any jersey number is within 0 to 999 |
| Signup.PasswordRequirements | frontend/src/pages/Signup.tsx:34-38 | The three checklist items are met exactly when the UTF-16 length, upper-case and digit rules hold |
| Signup.ChecklistMatchesPasswordRule | frontend/src/pages/Signup.tsx:40 | The checklist is all met exactly when the password rule accepts the password |
| Signup.SubmitDisabled | frontend/src/pages/Signup.tsx:161 | Submit is enabled exactly when not loading and the password passes the rule |
| Signup.RedirectFor | frontend/src/pages/Signup.tsx:20-24 | A signed-in user is redirected to /matches, and only a signed-in user |
| Auth.SignUpError | frontend/src/hooks/useAuth.tsx:46-65 | Sign-up fails for a password shorter than 8 UTF-16 code units first, then for a demo account's email, and succeeds otherwise |
| Auth.NewViewer | frontend/src/hooks/useAuth.tsx:68-79 | A new account is a viewer without a subscription, with the given id and email |
| Auth.Authenticate | frontend/src/hooks/useAuth.tsx:91-123 | Demo credentials give the demo user. Registered credentials give the registered user, and only a matching password does |
| Auth.SignUpThenSignIn | frontend/src/hooks/useAuth.tsx:44-124 | After a successful sign-up, signing in with the same password gives the new viewer, and with another password fails |
| Auth.IsAdminOf | frontend/src/hooks/useAuth.tsx:143 | A user is admin exactly when signed in with the admin or super-admin role |
| Auth.IsSuperAdminOf | frontend/src/hooks/useAuth.tsx:144 | Super-admin exactly for the super-admin role, and every super-admin is admin |
| Auth.HasSubscriptionOf | frontend/src/hooks/useAuth.tsx:145 | Only a signed-in user with an active subscription has one |
| Auth.AuthProvider.constructor | frontend/src/hooks/useAuth.tsx:21-23 | The provider starts loading with no user |
| Auth.AuthProvider.Mount | frontend/src/hooks/useAuth.tsx:27-42 | Mounting seeds the storage, restores a saved session and ends loading |
| Auth.AuthProvider.SignUp | frontend/src/hooks/useAuth.tsx:44-87 | The error is the sign-up error; a success registers the new viewer, and a failure registers nothing |
| Auth.AuthProvider.SignIn | frontend/src/hooks/useAuth.tsx:89-124 | A match signs the user in and saves the session; no match reports an error and changes nothing |
| Auth.AuthProvider.SignOut | frontend/src/hooks/useAuth.tsx:126-133 | Signing out clears the user and the saved session |
| ProtectedRoute.FirstRedirect | src/components/ProtectedRoute.tsx:20-43 | Guests go to /login with the return path. Users below the required role go to /matches. Users missing a required subscription go to /subscribe. All others pass |
| ProtectedRoute.ViewerRoleAddsNothing | src/components/ProtectedRoute.tsx:32-39 | Requiring the viewer role refuses nobody extra, and admins pass every role check |
| ProtectedRoute.RouterGuard | src/components/ProtectedRoute.tsx:17-45 | While loading a spinner shows; guests go to /login with the location, a refused role to /matches, a missing subscription to /subscribe with the location; the page renders exactly when no redirect applies |
| ProtectedRoute.FromPath | frontend/src/components/ProtectedRoute.tsx:26 | The return path is the current path, or "/" when there is none or it is empty |
| ProtectedRoute.EffectRedirect | frontend/src/components/ProtectedRoute.tsx:23-45 | No redirect while loading; otherwise a guest goes to /login with the return path, a refused role to /matches, a missing subscription to /subscribe with the return path, as `FirstRedirect` orders them |
| ProtectedRoute.RenderGuardMatchesEffect | frontend/src/components/ProtectedRoute.tsx:23-64 | The guard renders a spinner exactly while loading and the page exactly when the effect redirects nowhere |
| NavLink.IsActive | src/components/NavLink.tsx:16 | With no path, no link is active; exact links match the whole path, and others match a prefix |
| NavLink.ExactImpliesPrefix | src/components/NavLink.tsx:16 | An exactly active link is also active by prefix |
| NavLink.ClassName | src/components/NavLink.tsx:18-20 | A function class gets the active flag; a plain class gets the active class appended only when active |
| NavLink.ActiveClassOnlyWhenActive | src/components/NavLink.tsx:18-20 | The rendered class is the base and the active class joined by a space when active, and the base alone otherwise |
| TeamsPage.OwnTournaments | src/pages/Teams.tsx:93-98 | Exactly the signed-in admin's tournaments, in stored order, and none without a user |
| TeamsPage.OwnFirstIsFirstOwned | src/pages/Teams.tsx:94-104 | The first of the admin's tournaments with an id is the first tournament of the whole table that the admin owns with that id |
| TeamsPage.TeamsOf | src/pages/Teams.tsx:99 | Exactly the teams belonging to one of the admin's tournaments, in stored order |
| TeamsPage.ListedOwned | src/pages/Teams.tsx:93-99 | A team drawn from the admin's own tournaments belongs to a tournament the admin owns |
| TeamsPage.OwnedListed | src/pages/Teams.tsx:93-99 | Every team of a tournament the admin owns is drawn from the admin's own tournaments |
| TeamsPage.Details | src/pages/Teams.tsx:103-111 | One row per team, in order, each the team's `Detail`: its player count, and a tournament name whenever the team's tournament is among the admin's |
| TeamsPage.Detail | src/pages/Teams.tsx:103-111 | A row carries its team's player count; it names a tournament exactly when one of the given tournaments has the team's id, and then the name of the first such tournament |
| TeamsPage.ListedTeams | src/pages/Teams.tsx:93-115 | One row for every stored team of a tournament the admin owns and for no other, in stored order, each with its player count and the name of the first tournament the admin owns with the team's tournament id; a guest sees none |
| Text.OrNull | src/pages/Teams.tsx:131-134 | An empty field is stored as null, any other text as itself |
| Text.JsLength | src/lib/validations.ts:10 | `length` counts UTF-16 code units: between the number of characters and twice it, zero only for the empty text, and twice the characters for text made of characters outside the Basic Multilingual Plane |
| TeamsPage.NewTeam | src/pages/Teams.tsx:128-137 | The new team carries the form's name and tournament, and its optional fields as null when empty |
| TeamsPage.CreateTeam | src/pages/Teams.tsx:117-148 | A missing name or tournament reports an error and changes nothing; otherwise the team is appended |
| TeamsPage.DeleteTeam | src/pages/Teams.tsx:150-160 | The stored team table loses exactly the teams with the id |
| TeamsPage.FilteredTeams | src/pages/Teams.tsx:162-166 | The shown rows are exactly the rows matching the search and tournament filter, in order |
| TeamsPage.EmptyFilterShowsAll | src/pages/Teams.tsx:162-166 | An empty search with "all" tournaments shows every row |
| PlayersPage.TeamPlayers | src/pages/Players.tsx:78-84 | The team's players are sorted by jersey number (missing counts as 0) and are a permutation of the team's stored players |
| PlayersPage.JerseyOf | src/pages/Players.tsx:103 | An empty jersey field gives no number |
| PlayersPage.JerseyRoundTrip | src/pages/Players.tsx:103 | Typing a number's decimal text gives that number back, for exact integers (JavaScript doubles are not modelled) |
| PlayersPage.NewPlayer | src/pages/Players.tsx:97-106 | The new player carries the form's name, the team, the parsed jersey, and its optional fields as null when empty |
| PlayersPage.CreatePlayer | src/pages/Players.tsx:86-123 | A missing name reports an error and changes nothing; otherwise the player is appended |
| PlayersPage.DeletePlayer | src/pages/Players.tsx:125-135 | The stored player table loses exactly the players with the id |
| PlayersPage.RoleBadge | src/pages/Players.tsx:137-150 | Each known role has its badge colour, and any other role the default |
| PlayersPage.RoleBadgesDistinct | src/pages/Players.tsx:137-150 | The four role badges and the default are pairwise different |
| TournamentsPage.FetchTournaments | frontend/src/pages/Tournaments.tsx:34-38 | With nothing stored the seed tournaments are listed, otherwise the stored ones |
| TournamentsPage.FilteredTournaments | frontend/src/pages/Tournaments.tsx:40-44 | The shown tournaments are exactly those matching the search and status, in order |
| TournamentsPage.SearchIgnoresCase | frontend/src/pages/Tournaments.tsx:41 | Lower-casing the query does not change the result |
| TournamentsPage.StatusColor | frontend/src/pages/Tournaments.tsx:46-57 | Each known status has its colour, and any other status the default |
| TournamentsPage.StatusColorsDistinct | frontend/src/pages/Tournaments.tsx:46-57 | The three status colours and the default are pairwise different |
| MatchesList.NewestFirst | src/pages/MatchesList.tsx:31-32 | Matches are a permutation of the input, ordered newest date first |
| MatchesList.NewestFirstAt | src/pages/MatchesList.tsx:31-32 | Of two positions in the sorted list, the earlier one has the later date |
| MatchesList.Card | src/pages/MatchesList.tsx:33-39 | A card attaches the match's teams, tournament and score, each the first stored record with its id and missing exactly when no stored record has the id |
| MatchesList.MatchCards | src/pages/MatchesList.tsx:25-43 | One card per match, in newest-first order |
| MatchesList.TabFilter | src/pages/MatchesList.tsx:45 | The "all" tab shows every card; another tab shows exactly the cards with that status |
| MatchesList.CanViewLive | src/pages/MatchesList.tsx:46 | Live viewing is open exactly to admins and subscribers |
| MatchesList.CardAction | src/pages/MatchesList.tsx:132-147 | A live match offers scoring to admins and watching to other subscribers, both at /live-scoring/<id>, and a subscribe prompt to others. An upcoming match offers a start at /live-scoring/<id> to admins. Other matches offer nothing |
| Dashboard.OwnMatches | frontend/src/pages/Dashboard.tsx:46-55 | Exactly the stored matches of the admin's tournaments, in stored order |
| Dashboard.Recent | frontend/src/pages/Dashboard.tsx:58-63 | A recent entry carries the match, its team look-ups and its score look-up |
| Dashboard.RecentMatches | frontend/src/pages/Dashboard.tsx:45-66 | Only admins get recent matches: the first five (or fewer) of their own matches sorted newest first, each joined to its teams and score |
| Dashboard.RecentAreNewestOwn | frontend/src/pages/Dashboard.tsx:45-66 | The recent matches are the admin's own, ordered newest first, and no own match left out is newer than the last one shown |
| Dashboard.RecentNewestFirst | frontend/src/pages/Dashboard.tsx:56-57 | The recent matches are ordered newest first |
| Dashboard.RecentOwn | frontend/src/pages/Dashboard.tsx:46-55 | Every recent match is stored and belongs to one of the admin's tournaments |
| Dashboard.RecentNoneNewerLeftOut | frontend/src/pages/Dashboard.tsx:56-57 | No own match cut off by the limit of five is newer than the last one shown |
| CreateTournament.NewTournament | frontend/src/pages/CreateTournament.tsx:34-47 | The new tournament is upcoming, owned by the admin, carries the form's fields, and has its overs format parsed from the form |
| CreateTournament.SelectOptionsParse | frontend/src/pages/CreateTournament.tsx:79 | The select's options "20" and "50" parse to 20 and 50 |
| CreateTournament.ParsesTwoDigits | frontend/src/pages/CreateTournament.tsx:41 | `parseInt` reads a two-digit text as its decimal value |
| CreateTournament.Submit | frontend/src/pages/CreateTournament.tsx:29-51 | Without a user nothing is created; with one the tournament is appended to the stored table |

## Left out

- JSON parsing: every stored value is a typed `Blob`, and a value that fails to parse is `Unreadable`, which reads as the fallback.
- A stored value of the wrong table shape also reads as the fallback; in the source such a value would be returned as-is.
- Quota failures of the browser storage are not modelled: every write succeeds.
- React state batching, effects, re-renders, toasts and the router are not modelled. Page handlers are methods run to completion, and a navigation is a returned value.
- Floating-point overs are not modelled; overs are exact tenths. The source's `>= 5` rollover test is kept as written.
- Ids from `Date.now()`, ISO timestamps and `new Date()` seeds are parameters, as is date parsing (`time: string -> int`). Invalid (NaN) dates are therefore not modelled.
- RealtimeScores.ScoreSession.UpdateScore: one `now` parameter stands for the two separate `new Date()` reads of frontend/src/hooks/useRealtimeScores.tsx:79 and :88, so the in-memory and the stored `updated_at` are always equal; in the source they can differ by a clock tick. RealtimeScores.ScoreSession.AddBall goes through the same code.
- ScheduleMatch.ScheduleLocal: one `now` parameter stands for the separate `new Date()` reads of frontend/src/pages/ScheduleMatch.tsx:50 (the match's `created_at`) and :54 (the score's `updated_at`), so the model makes the two timestamps equal.
- Text.AsciiLower: lower-cases ASCII letters only; `toLowerCase` on other Unicode letters is not modelled.
- The email format check (a library schema) is not modelled: its list of issues is a parameter of `Validations.LoginIssues` and `Validations.SignupIssues`.
- Remote database queries of the Supabase pages are not modelled except for the insert order of match scheduling (`ScheduleMatch.ScheduleRemote`); the backend services are not part of this model.
- The current bowler and striker fields of a score row are not modelled.
- The loading flags and cached lists of the data hooks are not modelled; fetches are functions of the stored tables.
- Auth.AuthProvider.SignUp: the registered users are a map field that always holds a table, so an unparseable `mock_registered_users` value is not modelled. In the source (frontend/src/hooks/useAuth.tsx:77) `JSON.parse` then throws: the promise rejects, nothing is written and no error value is returned.
- Auth.AuthProvider.SignIn: likewise, a non-demo sign-in parses the registered users without a guard (frontend/src/hooks/useAuth.tsx:103) and rejects on an unparseable value; the model has no such path.
- Auth.AuthProvider.Mount: the saved session is a value that always parses. An unparseable saved session, which the source removes and treats as absent (frontend/src/hooks/useAuth.tsx:34-39), is not modelled.
- Demo account look-up treats the account table as a plain map; JavaScript prototype keys are not modelled.
- Text.ParseInt: decimal only; the white space skipped is the ECMAScript set written out in `IsSpace`; hexadecimal prefixes, other radixes and `NaN` results beyond "no number" are not modelled.
- Text.ParseInt: numbers are exact unbounded integers, not JavaScript doubles. Rounding beyond 2^53 (a long jersey text), the exponent notation `toString` prints from 1e21 on, and non-integer numbers that `z.number()` accepts (such as 20.5 overs) are not modelled; the forms' numeric fields are `int`.
- NavLink.ClassName: class names are joined with a space; `tailwind-merge` conflict resolution is not modelled.
- `encodeURIComponent` on ids in links is not modelled.
- PlayersPage.TeamPlayers: states sortedness and permutation but not the stability of the sort (equal jersey numbers keep their stored order).
- MatchesList.NewestFirst: states order and permutation but not stability for matches on the same date.
- The status badge of the matches list page is not modelled; it is a static look-up like `TournamentsPage.StatusColor`.
- RealtimeScores.ScoreSession.FetchScore: the extra null fields the created row carries in memory only are not modelled.
- The live scoring page imports its score hook from a module that is not part of this model; it is modelled as the `RealtimeScores.ScoreSession` above.
