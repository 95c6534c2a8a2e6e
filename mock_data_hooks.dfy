/**
 * The table hooks over the local store: fetch with an optional filter,
 * create (append one record), delete (drop every record with an id),
 * status update (rewrite matching records), lookups by id, a per-team player
 * count and the admin dashboard's counters. Every write is a read of the
 * table (with its seed as fallback) followed by one `setStoredData`.
 */
module MockDataHooks {
  import opened Wrappers
  import opened Records
  import opened Storage
  import Tables

  /** A JS string is truthy when it is present and not empty. */
  predicate Truthy(s: Option<string>) { s.Some? && s.value != "" }

  /** An optional id list given and non-empty (`ids && ids.length > 0`). */
  predicate NonEmptyIds(ids: Option<seq<string>>) { ids.Some? && |ids.value| > 0 }

  /** `useTournaments(adminId)`'s fetch: only that admin's tournaments when an admin id is given, else all. */
  function TournamentsFor(all: seq<Tournament>, adminId: Option<string>): (r: seq<Tournament>)
    ensures !Truthy(adminId) ==> r == all
    ensures Truthy(adminId) ==> forall i :: 0 <= i < |r| ==> r[i] in all && r[i].adminId == adminId.value
    ensures Truthy(adminId) ==> forall i :: 0 <= i < |all| && all[i].adminId == adminId.value ==> all[i] in r
  {
    if Truthy(adminId) then Tables.Filter(all, (t: Tournament) => t.adminId == adminId.value) else all
  }

  /** `useTeams(ids)`'s fetch: the teams of the listed tournaments when the list is non-empty, else all. */
  function TeamsIn(all: seq<Team>, ids: Option<seq<string>>): (r: seq<Team>)
    ensures !NonEmptyIds(ids) ==> r == all
    ensures NonEmptyIds(ids) ==> forall i :: 0 <= i < |r| ==> r[i] in all && r[i].tournamentId in ids.value
    ensures NonEmptyIds(ids) ==> forall i :: 0 <= i < |all| && all[i].tournamentId in ids.value ==> all[i] in r
  {
    if NonEmptyIds(ids) then Tables.Filter(all, (t: Team) => t.tournamentId in ids.value) else all
  }

  /** `usePlayers(teamId)`'s fetch: only that team's players when a team id is given, else all. */
  function PlayersFor(all: seq<Player>, teamId: Option<string>): (r: seq<Player>)
    ensures !Truthy(teamId) ==> r == all
    ensures Truthy(teamId) ==> forall i :: 0 <= i < |r| ==> r[i] in all && r[i].teamId == teamId.value
    ensures Truthy(teamId) ==> forall i :: 0 <= i < |all| && all[i].teamId == teamId.value ==> all[i] in r
  {
    if Truthy(teamId) then Tables.Filter(all, (p: Player) => p.teamId == teamId.value) else all
  }

  /** `useMatches(ids)`'s fetch: the matches of the listed tournaments when the list is non-empty, else all. */
  function MatchesIn(all: seq<Match>, ids: Option<seq<string>>): (r: seq<Match>)
    ensures !NonEmptyIds(ids) ==> r == all
    ensures NonEmptyIds(ids) ==> forall i :: 0 <= i < |r| ==> r[i] in all && r[i].tournamentId in ids.value
    ensures NonEmptyIds(ids) ==> forall i :: 0 <= i < |all| && all[i].tournamentId in ids.value ==> all[i] in r
  {
    if NonEmptyIds(ids) then Tables.Filter(all, (m: Match) => m.tournamentId in ids.value) else all
  }

  /** Every fetch keeps the stored order: its result is a subsequence of the table. */
  lemma FetchesKeepOrder(ts: seq<Tournament>, teams: seq<Team>, ps: seq<Player>, ms: seq<Match>,
                         adminId: Option<string>, teamId: Option<string>, ids: Option<seq<string>>)
    ensures Tables.IsSubsequence(TournamentsFor(ts, adminId), ts)
    ensures Tables.IsSubsequence(TeamsIn(teams, ids), teams)
    ensures Tables.IsSubsequence(PlayersFor(ps, teamId), ps)
    ensures Tables.IsSubsequence(MatchesIn(ms, ids), ms)
  {
    if Truthy(adminId) { Tables.FilterIsSubsequence(ts, (t: Tournament) => t.adminId == adminId.value); }
    else { Tables.FilterAll(ts, (t: Tournament) => true); Tables.FilterIsSubsequence(ts, (t: Tournament) => true); }
    if NonEmptyIds(ids) {
      Tables.FilterIsSubsequence(teams, (t: Team) => t.tournamentId in ids.value);
      Tables.FilterIsSubsequence(ms, (m: Match) => m.tournamentId in ids.value);
    } else {
      Tables.FilterAll(teams, (t: Team) => true); Tables.FilterIsSubsequence(teams, (t: Team) => true);
      Tables.FilterAll(ms, (m: Match) => true); Tables.FilterIsSubsequence(ms, (m: Match) => true);
    }
    if Truthy(teamId) { Tables.FilterIsSubsequence(ps, (p: Player) => p.teamId == teamId.value); }
    else { Tables.FilterAll(ps, (p: Player) => true); Tables.FilterIsSubsequence(ps, (p: Player) => true); }
  }

  /** `getTeamById`: the first team with that id if there is one, otherwise nothing. */
  function TeamById(teams: seq<Team>, id: string): (r: Option<Team>)
    ensures r.Some? ==> r.value in teams && r.value.id == id
    ensures r.Some? ==> exists k :: FirstTeamWithId(teams, id, k) && r.value == teams[k]
    ensures r.None? <==> forall i :: 0 <= i < |teams| ==> teams[i].id != id
  {
    var p := (t: Team) => t.id == id;
    var k := Tables.FirstIndex(teams, p);
    assert k < |teams| ==> FirstTeamWithId(teams, id, k);
    Tables.Find(teams, p)
  }

  /** `getMatchById`: the first match with that id if there is one, otherwise nothing. */
  function MatchById(matches: seq<Match>, id: string): (r: Option<Match>)
    ensures r.Some? ==> r.value in matches && r.value.id == id
    ensures r.Some? ==> exists k :: FirstMatchWithId(matches, id, k) && r.value == matches[k]
    ensures r.None? <==> forall i :: 0 <= i < |matches| ==> matches[i].id != id
  {
    var p := (m: Match) => m.id == id;
    var k := Tables.FirstIndex(matches, p);
    assert k < |matches| ==> FirstMatchWithId(matches, id, k);
    Tables.Find(matches, p)
  }

  /** `getScoreByMatchId`: the first score record of that match if there is one, otherwise nothing. */
  function ScoreByMatchId(scores: seq<MatchScore>, matchId: string): (r: Option<MatchScore>)
    ensures r.Some? ==> r.value in scores && r.value.matchId == matchId
    ensures r.Some? ==> exists k :: FirstScoreOfMatch(scores, matchId, k) && r.value == scores[k]
    ensures r.None? <==> forall i :: 0 <= i < |scores| ==> scores[i].matchId != matchId
  {
    var p := (s: MatchScore) => s.matchId == matchId;
    var k := Tables.FirstIndex(scores, p);
    assert k < |scores| ==> FirstScoreOfMatch(scores, matchId, k);
    Tables.Find(scores, p)
  }

  /** `getPlayerCountByTeam`: the number of players whose team is `teamId`. */
  function PlayerCountByTeam(players: seq<Player>, teamId: string): (n: nat)
    ensures n == Tables.Count(players, (p: Player) => p.teamId == teamId)
    ensures n <= |players|
  {
    Tables.FilterLength(players, (p: Player) => p.teamId == teamId);
    |Tables.Filter(players, (p: Player) => p.teamId == teamId)|
  }

  /** The ids of a list of tournaments, in order (`tournaments.map(t => t.id)`). */
  function TournamentIds(ts: seq<Tournament>): (r: seq<string>)
    ensures |r| == |ts| && forall i :: 0 <= i < |ts| ==> r[i] == ts[i].id
  {
    seq(|ts|, i requires 0 <= i < |ts| => ts[i].id)
  }

  datatype Stats = Stats(tournaments: nat, teams: nat, matches: nat, liveMatches: nat)

  function IsLive(m: Match): bool { m.status == Some("live") }

  /**
   * `useStats(adminId)`: the admin's tournaments (all when no admin id), and the
   * teams, matches and live matches inside those tournaments only.
   */
  function StatsFor(ts: seq<Tournament>, teams: seq<Team>, matches: seq<Match>, adminId: Option<string>): (r: Stats)
    ensures r.tournaments == |TournamentsFor(ts, adminId)|
    ensures var ids := TournamentIds(TournamentsFor(ts, adminId));
      r.teams == Tables.Count(teams, (t: Team) => t.tournamentId in ids)
      && r.matches == Tables.Count(matches, (m: Match) => m.tournamentId in ids)
      && r.liveMatches == Tables.Count(matches, (m: Match) => m.tournamentId in ids && IsLive(m))
    ensures r.liveMatches <= r.matches <= |matches| && r.teams <= |teams|
  {
    var ids := TournamentIds(TournamentsFor(ts, adminId));
    var inScope := Tables.Filter(matches, (m: Match) => m.tournamentId in ids);
    var live := Tables.Filter(inScope, IsLive);
    Tables.FilterLength(teams, (t: Team) => t.tournamentId in ids);
    Tables.FilterLength(matches, (m: Match) => m.tournamentId in ids);
    LiveCount(matches, ids);
    Stats(|TournamentsFor(ts, adminId)|, |Tables.Filter(teams, (t: Team) => t.tournamentId in ids)|, |inScope|, |live|)
  }

  /** Filtering the in-scope matches for live ones counts the live matches in scope. */
  lemma {:induction false} LiveCount(matches: seq<Match>, ids: seq<string>)
    ensures |Tables.Filter(Tables.Filter(matches, (m: Match) => m.tournamentId in ids), IsLive)|
         == Tables.Count(matches, (m: Match) => m.tournamentId in ids && IsLive(m))
    ensures Tables.Count(matches, (m: Match) => m.tournamentId in ids && IsLive(m))
         <= Tables.Count(matches, (m: Match) => m.tournamentId in ids)
    decreases |matches|
  {
    if matches != [] {
      LiveCount(matches[1..], ids);
    }
  }

  /** `createTournament`: append the record with a fresh id and creation time; earlier records stay as they were. */
  method CreateTournament(store: LocalStore, draft: Tournament, id: string, createdAt: string) returns (r: Tournament)
    modifies store
    ensures r == draft.(id := id, createdAt := createdAt)
    ensures store.entries == old(store.entries)[TournamentsKey := TournamentRows(old(store.Tournaments()) + [r])]
    ensures store.Tournaments() == old(store.Tournaments()) + [r]
  {
    r := draft.(id := id, createdAt := createdAt);
    store.SetStoredData(TournamentsKey, TournamentRows(store.Tournaments() + [r]));
  }

  /** `deleteTournament`: keep exactly the records whose id differs, in order. */
  method DeleteTournament(store: LocalStore, id: string)
    modifies store
    ensures store.entries == old(store.entries)[TournamentsKey :=
      TournamentRows(TournamentsWithout(old(store.Tournaments()), id))]
    ensures store.Tournaments() == TournamentsWithout(old(store.Tournaments()), id)
  {
    store.SetStoredData(TournamentsKey, TournamentRows(TournamentsWithout(store.Tournaments(), id)));
  }

  method CreateTeam(store: LocalStore, draft: Team, id: string, createdAt: string) returns (r: Team)
    modifies store
    ensures r == draft.(id := id, createdAt := createdAt)
    ensures store.entries == old(store.entries)[TeamsKey := TeamRows(old(store.Teams()) + [r])]
    ensures store.Teams() == old(store.Teams()) + [r]
  {
    r := draft.(id := id, createdAt := createdAt);
    store.SetStoredData(TeamsKey, TeamRows(store.Teams() + [r]));
  }

  method DeleteTeam(store: LocalStore, id: string)
    modifies store
    ensures store.entries == old(store.entries)[TeamsKey := TeamRows(TeamsWithout(old(store.Teams()), id))]
    ensures store.Teams() == TeamsWithout(old(store.Teams()), id)
  {
    var rows := TeamsWithout(store.Teams(), id);
    SetThenGet(store.entries, TeamsKey, rows, (ts: seq<Team>) => TeamRows(ts), AsTeams, InitialTeams);
    store.SetStoredData(TeamsKey, TeamRows(rows));
  }

  method CreatePlayer(store: LocalStore, draft: Player, id: string, createdAt: string) returns (r: Player)
    modifies store
    ensures r == draft.(id := id, createdAt := createdAt)
    ensures store.entries == old(store.entries)[PlayersKey := PlayerRows(old(store.Players()) + [r])]
    ensures store.Players() == old(store.Players()) + [r]
  {
    r := draft.(id := id, createdAt := createdAt);
    store.SetStoredData(PlayersKey, PlayerRows(store.Players() + [r]));
  }

  method DeletePlayer(store: LocalStore, id: string)
    modifies store
    ensures store.entries == old(store.entries)[PlayersKey := PlayerRows(PlayersWithout(old(store.Players()), id))]
    ensures store.Players() == PlayersWithout(old(store.Players()), id)
  {
    var rows := PlayersWithout(store.Players(), id);
    SetThenGet(store.entries, PlayersKey, rows, (ps: seq<Player>) => PlayerRows(ps), AsPlayers, InitialPlayers);
    store.SetStoredData(PlayersKey, PlayerRows(rows));
  }

  /**
   * `createMatch`: append the match, then append its score record: every
   * figure zero, nobody batting, an empty log, pointing at the new match.
   */
  method CreateMatch(store: LocalStore, draft: Match, id: string, scoreId: string, createdAt: string)
    returns (r: Match)
    modifies store
    ensures r == draft.(id := id, createdAt := createdAt)
    ensures store.entries == old(store.entries)
      [MatchesKey := MatchRows(old(store.Matches()) + [r])]
      [ScoresKey := ScoreRows(old(store.Scores()) + [ZeroScore(scoreId, id, createdAt)])]
    ensures store.Matches() == old(store.Matches()) + [r]
    ensures store.Scores() == old(store.Scores()) + [ZeroScore(scoreId, r.id, createdAt)]
  {
    r := draft.(id := id, createdAt := createdAt);
    store.SetStoredData(MatchesKey, MatchRows(store.Matches() + [r]));
    store.SetStoredData(ScoresKey, ScoreRows(store.Scores() + [ZeroScore(scoreId, r.id, createdAt)]));
  }

  /** The status update applied to one table: only matching records get the new status. */
  function WithStatus(matches: seq<Match>, matchId: string, status: string): seq<Match>
  {
    Tables.MapWhere(matches, (m: Match) => m.id == matchId, (m: Match) => m.(status := Some(status)))
  }

  /** `updateMatchStatus`: rewrite the status of every match with that id. */
  method UpdateMatchStatus(store: LocalStore, matchId: string, status: string)
    modifies store
    ensures store.entries == old(store.entries)[MatchesKey := MatchRows(WithStatus(old(store.Matches()), matchId, status))]
    ensures store.Matches() == WithStatus(old(store.Matches()), matchId, status)
  {
    store.SetStoredData(MatchesKey, MatchRows(WithStatus(store.Matches(), matchId, status)));
  }

  /** The table after deleting an id: `filter(x => x.id !== id)`. */
  function TournamentsWithout(ts: seq<Tournament>, id: string): seq<Tournament>
  {
    Tables.Filter(ts, (t: Tournament) => t.id != id)
  }

  function TeamsWithout(teams: seq<Team>, id: string): seq<Team>
  {
    Tables.Filter(teams, (t: Team) => t.id != id)
  }

  function PlayersWithout(ps: seq<Player>, id: string): seq<Player>
  {
    Tables.Filter(ps, (p: Player) => p.id != id)
  }

  /**
   * Deleting drops every record with the id and keeps every record with
   * another id, in the original order.
   */
  lemma DeleteKeepsOthers(ts: seq<Tournament>, teams: seq<Team>, ps: seq<Player>, id: string)
    ensures Tables.IsSubsequence(TournamentsWithout(ts, id), ts)
    ensures forall i :: 0 <= i < |TournamentsWithout(ts, id)| ==> TournamentsWithout(ts, id)[i].id != id
    ensures forall i :: 0 <= i < |ts| && ts[i].id != id ==> ts[i] in TournamentsWithout(ts, id)
    ensures Tables.IsSubsequence(TeamsWithout(teams, id), teams)
    ensures forall i :: 0 <= i < |TeamsWithout(teams, id)| ==> TeamsWithout(teams, id)[i].id != id
    ensures forall i :: 0 <= i < |teams| && teams[i].id != id ==> teams[i] in TeamsWithout(teams, id)
    ensures Tables.IsSubsequence(PlayersWithout(ps, id), ps)
    ensures forall i :: 0 <= i < |PlayersWithout(ps, id)| ==> PlayersWithout(ps, id)[i].id != id
    ensures forall i :: 0 <= i < |ps| && ps[i].id != id ==> ps[i] in PlayersWithout(ps, id)
  {
    Tables.FilterIsSubsequence(ts, (t: Tournament) => t.id != id);
    Tables.FilterIsSubsequence(teams, (t: Team) => t.id != id);
    Tables.FilterIsSubsequence(ps, (p: Player) => p.id != id);
  }

  /**
   * A status update keeps the length, the order and every other field; only
   * the status of records with that id changes.
   */
  lemma StatusUpdateOnlyStatus(matches: seq<Match>, matchId: string, status: string)
    ensures |WithStatus(matches, matchId, status)| == |matches|
    ensures forall i :: 0 <= i < |matches| ==>
      WithStatus(matches, matchId, status)[i].(status := matches[i].status) == matches[i]
    ensures forall i :: 0 <= i < |matches| ==>
      WithStatus(matches, matchId, status)[i].status == if matches[i].id == matchId then Some(status) else matches[i].status
  {
    forall i | 0 <= i < |matches| {
      Tables.MapWhereAt(matches, (m: Match) => m.id == matchId, (m: Match) => m.(status := Some(status)), i);
    }
  }
}
