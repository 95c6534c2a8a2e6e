/**
 * The record types of the local "database" and the seed data written on first
 * load. Timestamps and dates are the ISO strings the application stores;
 * values that the application derives from the clock are built from a `Clock`.
 *
 * Overs are kept in tenths: 15.2 overs (15 completed overs and 2 balls of the
 * 16th) is 152.
 */
module Records {
  import opened Wrappers
  import Tables

  type Tenths = nat

  datatype Role = SuperAdmin | Admin | Viewer

  datatype User = User(id: string, email: string, fullName: string, role: Role, hasActiveSubscription: bool)

  datatype Tournament = Tournament(
    id: string, name: string, description: Option<string>, logoUrl: Option<string>,
    startDate: string, endDate: string, venue: Option<string>, oversFormat: Option<int>,
    status: Option<string>, adminId: string, createdAt: string)

  datatype Team = Team(
    id: string, name: string, shortName: Option<string>, logoUrl: Option<string>,
    captain: Option<string>, coach: Option<string>, tournamentId: string, createdAt: string)

  datatype Player = Player(
    id: string, name: string, role: Option<string>, battingStyle: Option<string>,
    bowlingStyle: Option<string>, jerseyNumber: Option<int>, teamId: string, createdAt: string)

  datatype Match = Match(
    id: string, tournamentId: string, teamAId: string, teamBId: string, matchDate: string,
    venue: string, overs: Option<int>, status: Option<string>, createdAt: string)

  /** One delivery as the scorer enters it. */
  datatype Ball = Ball(runs: int, isWicket: bool, isWide: bool, isNoBall: bool, isBye: bool, isLegBye: bool)

  /** A delivery as logged in `ball_by_ball`, tagged with its display position. */
  datatype BallEntry = BallEntry(ball: Ball, timestamp: string, over: nat, ballInOver: nat)

  datatype MatchScore = MatchScore(
    id: string, matchId: string,
    teamARuns: int, teamAWickets: int, teamAOvers: Tenths,
    teamBRuns: int, teamBWickets: int, teamBOvers: Tenths,
    currentBattingTeamId: Option<string>, ballByBall: seq<BallEntry>, updatedAt: string)

  datatype PaymentSettings = PaymentSettings(
    viewerSubscriptionAmount: int, viewerValidityDays: int, adminPurchaseAmount: int,
    adminValidityDays: int, razorpayKeyId: string)

  /** The clock: milliseconds since the epoch and their ISO-8601 rendering. */
  datatype Clock = Clock(now: int, iso: int -> string)

  /** `k` is the first position of a team with the id `id`: what `find` returns. */
  predicate FirstTeamWithId(teams: seq<Team>, id: string, k: int)
  {
    0 <= k < |teams| && teams[k].id == id && forall m :: 0 <= m < k ==> teams[m].id != id
  }

  /** `k` is the first position of a match with the id `id`. */
  predicate FirstMatchWithId(matches: seq<Match>, id: string, k: int)
  {
    0 <= k < |matches| && matches[k].id == id && forall m :: 0 <= m < k ==> matches[m].id != id
  }

  /** `k` is the first position of a tournament with the id `id`. */
  predicate FirstTournamentWithId(tournaments: seq<Tournament>, id: string, k: int)
  {
    0 <= k < |tournaments| && tournaments[k].id == id && forall m :: 0 <= m < k ==> tournaments[m].id != id
  }

  /** `tournaments.find(t => t.id === id)`, as the pages write it: the first tournament with the id. */
  function TournamentById(tournaments: seq<Tournament>, id: string): (r: Option<Tournament>)
    ensures r.Some? ==> r.value in tournaments && r.value.id == id
    ensures r.Some? ==> exists k :: FirstTournamentWithId(tournaments, id, k) && r.value == tournaments[k]
    ensures r.None? <==> forall i :: 0 <= i < |tournaments| ==> tournaments[i].id != id
  {
    var p := (t: Tournament) => t.id == id;
    var k := Tables.FirstIndex(tournaments, p);
    assert k < |tournaments| ==> FirstTournamentWithId(tournaments, id, k);
    Tables.Find(tournaments, p)
  }

  /** `k` is the first position of a score record of the match `matchId`. */
  predicate FirstScoreOfMatch(scores: seq<MatchScore>, matchId: string, k: int)
  {
    0 <= k < |scores| && scores[k].matchId == matchId && forall m :: 0 <= m < k ==> scores[m].matchId != matchId
  }

  /** The score record created for a match that has none: every figure zero, nobody batting, no balls. */
  function ZeroScore(id: string, matchId: string, updatedAt: string): (z: MatchScore)
    ensures z.matchId == matchId && z.ballByBall == [] && z.currentBattingTeamId == None
    ensures z.teamARuns == z.teamAWickets == z.teamAOvers == 0
    ensures z.teamBRuns == z.teamBWickets == z.teamBOvers == 0
  {
    MatchScore(id, matchId, 0, 0, 0, 0, 0, 0, None, [], updatedAt)
  }

  const DemoPassword := "demo123"

  /** The three demo accounts, keyed by e-mail. */
  const DemoAccounts: map<string, User> := map[
    "demo@admin.com" := User("admin-001", "demo@admin.com", "Demo Admin", Admin, true),
    "demo@viewer.com" := User("viewer-001", "demo@viewer.com", "Demo Viewer", Viewer, true),
    "superadmin@demo.com" := User("superadmin-001", "superadmin@demo.com", "Super Admin", SuperAdmin, true)
  ]

  const InitialTournaments: seq<Tournament> := [
    Tournament("tournament-001", "IPL 2024",
      Some("Indian Premier League - The biggest T20 cricket league in the world"), None,
      "2024-03-22", "2024-05-26", Some("Multiple Venues"), Some(20), Some("ongoing"), "admin-001",
      "2024-01-15T00:00:00Z"),
    Tournament("tournament-002", "Cricket World Cup 2024", Some("ICC Cricket World Cup Championship"), None,
      "2024-06-01", "2024-07-15", Some("West Indies & USA"), Some(50), Some("upcoming"), "admin-001",
      "2024-01-20T00:00:00Z"),
    Tournament("tournament-003", "Local T20 League", Some("Community cricket championship"), None,
      "2024-01-01", "2024-02-28", Some("City Sports Ground"), Some(20), Some("completed"), "admin-001",
      "2023-12-01T00:00:00Z")
  ]

  const InitialTeams: seq<Team> := [
    Team("team-001", "Mumbai Indians", Some("MI"), None, Some("Hardik Pandya"), Some("Mark Boucher"),
      "tournament-001", "2024-01-16T00:00:00Z"),
    Team("team-002", "Chennai Super Kings", Some("CSK"), None, Some("MS Dhoni"), Some("Stephen Fleming"),
      "tournament-001", "2024-01-16T00:00:00Z"),
    Team("team-003", "Royal Challengers Bangalore", Some("RCB"), None, Some("Faf du Plessis"), Some("Andy Flower"),
      "tournament-001", "2024-01-16T00:00:00Z"),
    Team("team-004", "Kolkata Knight Riders", Some("KKR"), None, Some("Shreyas Iyer"), Some("Chandrakant Pandit"),
      "tournament-001", "2024-01-16T00:00:00Z"),
    Team("team-005", "India", Some("IND"), None, Some("Rohit Sharma"), Some("Rahul Dravid"),
      "tournament-002", "2024-01-21T00:00:00Z"),
    Team("team-006", "Australia", Some("AUS"), None, Some("Pat Cummins"), Some("Andrew McDonald"),
      "tournament-002", "2024-01-21T00:00:00Z")
  ]

  const InitialPlayers: seq<Player> := [
    Player("player-001", "Rohit Sharma", Some("batsman"), Some("right-handed"), None, Some(45), "team-001", "2024-01-17T00:00:00Z"),
    Player("player-002", "Hardik Pandya", Some("all-rounder"), Some("right-handed"), Some("medium"), Some(33), "team-001", "2024-01-17T00:00:00Z"),
    Player("player-003", "Jasprit Bumrah", Some("bowler"), Some("right-handed"), Some("fast"), Some(93), "team-001", "2024-01-17T00:00:00Z"),
    Player("player-004", "Suryakumar Yadav", Some("batsman"), Some("right-handed"), None, Some(63), "team-001", "2024-01-17T00:00:00Z"),
    Player("player-005", "MS Dhoni", Some("wicket-keeper"), Some("right-handed"), None, Some(7), "team-002", "2024-01-17T00:00:00Z"),
    Player("player-006", "Ravindra Jadeja", Some("all-rounder"), Some("left-handed"), Some("spin"), Some(8), "team-002", "2024-01-17T00:00:00Z"),
    Player("player-007", "Ruturaj Gaikwad", Some("batsman"), Some("right-handed"), None, Some(31), "team-002", "2024-01-17T00:00:00Z"),
    Player("player-008", "Virat Kohli", Some("batsman"), Some("right-handed"), None, Some(18), "team-003", "2024-01-17T00:00:00Z"),
    Player("player-009", "Glenn Maxwell", Some("all-rounder"), Some("right-handed"), Some("spin"), Some(32), "team-003", "2024-01-17T00:00:00Z"),
    Player("player-010", "Andre Russell", Some("all-rounder"), Some("right-handed"), Some("fast"), Some(12), "team-004", "2024-01-17T00:00:00Z"),
    Player("player-011", "Sunil Narine", Some("bowler"), Some("left-handed"), Some("spin"), Some(74), "team-004", "2024-01-17T00:00:00Z")
  ]

  const DayMillis := 86400000
  const WeekMillis := 604800000

  /** The seeded matches; their dates are now, tomorrow, yesterday and a week ahead. */
  function InitialMatches(clock: Clock): seq<Match>
  {
    [ Match("match-001", "tournament-001", "team-001", "team-002", clock.iso(clock.now),
        "Wankhede Stadium, Mumbai", Some(20), Some("live"), "2024-03-22T00:00:00Z"),
      Match("match-002", "tournament-001", "team-003", "team-004", clock.iso(clock.now + DayMillis),
        "M. Chinnaswamy Stadium, Bangalore", Some(20), Some("upcoming"), "2024-03-22T00:00:00Z"),
      Match("match-003", "tournament-001", "team-002", "team-004", clock.iso(clock.now - DayMillis),
        "MA Chidambaram Stadium, Chennai", Some(20), Some("completed"), "2024-03-20T00:00:00Z"),
      Match("match-004", "tournament-002", "team-005", "team-006", clock.iso(clock.now + WeekMillis),
        "Nassau County Stadium, New York", Some(50), Some("upcoming"), "2024-01-25T00:00:00Z") ]
  }

  /** The seeded score records, one per seeded match; 15.2 overs is 152 tenths. */
  function InitialScores(clock: Clock): seq<MatchScore>
  {
    var stamp := clock.iso(clock.now);
    [ MatchScore("score-001", "match-001", 145, 3, 152, 0, 0, 0, Some("team-001"), [], stamp),
      MatchScore("score-002", "match-002", 0, 0, 0, 0, 0, 0, None, [], stamp),
      MatchScore("score-003", "match-003", 178, 6, 200, 165, 8, 200, None, [], stamp),
      MatchScore("score-004", "match-004", 0, 0, 0, 0, 0, 0, None, [], stamp) ]
  }

  const InitialPaymentSettings := PaymentSettings(20, 30, 500, 365, "")

  /** Seeded match ids, in order. */
  lemma SeedMatchIds(clock: Clock)
    ensures |InitialMatches(clock)| == 4
    ensures InitialMatches(clock)[0].id == "match-001" && InitialMatches(clock)[1].id == "match-002"
    ensures InitialMatches(clock)[2].id == "match-003" && InitialMatches(clock)[3].id == "match-004"
  {
  }

  /** The four seeded match ids differ (in their last character). */
  lemma SeedIdsDistinct()
    ensures "match-001" != "match-002" && "match-001" != "match-003" && "match-001" != "match-004"
    ensures "match-002" != "match-003" && "match-002" != "match-004" && "match-003" != "match-004"
  {
    assert "match-001"[8] == '1' && "match-002"[8] == '2' && "match-003"[8] == '3' && "match-004"[8] == '4';
  }

  /** Counting the seeded score records of one match, one record at a time. */
  lemma SeedScoreCount(clock: Clock, id: string)
    ensures Tables.Count(InitialScores(clock), (s: MatchScore) => s.matchId == id)
         == (if id == "match-001" then 1 else 0) + (if id == "match-002" then 1 else 0)
          + (if id == "match-003" then 1 else 0) + (if id == "match-004" then 1 else 0)
  {
    var ss := InitialScores(clock);
    var p := (s: MatchScore) => s.matchId == id;
    assert ss[1..][1..] == ss[2..] && ss[2..][1..] == ss[3..] && ss[3..][1..] == [];
    assert Tables.Count(ss[3..], p) == if p(ss[3]) then 1 else 0;
    assert Tables.Count(ss[2..], p) == (if p(ss[2]) then 1 else 0) + Tables.Count(ss[3..], p);
    assert Tables.Count(ss[1..], p) == (if p(ss[1]) then 1 else 0) + Tables.Count(ss[2..], p);
  }

  /** Each seeded match is counted once among the seeded score records. */
  lemma SeedMatchesScoredOnce(clock: Clock)
    ensures forall m :: m in InitialMatches(clock) ==>
      Tables.Count(InitialScores(clock), (s: MatchScore) => s.matchId == m.id) == 1
  {
    var ms := InitialMatches(clock);
    SeedIdsDistinct();
    forall m | m in ms
      ensures Tables.Count(InitialScores(clock), (s: MatchScore) => s.matchId == m.id) == 1
    {
      assert m == ms[0] || m == ms[1] || m == ms[2] || m == ms[3];
      SeedScoreCount(clock, m.id);
    }
  }

  /** Each seeded score record names a seeded match. */
  lemma SeedScoresNameSeedMatches(clock: Clock)
    ensures forall s :: s in InitialScores(clock) ==> exists m :: m in InitialMatches(clock) && m.id == s.matchId
  {
    var ms, ss := InitialMatches(clock), InitialScores(clock);
    forall s | s in ss
      ensures exists m :: m in ms && m.id == s.matchId
    {
      assert s == ss[0] || s == ss[1] || s == ss[2] || s == ss[3];
      if s == ss[0] { assert ms[0] in ms && ms[0].id == s.matchId; }
      else if s == ss[1] { assert ms[1] in ms && ms[1].id == s.matchId; }
      else if s == ss[2] { assert ms[2] in ms && ms[2].id == s.matchId; }
      else { assert ms[3] in ms && ms[3].id == s.matchId; }
    }
  }

  /**
   * Every seeded match has exactly one seeded score record, and every seeded
   * score record names a seeded match.
   */
  lemma SeedScoresMatchSeedMatches(clock: Clock)
    ensures forall m :: m in InitialMatches(clock) ==>
      Tables.Count(InitialScores(clock), (s: MatchScore) => s.matchId == m.id) == 1
    ensures forall s :: s in InitialScores(clock) ==>
      exists m :: m in InitialMatches(clock) && m.id == s.matchId
  {
    SeedMatchesScoredOnce(clock);
    SeedScoresNameSeedMatches(clock);
  }

  /** Seeded overs never show more than 5 balls in the current over. */
  lemma SeedOversWellFormed(clock: Clock)
    ensures forall s :: s in InitialScores(clock) ==> s.teamAOvers % 10 <= 5 && s.teamBOvers % 10 <= 5
  {
  }
}
