/**
 * The admin dashboard's recent matches: the matches of the admin's own
 * tournaments, newest first, at most five, each with its two teams and a
 * one-element score list.
 */
module Dashboard {
  import opened Wrappers
  import opened Records
  import Tables
  import Auth
  import MockDataHooks
  import MatchesList

  datatype RecentMatch = RecentMatch(m: Match, teamA: Option<Team>, teamB: Option<Team>, scores: seq<Option<MatchScore>>)

  /** Some tournament with the id `id` has the user as its admin. */
  predicate AdminsTournament(tournaments: seq<Tournament>, userId: string, id: string)
  {
    exists j :: 0 <= j < |tournaments| && tournaments[j].adminId == userId && tournaments[j].id == id
  }

  /** The matches in the user's own tournaments, in stored order. */
  function OwnMatches(tournaments: seq<Tournament>, matches: seq<Match>, userId: string): (r: seq<Match>)
    ensures forall i :: 0 <= i < |r| ==> r[i] in matches
    ensures forall i :: 0 <= i < |r| ==> AdminsTournament(tournaments, userId, r[i].tournamentId)
    ensures forall i :: 0 <= i < |matches| && AdminsTournament(tournaments, userId, matches[i].tournamentId) ==>
      matches[i] in r
    ensures Tables.IsSubsequence(r, matches)
  {
    var own := Tables.Filter(tournaments, (t: Tournament) => t.adminId == userId);
    var ids := MockDataHooks.TournamentIds(own);
    var r := Tables.Filter(matches, (m: Match) => m.tournamentId in ids);
    Tables.FilterIsSubsequence(matches, (m: Match) => m.tournamentId in ids);
    forall i | 0 <= i < |matches| && AdminsTournament(tournaments, userId, matches[i].tournamentId)
      ensures matches[i] in r
    {
      var j :| 0 <= j < |tournaments| && tournaments[j].adminId == userId && tournaments[j].id == matches[i].tournamentId;
      var k :| 0 <= k < |own| && own[k] == tournaments[j];
      assert ids[k] == own[k].id;
    }
    forall i | 0 <= i < |r|
      ensures AdminsTournament(tournaments, userId, r[i].tournamentId)
    {
      assert r[i] in matches && r[i].tournamentId in ids;
      var j :| 0 <= j < |ids| && ids[j] == r[i].tournamentId;
      assert own[j] in tournaments && own[j].adminId == userId;
      var k :| 0 <= k < |tournaments| && tournaments[k] == own[j];
    }
    r
  }

  function Recent(m: Match, teams: seq<Team>, scores: seq<MatchScore>): (x: RecentMatch)
    ensures x.m == m && |x.scores| == 1
    ensures x.teamA == MockDataHooks.TeamById(teams, m.teamAId) && x.teamB == MockDataHooks.TeamById(teams, m.teamBId)
    ensures x.scores[0] == MockDataHooks.ScoreByMatchId(scores, m.id)
  {
    RecentMatch(m, Tables.Find(teams, (t: Team) => t.id == m.teamAId), Tables.Find(teams, (t: Team) => t.id == m.teamBId),
                [Tables.Find(scores, (s: MatchScore) => s.matchId == m.id)])
  }

  /**
   * `fetchRecentMatches`, run only for a signed-in admin: the first five of the
   * own matches sorted newest first, each joined by id.
   */
  function RecentMatches(user: Option<User>, tournaments: seq<Tournament>, matches: seq<Match>, teams: seq<Team>,
                         scores: seq<MatchScore>, time: string -> int): (r: Option<seq<RecentMatch>>)
    ensures r.Some? <==> Auth.IsAdminOf(user)
    ensures r.Some? ==> |r.value| <= 5
    ensures r.Some? ==>
      var sorted := MatchesList.NewestFirst(OwnMatches(tournaments, matches, user.value.id), time);
      |r.value| == (if |sorted| <= 5 then |sorted| else 5)
      && forall i :: 0 <= i < |r.value| ==> r.value[i] == Recent(sorted[i], teams, scores)
  {
    if !Auth.IsAdminOf(user) then None
    else
      var sorted := MatchesList.NewestFirst(OwnMatches(tournaments, matches, user.value.id), time);
      var top := Tables.Take(sorted, 5);
      Some(seq(|top|, i requires 0 <= i < |top| => Recent(top[i], teams, scores)))
  }

  /**
   * The recent list is newest first, holds only the admin's matches, and no
   * own match left out is newer than the last one shown.
   */
  lemma RecentAreNewestOwn(user: Option<User>, tournaments: seq<Tournament>, matches: seq<Match>, teams: seq<Team>,
                           scores: seq<MatchScore>, time: string -> int)
    requires Auth.IsAdminOf(user)
    ensures var r := RecentMatches(user, tournaments, matches, teams, scores, time).value;
      (forall i, j :: 0 <= i < j < |r| ==> time(r[i].m.matchDate) >= time(r[j].m.matchDate))
      && (forall i :: 0 <= i < |r| ==> r[i].m in matches && AdminsTournament(tournaments, user.value.id, r[i].m.tournamentId))
    ensures var r := RecentMatches(user, tournaments, matches, teams, scores, time).value;
      var sorted := MatchesList.NewestFirst(OwnMatches(tournaments, matches, user.value.id), time);
      forall j :: |r| <= j < |sorted| ==> time(sorted[j].matchDate) <= time(r[|r| - 1].m.matchDate)
  {
    RecentNewestFirst(user, tournaments, matches, teams, scores, time);
    RecentOwn(user, tournaments, matches, teams, scores, time);
    RecentNoneNewerLeftOut(user, tournaments, matches, teams, scores, time);
  }

  /** The recent list is ordered newest first. */
  lemma RecentNewestFirst(user: Option<User>, tournaments: seq<Tournament>, matches: seq<Match>, teams: seq<Team>,
                          scores: seq<MatchScore>, time: string -> int)
    requires Auth.IsAdminOf(user)
    ensures var r := RecentMatches(user, tournaments, matches, teams, scores, time).value;
      forall i, j :: 0 <= i < j < |r| ==> time(r[i].m.matchDate) >= time(r[j].m.matchDate)
  {
    var own := OwnMatches(tournaments, matches, user.value.id);
    var sorted := MatchesList.NewestFirst(own, time);
    var r := RecentMatches(user, tournaments, matches, teams, scores, time).value;
    forall i, j | 0 <= i < j < |r|
      ensures time(r[i].m.matchDate) >= time(r[j].m.matchDate)
    {
      assert r[i].m == sorted[i] && r[j].m == sorted[j];
      MatchesList.NewestFirstAt(own, time, i, j);
    }
  }

  /** Every recent match is stored and belongs to one of the admin's tournaments. */
  lemma RecentOwn(user: Option<User>, tournaments: seq<Tournament>, matches: seq<Match>, teams: seq<Team>,
                  scores: seq<MatchScore>, time: string -> int)
    requires Auth.IsAdminOf(user)
    ensures var r := RecentMatches(user, tournaments, matches, teams, scores, time).value;
      forall i :: 0 <= i < |r| ==> r[i].m in matches && AdminsTournament(tournaments, user.value.id, r[i].m.tournamentId)
  {
    var own := OwnMatches(tournaments, matches, user.value.id);
    var sorted := MatchesList.NewestFirst(own, time);
    var r := RecentMatches(user, tournaments, matches, teams, scores, time).value;
    forall i | 0 <= i < |r|
      ensures r[i].m in matches && AdminsTournament(tournaments, user.value.id, r[i].m.tournamentId)
    {
      assert r[i].m == sorted[i];
      assert sorted[i] in multiset(own);
      var k :| 0 <= k < |own| && own[k] == sorted[i];
    }
  }

  /** No own match left off the list is newer than the last one shown. */
  lemma RecentNoneNewerLeftOut(user: Option<User>, tournaments: seq<Tournament>, matches: seq<Match>, teams: seq<Team>,
                               scores: seq<MatchScore>, time: string -> int)
    requires Auth.IsAdminOf(user)
    ensures var r := RecentMatches(user, tournaments, matches, teams, scores, time).value;
      var sorted := MatchesList.NewestFirst(OwnMatches(tournaments, matches, user.value.id), time);
      forall j :: |r| <= j < |sorted| ==> time(sorted[j].matchDate) <= time(r[|r| - 1].m.matchDate)
  {
    var own := OwnMatches(tournaments, matches, user.value.id);
    var sorted := MatchesList.NewestFirst(own, time);
    var r := RecentMatches(user, tournaments, matches, teams, scores, time).value;
    forall j | |r| <= j < |sorted|
      ensures time(sorted[j].matchDate) <= time(r[|r| - 1].m.matchDate)
    {
      assert r[|r| - 1].m == sorted[|r| - 1];
      MatchesList.NewestFirstAt(own, time, |r| - 1, j);
    }
  }
}
