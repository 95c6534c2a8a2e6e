/**
 * The matches list: every match newest first, joined to its teams, tournament
 * and score; a status tab filter; and the action offered on each card.
 */
module MatchesList {
  import opened Wrappers
  import opened Records
  import Tables
  import Auth
  import MockDataHooks

  /**
   * The sort key for "newest first": the comparator `time(b) - time(a)` orders
   * ascending by `-time`. `time` is `new Date(d).getTime()`.
   */
  function NewestKey(time: string -> int): Match -> int
  {
    (m: Match) => -time(m.matchDate)
  }

  /** `sort((a, b) => time(b) - time(a))`: the same matches, the later date first. */
  function NewestFirst(ms: seq<Match>, time: string -> int): (r: seq<Match>)
    ensures multiset(r) == multiset(ms) && |r| == |ms|
    ensures forall i, j :: 0 <= i < j < |r| ==> time(r[i].matchDate) >= time(r[j].matchDate)
  {
    var r := Tables.SortBy(ms, NewestKey(time));
    assert forall i, j :: 0 <= i < j < |r| ==> NewestKey(time)(r[i]) <= NewestKey(time)(r[j]);
    r
  }

  /** The ordering of `NewestFirst` at one pair of positions. */
  lemma NewestFirstAt(ms: seq<Match>, time: string -> int, i: int, j: int)
    requires 0 <= i < j < |NewestFirst(ms, time)|
    ensures time(NewestFirst(ms, time)[i].matchDate) >= time(NewestFirst(ms, time)[j].matchDate)
  {
  }

  /** A card: the match with its two teams, its tournament and its score, each found by id. */
  datatype MatchCard = MatchCard(m: Match, teamA: Option<Team>, teamB: Option<Team>,
                                 tournament: Option<Tournament>, score: Option<MatchScore>)

  function Card(m: Match, teams: seq<Team>, tournaments: seq<Tournament>, scores: seq<MatchScore>): (c: MatchCard)
    ensures c.m == m
    ensures c.teamA.Some? ==> c.teamA.value in teams && c.teamA.value.id == m.teamAId
    ensures c.teamA.None? <==> forall i :: 0 <= i < |teams| ==> teams[i].id != m.teamAId
    ensures c.teamB.Some? ==> c.teamB.value in teams && c.teamB.value.id == m.teamBId
    ensures c.teamB.None? <==> forall i :: 0 <= i < |teams| ==> teams[i].id != m.teamBId
    ensures c.tournament.Some? ==> c.tournament.value in tournaments && c.tournament.value.id == m.tournamentId
    ensures c.tournament.None? <==> forall i :: 0 <= i < |tournaments| ==> tournaments[i].id != m.tournamentId
    ensures c.score.Some? ==> c.score.value in scores && c.score.value.matchId == m.id
    ensures c.score.None? <==> forall i :: 0 <= i < |scores| ==> scores[i].matchId != m.id
    // each look-up is a `find`: the record it keeps is the first one with the key
    ensures c.teamA.Some? ==> exists k :: FirstTeamWithId(teams, m.teamAId, k) && c.teamA.value == teams[k]
    ensures c.teamB.Some? ==> exists k :: FirstTeamWithId(teams, m.teamBId, k) && c.teamB.value == teams[k]
    ensures c.tournament.Some? ==>
      exists k :: FirstTournamentWithId(tournaments, m.tournamentId, k) && c.tournament.value == tournaments[k]
    ensures c.score.Some? ==> exists k :: FirstScoreOfMatch(scores, m.id, k) && c.score.value == scores[k]
  {
    MatchCard(m,
      MockDataHooks.TeamById(teams, m.teamAId),
      MockDataHooks.TeamById(teams, m.teamBId),
      TournamentById(tournaments, m.tournamentId),
      MockDataHooks.ScoreByMatchId(scores, m.id))
  }

  /** `fetchMatches`: every match, newest first, each joined by id. */
  function MatchCards(ms: seq<Match>, teams: seq<Team>, tournaments: seq<Tournament>, scores: seq<MatchScore>,
                      time: string -> int): (r: seq<MatchCard>)
    ensures |r| == |ms|
    ensures forall i :: 0 <= i < |r| ==> r[i] == Card(NewestFirst(ms, time)[i], teams, tournaments, scores)
    ensures forall i, j :: 0 <= i < j < |r| ==> time(r[i].m.matchDate) >= time(r[j].m.matchDate)
  {
    var sorted := NewestFirst(ms, time);
    seq(|sorted|, i requires 0 <= i < |sorted| => Card(sorted[i], teams, tournaments, scores))
  }

  /** The tab filter: everything for "all", otherwise exactly the cards whose match has that status. */
  function TabFilter(cards: seq<MatchCard>, tab: string): (r: seq<MatchCard>)
    ensures tab == "all" ==> r == cards
    ensures tab != "all" ==> forall i :: 0 <= i < |r| ==> r[i] in cards && r[i].m.status == Some(tab)
    ensures tab != "all" ==> forall i :: 0 <= i < |cards| && cards[i].m.status == Some(tab) ==> cards[i] in r
  {
    if tab == "all" then cards else Tables.Filter(cards, (c: MatchCard) => c.m.status == Some(tab))
  }

  /** `canViewLive`: an admin, a superadmin or a subscriber. */
  function CanViewLive(user: Option<User>): (b: bool)
    ensures b <==> Auth.IsAdminOf(user) || Auth.HasSubscriptionOf(user)
  {
    Auth.IsAdminOf(user) || Auth.IsSuperAdminOf(user) || Auth.HasSubscriptionOf(user)
  }

  datatype Action = ScoreMatch(href: string) | WatchLive(href: string) | SubscribeToWatch | StartMatch(href: string)

  function LiveHref(matchId: string): string { "/live-scoring/" + matchId }

  /** The card's button: live matches by viewing right and role; upcoming matches only for admins. */
  function CardAction(m: Match, user: Option<User>): (r: Option<Action>)
    ensures m.status == Some("live") ==> r.Some?
    ensures m.status == Some("live") && r.value.SubscribeToWatch? <==> m.status == Some("live") && !CanViewLive(user)
    ensures r == Some(ScoreMatch(LiveHref(m.id))) <==> m.status == Some("live") && Auth.IsAdminOf(user)
    ensures m.status == Some("live") && CanViewLive(user) && !Auth.IsAdminOf(user) ==> r == Some(WatchLive(LiveHref(m.id)))
    ensures m.status == Some("live") && !CanViewLive(user) ==> r == Some(SubscribeToWatch)
    ensures r.Some? && r.value.StartMatch? <==> m.status == Some("upcoming") && Auth.IsAdminOf(user)
    ensures m.status == Some("upcoming") && Auth.IsAdminOf(user) ==> r == Some(StartMatch(LiveHref(m.id)))
    ensures m.status != Some("live") && m.status != Some("upcoming") ==> r.None?
  {
    if m.status == Some("live") then
      if CanViewLive(user) then
        (if Auth.IsAdminOf(user) then Some(ScoreMatch(LiveHref(m.id))) else Some(WatchLive(LiveHref(m.id))))
      else Some(SubscribeToWatch)
    else if m.status == Some("upcoming") && Auth.IsAdminOf(user) then Some(StartMatch(LiveHref(m.id)))
    else None
  }
}
