/**
 * The scorer's page: each button scores one delivery through the live-scores
 * hook and records a label in the "this over" strip. The strip is display
 * state only: End Over clears it and Undo drops its last label, and neither
 * touches the score.
 */
module LiveScoring {
  import opened Wrappers
  import opened Records
  import opened Storage
  import opened RealtimeScores
  import Text
  import MockDataHooks

  /** The run values offered as buttons. */
  const RunButtons: seq<int> := [0, 1, 2, 3, 4, 6]

  /** Every offered run value is between 0 and 6 and five is not among them. */
  lemma RunButtonValues()
    ensures forall i :: 0 <= i < |RunButtons| ==> 0 <= RunButtons[i] <= 6 && RunButtons[i] != 5
    ensures 5 !in RunButtons && 6 in RunButtons
  {
  }

  /** The delivery a run button sends: those runs, every flag clear. */
  function RunBall(runs: int): (b: Ball)
    ensures IsLegal(b) && !b.isWicket && b.runs == runs
  {
    Ball(runs, false, false, false, false, false)
  }

  /** The delivery the wicket button sends. */
  function WicketBall(): (b: Ball)
    ensures IsLegal(b) && b.isWicket && b.runs == 0
  {
    Ball(0, true, false, false, false, false)
  }

  /** The delivery the Wide (`wide`) or No Ball (not `wide`) button sends: one run and exactly one flag. */
  function ExtraBall(wide: bool): (b: Ball)
    ensures b.runs == 1 && !b.isWicket && !IsLegal(b)
    ensures b.isWide == wide && b.isNoBall == !wide
  {
    Ball(1, false, wide, !wide, false, false)
  }

  function ExtraLabel(wide: bool): string { if wide then "WD" else "NB" }

  /** A Wide or No Ball button adds two runs to team A, no wicket, and leaves the overs unchanged. */
  lemma ExtraButtonAddsTwo(s: MatchScore, wide: bool, now: string)
    ensures AfterBall(s, ExtraBall(wide), now).teamARuns == s.teamARuns + 2
    ensures AfterBall(s, ExtraBall(wide), now).teamAOvers == s.teamAOvers
    ensures AfterBall(s, ExtraBall(wide), now).teamAWickets == s.teamAWickets
  {
  }

  /** A run button adds exactly its runs and one legal ball; the wicket button adds a wicket and a legal ball. */
  lemma RunAndWicketButtons(s: MatchScore, runs: int, now: string)
    requires BallsInOver(s.teamAOvers) <= 5
    ensures AfterBall(s, RunBall(runs), now).teamARuns == s.teamARuns + runs
    ensures AfterBall(s, RunBall(runs), now).teamAWickets == s.teamAWickets
    ensures LegalBalls(AfterBall(s, RunBall(runs), now).teamAOvers) == LegalBalls(s.teamAOvers) + 1
    ensures AfterBall(s, WicketBall(), now).teamAWickets == s.teamAWickets + 1
    ensures AfterBall(s, WicketBall(), now).teamARuns == s.teamARuns
    ensures LegalBalls(AfterBall(s, WicketBall(), now).teamAOvers) == LegalBalls(s.teamAOvers) + 1
  {
  }

  /** The match shown in the header, joined to its teams and tournament. */
  datatype MatchView = MatchView(m: Match, teamA: Option<Team>, teamB: Option<Team>, tournament: Option<Tournament>)

  /** `fetchMatch`: the first match with the id, each side looked up by id; nothing when no match has it. */
  function JoinMatch(matches: seq<Match>, teams: seq<Team>, tournaments: seq<Tournament>, matchId: string)
    : (r: Option<MatchView>)
    ensures r.None? <==> forall i :: 0 <= i < |matches| ==> matches[i].id != matchId
    ensures r.Some? ==> r.value.m in matches && r.value.m.id == matchId
    ensures r.Some? && r.value.teamA.Some? ==> r.value.teamA.value in teams && r.value.teamA.value.id == r.value.m.teamAId
    ensures r.Some? && r.value.teamA.None? ==> forall i :: 0 <= i < |teams| ==> teams[i].id != r.value.m.teamAId
    ensures r.Some? && r.value.teamB.Some? ==> r.value.teamB.value in teams && r.value.teamB.value.id == r.value.m.teamBId
    ensures r.Some? && r.value.teamB.None? ==> forall i :: 0 <= i < |teams| ==> teams[i].id != r.value.m.teamBId
    ensures r.Some? && r.value.tournament.Some? ==>
      r.value.tournament.value in tournaments && r.value.tournament.value.id == r.value.m.tournamentId
    ensures r.Some? && r.value.tournament.None? ==>
      forall i :: 0 <= i < |tournaments| ==> tournaments[i].id != r.value.m.tournamentId
    // every look-up is a `find`: the record it keeps is the first one with the key
    ensures r.Some? ==> exists k :: FirstMatchWithId(matches, matchId, k) && r.value.m == matches[k]
    ensures r.Some? && r.value.teamA.Some? ==>
      exists k :: FirstTeamWithId(teams, r.value.m.teamAId, k) && r.value.teamA.value == teams[k]
    ensures r.Some? && r.value.teamB.Some? ==>
      exists k :: FirstTeamWithId(teams, r.value.m.teamBId, k) && r.value.teamB.value == teams[k]
    ensures r.Some? && r.value.tournament.Some? ==>
      exists k :: FirstTournamentWithId(tournaments, r.value.m.tournamentId, k) && r.value.tournament.value == tournaments[k]
  {
    match MockDataHooks.MatchById(matches, matchId)
    case None => None
    case Some(m) =>
      Some(MatchView(m,
        MockDataHooks.TeamById(teams, m.teamAId),
        MockDataHooks.TeamById(teams, m.teamBId),
        TournamentById(tournaments, m.tournamentId)))
  }

  class LiveScoringPage {
    const session: ScoreSession
    var currentOver: seq<string>
    var shown: Option<MatchView>

    constructor (session: ScoreSession)
      ensures this.session == session && currentOver == [] && shown == None
    {
      this.session := session;
      currentOver := [];
      shown := None;
    }

    /** The stored match with the session's id, joined to its teams and tournament. */
    function Joined(): Option<MatchView>
      reads session.store
    {
      JoinMatch(session.store.Matches(), session.store.Teams(), session.store.Tournaments(),
                session.matchId.GetOr(""))
    }

    /** What the page shows once the mount effect has run: the joined match when there is one, else what it showed. */
    function Fetched(): Option<MatchView>
      reads this, session.store
    {
      if session.HasMatch() && Joined().Some? then Joined() else shown
    }

    /** The mount effect: with a match id, show the joined match when one is found. */
    method FetchMatch()
      modifies this
      ensures currentOver == old(currentOver)
      ensures shown == old(Fetched())
    {
      shown := Fetched();
    }

    /** `handleAddRun`: score the runs as a legal delivery, then show them in this over. */
    method AddRun(runs: int, now: string)
      modifies this, session, session.store
      ensures currentOver == old(currentOver) + [Text.IntToString(runs)]
      ensures shown == old(shown) && session.loading == old(session.loading)
      ensures !session.HasMatch() || old(session.score).None? ==>
        session.score == old(session.score) && session.store.entries == old(session.store.entries)
      ensures session.HasMatch() && old(session.score).Some? ==>
        session.score == Some(AfterBall(old(session.score).value, RunBall(runs), now))
        && session.store.entries == old(session.store.entries)[ScoresKey := ScoreRows(MergeStored(
             old(session.store.Scores()), session.matchId.value,
             BallUpdate(old(session.score).value, RunBall(runs), now), now))]
    {
      session.AddBall(RunBall(runs), now);
      currentOver := currentOver + [Text.IntToString(runs)];
    }

    /** `handleWicket`: score a wicket for no runs, then show "W". */
    method Wicket(now: string)
      modifies this, session, session.store
      ensures currentOver == old(currentOver) + ["W"]
      ensures shown == old(shown) && session.loading == old(session.loading)
      ensures !session.HasMatch() || old(session.score).None? ==>
        session.score == old(session.score) && session.store.entries == old(session.store.entries)
      ensures session.HasMatch() && old(session.score).Some? ==>
        session.score == Some(AfterBall(old(session.score).value, WicketBall(), now))
        && session.store.entries == old(session.store.entries)[ScoresKey := ScoreRows(MergeStored(
             old(session.store.Scores()), session.matchId.value,
             BallUpdate(old(session.score).value, WicketBall(), now), now))]
    {
      session.AddBall(WicketBall(), now);
      currentOver := currentOver + ["W"];
    }

    /** `handleExtra`: score a wide or no-ball worth one run, then show "WD" or "NB". */
    method Extra(wide: bool, now: string)
      modifies this, session, session.store
      ensures currentOver == old(currentOver) + [ExtraLabel(wide)]
      ensures shown == old(shown) && session.loading == old(session.loading)
      ensures !session.HasMatch() || old(session.score).None? ==>
        session.score == old(session.score) && session.store.entries == old(session.store.entries)
      ensures session.HasMatch() && old(session.score).Some? ==>
        session.score == Some(AfterBall(old(session.score).value, ExtraBall(wide), now))
        && session.store.entries == old(session.store.entries)[ScoresKey := ScoreRows(MergeStored(
             old(session.store.Scores()), session.matchId.value,
             BallUpdate(old(session.score).value, ExtraBall(wide), now), now))]
    {
      session.AddBall(ExtraBall(wide), now);
      currentOver := currentOver + [ExtraLabel(wide)];
    }

    /** `handleEndOver`: clear this over's strip; no score figure changes. */
    method EndOver()
      modifies this
      ensures currentOver == [] && shown == old(shown)
      ensures session.score == old(session.score) && session.store.entries == old(session.store.entries)
    {
      currentOver := [];
    }

    /** Undo: drop the last label of the strip (`slice(0, -1)`); an empty strip stays empty and the score is untouched. */
    method Undo()
      modifies this
      ensures old(currentOver) == [] ==> currentOver == []
      ensures old(currentOver) != [] ==> currentOver + [old(currentOver)[|old(currentOver)| - 1]] == old(currentOver)
      ensures shown == old(shown)
      ensures session.score == old(session.score) && session.store.entries == old(session.store.entries)
    {
      if currentOver != [] {
        currentOver := currentOver[..|currentOver| - 1];
      }
    }
  }
}
