/**
 * The ball-by-ball scoring engine of the live-scores hook.
 *
 * The pure part turns one delivery into the partial update the hook writes
 * (`BallUpdate`) and the score that results (`AfterBall`). All accounting goes
 * to team A's figures, whichever team is batting. `ScoreSession` is the hook's
 * state: the loaded score, the loading flag and the store it reads and rewrites.
 */
module RealtimeScores {
  import opened Wrappers
  import opened Records
  import opened Storage
  import Tables

  function CompletedOvers(overs: Tenths): nat { overs / 10 }

  function BallsInOver(overs: Tenths): nat { overs % 10 }

  /** Neither a wide nor a no-ball: the delivery counts towards the over. */
  predicate IsLegal(b: Ball) { !b.isWide && !b.isNoBall }

  /** The one-run penalty for a wide or a no-ball. */
  function Extras(b: Ball): nat { if b.isWide || b.isNoBall then 1 else 0 }

  /**
   * The overs figure after one delivery. A wide or no-ball leaves it alone; a
   * legal delivery adds a ball, and the sixth ball (five already bowled) rolls
   * over to the next completed over.
   */
  function NextOvers(overs: Tenths, b: Ball): (r: Tenths)
    ensures !IsLegal(b) ==> r == overs
    ensures IsLegal(b) && BallsInOver(overs) < 5 ==>
      CompletedOvers(r) == CompletedOvers(overs) && BallsInOver(r) == BallsInOver(overs) + 1
    ensures IsLegal(b) && BallsInOver(overs) >= 5 ==>
      CompletedOvers(r) == CompletedOvers(overs) + 1 && BallsInOver(r) == 0
  {
    if !IsLegal(b) then overs
    else if overs % 10 >= 5 then (overs / 10 + 1) * 10
    else (overs / 10) * 10 + (overs % 10 + 1)
  }

  /** Balls in the over never exceed 5 once they start at or below 5. */
  lemma OversStayWellFormed(overs: Tenths, b: Ball)
    requires BallsInOver(overs) <= 5
    ensures BallsInOver(NextOvers(overs, b)) <= 5
  {
  }

  /** Number of legal deliveries an overs figure stands for. */
  function LegalBalls(overs: Tenths): nat { CompletedOvers(overs) * 6 + BallsInOver(overs) }

  /** The overs figure that `n` legal deliveries produce. */
  function OversOf(n: nat): Tenths { (n / 6) * 10 + n % 6 }

  /** On well-formed figures, counting legal balls and printing them as overs are inverse. */
  lemma OversOfLegalBalls(overs: Tenths)
    requires BallsInOver(overs) <= 5
    ensures OversOf(LegalBalls(overs)) == overs
  {
    var c, b := overs / 10, overs % 10;
    assert LegalBalls(overs) == c * 6 + b;
    assert (c * 6 + b) / 6 == c && (c * 6 + b) % 6 == b;
  }

  lemma LegalBallsOfOvers(n: nat)
    ensures BallsInOver(OversOf(n)) <= 5
    ensures LegalBalls(OversOf(n)) == n
  {
    var q, r := n / 6, n % 6;
    assert (q * 10 + r) / 10 == q && (q * 10 + r) % 10 == r;
  }

  /** From a well-formed figure, each legal delivery adds exactly one legal ball and others add none. */
  lemma NextOversCountsLegalBalls(overs: Tenths, b: Ball)
    requires BallsInOver(overs) <= 5
    ensures LegalBalls(NextOvers(overs, b)) == LegalBalls(overs) + (if IsLegal(b) then 1 else 0)
  {
  }

  /** The position of a new delivery, read from the over figure before it. */
  function NewEntry(s: MatchScore, b: Ball, now: string): (e: BallEntry)
    ensures e.ball == b && e.timestamp == now
    ensures e.over == CompletedOvers(s.teamAOvers) + 1 && e.ballInOver == BallsInOver(s.teamAOvers) + 1
  {
    BallEntry(b, now, CompletedOvers(s.teamAOvers) + 1, BallsInOver(s.teamAOvers) + 1)
  }

  /** A partial score update (`Partial<MatchScore>`): `None` leaves a field as it is. */
  datatype ScorePatch = ScorePatch(
    id: Option<string>, matchId: Option<string>,
    teamARuns: Option<int>, teamAWickets: Option<int>, teamAOvers: Option<Tenths>,
    teamBRuns: Option<int>, teamBWickets: Option<int>, teamBOvers: Option<Tenths>,
    currentBattingTeamId: Option<Option<string>>, ballByBall: Option<seq<BallEntry>>)

  /** `{ ...s, ...updates, updated_at: now }`. */
  function Merge(s: MatchScore, u: ScorePatch, now: string): MatchScore
  {
    MatchScore(u.id.GetOr(s.id), u.matchId.GetOr(s.matchId),
      u.teamARuns.GetOr(s.teamARuns), u.teamAWickets.GetOr(s.teamAWickets), u.teamAOvers.GetOr(s.teamAOvers),
      u.teamBRuns.GetOr(s.teamBRuns), u.teamBWickets.GetOr(s.teamBWickets), u.teamBOvers.GetOr(s.teamBOvers),
      u.currentBattingTeamId.GetOr(s.currentBattingTeamId), u.ballByBall.GetOr(s.ballByBall), now)
  }

  /**
   * A merge keeps every field the update leaves out, identity included, takes
   * every field it carries and stamps the write time; merging the same update
   * twice is the same as merging it once.
   */
  lemma MergeSemantics(s: MatchScore, u: ScorePatch, now: string)
    ensures u.id.None? && u.matchId.None? ==> Merge(s, u, now).id == s.id && Merge(s, u, now).matchId == s.matchId
    ensures u.id.Some? ==> Merge(s, u, now).id == u.id.value
    ensures u.matchId.Some? ==> Merge(s, u, now).matchId == u.matchId.value
    ensures Merge(s, u, now).updatedAt == now
    ensures u.teamARuns.None? ==> Merge(s, u, now).teamARuns == s.teamARuns
    ensures u.teamARuns.Some? ==> Merge(s, u, now).teamARuns == u.teamARuns.value
    ensures u.teamBRuns.None? && u.teamBWickets.None? && u.teamBOvers.None? ==>
      Merge(s, u, now).teamBRuns == s.teamBRuns && Merge(s, u, now).teamBWickets == s.teamBWickets
      && Merge(s, u, now).teamBOvers == s.teamBOvers
    ensures u.currentBattingTeamId.None? ==> Merge(s, u, now).currentBattingTeamId == s.currentBattingTeamId
    ensures u.ballByBall.Some? ==> Merge(s, u, now).ballByBall == u.ballByBall.value
    ensures Merge(Merge(s, u, now), u, now) == Merge(s, u, now)
  {
  }

  /** The update `addBall` sends for one delivery, computed from the loaded score. */
  function BallUpdate(s: MatchScore, b: Ball, now: string): ScorePatch
  {
    ScorePatch(
      None, None,
      Some(s.teamARuns + b.runs + Extras(b)),
      Some(if b.isWicket then s.teamAWickets + 1 else s.teamAWickets),
      Some(NextOvers(s.teamAOvers, b)),
      None, None, None, None,
      Some(s.ballByBall + [NewEntry(s, b, now)]))
  }

  /** The score after one delivery. */
  function AfterBall(s: MatchScore, b: Ball, now: string): MatchScore
  {
    Merge(s, BallUpdate(s, b, now), now)
  }

  /**
   * Runs: a wide or no-ball adds its runs plus one and leaves the overs alone;
   * any other delivery adds exactly its runs and advances the overs.
   */
  lemma BallRuns(s: MatchScore, b: Ball, now: string)
    ensures !IsLegal(b) ==>
      AfterBall(s, b, now).teamARuns == s.teamARuns + b.runs + 1 && AfterBall(s, b, now).teamAOvers == s.teamAOvers
    ensures IsLegal(b) ==>
      AfterBall(s, b, now).teamARuns == s.teamARuns + b.runs && AfterBall(s, b, now).teamAOvers != s.teamAOvers
  {
  }

  /** Team A loses a wicket exactly when the delivery is a wicket, whatever its other flags. */
  lemma WicketIffFlag(s: MatchScore, b: Ball, now: string)
    ensures AfterBall(s, b, now).teamAWickets == s.teamAWickets + 1 <==> b.isWicket
    ensures !b.isWicket ==> AfterBall(s, b, now).teamAWickets == s.teamAWickets
  {
  }

  /**
   * The log grows by one entry at the end, earlier entries unchanged; the new
   * entry carries the delivery and its position taken from the pre-ball overs.
   */
  lemma BallLogAppends(s: MatchScore, b: Ball, now: string)
    ensures |AfterBall(s, b, now).ballByBall| == |s.ballByBall| + 1
    ensures AfterBall(s, b, now).ballByBall[..|s.ballByBall|] == s.ballByBall
    ensures AfterBall(s, b, now).ballByBall[|s.ballByBall|]
         == BallEntry(b, now, s.teamAOvers / 10 + 1, s.teamAOvers % 10 + 1)
  {
  }

  /** Only team A's figures, the log and the write time change; team B and the batting side do not. */
  lemma BallTouchesOnlyTeamA(s: MatchScore, b: Ball, now: string)
    ensures AfterBall(s, b, now).(teamARuns := s.teamARuns, teamAWickets := s.teamAWickets,
                                  teamAOvers := s.teamAOvers, ballByBall := s.ballByBall,
                                  updatedAt := s.updatedAt) == s
  {
  }

  /** A sequence of deliveries applied one after another. */
  function Innings(s: MatchScore, balls: seq<Ball>, now: string): MatchScore
    decreases |balls|
  {
    if balls == [] then s else Innings(AfterBall(s, balls[0], now), balls[1..], now)
  }

  function LegalCount(balls: seq<Ball>): nat
  {
    if balls == [] then 0 else (if IsLegal(balls[0]) then 1 else 0) + LegalCount(balls[1..])
  }

  function RunsOf(balls: seq<Ball>): int
  {
    if balls == [] then 0 else balls[0].runs + Extras(balls[0]) + RunsOf(balls[1..])
  }

  function WicketsOf(balls: seq<Ball>): nat
  {
    if balls == [] then 0 else (if balls[0].isWicket then 1 else 0) + WicketsOf(balls[1..])
  }

  /** When every delivery is legal, all of them count. */
  lemma {:induction false} AllLegalCount(balls: seq<Ball>)
    requires forall i :: 0 <= i < |balls| ==> IsLegal(balls[i])
    ensures LegalCount(balls) == |balls|
    decreases |balls|
  {
    if balls != [] {
      assert forall i :: 0 <= i < |balls[1..]| ==> balls[1..][i] == balls[i + 1];
      AllLegalCount(balls[1..]);
    }
  }

  /**
   * Totals over an innings from a well-formed overs figure: runs and wickets
   * are the sums over the deliveries, the overs figure stands for the old legal
   * balls plus the legal deliveries, the log gains one entry per delivery and
   * team B's figures are untouched.
   */
  lemma {:induction false} InningsTotals(s: MatchScore, balls: seq<Ball>, now: string)
    requires BallsInOver(s.teamAOvers) <= 5
    ensures BallsInOver(Innings(s, balls, now).teamAOvers) <= 5
    ensures LegalBalls(Innings(s, balls, now).teamAOvers) == LegalBalls(s.teamAOvers) + LegalCount(balls)
    ensures Innings(s, balls, now).teamARuns == s.teamARuns + RunsOf(balls)
    ensures Innings(s, balls, now).teamAWickets == s.teamAWickets + WicketsOf(balls)
    ensures |Innings(s, balls, now).ballByBall| == |s.ballByBall| + |balls|
    ensures Innings(s, balls, now).ballByBall[..|s.ballByBall|] == s.ballByBall
    ensures Innings(s, balls, now).teamBRuns == s.teamBRuns && Innings(s, balls, now).teamBWickets == s.teamBWickets
    ensures Innings(s, balls, now).teamBOvers == s.teamBOvers
    decreases |balls|
  {
    if balls != [] {
      var s1 := AfterBall(s, balls[0], now);
      OversStayWellFormed(s.teamAOvers, balls[0]);
      NextOversCountsLegalBalls(s.teamAOvers, balls[0]);
      BallLogAppends(s, balls[0], now);
      InningsTotals(s1, balls[1..], now);
      var log := Innings(s, balls, now).ballByBall;
      assert log[..|s1.ballByBall|] == s1.ballByBall;
      assert log[..|s.ballByBall|] == s1.ballByBall[..|s.ballByBall|];
    }
  }

  /** Six legal deliveries from the start of an over complete it: x.0 becomes (x+1).0. */
  lemma SixLegalBallsCompleteOver(s: MatchScore, balls: seq<Ball>, now: string)
    requires BallsInOver(s.teamAOvers) == 0
    requires |balls| == 6 && forall i :: 0 <= i < 6 ==> IsLegal(balls[i])
    ensures Innings(s, balls, now).teamAOvers == s.teamAOvers + 10
  {
    InningsTotals(s, balls, now);
    AllLegalCount(balls);
    var after := Innings(s, balls, now).teamAOvers;
    OversOfLegalBalls(after);
    OversOfLegalBalls(s.teamAOvers);
    assert LegalBalls(after) == LegalBalls(s.teamAOvers) + 6;
    assert OversOf(LegalBalls(s.teamAOvers) + 6) == OversOf(LegalBalls(s.teamAOvers)) + 10;
  }

  /** `scores.map(s => s.match_id === matchId ? { ...s, ...updates, updated_at } : s)`. */
  function MergeStored(scores: seq<MatchScore>, matchId: string, u: ScorePatch, now: string): seq<MatchScore>
  {
    Tables.MapWhere(scores, (s: MatchScore) => s.matchId == matchId, (s: MatchScore) => Merge(s, u, now))
  }

  /**
   * Rewriting the stored table keeps its length and order, merges the update into
   * every record of this match and leaves every other match's record unchanged.
   */
  lemma MergeStoredOnlyThisMatch(scores: seq<MatchScore>, matchId: string, u: ScorePatch, now: string)
    ensures |MergeStored(scores, matchId, u, now)| == |scores|
    ensures forall i :: 0 <= i < |scores| && scores[i].matchId != matchId ==>
      MergeStored(scores, matchId, u, now)[i] == scores[i]
    ensures forall i :: 0 <= i < |scores| && scores[i].matchId == matchId ==>
      MergeStored(scores, matchId, u, now)[i] == Merge(scores[i], u, now)
  {
    forall i | 0 <= i < |scores| {
      Tables.MapWhereAt(scores, (s: MatchScore) => s.matchId == matchId, (s: MatchScore) => Merge(s, u, now), i);
    }
  }

  /**
   * `fetchScore`'s outcome on the stored table: the first record of the match
   * if there is one (table unchanged), otherwise a fresh all-zero record
   * appended to the table.
   */
  function LoadOrCreate(scores: seq<MatchScore>, matchId: string, newId: string, now: string)
    : (r: (MatchScore, seq<MatchScore>))
    ensures r.0.matchId == matchId
    ensures (exists i :: 0 <= i < |scores| && scores[i].matchId == matchId) ==> r.1 == scores && r.0 in scores
    ensures (exists i :: 0 <= i < |scores| && scores[i].matchId == matchId) ==>
      exists k :: FirstScoreOfMatch(scores, matchId, k) && r.0 == scores[k]
    ensures (forall i :: 0 <= i < |scores| ==> scores[i].matchId != matchId) ==>
      r.1 == scores + [r.0] && r.0 == ZeroScore(newId, matchId, now)
  {
    var p := (s: MatchScore) => s.matchId == matchId;
    var k := Tables.FirstIndex(scores, p);
    assert k < |scores| ==> FirstScoreOfMatch(scores, matchId, k);
    match Tables.Find(scores, p)
    case Some(found) => (found, scores)
    case None => var z := ZeroScore(newId, matchId, now); (z, scores + [z])
  }

  /** The live-scores hook for one match. */
  class ScoreSession {
    const matchId: Option<string>
    const store: LocalStore
    var score: Option<MatchScore>
    var loading: bool

    /** The hook was given a match id (`matchId` is truthy). */
    predicate HasMatch() { matchId.Some? && matchId.value != "" }

    constructor (matchId: Option<string>, store: LocalStore)
      ensures this.matchId == matchId && this.store == store
      ensures score == None && loading
    {
      this.matchId := matchId;
      this.store := store;
      score := None;
      loading := true;
    }

    /** The mount effect: with no match id only loading ends; otherwise load or create the record. */
    method FetchScore(newScoreId: string, now: string)
      modifies this, store
      ensures !loading
      ensures !HasMatch() ==> score == old(score) && store.entries == old(store.entries)
      ensures HasMatch() ==>
        var r := LoadOrCreate(old(store.Scores()), matchId.value, newScoreId, now);
        score == Some(r.0)
        && store.entries == if r.1 == old(store.Scores()) then old(store.entries)
                            else old(store.entries)[ScoresKey := ScoreRows(r.1)]
    {
      if HasMatch() {
        var scores := store.Scores();
        var r := LoadOrCreate(scores, matchId.value, newScoreId, now);
        if r.1 != scores {
          store.SetStoredData(ScoresKey, ScoreRows(r.1));
        }
        score := Some(r.0);
      }
      loading := false;
    }

    /**
     * `updateScore`: a no-op without a match id or a loaded score; otherwise the
     * update is merged into the loaded score and into every stored record of
     * this match.
     */
    method UpdateScore(u: ScorePatch, now: string)
      modifies this, store
      ensures loading == old(loading)
      ensures !HasMatch() || old(score).None? ==> score == old(score) && store.entries == old(store.entries)
      ensures HasMatch() && old(score).Some? ==>
        score == Some(Merge(old(score).value, u, now))
        && store.entries == old(store.entries)[ScoresKey := ScoreRows(MergeStored(old(store.Scores()), matchId.value, u, now))]
    {
      if !HasMatch() || score.None? {
        return;
      }
      score := Some(Merge(score.value, u, now));
      var scores := store.Scores();
      store.SetStoredData(ScoresKey, ScoreRows(MergeStored(scores, matchId.value, u, now)));
    }

    /** `addBall`: a no-op without a match id or a loaded score; otherwise one delivery is scored. */
    method AddBall(b: Ball, now: string)
      modifies this, store
      ensures loading == old(loading)
      ensures !HasMatch() || old(score).None? ==> score == old(score) && store.entries == old(store.entries)
      ensures HasMatch() && old(score).Some? ==>
        score == Some(AfterBall(old(score).value, b, now))
        && store.entries == old(store.entries)[ScoresKey := ScoreRows(
             MergeStored(old(store.Scores()), matchId.value, BallUpdate(old(score).value, b, now), now))]
    {
      if !HasMatch() || score.None? {
        return;
      }
      UpdateScore(BallUpdate(score.value, b, now), now);
    }
  }
}
