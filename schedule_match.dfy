/**
 * Scheduling a match, in the two versions of the page: the local one appends
 * the match and its zeroed score to the store; the remote one inserts the
 * match and, only once that insert has succeeded, its score row. Both share
 * the form, the guard chain, the date-time string and the team-B option list.
 */
module ScheduleMatch {
  import opened Wrappers
  import opened Records
  import opened Storage
  import Tables
  import MockDataHooks

  /** The form's fields as the page holds them; an unfilled field is the empty string. */
  datatype MatchForm = MatchForm(
    tournamentId: string, teamAId: string, teamBId: string,
    matchDate: string, matchTime: string, venue: string, overs: int)

  datatype FormError = MissingField | SameTeams

  predicate AllRequiredFilled(f: MatchForm)
  {
    f.tournamentId != "" && f.teamAId != "" && f.teamBId != "" && f.matchDate != "" && f.venue != ""
  }

  /** The two checks, in order: every required field, then two different teams. */
  function Guard(f: MatchForm): (r: Option<FormError>)
    ensures r == Some(MissingField) <==> !AllRequiredFilled(f)
    ensures r == Some(SameTeams) <==> AllRequiredFilled(f) && f.teamAId == f.teamBId
    ensures r == None <==> AllRequiredFilled(f) && f.teamAId != f.teamBId
  {
    if !AllRequiredFilled(f) then Some(MissingField)
    else if f.teamAId == f.teamBId then Some(SameTeams)
    else None
  }

  /** The messages of the local page. */
  function LocalMessage(e: FormError): string
  {
    match e
    case MissingField => "Please fill all required fields"
    case SameTeams => "Select different teams"
  }

  /** The messages of the remote page. */
  function RemoteMessage(e: FormError): string
  {
    match e
    case MissingField => "Please fill in all required fields"
    case SameTeams => "Please select different teams"
  }

  /** The stored date-time: `date T time :00`, or midnight when no time is given. */
  function MatchDateTime(date: string, time: string): string
  {
    if time != "" then date + "T" + time + ":00" else date + "T00:00:00"
  }

  /**
   * The date-time always starts with the date and "T" and ends in ":00"; an
   * empty time gives the same string as the time "00:00".
   */
  lemma MatchDateTimeShape(date: string, time: string)
    ensures MatchDateTime(date, time)[..|date| + 1] == date + "T"
    ensures MatchDateTime(date, time)[|MatchDateTime(date, time)| - 3..] == ":00"
    ensures time != "" ==> MatchDateTime(date, time)[|date| + 1..|date| + 1 + |time|] == time
    ensures MatchDateTime(date, "") == MatchDateTime(date, "00:00")
    ensures |MatchDateTime(date, time)| == |date| + 4 + (if time == "" then 5 else |time|)
  {
  }

  /** The team-B options: every listed team except the one chosen as team A, in order. */
  function TeamBOptions(teams: seq<Team>, teamAId: string): (r: seq<Team>)
    ensures forall i :: 0 <= i < |r| ==> r[i].id != teamAId && r[i] in teams
    ensures forall i :: 0 <= i < |teams| && teams[i].id != teamAId ==> teams[i] in r
    ensures Tables.IsSubsequence(r, teams)
  {
    Tables.FilterIsSubsequence(teams, (t: Team) => t.id != teamAId);
    Tables.Filter(teams, (t: Team) => t.id != teamAId)
  }

  /** The local page's tournament list: the signed-in admin's tournaments. */
  function AdminTournaments(all: seq<Tournament>, userId: string): (r: seq<Tournament>)
    ensures forall i :: 0 <= i < |r| ==> r[i] in all && r[i].adminId == userId
    ensures forall i :: 0 <= i < |all| && all[i].adminId == userId ==> all[i] in r
  {
    Tables.Filter(all, (t: Tournament) => t.adminId == userId)
  }

  /** The teams listed once a tournament is chosen: exactly that tournament's teams. */
  function TournamentTeams(all: seq<Team>, tournamentId: string): (r: seq<Team>)
    ensures forall i :: 0 <= i < |r| ==> r[i] in all && r[i].tournamentId == tournamentId
    ensures forall i :: 0 <= i < |all| && all[i].tournamentId == tournamentId ==> all[i] in r
  {
    Tables.Filter(all, (t: Team) => t.tournamentId == tournamentId)
  }

  /**
   * The overs on the form once a tournament is chosen: its format when the
   * listed tournament has a non-zero one, otherwise the current value.
   */
  function OversAfterChoice(tournaments: seq<Tournament>, tournamentId: string, current: int): (r: int)
    ensures (forall i :: 0 <= i < |tournaments| ==> tournaments[i].id != tournamentId) ==> r == current
    ensures r != current ==> exists i :: 0 <= i < |tournaments| && tournaments[i].id == tournamentId
                                        && tournaments[i].oversFormat == Some(r) && r != 0
    ensures var k := Tables.FirstIndex(tournaments, (t: Tournament) => t.id == tournamentId);
      if k < |tournaments| && tournaments[k].oversFormat.Some? && tournaments[k].oversFormat.value != 0
      then r == tournaments[k].oversFormat.value
      else r == current
  {
    match Tables.Find(tournaments, (t: Tournament) => t.id == tournamentId)
    case Some(t) => if t.oversFormat.Some? && t.oversFormat.value != 0 then t.oversFormat.value else current
    case None => current
  }

  datatype Outcome = Scheduled(m: Match) | Rejected(message: string)

  /** The match record the local page stores for a form that passed the guard. */
  function NewMatch(f: MatchForm, id: string, createdAt: string): (m: Match)
    ensures m.status == Some("upcoming") && m.id == id
    ensures m.tournamentId == f.tournamentId && m.teamAId == f.teamAId && m.teamBId == f.teamBId
    ensures m.matchDate == MatchDateTime(f.matchDate, f.matchTime) && m.venue == f.venue && m.overs == Some(f.overs)
  {
    Match(id, f.tournamentId, f.teamAId, f.teamBId, MatchDateTime(f.matchDate, f.matchTime), f.venue,
          Some(f.overs), Some("upcoming"), createdAt)
  }

  /**
   * The local `handleScheduleMatch`: a failed guard stores nothing and reports
   * its message; otherwise one upcoming match is appended, then one zeroed
   * score record for it.
   */
  method ScheduleLocal(store: LocalStore, f: MatchForm, matchId: string, scoreId: string, now: string)
    returns (r: Outcome)
    modifies store
    ensures Guard(f).Some? ==> r == Rejected(LocalMessage(Guard(f).value)) && store.entries == old(store.entries)
    ensures Guard(f).None? ==>
      r == Scheduled(NewMatch(f, matchId, now))
      && store.Matches() == old(store.Matches()) + [NewMatch(f, matchId, now)]
      && store.Scores() == old(store.Scores()) + [ZeroScore(scoreId, matchId, now)]
      && store.entries == old(store.entries)
           [MatchesKey := MatchRows(old(store.Matches()) + [NewMatch(f, matchId, now)])]
           [ScoresKey := ScoreRows(old(store.Scores()) + [ZeroScore(scoreId, matchId, now)])]
  {
    var g := Guard(f);
    if g.Some? {
      return Rejected(LocalMessage(g.value));
    }
    var m := MockDataHooks.CreateMatch(store, NewMatch(f, matchId, now), matchId, scoreId, now);
    r := Scheduled(m);
  }

  /** The row the remote page inserts into `matches`. */
  datatype MatchRow = MatchRow(
    tournamentId: string, teamAId: string, teamBId: string, matchDate: string,
    venue: string, overs: int, status: string)

  datatype Insert = InsertMatch(row: MatchRow) | InsertScore(matchId: string)

  /** What the remote page did: the inserts in order, the message shown and whether it navigated away. */
  datatype RemoteRun = RemoteRun(inserts: seq<Insert>, message: string, navigated: bool)

  function RowOf(f: MatchForm): MatchRow
  {
    MatchRow(f.tournamentId, f.teamAId, f.teamBId, MatchDateTime(f.matchDate, f.matchTime), f.venue, f.overs, "upcoming")
  }

  /**
   * The remote `handleScheduleMatch`, given the match insert's result (the new
   * row's id, or `None` for an error).
   */
  function ScheduleRemote(f: MatchForm, inserted: Option<string>): RemoteRun
  {
    match Guard(f)
    case Some(e) => RemoteRun([], RemoteMessage(e), false)
    case None =>
      match inserted
      case None => RemoteRun([InsertMatch(RowOf(f))], "Failed to schedule match", false)
      case Some(id) => RemoteRun([InsertMatch(RowOf(f)), InsertScore(id)], "Match scheduled successfully", true)
  }

  /**
   * The remote page inserts nothing when the guard fails; otherwise its first
   * insert is an upcoming match built from the form; the score row comes second
   * and only when the match insert succeeded, referencing the returned id; and
   * it navigates away exactly in that case.
   */
  lemma RemoteInsertOrder(f: MatchForm, inserted: Option<string>)
    ensures Guard(f).Some? <==> ScheduleRemote(f, inserted).inserts == []
    ensures Guard(f).None? ==>
      ScheduleRemote(f, inserted).inserts[0] == InsertMatch(RowOf(f)) && RowOf(f).status == "upcoming"
    ensures |ScheduleRemote(f, inserted).inserts| == 2 <==> Guard(f).None? && inserted.Some?
    ensures |ScheduleRemote(f, inserted).inserts| == 2 ==>
      ScheduleRemote(f, inserted).inserts[1] == InsertScore(inserted.value)
    ensures ScheduleRemote(f, inserted).navigated <==> |ScheduleRemote(f, inserted).inserts| == 2
    ensures forall i :: 0 <= i < |ScheduleRemote(f, inserted).inserts| ==>
      (ScheduleRemote(f, inserted).inserts[i].InsertScore? <==> i == 1)
  {
  }
}
