/** The create-tournament page's submit handler. */
module CreateTournament {
  import opened Wrappers
  import opened Records
  import opened Storage
  import Text
  import MockDataHooks

  /** The form's fields as typed; the overs select holds "20" or "50". */
  datatype TournamentForm = TournamentForm(
    name: string, description: string, venue: string, startDate: string, endDate: string, oversFormat: string)

  /** The tournament built for the signed-in user: upcoming, no logo, overs parsed from the select. */
  function NewTournament(f: TournamentForm, adminId: string, id: string, createdAt: string): (t: Tournament)
    ensures t.adminId == adminId && t.status == Some("upcoming") && t.logoUrl.None?
    ensures t.name == f.name && t.description == Some(f.description) && t.venue == Some(f.venue)
    ensures t.startDate == f.startDate && t.endDate == f.endDate
    ensures t.oversFormat == Text.ParseInt(f.oversFormat)
  {
    Tournament(id, f.name, Some(f.description), None, f.startDate, f.endDate, Some(f.venue),
               Text.ParseInt(f.oversFormat), Some("upcoming"), adminId, createdAt)
  }

  /** The two select options are stored as the integers 20 and 50. */
  lemma SelectOptionsParse(f: TournamentForm, adminId: string, id: string, createdAt: string)
    ensures f.oversFormat == "20" ==> NewTournament(f, adminId, id, createdAt).oversFormat == Some(20)
    ensures f.oversFormat == "50" ==> NewTournament(f, adminId, id, createdAt).oversFormat == Some(50)
  {
    ParsesTwoDigits("20", 20);
    ParsesTwoDigits("50", 50);
  }

  /** A two-digit option with no leading zero is read as its value. */
  lemma ParsesTwoDigits(t: string, v: nat)
    requires |t| == 2 && Text.IsDigit(t[0]) && Text.IsDigit(t[1])
    requires v == Text.DigitValue(t[0]) * 10 + Text.DigitValue(t[1])
    ensures Text.ParseInt(t) == Some(v)
  {
    Text.TrimStartNoSpace(t);
    Text.ParseUnsignedDigits(t);
    assert t[0] != '-' && t[0] != '+';
    assert t[..1][..0] == [];
    assert Text.DigitsValue(t[..1]) == Text.DigitValue(t[0]);
    assert Text.DigitsValue(t) == v;
  }

  /** `handleSubmit`: nothing without a signed-in user; otherwise exactly one tournament is appended. */
  method Submit(store: LocalStore, user: Option<User>, f: TournamentForm, id: string, now: string)
    returns (created: Option<Tournament>)
    modifies store
    ensures user.None? ==> created.None? && store.entries == old(store.entries)
    ensures user.Some? ==>
      created == Some(NewTournament(f, user.value.id, id, now))
      && store.entries == old(store.entries)[TournamentsKey := TournamentRows(old(store.Tournaments()) + [created.value])]
      && store.Tournaments() == old(store.Tournaments()) + [created.value]
  {
    if user.None? {
      return None;
    }
    var t := MockDataHooks.CreateTournament(store, NewTournament(f, user.value.id, id, now), id, now);
    created := Some(t);
  }
}
