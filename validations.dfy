/**
 * The form rules. Each schema reports every failing check, field by field in
 * the schema's order, as a list of messages; a form is accepted exactly when
 * the list is empty. The e-mail check belongs to the validation library and
 * enters as the list of issues it reports.
 */
module Validations {
  import opened Wrappers
  import Text

  /** `/[A-Z]/.test(s)`. */
  predicate HasUpper(s: string) { exists i :: 0 <= i < |s| && Text.IsUpper(s[i]) }

  /** `/[0-9]/.test(s)`. */
  predicate HasDigit(s: string) { exists i :: 0 <= i < |s| && Text.IsDigit(s[i]) }

  /** The password rule: at least 8 UTF-16 code units, an uppercase letter A-Z and a digit 0-9. */
  predicate PasswordOk(p: string) { Text.JsLength(p) >= 8 && HasUpper(p) && HasDigit(p) }

  const PasswordTooShort := "Password must be at least 8 characters"
  const PasswordNoUpper := "Password must contain at least one uppercase letter"
  const PasswordNoDigit := "Password must contain at least one number"

  /** One check of a schema: its message when it fails, nothing when it holds. */
  function Check(ok: bool, message: string): (r: seq<string>)
    ensures r == [] <==> ok
    ensures message in r <==> !ok
  {
    if ok then [] else [message]
  }

  /** `passwordSchema`: every failing check's message. */
  function PasswordIssues(p: string): (r: seq<string>)
    ensures r == [] <==> PasswordOk(p)
    ensures PasswordTooShort in r <==> Text.JsLength(p) < 8
    ensures PasswordNoUpper in r <==> !HasUpper(p)
    ensures PasswordNoDigit in r <==> !HasDigit(p)
  {
    Check(Text.JsLength(p) >= 8, PasswordTooShort) + Check(HasUpper(p), PasswordNoUpper) + Check(HasDigit(p), PasswordNoDigit)
  }

  /** `loginSchema`: the e-mail's issues, then a non-empty password. */
  function LoginIssues(emailIssues: seq<string>, password: string): (r: seq<string>)
    ensures r == [] <==> emailIssues == [] && password != ""
  {
    emailIssues + Check(Text.JsLength(password) >= 1, "Password is required")
  }

  /** `signupSchema`: a name of at least 2 characters, the e-mail's issues, the password rule. */
  function SignupIssues(name: string, emailIssues: seq<string>, password: string): (r: seq<string>)
    ensures r == [] <==> Text.JsLength(name) >= 2 && emailIssues == [] && PasswordOk(password)
  {
    Check(Text.JsLength(name) >= 2, "Name must be at least 2 characters") + emailIssues + PasswordIssues(password)
  }

  datatype TournamentForm = TournamentForm(
    name: string, description: Option<string>, venue: string, startDate: string, endDate: string, oversFormat: int)

  predicate TournamentOk(f: TournamentForm)
  {
    Text.JsLength(f.name) >= 2 && Text.JsLength(f.venue) >= 2 && Text.JsLength(f.startDate) >= 1 && Text.JsLength(f.endDate) >= 1 && 1 <= f.oversFormat <= 50
  }

  /** `tournamentSchema`: name and venue of at least 2, both dates given, overs between 1 and 50. */
  function TournamentIssues(f: TournamentForm): (r: seq<string>)
    ensures r == [] <==> TournamentOk(f)
    ensures |r| <= 6
  {
    Check(Text.JsLength(f.name) >= 2, "Tournament name must be at least 2 characters")
    + Check(Text.JsLength(f.venue) >= 2, "Venue must be at least 2 characters")
    + Check(Text.JsLength(f.startDate) >= 1, "Start date is required")
    + Check(Text.JsLength(f.endDate) >= 1, "End date is required")
    + Check(f.oversFormat >= 1, "Overs must be at least 1")
    + Check(f.oversFormat <= 50, "Overs cannot exceed 50")
  }

  datatype TeamForm = TeamForm(name: string, shortName: string, captain: Option<string>, coach: Option<string>)

  /** `teamSchema`: name of at least 2, short name of 1 to 5 characters. */
  function TeamIssues(f: TeamForm): (r: seq<string>)
    ensures r == [] <==> Text.JsLength(f.name) >= 2 && 1 <= Text.JsLength(f.shortName) <= 5
  {
    Check(Text.JsLength(f.name) >= 2, "Team name must be at least 2 characters")
    + Check(Text.JsLength(f.shortName) >= 1, "Short name is required")
    + Check(Text.JsLength(f.shortName) <= 5, "Short name must be 5 characters or less")
  }

  /** Lengths are UTF-16 lengths: three emoji are a six-unit short name, which the rule refuses. */
  lemma ShortNameCountsCodeUnits()
    ensures |"\U{1F600}\U{1F600}\U{1F600}"| == 3
    ensures TeamIssues(TeamForm("ab", "\U{1F600}\U{1F600}\U{1F600}", None, None)) != []
  {
    assert Text.JsLength("\U{1F600}\U{1F600}\U{1F600}") == 6;
  }

  datatype PlayerForm = PlayerForm(
    name: string, jerseyNumber: Option<int>, role: Option<string>,
    battingStyle: Option<string>, bowlingStyle: Option<string>)

  /** `playerSchema`: name of at least 2; a jersey number, when given, between 0 and 999. */
  function PlayerIssues(f: PlayerForm): (r: seq<string>)
    ensures r == [] <==> Text.JsLength(f.name) >= 2 && (f.jerseyNumber.None? || 0 <= f.jerseyNumber.value <= 999)
  {
    Check(Text.JsLength(f.name) >= 2, "Player name must be at least 2 characters")
    + (match f.jerseyNumber
       case None => []
       case Some(n) => Check(n >= 0, "Jersey number must be positive") + Check(n <= 999, "Jersey number too large"))
  }
}
