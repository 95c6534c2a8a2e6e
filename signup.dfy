/**
 * The sign-up page's live password checklist, the gating of its submit button
 * and the redirect of a visitor who is already signed in.
 */
module Signup {
  import opened Wrappers
  import opened Records
  import Text
  import Validations

  datatype Requirement = Requirement(caption: string, met: bool)

  /** The checklist shown under the password field, in display order. */
  function PasswordRequirements(p: string): (r: seq<Requirement>)
    ensures |r| == 3
    ensures r[0].met <==> Text.JsLength(p) >= 8
    ensures r[1].met <==> exists i :: 0 <= i < |p| && Text.IsUpper(p[i])
    ensures r[2].met <==> exists i :: 0 <= i < |p| && Text.IsDigit(p[i])
  {
    [Requirement("At least 8 characters", Text.JsLength(p) >= 8),
     Requirement("One uppercase letter", Validations.HasUpper(p)),
     Requirement("One number", Validations.HasDigit(p))]
  }

  /** `passwordRequirements.every(req => req.met)`. */
  predicate AllRequirementsMet(p: string)
  {
    forall i :: 0 <= i < |PasswordRequirements(p)| ==> PasswordRequirements(p)[i].met
  }

  /** The checklist accepts exactly the passwords the password rule accepts. */
  lemma ChecklistMatchesPasswordRule(p: string)
    ensures AllRequirementsMet(p) <==> Validations.PasswordIssues(p) == []
  {
    var r := PasswordRequirements(p);
    if Validations.PasswordOk(p) {
      assert r[0].met && r[1].met && r[2].met;
    } else {
      assert !(r[0].met && r[1].met && r[2].met);
    }
  }

  /** The submit button is disabled while a request runs or while any requirement is unmet. */
  function SubmitDisabled(loading: bool, p: string): (d: bool)
    ensures !d <==> !loading && Validations.PasswordOk(p)
  {
    ChecklistMatchesPasswordRule(p);
    loading || !AllRequirementsMet(p)
  }

  /** Where the page sends a visitor: a signed-in user goes to the matches list. */
  function RedirectFor(user: Option<User>): (r: Option<string>)
    ensures r.Some? <==> user.Some?
    ensures r.Some? ==> r.value == "/matches"
  {
    if user.Some? then Some("/matches") else None
  }
}
