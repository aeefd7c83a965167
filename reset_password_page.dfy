/**
 * The set-new-password view: a live five-item checklist for the typed
 * password, a submit guard on that checklist, and one request carrying the
 * route's `token`. The server's answer is the `outcome` parameter; the
 * delayed redirect to /auth is recorded as a flag.
 */
module ResetPasswordPage {
  import opened Wrappers
  import opened PasswordPolicy
  import opened ApiOutcome
  import opened JsString

  /** The checklist `pwdCriteria`. */
  datatype Criteria = Criteria(length: bool, upper: bool, lower: bool, number: bool, special: bool)

  const NoneMet: Criteria := Criteria(false, false, false, false, false)

  /** The checklist's special class `[!@#$%^&*(),.?":{}|<>]`, which differs from the server's `[@$!%*?&]`. */
  predicate IsListedSpecial(c: char) { c in "!@#$%^&*(),.?\":{}|<>" }

  /** The five tests of `handlePasswordChange`, each a function of the new value only. */
  function CriteriaOf(val: string): Criteria
  {
    Criteria(Utf16Length(val) >= 8, Contains(val, IsUpper), Contains(val, IsLower), Contains(val, IsDigit), Contains(val, IsListedSpecial))
  }

  /** `Object.values(pwdCriteria).every(Boolean)` */
  predicate AllMet(c: Criteria)
  {
    c.length && c.upper && c.lower && c.number && c.special
  }

  const WeakPasswordError: string := "Please meet all password requirements."
  const FallbackError: string := "Failed to reset password."
  const SuccessMessage: string := "Password reset successfully!"

  /** The body posted to /api/auth/reset-password: `{ token, newPassword }`. */
  datatype ResetRequest = ResetRequest(token: string, newPassword: string)

  /** `if (token)`: a route token that is present and non-empty. */
  predicate HasToken(token: Option<string>) { token.Some? && token.value != "" }

  /** Every symbol of the server's class is on the checklist's list. */
  lemma ServerSymbolIsListed(c: char)
    requires IsSymbol(c)
    ensures IsListedSpecial(c)
  {
  }

  /** A password the server's regex accepts meets every item of the checklist. */
  lemma {:induction false} ServerStrongMeetsChecklist(s: string)
    requires RegexTest(s)
    ensures AllMet(CriteriaOf(s))
  {
    RegexTestIsStrong(s);
    var i :| 0 <= i < |s| && IsSymbol(s[i]);
    ServerSymbolIsListed(s[i]);
  }

  /** The converse fails: "Abcdef1#" meets the whole checklist and the server refuses it. */
  lemma ChecklistAdmitsServerRejected()
    ensures AllMet(CriteriaOf("Abcdef1#"))
    ensures !RegexTest("Abcdef1#")
  {
    var s := "Abcdef1#";
    assert IsUpper(s[0]) && IsLower(s[1]) && IsDigit(s[6]) && IsListedSpecial(s[7]);
    RefusesExamples();
  }

  /**
   * The length item counts UTF-16 units: "Aa1!" followed by two U+1F600
   * characters is six characters long, yet meets the length item and so the
   * whole checklist.
   */
  lemma SurrogatePairsCountTwice()
    ensures |"Aa1!\U{1F600}\U{1F600}"| == 6
    ensures AllMet(CriteriaOf("Aa1!\U{1F600}\U{1F600}"))
  {
    var s := "Aa1!\U{1F600}\U{1F600}";
    assert Utf16Length(s[..4]) == 4;
    assert s[..5] == s[..4] + [s[4]];
    assert IsUpper(s[0]) && IsLower(s[1]) && IsDigit(s[2]) && IsListedSpecial(s[3]);
  }

  class ResetView {
    /** The `:token` route parameter. */
    const token: Option<string>
    var newPassword: string
    var criteria: Criteria
    var loading: bool
    var message: string
    var error: string
    /** The requests posted so far, oldest first. */
    var sent: seq<ResetRequest>
    /** `setTimeout(() => navigate('/auth'), 3000)` has been scheduled. */
    var redirectScheduled: bool

    /** The checklist always describes the typed password. */
    ghost predicate Valid()
      reads this
    {
      criteria == CriteriaOf(newPassword)
    }

    /** The form is rendered while no success message is shown. */
    function FormShown(): bool
      reads this
    {
      message == ""
    }

    constructor (routeToken: Option<string>)
      ensures Valid()
      ensures token == routeToken && newPassword == "" && criteria == NoneMet
      ensures !loading && message == "" && error == "" && sent == [] && !redirectScheduled
    {
      token := routeToken;
      newPassword := "";
      criteria := NoneMet;
      loading := false;
      message := "";
      error := "";
      sent := [];
      redirectScheduled := false;
    }

    /** `handlePasswordChange`: the new value and the checklist recomputed from it alone. */
    method HandlePasswordChange(val: string)
      requires Valid()
      modifies this`newPassword, this`criteria
      ensures Valid()
      ensures newPassword == val && criteria == CriteriaOf(val)
    {
      newPassword := val;
      criteria := CriteriaOf(val);
    }

    /**
     * `handleSubmit`. An unmet checklist stops it before any request. Without
     * a token the handler throws an Error that has no `response`, so the
     * banner shows the fallback text, not the thrown "Invalid reset session.".
     * The busy flag is cleared on every path.
     */
    method HandleSubmit(outcome: Outcome)
      requires Valid()
      modifies this`loading, this`message, this`error, this`sent, this`redirectScheduled
      ensures Valid()
      ensures !loading
      ensures !AllMet(criteria) ==>
        error == WeakPasswordError && message == "" && sent == old(sent) && redirectScheduled == old(redirectScheduled)
      ensures AllMet(criteria) && !HasToken(token) ==>
        error == FallbackError && message == "" && sent == old(sent) && redirectScheduled == old(redirectScheduled)
      ensures AllMet(criteria) && HasToken(token) ==>
        sent == old(sent) + [ResetRequest(token.value, newPassword)]
      ensures AllMet(criteria) && HasToken(token) && outcome.Ok? ==>
        message == SuccessMessage && error == "" && redirectScheduled && !FormShown()
      ensures AllMet(criteria) && HasToken(token) && outcome.Err? ==>
        && error == ErrorText(outcome.message, FallbackError) && message == ""
        && redirectScheduled == old(redirectScheduled)
    {
      error := "";
      message := "";
      loading := true;
      if !AllMet(criteria) {
        error := WeakPasswordError;
        loading := false;
        return;
      }
      if HasToken(token) {
        sent := sent + [ResetRequest(token.value, newPassword)];
        match outcome {
          case Ok(_, _) =>
            message := SuccessMessage;
            redirectScheduled := true;
          case Err(m) =>
            error := ErrorText(m, FallbackError);
        }
      } else {
        // `throw new Error("Invalid reset session.")`: caught, and it has no `response`.
        error := ErrorText(None, FallbackError);
      }
      loading := false;
    }
  }

  /**
   * Without a route token, even a password meeting the checklist posts
   * nothing and shows the generic failure text.
   */
  method MissingTokenPostsNothing(password: string, outcome: Outcome)
    returns (sent: seq<ResetRequest>, error: string, message: string)
    requires AllMet(CriteriaOf(password))
    ensures sent == [] && error == FallbackError && message == ""
  {
    var v := new ResetView(None);
    v.HandlePasswordChange(password);
    v.HandleSubmit(outcome);
    sent, error, message := v.sent, v.error, v.message;
  }
}
