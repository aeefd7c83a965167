/**
 * The combined login / signup view: a mode (`isLogin`), a step (1 collects
 * details, 2 collects the emailed code), the form fields, an error banner and a
 * busy flag. Requests are recorded instead of sent; the server's answer is the
 * `outcome` parameter of `HandleSubmit`; localStorage and navigation are
 * recorded as state.
 */
module AuthPage {
  import opened Wrappers
  import opened PasswordPolicy
  import opened ApiOutcome

  datatype FormData = FormData(username: string, email: string, password: string, otp: string)

  const EmptyForm: FormData := FormData("", "", "", "")

  /**
   * The request bodies the view posts. Login sends `email` (the server reads
   * `identifier`); signup-init sends the whole form, whose `username` the
   * server does not read (it reads `fullName`), plus a fixed captcha token.
   */
  datatype ApiRequest =
    | LoginRequest(email: string, password: string)
    | LoginVerifyRequest(email: string, otp: string)
    | SignupInitRequest(form: FormData, captchaToken: string)
    | SignupVerifyRequest(email: string, otp: string)

  /** The inputs of the form, each bound to one field of `formData`. */
  datatype Field = UsernameField | EmailField | PasswordField | OtpField

  const WeakPasswordError: string :=
    "Password must contain: 1 Uppercase, 1 Lowercase, 1 Number, 1 Special Char & 8+ length."
  const FallbackError: string := "Something went wrong. Check console."

  /** `validatePassword`: the view's copy of the server's regex; it accepts exactly the strong passwords. */
  function ValidatePassword(pwd: string): (ok: bool)
    ensures ok <==> IsStrong(pwd)
  {
    RegexTestIsStrong(pwd);
    RegexTest(pwd)
  }

  /** The request `handleSubmit` posts for a mode and a step. */
  function RequestFor(isLogin: bool, step: int, form: FormData): ApiRequest
  {
    if isLogin then
      if step == 1 then LoginRequest(form.email, form.password) else LoginVerifyRequest(form.email, form.otp)
    else
      if step == 1 then SignupInitRequest(form, "valid_token") else SignupVerifyRequest(form.email, form.otp)
  }

  /** A signup at step 1 with a password the local check refuses is stopped before any request. */
  predicate Blocked(isLogin: bool, step: int, form: FormData)
  {
    !isLogin && step == 1 && !ValidatePassword(form.password)
  }

  function SetField(form: FormData, field: Field, value: string): FormData
  {
    match field
    case UsernameField => form.(username := value)
    case EmailField => form.(email := value)
    case PasswordField => form.(password := value)
    case OtpField => form.(otp := value)
  }

  class AuthView {
    var isLogin: bool
    var step: int
    var formData: FormData
    var error: string
    var loading: bool
    /** The requests posted so far, oldest first. */
    var sent: seq<ApiRequest>
    /** localStorage. */
    var storage: map<string, string>
    /** Where `navigate` last sent the browser. */
    var location: Option<string>

    ghost predicate Valid()
      reads this
    {
      step == 1 || step == 2
    }

    /** The view as first rendered: login mode, step 1, empty form, no error, not busy. */
    constructor ()
      ensures Valid()
      ensures isLogin && step == 1 && formData == EmptyForm && error == "" && !loading
      ensures sent == [] && storage == map[] && location == None
    {
      isLogin := true;
      step := 1;
      formData := EmptyForm;
      error := "";
      loading := false;
      sent := [];
      storage := map[];
      location := None;
    }

    /** An input's `onChange`: `setFormData({...formData, [field]: value})`. */
    method EditField(field: Field, value: string)
      requires Valid()
      modifies this`formData
      ensures Valid()
      ensures formData == SetField(old(formData), field, value)
    {
      formData := SetField(formData, field, value);
    }

    /**
     * `handleSubmit`: posts the request for the current mode and step (a weak
     * signup password stops it first), then moves to step 2, or stores the
     * session and goes to the dashboard, or shows the error. The mode and the
     * form are never changed, and the busy flag is always cleared at the end.
     */
    method HandleSubmit(outcome: Outcome)
      requires Valid()
      modifies this
      ensures Valid()
      ensures !loading
      ensures isLogin == old(isLogin) && formData == old(formData)
      ensures Blocked(old(isLogin), old(step), old(formData)) ==>
        && error == WeakPasswordError && step == old(step)
        && sent == old(sent) && storage == old(storage) && location == old(location)
      ensures !Blocked(old(isLogin), old(step), old(formData)) ==>
        sent == old(sent) + [RequestFor(old(isLogin), old(step), old(formData))]
      ensures !Blocked(old(isLogin), old(step), old(formData)) && outcome.Err? ==>
        && error == ErrorText(outcome.message, FallbackError) && step == old(step)
        && storage == old(storage) && location == old(location)
      ensures !Blocked(old(isLogin), old(step), old(formData)) && outcome.Ok? && old(step) == 1 ==>
        error == "" && step == 2 && storage == old(storage) && location == old(location)
      ensures !Blocked(old(isLogin), old(step), old(formData)) && outcome.Ok? && old(step) == 2 ==>
        && error == "" && step == 2
        && storage == old(storage)["token" := outcome.token]["user" := outcome.user]
        && location == Some("/dashboard")
    {
      error := "";
      loading := true;
      if !isLogin && step == 1 && !ValidatePassword(formData.password) {
        error := WeakPasswordError;
        loading := false;
        return;
      }
      sent := sent + [RequestFor(isLogin, step, formData)];
      match outcome {
        case Err(m) =>
          error := ErrorText(m, FallbackError);
        case Ok(token, user) =>
          if step == 1 {
            step := 2;
          } else {
            storage := storage["token" := token]["user" := user];
            location := Some("/dashboard");
          }
      }
      loading := false;
    }

    /** `toggleMode`: the other mode, back to step 1, no error, every field emptied. */
    method ToggleMode()
      requires Valid()
      modifies this
      ensures Valid()
      ensures isLogin == !old(isLogin) && step == 1 && error == "" && formData == EmptyForm
      ensures loading == old(loading) && sent == old(sent) && storage == old(storage) && location == old(location)
    {
      isLogin := !isLogin;
      step := 1;
      error := "";
      formData := EmptyForm;
    }
  }

  /**
   * A login as a user drives it: details, then the code. The view posts
   * `email` and `password` (never an `identifier`), then `email` and `otp`,
   * and ends with the session stored and the dashboard shown.
   */
  method LoginThenVerify(email: string, password: string, otp: string, token: string, user: string)
    returns (sent: seq<ApiRequest>, storage: map<string, string>, location: Option<string>, step: int)
    ensures sent == [LoginRequest(email, password), LoginVerifyRequest(email, otp)]
    ensures storage == map["token" := token, "user" := user]
    ensures location == Some("/dashboard")
    ensures step == 2
  {
    var v := new AuthView();
    v.EditField(EmailField, email);
    v.EditField(PasswordField, password);
    v.HandleSubmit(Ok("", ""));
    v.EditField(OtpField, otp);
    v.HandleSubmit(Ok(token, user));
    sent, storage, location, step := v.sent, v.storage, v.location, v.step;
  }

  /**
   * Switching to signup and submitting a password the local check refuses
   * posts nothing, stays at step 1 and shows the requirements message.
   */
  method WeakSignupPostsNothing(email: string, password: string, outcome: Outcome)
    returns (sent: seq<ApiRequest>, step: int, error: string, loading: bool)
    requires !IsStrong(password)
    ensures sent == [] && step == 1 && error == WeakPasswordError && !loading
  {
    var v := new AuthView();
    v.ToggleMode();
    v.EditField(EmailField, email);
    v.EditField(PasswordField, password);
    v.HandleSubmit(outcome);
    sent, step, error, loading := v.sent, v.step, v.error, v.loading;
  }
}
