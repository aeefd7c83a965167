/**
 * Request sequences against a freshly started server, proved from the
 * handlers' contracts alone: what a client observes when it replays a code,
 * presents a code to the wrong route, or resets a password.
 */
module AuthScenarios {
  import opened Wrappers
  import opened PasswordPolicy
  import opened OtpCode
  import opened PasswordHash
  import opened AuthServer

  const AdminEmail: string := "jitumahataray@gmail.com"

  /**
   * For any new email and strong password: signup-init succeeds, a wrong code
   * is refused, the right code registers exactly one user, the same code is
   * refused the second time, and signing up the email again is refused.
   */
  method SignupCodeIsSingleUse(req: SignupRequest, code: nat, wrong: string, now: int)
    returns (init: Response, rejected: Response, verified: Response, replayed: Response, again: Response, userCount: nat)
    requires 100000 <= code <= 999999
    requires wrong != GenerateOtp(code)
    requires req.email != AdminEmail
    requires RegexTest(req.password)
    ensures init == Response(200, Message("OTP sent"))
    ensures rejected == Response(400, Message("Invalid OTP"))
    ensures verified.status == 200 && verified.body.Session? && verified.body.username == Some(req.fullName)
    ensures userCount == 2
    ensures replayed == Response(400, Message("Invalid OTP"))
    ensures again == Response(400, Message("Email already registered"))
  {
    var s := new Server();
    assert !HasEmail(s.users[0], req.email);
    init := s.SignupInit(req, code, now);
    rejected := s.SignupVerify(req.email, wrong);
    verified := s.SignupVerify(req.email, GenerateOtp(code));
    userCount := |s.users|;
    assert HasEmail(s.users[1], req.email);
    replayed := s.SignupVerify(req.email, GenerateOtp(code));
    again := s.SignupInit(req, code, now);
  }

  /**
   * The seeded administrator logs in by username: a guess of one-byte
   * characters other than "Password@123" is refused, the right password sends a code to the
   * administrator's email, and the code opens a session once and is refused
   * the second time.
   */
  method LoginCodeIsSingleUse(code: nat, guess: string, now: int)
    returns (refused: Response, sent: Response, verified: Response, replayed: Response)
    requires 100000 <= code <= 999999
    requires IsAsciiText(guess) && guess != "Password@123"
    ensures refused == Response(400, Message("Invalid credentials"))
    ensures sent == Response(200, OtpSent("MFA OTP sent", AdminEmail))
    ensures verified == Response(200, Session(Claims(AdminEmail, Some("Hunt360 Admin")), AdminEmail, Some("Hunt360 Admin")))
    ensures replayed == Response(400, Message("Invalid OTP"))
  {
    var s := new Server();
    assert HasEmail(s.users[0], AdminEmail);
    assert FindByIdentifier(s.users, "admin") == Some(0);
    CompareHash(guess, "Password@123");
    refused := s.Login("admin", guess, code, now);
    sent := s.Login("admin", "Password@123", code, now);
    assert s.users == [AdminUser()] && OtpMatches(s.otpStore, AdminEmail, GenerateOtp(code));
    assert FindByEmail(s.users, AdminEmail) == Some(0);
    verified := s.LoginVerify(AdminEmail, GenerateOtp(code));
    replayed := s.LoginVerify(AdminEmail, GenerateOtp(code));
  }

  /**
   * Password recovery for the administrator: a weak new password is refused
   * without spending the code, a strong one replaces the hash and spends it,
   * after which the new password logs in and the old one does not.
   */
  method ResetReplacesPassword(code: nat, weak: string, strong: string, now: int)
    returns (requested: Response, tooWeak: Response, reset: Response, replayed: Response, newLogin: Response, oldLogin: Response)
    requires 100000 <= code <= 999999
    requires !RegexTest(weak)
    requires RegexTest(strong) && strong != "Password@123"
    ensures requested == Response(200, Message("Reset code sent to email"))
    ensures tooWeak == Response(400, Message("Password too weak."))
    ensures reset == Response(200, Message("Password reset successfully. Please login."))
    ensures replayed == Response(400, Message("Invalid or expired OTP"))
    ensures newLogin == Response(200, OtpSent("MFA OTP sent", AdminEmail))
    ensures oldLogin == Response(400, Message("Invalid credentials"))
  {
    var s := new Server();
    assert HasEmail(s.users[0], AdminEmail);
    requested := s.ForgotPassword(AdminEmail, code, now);
    tooWeak := s.ResetPassword(AdminEmail, GenerateOtp(code), weak);
    reset := s.ResetPassword(AdminEmail, GenerateOtp(code), strong);
    replayed := s.ResetPassword(AdminEmail, GenerateOtp(code), strong);
    assert MatchesIdentifier(s.users[0], AdminEmail);
    StrongIsAscii(strong);
    CompareHash("Password@123", strong);
    newLogin := s.Login(AdminEmail, strong, code, now);
    oldLogin := s.Login(AdminEmail, "Password@123", code, now);
  }

  /** A fresh server after the administrator's login by username with "Password@123". */
  method AdminLoggedIn(code: nat, now: int) returns (s: Server)
    requires 100000 <= code <= 999999
    ensures fresh(s) && s.Valid()
    ensures s.users == [AdminUser()]
    ensures s.otpStore == map[AdminEmail := OtpRecord(GenerateOtp(code), None, now + OtpLifetime, Untyped)]
  {
    s := new Server();
    assert FindByIdentifier(s.users, "admin") == Some(0);
    var _ := s.Login("admin", "Password@123", code, now);
  }

  /**
   * signup-verify does not look at the record's type: a login code presented
   * to it is accepted and appends a user record that holds nothing but its id.
   * The login code is refused by reset-password, which does check the type.
   */
  method LoginCodeAcceptedBySignup(code: nat, now: int)
    returns (atReset: Response, atSignup: Response, appended: User)
    requires 100000 <= code <= 999999
    ensures atReset == Response(400, Message("Invalid or expired OTP"))
    ensures atSignup == Response(200, Session(Claims(AdminEmail, None), AdminEmail, None))
    ensures appended == User(2, None)
  {
    var s := AdminLoggedIn(code, now);
    atReset := s.ResetPassword(AdminEmail, GenerateOtp(code), "Abcdef1!");
    atSignup := s.SignupVerify(AdminEmail, GenerateOtp(code));
    appended := s.users[1];
  }

  /**
   * login-verify does not look at the record's type either: a signup code
   * presented to it is consumed before the missing user makes the handler
   * throw, and the staged registration can no longer be completed.
   */
  method SignupCodeLostToLoginVerify(req: SignupRequest, code: nat, now: int)
    returns (crashed: Response, lost: Response, userCount: nat)
    requires 100000 <= code <= 999999
    requires req.email != AdminEmail
    requires RegexTest(req.password)
    ensures crashed == Response(500, InternalError)
    ensures lost == Response(400, Message("Invalid OTP"))
    ensures userCount == 1
  {
    var s := new Server();
    assert !HasEmail(s.users[0], req.email);
    var _ := s.SignupInit(req, code, now);
    crashed := s.LoginVerify(req.email, GenerateOtp(code));
    lost := s.SignupVerify(req.email, GenerateOtp(code));
    userCount := |s.users|;
  }

  /**
   * The comment on forgot-password says a reset code can only be used for a
   * reset, but login-verify does not look at the type: the code mailed by
   * forgot-password opens a session for the account, and no password is
   * asked for on the way.
   */
  method ResetCodeOpensSession(code: nat, now: int)
    returns (requested: Response, session: Response, replayed: Response)
    requires 100000 <= code <= 999999
    ensures requested == Response(200, Message("Reset code sent to email"))
    ensures session == Response(200, Session(Claims(AdminEmail, Some("Hunt360 Admin")), AdminEmail, Some("Hunt360 Admin")))
    ensures replayed == Response(400, Message("Invalid or expired OTP"))
  {
    var s := new Server();
    assert HasEmail(s.users[0], AdminEmail);
    requested := s.ForgotPassword(AdminEmail, code, now);
    session := s.LoginVerify(AdminEmail, GenerateOtp(code));
    replayed := s.ResetPassword(AdminEmail, GenerateOtp(code), "Abcdef1!");
  }

  /**
   * bcrypt reads only 72 bytes of the password: after signing up with a
   * strong password of 72 characters or more, any password that shares its
   * first 72 characters logs in as well.
   */
  method LongPasswordMatchesOnPrefix(req: SignupRequest, code: nat, other: string, now: int)
    returns (verified: Response, login: Response)
    requires 100000 <= code <= 999999
    requires req.email != AdminEmail && !MatchesIdentifier(AdminUser(), req.email)
    requires RegexTest(req.password) && |req.password| >= 72
    requires IsAsciiText(other) && |other| >= 72 && other[..72] == req.password[..72]
    ensures verified.status == 200
    ensures login == Response(200, OtpSent("MFA OTP sent", req.email))
  {
    var s := new Server();
    assert !HasEmail(s.users[0], req.email);
    var _ := s.SignupInit(req, code, now);
    verified := s.SignupVerify(req.email, GenerateOtp(code));
    assert MatchesIdentifier(s.users[1], req.email);
    StrongIsAscii(req.password);
    CompareHash(other, req.password);
    login := s.Login(req.email, other, code, now);
  }
}
