/**
 * The authentication API: an in-memory user list and an OTP store keyed by
 * email, changed by six route handlers (signup-init, signup-verify, login,
 * login-verify, forgot-password, reset-password). Each handler runs to
 * completion before the next one starts. The random OTP draw and the clock are
 * parameters; e-mail delivery and logging are not modelled.
 */
module AuthServer {
  import opened Wrappers
  import opened JsString
  import opened PasswordPolicy
  import opened OtpCode
  import opened PasswordHash

  // ---------------------------------------------------------------- records

  /** The fields of a user record; a staged signup carries the same fields. */
  datatype Profile = Profile(
    fullName: string,
    username: string,
    email: string,
    password: Digest,
    department: string,
    fullPhone: string)

  /**
   * A user record `{ id, ...tempData }`. The profile is absent when the OTP
   * record behind a signup carried no `tempData` (a login or reset code),
   * which leaves a record holding its `id` alone.
   */
  datatype User = User(id: int, profile: Option<Profile>)

  /** The `type` property of an OTP record: absent, or 'reset'. */
  datatype OtpType = Untyped | ResetType

  /** An `otpStore` entry. `expires` is written by every handler and read by none. */
  datatype OtpRecord = OtpRecord(otp: string, tempData: Option<Profile>, expires: int, kind: OtpType)

  /** The body of a signup-init request. */
  datatype SignupRequest = SignupRequest(
    fullName: string,
    email: string,
    password: string,
    department: string,
    countryCode: string,
    phoneNumber: string)

  /** The payload signed into a session token (`jwt.sign`, 7-day expiry, not modelled further). */
  datatype Claims = Claims(email: string, username: Option<string>)

  /** Response bodies; `InternalError` is the framework's reply to a handler that throws. */
  datatype Body =
    | Message(text: string)
    | OtpSent(text: string, email: string)
    | Session(token: Claims, email: string, username: Option<string>)
    | InternalError

  datatype Response = Response(status: int, body: Body)

  /** Five minutes, in milliseconds. */
  const OtpLifetime: int := 300000

  /** The record the user list is seeded with; its password is "Password@123". */
  function AdminUser(): User
  {
    User(1, Some(Profile("Hunt360 Admin", "admin", "jitumahataray@gmail.com",
                         Hash("Password@123"), "Admin", "+91 9876543210")))
  }

  /** The seeded administrator's password itself passes the strength rule. */
  lemma AdminPasswordIsStrong()
    ensures AdminUser().profile.Some? && Compare("Password@123", AdminUser().profile.value.password)
    ensures RegexTest("Password@123")
  {
    var p := "Password@123";
    assert IsUpper(p[0]) && IsLower(p[1]) && IsSymbol(p[8]) && IsDigit(p[9]);
    assert forall i :: 0 <= i < |p| ==> InBodyClass(p[i]);
    RegexTestIsStrong(p);
  }

  // ---------------------------------------------------------------- lookups

  function EmailOf(u: User): Option<string>
  {
    if u.profile.Some? then Some(u.profile.value.email) else None
  }

  /** `u.email === email`; a record without profile has no email and matches nothing. */
  predicate HasEmail(u: User, email: string) { EmailOf(u) == Some(email) }

  /** `u.email === identifier || u.username === identifier || u.fullName === identifier` */
  predicate MatchesIdentifier(u: User, identifier: string)
  {
    u.profile.Some? &&
    (u.profile.value.email == identifier || u.profile.value.username == identifier || u.profile.value.fullName == identifier)
  }

  /** `array.findIndex(p)`, with None for -1: the first index whose element satisfies `p`. */
  function FindIndex<T>(s: seq<T>, p: T -> bool): (r: Option<nat>)
    ensures r.Some? ==> r.value < |s| && p(s[r.value])
    ensures r.Some? ==> forall j :: 0 <= j < r.value ==> !p(s[j])
    ensures r.None? ==> forall j :: 0 <= j < |s| ==> !p(s[j])
  {
    if |s| == 0 then None
    else if p(s[0]) then Some(0)
    else match FindIndex(s[1..], p)
      case None => None
      case Some(k) => Some(k + 1)
  }

  /** `users.findIndex(u => u.email === email)`: the first user holding that email. */
  function FindByEmail(users: seq<User>, email: string): (r: Option<nat>)
    ensures r.Some? ==> r.value < |users| && HasEmail(users[r.value], email)
    ensures r.None? <==> !Registered(users, email)
  {
    FindIndex(users, (u: User) => HasEmail(u, email))
  }

  /** `users.find(...)` in the login handler: the first user whose email, username or full name is `identifier`. */
  function FindByIdentifier(users: seq<User>, identifier: string): (r: Option<nat>)
    ensures r.Some? ==> r.value < |users| && MatchesIdentifier(users[r.value], identifier)
    ensures r.Some? ==> forall j :: 0 <= j < r.value ==> !MatchesIdentifier(users[j], identifier)
    ensures r.None? ==> forall j :: 0 <= j < |users| ==> !MatchesIdentifier(users[j], identifier)
  {
    FindIndex(users, (u: User) => MatchesIdentifier(u, identifier))
  }

  predicate Registered(users: seq<User>, email: string)
  {
    exists i :: 0 <= i < |users| && HasEmail(users[i], email)
  }

  /** No two user records share an email. */
  predicate UniqueEmails(users: seq<User>)
  {
    forall i, j :: 0 <= i < j < |users| && users[i].profile.Some? && users[j].profile.Some? ==>
      users[i].profile.value.email != users[j].profile.value.email
  }

  lemma {:induction false} RegisteredAppend(users: seq<User>, u: User, email: string)
    ensures Registered(users + [u], email) <==> Registered(users, email) || HasEmail(u, email)
  {
    var all := users + [u];
    if Registered(all, email) && !HasEmail(u, email) {
      var i :| 0 <= i < |all| && HasEmail(all[i], email);
      assert i < |users| && all[i] == users[i];
    }
    if Registered(users, email) {
      var i :| 0 <= i < |users| && HasEmail(users[i], email);
      assert all[i] == users[i];
    }
    if HasEmail(u, email) {
      assert all[|users|] == u;
    }
  }

  /** `fullName.split(' ')[0]`: the text before the first space, or all of it. */
  function FirstWord(s: string): (w: string)
    ensures |w| <= |s| && w == s[..|w|]
    ensures ' ' !in w
    ensures |w| < |s| ==> s[|w|] == ' '
  {
    var parts := Split(s, ' ');
    JoinSplit(s, ' ');
    assert |parts| > 1 ==> Join(parts, [' ']) == parts[0] + [' '] + Join(parts[1..], [' ']);
    parts[0]
  }

  /** The `tempData` that signup-init stages for `req`. */
  function Staged(req: SignupRequest): Profile
  {
    Profile(req.fullName, FirstWord(req.fullName), req.email, Hash(req.password),
            req.department, req.countryCode + " " + req.phoneNumber)
  }

  function FullNameOf(p: Option<Profile>): Option<string>
  {
    if p.Some? then Some(p.value.fullName) else None
  }

  /** `!record || record.otp !== otp` fails: a record exists for `email` and holds `otp`. */
  predicate OtpMatches(store: map<string, OtpRecord>, email: string, otp: string)
  {
    email in store && store[email].otp == otp
  }

  predicate IsOtpShape(otp: string)
  {
    |otp| == 6 && forall i :: 0 <= i < |otp| ==> IsDigit(otp[i])
  }

  // ---------------------------------------------------------------- the service

  class Server {
    /** `users`: records in insertion order. */
    var users: seq<User>
    /** `otpStore`: at most one pending code per email. */
    var otpStore: map<string, OtpRecord>

    /**
     * What every handler keeps true: ids are positions plus one, emails are
     * unique, stored codes are six digits, a staged signup sits under its own
     * unregistered email, and a reset code sits under a registered email.
     */
    ghost predicate Valid()
      reads this
    {
      && (forall i :: 0 <= i < |users| ==> users[i].id == i + 1)
      && UniqueEmails(users)
      && (forall k :: k in otpStore ==> IsOtpShape(otpStore[k].otp))
      && (forall k :: k in otpStore && otpStore[k].tempData.Some? ==>
            otpStore[k].tempData.value.email == k && !Registered(users, k))
      && (forall k :: k in otpStore && otpStore[k].kind == ResetType ==> Registered(users, k))
    }

    /** Server start: the administrator alone, no pending codes. */
    constructor ()
      ensures Valid()
      ensures users == [AdminUser()] && otpStore == map[]
    {
      users := [AdminUser()];
      otpStore := map[];
    }

    /** POST /api/auth/signup-init */
    method SignupInit(req: SignupRequest, code: nat, now: int) returns (resp: Response)
      requires Valid()
      requires 100000 <= code <= 999999
      modifies this
      ensures Valid()
      ensures users == old(users)
      ensures Registered(users, req.email) ==>
        resp == Response(400, Message("Email already registered")) && otpStore == old(otpStore)
      ensures !Registered(users, req.email) && !RegexTest(req.password) ==>
        resp == Response(400, Message("Password does not meet requirements.")) && otpStore == old(otpStore)
      ensures !Registered(users, req.email) && RegexTest(req.password) ==>
        && resp == Response(200, Message("OTP sent"))
        && otpStore == old(otpStore)[req.email := OtpRecord(GenerateOtp(code), Some(Staged(req)), now + OtpLifetime, Untyped)]
    {
      var existing := FindByEmail(users, req.email);
      if existing.Some? {
        return Response(400, Message("Email already registered"));
      }
      if !RegexTest(req.password) {
        return Response(400, Message("Password does not meet requirements."));
      }
      var otp := GenerateOtp(code);
      otpStore := otpStore[req.email := OtpRecord(otp, Some(Staged(req)), now + OtpLifetime, Untyped)];
      resp := Response(200, Message("OTP sent"));
    }

    /** POST /api/auth/signup-verify: promotes whatever the record under `email` staged, typed or not. */
    method SignupVerify(email: string, otp: string) returns (resp: Response)
      requires Valid()
      modifies this
      ensures Valid()
      ensures !OtpMatches(old(otpStore), email, otp) ==>
        resp == Response(400, Message("Invalid OTP")) && users == old(users) && otpStore == old(otpStore)
      ensures OtpMatches(old(otpStore), email, otp) ==>
        var staged := old(otpStore)[email].tempData;
        && users == old(users) + [User(|old(users)| + 1, staged)]
        && otpStore == old(otpStore) - {email}
        && resp == Response(200, Session(Claims(email, FullNameOf(staged)), email, FullNameOf(staged)))
    {
      if email !in otpStore || otpStore[email].otp != otp {
        return Response(400, Message("Invalid OTP"));
      }
      var record := otpStore[email];
      var newUser := User(|users| + 1, record.tempData);
      forall k | k in otpStore
        ensures Registered(users + [newUser], k) <==> Registered(users, k) || HasEmail(newUser, k)
      {
        RegisteredAppend(users, newUser, k);
      }
      users := users + [newUser];
      otpStore := otpStore - {email};
      var name := FullNameOf(record.tempData);
      resp := Response(200, Session(Claims(email, name), email, name));
    }

    /** POST /api/auth/login: `identifier` may be an email, a username or a full name. */
    method Login(identifier: string, password: string, code: nat, now: int) returns (resp: Response)
      requires Valid()
      requires 100000 <= code <= 999999
      modifies this
      ensures Valid()
      ensures users == old(users)
      ensures var found := FindByIdentifier(users, identifier);
        found.None? || !Compare(password, users[found.value].profile.value.password) ==>
        resp == Response(400, Message("Invalid credentials")) && otpStore == old(otpStore)
      ensures var found := FindByIdentifier(users, identifier);
        found.Some? && Compare(password, users[found.value].profile.value.password) ==>
        var email := users[found.value].profile.value.email;
        && otpStore == old(otpStore)[email := OtpRecord(GenerateOtp(code), None, now + OtpLifetime, Untyped)]
        && resp == Response(200, OtpSent("MFA OTP sent", email))
    {
      var found := FindByIdentifier(users, identifier);
      if found.None? || !Compare(password, users[found.value].profile.value.password) {
        return Response(400, Message("Invalid credentials"));
      }
      var user := users[found.value].profile.value;
      assert HasEmail(users[found.value], user.email);
      otpStore := otpStore[user.email := OtpRecord(GenerateOtp(code), None, now + OtpLifetime, Untyped)];
      resp := Response(200, OtpSent("MFA OTP sent", user.email));
    }

    /**
     * POST /api/auth/login-verify: any matching record is consumed, whatever
     * its type; when no user holds the email the handler then throws.
     */
    method LoginVerify(email: string, otp: string) returns (resp: Response)
      requires Valid()
      modifies this
      ensures Valid()
      ensures users == old(users)
      ensures !OtpMatches(old(otpStore), email, otp) ==>
        resp == Response(400, Message("Invalid OTP")) && otpStore == old(otpStore)
      ensures OtpMatches(old(otpStore), email, otp) ==> otpStore == old(otpStore) - {email}
      ensures OtpMatches(old(otpStore), email, otp) && !Registered(users, email) ==>
        resp == Response(500, InternalError)
      ensures OtpMatches(old(otpStore), email, otp) && Registered(users, email) ==>
        var name := users[FindByEmail(users, email).value].profile.value.fullName;
        resp == Response(200, Session(Claims(email, Some(name)), email, Some(name)))
    {
      var found := FindByEmail(users, email);
      if email !in otpStore || otpStore[email].otp != otp {
        return Response(400, Message("Invalid OTP"));
      }
      otpStore := otpStore - {email};
      if found.None? {
        // `user.fullName` on an undefined user throws a TypeError.
        return Response(500, InternalError);
      }
      var user := users[found.value].profile.value;
      resp := Response(200, Session(Claims(email, Some(user.fullName)), user.email, Some(user.fullName)));
    }

    /** POST /api/auth/forgot-password */
    method ForgotPassword(email: string, code: nat, now: int) returns (resp: Response)
      requires Valid()
      requires 100000 <= code <= 999999
      modifies this
      ensures Valid()
      ensures users == old(users)
      ensures !Registered(users, email) ==>
        resp == Response(404, Message("User not found")) && otpStore == old(otpStore)
      ensures Registered(users, email) ==>
        && otpStore == old(otpStore)[email := OtpRecord(GenerateOtp(code), None, now + OtpLifetime, ResetType)]
        && resp == Response(200, Message("Reset code sent to email"))
    {
      var found := FindByEmail(users, email);
      if found.None? {
        return Response(404, Message("User not found"));
      }
      otpStore := otpStore[email := OtpRecord(GenerateOtp(code), None, now + OtpLifetime, ResetType)];
      resp := Response(200, Message("Reset code sent to email"));
    }

    /**
     * POST /api/auth/reset-password. The "User not found" branch cannot be
     * taken: a reset record is only ever stored under a registered email.
     */
    method ResetPassword(email: string, otp: string, newPassword: string) returns (resp: Response)
      requires Valid()
      modifies this
      ensures Valid()
      ensures resp.status != 404
      ensures !OtpMatches(old(otpStore), email, otp) || old(otpStore)[email].kind != ResetType ==>
        resp == Response(400, Message("Invalid or expired OTP")) && users == old(users) && otpStore == old(otpStore)
      ensures OtpMatches(old(otpStore), email, otp) && old(otpStore)[email].kind == ResetType && !RegexTest(newPassword) ==>
        resp == Response(400, Message("Password too weak.")) && users == old(users) && otpStore == old(otpStore)
      ensures OtpMatches(old(otpStore), email, otp) && old(otpStore)[email].kind == ResetType && RegexTest(newPassword) ==>
        var i := FindByEmail(old(users), email).value;
        && users == old(users)[i := User(old(users)[i].id, Some(old(users)[i].profile.value.(password := Hash(newPassword))))]
        && otpStore == old(otpStore) - {email}
        && resp == Response(200, Message("Password reset successfully. Please login."))
    {
      if email !in otpStore || otpStore[email].otp != otp || otpStore[email].kind != ResetType {
        return Response(400, Message("Invalid or expired OTP"));
      }
      var found := FindByEmail(users, email);
      if found.None? {
        assert false;
        return Response(404, Message("User not found"));
      }
      if !RegexTest(newPassword) {
        return Response(400, Message("Password too weak."));
      }
      var i := found.value;
      var updated := User(users[i].id, Some(users[i].profile.value.(password := Hash(newPassword))));
      ghost var before := users;
      users := users[i := updated];
      assert forall j :: 0 <= j < |users| ==> EmailOf(users[j]) == EmailOf(before[j]);
      assert forall k :: Registered(users, k) ==> Registered(before, k);
      assert forall k :: Registered(before, k) ==> Registered(users, k);
      otpStore := otpStore - {email};
      resp := Response(200, Message("Password reset successfully. Please login."));
    }
  }
}
