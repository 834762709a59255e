/**
 * The login protocol and the two-factor views.
 *
 * A login looks the username up, applies or expires the lockout, checks the
 * password and then either signs the user in or, when two-factor
 * authentication is on, leaves a pending-second-factor marker in the session.
 * The second step consumes the marker once a time-based one-time password
 * verifies. Two more views switch two-factor authentication on and off, and
 * registration gives every new account its secret.
 *
 * The password check, the one-time-password check and secret generation
 * belong to libraries; they are parameters here: `passwordOk(username,
 * password)`, `totpVerify(secret, token, now)` (one step of clock skew
 * allowed either way) and `freshSecret`, a value the caller drew at random.
 */
module Views {
  import opened Common
  import opened Accounts
  import opened Forms

  /** The responses of the login view. */
  datatype LoginOutcome =
    | InvalidUsernameOrPassword              // unknown username: the generic message
    | AccountLocked(minutes: int)            // locked and the deadline not passed
    | LockedByThisAttempt                    // a wrong password that set the lock
    | InvalidCredentials(remainingAttempts: int)
    | PendingTwoFactor                       // redirect to the second step
    | LoggedIn                               // redirect to the dashboard

  /** What one login attempt reports and what it leaves in the account's lockout fields. */
  datatype LoginStep = LoginStep(outcome: LoginOutcome, lockout: Lockout)

  /** The responses of the second-step, setup and disable views. */
  datatype TwoFactorOutcome =
    | RedirectToLogin                        // no marker, unknown user, or not signed in
    | AlreadyEnabled                         // setup while two-factor is on
    | NotEnabled                             // disable while two-factor is off
    | ShowForm                               // not a submission: the form is shown
    | FormRejected(error: FieldError)        // the token field did not validate
    | TokenRejected                          // the token did not verify
    | Succeeded

  datatype RegisterOutcome = RegistrationRejected | Registered(pk: int)

  const Base32Alphabet := "ABCDEFGHIJKLMNOPQRSTUVWXYZ234567"
  const SecretLength := 32

  /**
   * What registration accepts before looking for the name: the form's
   * username and password validators, then the record's own field validation.
   */
  predicate Admissible(username: string, password: string, phoneNumber: string) {
    ValidateUsername(username).Ok? && ValidatePassword1(password).Ok? && ValidUserFields(username, phoneNumber)
  }

  /** What the secret generator produces: 32 characters of the base32 alphabet. */
  predicate IsGeneratedSecret(s: string) {
    |s| == SecretLength && forall i :: 0 <= i < |s| ==> s[i] in Base32Alphabet
  }

  /**
   * Whole minutes until `until`, as the seconds component of the duration
   * (always in 0..86399, a day is dropped) divided by 60.
   */
  function RemainingMinutes(until: int, now: int): (m: int)
    ensures 0 <= m < 24 * 60
    ensures 0 <= until - now < 24 * 60 * 60 ==> m == (until - now) / 60
  {
    ((until - now) % (24 * 60 * 60)) / 60
  }

  /**
   * One login attempt on an account with lockout fields `s`: a lock whose
   * deadline has not passed answers at once; an expired one is reset first;
   * then the password decides.
   */
  function AttemptLogin(s: Lockout, passwordOk: bool, twoFactorEnabled: bool, now: int): LoginStep
    requires s.isLocked ==> s.lockoutUntil.Some?
  {
    if s.isLocked && !LockoutExpired(s, now) then
      LoginStep(AccountLocked(RemainingMinutes(s.lockoutUntil.value, now)), s)
    else
      var current := if s.isLocked then Unlocked else s;
      if passwordOk then
        LoginStep(if twoFactorEnabled then PendingTwoFactor else LoggedIn, Unlocked)
      else
        var failed := RecordFailure(current, now);
        LoginStep(
          if failed.isLocked then LockedByThisAttempt
          else InvalidCredentials(MaxFailedAttempts - failed.failedLoginAttempts),
          failed)
  }

  /** Whether the lock still holds at `now`. */
  predicate Blocked(s: Lockout, now: int) {
    s.isLocked && !LockoutExpired(s, now)
  }

  /**
   * While the lock holds, the attempt is answered with the remaining minutes,
   * whatever the password, and the account is left as it was.
   */
  lemma LockedAttemptIgnoresPassword(s: Lockout, passwordOk: bool, twoFactorEnabled: bool, now: int)
    requires s.isLocked ==> s.lockoutUntil.Some?
    requires Blocked(s, now)
    ensures AttemptLogin(s, passwordOk, twoFactorEnabled, now)
         == LoginStep(AccountLocked(RemainingMinutes(s.lockoutUntil.value, now)), s)
  {
  }

  /** A lock set by a failure at or before `now` reports between 0 and 30 minutes. */
  lemma LockedMinutesInWindow(s: Lockout, passwordOk: bool, twoFactorEnabled: bool, now: int)
    requires Consistent(s) && Blocked(s, now)
    requires s.lastFailedLogin.value <= now
    ensures AttemptLogin(s, passwordOk, twoFactorEnabled, now).outcome.AccountLocked?
    ensures 0 <= AttemptLogin(s, passwordOk, twoFactorEnabled, now).outcome.minutes <= 30
  {
  }

  /**
   * An expired lock is reset before the password is looked at: the attempt
   * goes as it would on a fresh account, so a wrong password leaves the
   * counter at 1.
   */
  lemma ExpiredLockStartsOver(s: Lockout, passwordOk: bool, twoFactorEnabled: bool, now: int)
    requires s.isLocked && LockoutExpired(s, now)
    ensures AttemptLogin(s, passwordOk, twoFactorEnabled, now) == AttemptLogin(Unlocked, passwordOk, twoFactorEnabled, now)
    ensures !passwordOk ==>
              AttemptLogin(s, passwordOk, twoFactorEnabled, now)
              == LoginStep(InvalidCredentials(2), Unlocked.(failedLoginAttempts := 1, lastFailedLogin := Some(now)))
  {
  }

  /**
   * A correct password on an account that is not blocked resets the lockout,
   * and leads to the second step exactly when two-factor authentication is on.
   */
  lemma CorrectPasswordResets(s: Lockout, twoFactorEnabled: bool, now: int)
    requires s.isLocked ==> s.lockoutUntil.Some?
    requires !Blocked(s, now)
    ensures AttemptLogin(s, true, twoFactorEnabled, now).lockout == Unlocked
    ensures AttemptLogin(s, true, twoFactorEnabled, now).outcome == PendingTwoFactor <==> twoFactorEnabled
    ensures AttemptLogin(s, true, twoFactorEnabled, now).outcome == LoggedIn <==> !twoFactorEnabled
  {
  }

  /**
   * A wrong password on an account that is not blocked counts one failure:
   * either it sets a thirty-minute lock, or it reports 1 or 2 attempts left.
   */
  lemma WrongPasswordCounts(s: Lockout, twoFactorEnabled: bool, now: int)
    requires Consistent(s) && !Blocked(s, now)
    ensures var step := AttemptLogin(s, false, twoFactorEnabled, now);
            && step.lockout.failedLoginAttempts == (if s.isLocked then 0 else s.failedLoginAttempts) + 1
            && step.lockout.lastFailedLogin == Some(now)
            && (step.outcome == LockedByThisAttempt <==> step.lockout.isLocked)
            && (step.outcome == LockedByThisAttempt ==> step.lockout.lockoutUntil == Some(now + LockoutSeconds))
            && (step.outcome != LockedByThisAttempt ==>
                  step.outcome.InvalidCredentials? && step.outcome.remainingAttempts in {1, 2})
  {
  }

  /** Every attempt keeps the lockout invariant. */
  lemma AttemptKeepsConsistent(s: Lockout, passwordOk: bool, twoFactorEnabled: bool, now: int)
    requires Consistent(s)
    ensures Consistent(AttemptLogin(s, passwordOk, twoFactorEnabled, now).lockout)
  {
  }

  /**
   * Three wrong passwords lock the account; a fourth attempt a second later,
   * even with the right password, is refused with 29 minutes to go.
   */
  lemma FourthAttemptRefused(twoFactorEnabled: bool, t: int)
    ensures var a1 := AttemptLogin(Unlocked, false, twoFactorEnabled, t);
            var a2 := AttemptLogin(a1.lockout, false, twoFactorEnabled, t + 1);
            var a3 := AttemptLogin(a2.lockout, false, twoFactorEnabled, t + 2);
            var a4 := AttemptLogin(a3.lockout, true, twoFactorEnabled, t + 3);
            && a1.outcome == InvalidCredentials(2)
            && a2.outcome == InvalidCredentials(1)
            && a3.outcome == LockedByThisAttempt
            && a4.outcome == AccountLocked(29)
            && a4.lockout == a3.lockout
  {
  }

  /** Whether a submitted token passes the token field and then verifies against `secret`. */
  function TokenVerifies(token: Option<string>, secret: string, now: int, totpVerify: (string, string, int) -> bool): bool {
    token.Some? && CleanToken(token.value).Ok? && totpVerify(secret, CleanToken(token.value).value, now)
  }

  /** The response when the token does not verify: the form again, with the reason if there is one. */
  function TokenFailure(token: Option<string>): TwoFactorOutcome {
    if token.None? then ShowForm
    else match CleanToken(token.value)
      case Err(e) => FormRejected(e)
      case Ok(_) => TokenRejected
  }

  /** The client session: the pending-second-factor marker and the signed-in account. */
  datatype Session = Session(pending: Option<int>, user: Option<int>)

  /**
   * The framework's `login()` on the session: when a different account is
   * signed in, the session is flushed first; otherwise its data is kept.
   */
  function SignIn(s: Session, pk: int): Session {
    if s.user.Some? && s.user.value != pk then Session(None, Some(pk)) else s.(user := Some(pk))
  }

  /** What a login attempt with outcome `out` for account `pk` leaves in the session. */
  function AfterLogin(s: Session, out: LoginOutcome, pk: int): Session {
    match out
    case PendingTwoFactor => s.(pending := Some(pk))
    case LoggedIn => SignIn(s, pk)
    case _ => s
  }

  /**
   * One login attempt sets at most one of the two slots: the marker on the
   * second-step outcome, the signed-in account on a sign-in (which drops the
   * marker only when it replaces a different account), and nothing otherwise.
   */
  lemma AfterLoginSetsOneSlot(s: Session, out: LoginOutcome, pk: int)
    ensures AfterLogin(s, out, pk).user == (if out == LoggedIn then Some(pk) else s.user)
    ensures out != LoggedIn ==>
              AfterLogin(s, out, pk).pending == (if out == PendingTwoFactor then Some(pk) else s.pending)
    ensures out == LoggedIn ==>
              AfterLogin(s, out, pk).pending == (if s.user.Some? && s.user.value != pk then None else s.pending)
  {
  }

  /**
   * A verified second step as written: sign in, then delete the marker, which
   * fails (a missing key) when the sign-in flushed it or it was never there.
   */
  function SecondStepAsWritten(s: Session, pk: int): Result<Session, string> {
    var signedIn := SignIn(s, pk);
    if signedIn.pending.None? then Err("pre_2fa_user_pk") else Ok(signedIn.(pending := None))
  }

  /** A verified second step as intended: sign in, then drop the marker if it is still there. */
  function CompleteSecondStep(s: Session, pk: int): Session {
    SignIn(s, pk).(pending := None)
  }

  /**
   * With a marker present, the written second step fails exactly when a
   * different account is signed in, and otherwise agrees with the intended one.
   */
  lemma SecondStepFailsOnlyAfterOtherSignIn(s: Session, pk: int)
    requires s.pending.Some?
    ensures SecondStepAsWritten(s, pk).Err? <==> s.user.Some? && s.user.value != pk
    ensures SecondStepAsWritten(s, pk).Ok? ==> SecondStepAsWritten(s, pk).value == CompleteSecondStep(s, pk)
  {
  }

  /**
   * A session reaches that state: account 2 stops at the second step, then
   * account 1, without two-factor, signs in directly and the marker stays.
   * Completing account 2's second step then fails.
   */
  lemma AbandonedSecondStepFails()
    ensures var s := AfterLogin(AfterLogin(Session(None, None), PendingTwoFactor, 2), LoggedIn, 1);
            && s == Session(Some(2), Some(1))
            && SecondStepAsWritten(s, 2).Err?
  {
  }

  /** The intended second step always completes: `pk` is signed in and no marker is left. */
  lemma SecondStepCompletes(s: Session, pk: int)
    ensures CompleteSecondStep(s, pk) == Session(None, Some(pk))
  {
  }

  /**
   * The account's part of a login attempt: a lock that still holds answers at
   * once, an expired one is reset, then the password decides. The lockout
   * fields change as `AttemptLogin` says and nothing else of the account does.
   */
  method LoginAttempt(user: User, passwordOk: bool, now: int) returns (out: LoginOutcome)
    requires user.Valid()
    modifies user
    ensures var step := AttemptLogin(old(user.LockoutState()), passwordOk, old(user.isTwoFactorEnabled), now);
            out == step.outcome && user.LockoutState() == step.lockout
    ensures user.Profile() == old(user.Profile())
    ensures user.Valid()
  {
    if user.isLocked {
      if user.lockoutUntil.Some? && now > user.lockoutUntil.value {
        user.ResetFailedAttempts();
      } else {
        return AccountLocked(RemainingMinutes(user.lockoutUntil.value, now));
      }
    }
    if passwordOk {
      user.ResetFailedAttempts();
      if user.isTwoFactorEnabled {
        return PendingTwoFactor;
      } else {
        return LoggedIn;
      }
    } else {
      user.IncrementFailedLogin(now);
      if user.isLocked {
        return LockedByThisAttempt;
      } else {
        return InvalidCredentials(MaxFailedAttempts - user.failedLoginAttempts);
      }
    }
  }

  /** Whether some account in `users` has the name `username`. */
  ghost predicate HasUser(users: map<int, User>, username: string) {
    exists pk :: pk in users && users[pk].username == username
  }

  /** The key of an account named `username`. */
  ghost function PkOf(users: map<int, User>, username: string): (pk: int)
    requires HasUser(users, username)
    ensures pk in users && users[pk].username == username
  {
    var pk :| pk in users && users[pk].username == username; pk
  }

  /**
   * The site: its accounts by primary key, the next key to hand out, and one
   * client session with its pending-second-factor marker and its signed-in user.
   */
  class AuthSite {
    var users: map<int, User>
    var nextPk: int
    var pending: Option<int>
    var sessionUser: Option<int>

    ghost predicate Valid()
      reads this, users.Values
    {
      && nextPk >= 1
      && (forall pk :: pk in users ==> 1 <= pk < nextPk && users[pk].pk == pk && users[pk].Valid())
      && (forall p, q :: p in users && q in users && users[p].username == users[q].username ==> p == q)
    }

    ghost function SessionState(): Session
      reads this
    {
      Session(pending, sessionUser)
    }

    /** Whether the session belongs to an existing account. */
    ghost predicate SignedIn()
      reads this
    {
      sessionUser.Some? && sessionUser.value in users
    }

    constructor ()
      ensures Valid()
      ensures users == map[] && nextPk == 1 && pending == None && sessionUser == None
    {
      users := map[];
      nextPk := 1;
      pending := None;
      sessionUser := None;
    }

    /**
     * Registration: an admissible, unused username, password and phone number
     * create an account with the lockout defaults, two-factor off and a fresh
     * secret.
     */
    method RegisterView(username: string, password: string, phoneNumber: string, freshSecret: string)
      returns (out: RegisterOutcome)
      requires Valid()
      requires IsGeneratedSecret(freshSecret)
      modifies this
      ensures Valid()
      ensures pending == old(pending) && sessionUser == old(sessionUser)
      ensures !Admissible(username, password, phoneNumber) || HasUser(old(users), username)
              ==> out == RegistrationRejected && users == old(users) && nextPk == old(nextPk)
      ensures Admissible(username, password, phoneNumber) && !HasUser(old(users), username)
              ==> && out == Registered(old(nextPk))
                  && users.Keys == old(users.Keys) + {old(nextPk)}
                  && (forall pk :: pk in old(users) ==> users[pk] == old(users[pk]))
                  && fresh(users[old(nextPk)])
                  && users[old(nextPk)].username == username
                  && users[old(nextPk)].LockoutState() == Unlocked
                  && users[old(nextPk)].Profile() == (false, freshSecret, phoneNumber)
                  && nextPk == old(nextPk) + 1
    {
      var nameResult := ValidateUsername(username);
      var passwordResult := ValidatePassword1(password);
      if nameResult.Err? || passwordResult.Err? || !ValidUserFields(username, phoneNumber)
         || exists pk :: pk in users && users[pk].username == username
      {
        return RegistrationRejected;
      }
      var user := new User(nextPk, username, freshSecret, phoneNumber);
      users := users[nextPk := user];
      out := Registered(nextPk);
      nextPk := nextPk + 1;
    }

    /**
     * The login view for a submitted username and password. An unknown
     * username changes nothing. Otherwise the account's lockout fields change
     * as `AttemptLogin` says, and the session as `AfterLogin` says: it gets
     * the pending marker (second factor needed) or the signed-in user (none
     * needed), never both from one attempt.
     */
    method LoginView(username: string, password: string, now: int, passwordOk: (string, string) -> bool)
      returns (out: LoginOutcome)
      requires Valid()
      modifies this, users.Values
      ensures Valid()
      ensures users == old(users) && nextPk == old(nextPk)
      ensures !HasUser(old(users), username) ==>
                && out == InvalidUsernameOrPassword
                && pending == old(pending) && sessionUser == old(sessionUser)
                && unchanged(users.Values)
      ensures HasUser(old(users), username) ==>
                var pk := PkOf(users, username);
                var u := users[pk];
                var step := AttemptLogin(old(u.LockoutState()), passwordOk(username, password), old(u.isTwoFactorEnabled), now);
                && out == step.outcome
                && u.LockoutState() == step.lockout
                && u.Profile() == old(u.Profile())
                && SessionState() == AfterLogin(old(SessionState()), out, pk)
                && (forall q :: q in users && q != pk ==> unchanged(users[q]))
    {
      if !exists pk :: pk in users && users[pk].username == username {
        return InvalidUsernameOrPassword;
      }
      var pk :| pk in users && users[pk].username == username;
      assert pk == PkOf(users, username);
      var user := users[pk];
      assert forall q :: q in users && q != pk ==> users[q] != user;
      out := LoginAttempt(user, passwordOk(username, password), now);
      var session := AfterLogin(Session(pending, sessionUser), out, pk);
      pending, sessionUser := session.pending, session.user;
    }

    /**
     * The second step. Without a marker naming an existing account it sends
     * back to the login page. A token that verifies completes the step as
     * `CompleteSecondStep` says: that account signed in and the marker gone
     * (see `AbandonedSecondStepFails` for the step as written). Any other
     * request keeps the marker. No account is
     * changed, so the lockout plays no part here.
     */
    method Verify2faView(token: Option<string>, now: int, totpVerify: (string, string, int) -> bool)
      returns (out: TwoFactorOutcome)
      requires Valid()
      modifies this
      ensures Valid()
      ensures users == old(users) && nextPk == old(nextPk)
      ensures unchanged(users.Values)
      ensures old(pending).None? || old(pending).value == 0 || old(pending).value !in users ==>
                out == RedirectToLogin && pending == old(pending) && sessionUser == old(sessionUser)
      ensures old(pending).Some? && old(pending).value != 0 && old(pending).value in users ==>
                var pk := old(pending).value;
                if TokenVerifies(token, users[pk].otpSecret, now, totpVerify) then
                  out == Succeeded && SessionState() == CompleteSecondStep(old(SessionState()), pk)
                  && sessionUser == Some(pk) && pending == None
                else
                  out == TokenFailure(token) && pending == old(pending) && sessionUser == old(sessionUser)
    {
      if pending.None? || pending.value == 0 {
        return RedirectToLogin;
      }
      var pk := pending.value;
      if pk !in users {
        return RedirectToLogin;
      }
      var user := users[pk];
      if token.None? {
        return ShowForm;
      }
      var form := CleanToken(token.value);
      if form.Err? {
        return FormRejected(form.error);
      }
      if totpVerify(user.otpSecret, form.value, now) {
        sessionUser := Some(pk);
        pending := None;
        return Succeeded;
      }
      return TokenRejected;
    }

    /**
     * Two-factor setup for the signed-in account. If it is already on,
     * nothing changes. An empty secret is first replaced by a fresh one; two-
     * factor is switched on only by a token that verifies against the secret.
     */
    method Setup2faView(token: Option<string>, now: int, freshSecret: string, totpVerify: (string, string, int) -> bool)
      returns (out: TwoFactorOutcome)
      requires Valid()
      requires IsGeneratedSecret(freshSecret)
      modifies users.Values
      ensures Valid()
      ensures !SignedIn() ==> out == RedirectToLogin && unchanged(users.Values)
      ensures SignedIn() ==>
                var u := users[sessionUser.value];
                && (forall q :: q in users && q != sessionUser.value ==> unchanged(users[q]))
                && u.LockoutState() == old(u.LockoutState())
                && u.phoneNumber == old(u.phoneNumber)
                && (old(u.isTwoFactorEnabled) ==> out == AlreadyEnabled && unchanged(u))
                && (!old(u.isTwoFactorEnabled) ==>
                      && u.otpSecret == (if old(u.otpSecret) == "" then freshSecret else old(u.otpSecret))
                      && u.isTwoFactorEnabled == TokenVerifies(token, u.otpSecret, now, totpVerify)
                      && out == (if u.isTwoFactorEnabled then Succeeded else TokenFailure(token)))
    {
      if sessionUser.None? || sessionUser.value !in users {
        return RedirectToLogin;
      }
      var user := users[sessionUser.value];
      if user.isTwoFactorEnabled {
        return AlreadyEnabled;
      }
      if user.otpSecret == "" {
        user.otpSecret := freshSecret;
      }
      if token.None? {
        return ShowForm;
      }
      var form := CleanToken(token.value);
      if form.Err? {
        return FormRejected(form.error);
      }
      if totpVerify(user.otpSecret, form.value, now) {
        user.isTwoFactorEnabled := true;
        return Succeeded;
      }
      return TokenRejected;
    }

    /**
     * Two-factor removal for the signed-in account. If it is off, nothing
     * changes. A token that verifies against the current secret switches it
     * off and replaces the secret by a fresh one; anything else changes nothing.
     */
    method Disable2faView(token: Option<string>, now: int, freshSecret: string, totpVerify: (string, string, int) -> bool)
      returns (out: TwoFactorOutcome)
      requires Valid()
      requires IsGeneratedSecret(freshSecret)
      modifies users.Values
      ensures Valid()
      ensures !SignedIn() ==> out == RedirectToLogin && unchanged(users.Values)
      ensures SignedIn() ==>
                var u := users[sessionUser.value];
                && (forall q :: q in users && q != sessionUser.value ==> unchanged(users[q]))
                && (!old(u.isTwoFactorEnabled) ==> out == NotEnabled && unchanged(u))
                && (old(u.isTwoFactorEnabled) ==>
                      if TokenVerifies(token, old(u.otpSecret), now, totpVerify) then
                        && out == Succeeded
                        && !u.isTwoFactorEnabled
                        && u.otpSecret == freshSecret
                        && u.LockoutState() == old(u.LockoutState())
                        && u.phoneNumber == old(u.phoneNumber)
                      else
                        out == TokenFailure(token) && unchanged(u))
    {
      if sessionUser.None? || sessionUser.value !in users {
        return RedirectToLogin;
      }
      var user := users[sessionUser.value];
      if !user.isTwoFactorEnabled {
        return NotEnabled;
      }
      if token.None? {
        return ShowForm;
      }
      var form := CleanToken(token.value);
      if form.Err? {
        return FormRejected(form.error);
      }
      if totpVerify(user.otpSecret, form.value, now) {
        user.isTwoFactorEnabled := false;
        user.otpSecret := freshSecret;
        return Succeeded;
      }
      return TokenRejected;
    }
  }
}
