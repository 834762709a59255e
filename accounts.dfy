/**
 * The account record and its lockout policy: three failed logins lock the
 * account for thirty minutes, a successful login or an expired lockout
 * resets it.
 *
 * Time is integer seconds, passed in as `now`. The lockout fields are also
 * given as a value, `Lockout`, so that the policy can be stated and proved
 * about on values; the methods of `User` change the fields in place and are
 * proved against those functions.
 */
module Accounts {
  import opened Common

  /** Failed logins that lock the account. */
  const MaxFailedAttempts := 3
  /** Thirty minutes. */
  const LockoutSeconds := 30 * 60

  /** The four lockout fields of an account. */
  datatype Lockout = Lockout(
    failedLoginAttempts: int,
    lastFailedLogin: Option<int>,
    isLocked: bool,
    lockoutUntil: Option<int>)

  /** The field defaults of a new account, and the state every reset returns to. */
  const Unlocked := Lockout(0, None, false, None)

  /**
   * What the policy keeps true from the defaults on: a lock exists exactly
   * when three or more failures have been counted since the last reset, and
   * its deadline is thirty minutes after the failure that set it.
   */
  ghost predicate Consistent(s: Lockout) {
    && s.failedLoginAttempts >= 0
    && (s.isLocked <==> s.failedLoginAttempts >= MaxFailedAttempts)
    && (s.lockoutUntil.Some? <==> s.failedLoginAttempts >= MaxFailedAttempts)
    && (s.lastFailedLogin.Some? <==> s.failedLoginAttempts > 0)
    && (s.lockoutUntil.Some? ==> s.lockoutUntil.value == s.lastFailedLogin.value + LockoutSeconds)
  }

  /** One failed login at time `now`. */
  function RecordFailure(s: Lockout, now: int): (r: Lockout)
    ensures Consistent(s) ==> Consistent(r)
  {
    var n := s.failedLoginAttempts + 1;
    if n >= MaxFailedAttempts then
      Lockout(n, Some(now), true, Some(now + LockoutSeconds))
    else
      s.(failedLoginAttempts := n, lastFailedLogin := Some(now))
  }

  /** Whether a lockout deadline exists and `now` is strictly after it. */
  predicate LockoutExpired(s: Lockout, now: int) {
    s.lockoutUntil.Some? && now > s.lockoutUntil.value
  }

  /** Consecutive failed logins at the given times, oldest first. */
  function RecordFailures(s: Lockout, times: seq<int>): Lockout {
    if times == [] then s
    else RecordFailure(RecordFailures(s, times[..|times| - 1]), times[|times| - 1])
  }

  lemma {:induction false} RecordFailuresCount(s: Lockout, times: seq<int>)
    ensures RecordFailures(s, times).failedLoginAttempts == s.failedLoginAttempts + |times|
    ensures times != [] ==> RecordFailures(s, times).lastFailedLogin == Some(times[|times| - 1])
  {
    if times != [] {
      RecordFailuresCount(s, times[..|times| - 1]);
    }
  }

  /**
   * Once failures reach the threshold the account is locked, and the deadline
   * is thirty minutes after the latest failure: every later failure sets it again.
   */
  lemma RecordFailuresLock(s: Lockout, times: seq<int>)
    requires times != []
    requires s.failedLoginAttempts + |times| >= MaxFailedAttempts
    ensures RecordFailures(s, times).isLocked
    ensures RecordFailures(s, times).lockoutUntil == Some(times[|times| - 1] + LockoutSeconds)
  {
    RecordFailuresCount(s, times[..|times| - 1]);
  }

  /** Three consecutive failures from the defaults leave the account locked for thirty minutes. */
  lemma ThreeFailuresLock(t1: int, t2: int, t3: int)
    ensures RecordFailures(Unlocked, [t1, t2, t3]).isLocked
    ensures RecordFailures(Unlocked, [t1, t2, t3]).lockoutUntil == Some(t3 + LockoutSeconds)
  {
    RecordFailuresLock(Unlocked, [t1, t2, t3]);
  }

  /** The defaults satisfy the policy invariant. */
  lemma DefaultsConsistent()
    ensures Consistent(Unlocked)
  {
  }

  /** Under the policy invariant a locked account always has a deadline. */
  lemma LockHasDeadline(s: Lockout)
    requires Consistent(s)
    ensures s.isLocked ==> s.lockoutUntil.Some? && s.failedLoginAttempts >= MaxFailedAttempts
  {
  }

  /** A lock set by a failure at or before `now` ends at most thirty minutes after `now`. */
  lemma LockWithinWindow(s: Lockout, now: int)
    requires Consistent(s) && s.isLocked
    requires s.lastFailedLogin.value <= now
    ensures s.lockoutUntil.value - now <= LockoutSeconds
  {
  }

  /** The longest phone number the account record stores. */
  const PhoneNumberMaxLength := 15

  /** A character the inherited username validator admits: a word character or one of `.@+-`. */
  predicate IsUsernameCharacter(c: char) {
    'a' <= c <= 'z' || 'A' <= c <= 'Z' || '0' <= c <= '9' || c in "_.@+-"
  }

  /**
   * The record's own field validation, which registration runs after the
   * form: a non-empty username of admitted characters, and a phone number
   * of at most 15 characters.
   */
  predicate ValidUserFields(username: string, phoneNumber: string) {
    && username != []
    && (forall i :: 0 <= i < |username| ==> IsUsernameCharacter(username[i]))
    && |phoneNumber| <= PhoneNumberMaxLength
  }

  /** A name with a space passes no username validator; an underscore and a 15-digit phone pass. */
  lemma UserFieldExamples()
    ensures !ValidUserFields("alice 01", "")
    ensures ValidUserFields("alice_01", "+12025550123")
    ensures !ValidUserFields("alice_01", "1234567890123456")
  {
    assert "alice 01"[5] == ' ';
  }

  /** An account: its lockout fields, its two-factor fields and its profile. */
  class User {
    const pk: int
    const username: string
    var failedLoginAttempts: int
    var lastFailedLogin: Option<int>
    var isLocked: bool
    var lockoutUntil: Option<int>
    var isTwoFactorEnabled: bool
    var otpSecret: string
    var phoneNumber: string

    ghost function LockoutState(): Lockout
      reads this
    {
      Lockout(failedLoginAttempts, lastFailedLogin, isLocked, lockoutUntil)
    }

    /** The fields the lockout methods must leave alone. */
    ghost function Profile(): (bool, string, string)
      reads this
    {
      (isTwoFactorEnabled, otpSecret, phoneNumber)
    }

    ghost predicate Valid()
      reads this
    {
      && Consistent(LockoutState())
      && (isTwoFactorEnabled ==> otpSecret != "")
    }

    /** A new account: lockout defaults, two-factor off, the given secret. */
    constructor (pk: int, username: string, otpSecret: string, phoneNumber: string)
      ensures this.pk == pk && this.username == username
      ensures LockoutState() == Unlocked
      ensures Profile() == (false, otpSecret, phoneNumber)
      ensures Valid()
    {
      this.pk := pk;
      this.username := username;
      failedLoginAttempts := 0;
      lastFailedLogin := None;
      isLocked := false;
      lockoutUntil := None;
      isTwoFactorEnabled := false;
      this.otpSecret := otpSecret;
      this.phoneNumber := phoneNumber;
    }

    /** Count one failed login; the third and every later one (re)sets a thirty-minute lock. */
    method IncrementFailedLogin(now: int)
      modifies this
      ensures failedLoginAttempts == old(failedLoginAttempts) + 1
      ensures lastFailedLogin == Some(now)
      ensures failedLoginAttempts >= MaxFailedAttempts ==> isLocked && lockoutUntil == Some(now + LockoutSeconds)
      ensures failedLoginAttempts < MaxFailedAttempts ==> isLocked == old(isLocked) && lockoutUntil == old(lockoutUntil)
      ensures LockoutState() == RecordFailure(old(LockoutState()), now)
      ensures Profile() == old(Profile())
      ensures old(Valid()) ==> Valid()
    {
      failedLoginAttempts := failedLoginAttempts + 1;
      lastFailedLogin := Some(now);
      if failedLoginAttempts >= MaxFailedAttempts {
        isLocked := true;
        lockoutUntil := Some(now + LockoutSeconds);
      }
    }

    /** Clear the counter and any lock; the result does not depend on the state before. */
    method ResetFailedAttempts()
      modifies this
      ensures LockoutState() == Unlocked
      ensures Profile() == old(Profile())
      ensures old(Valid()) ==> Valid()
    {
      failedLoginAttempts := 0;
      lastFailedLogin := None;
      isLocked := false;
      lockoutUntil := None;
    }

    /** If the deadline has passed, reset the account and say so; otherwise change nothing. */
    method IsLockoutExpired(now: int) returns (expired: bool)
      modifies this
      ensures expired <==> LockoutExpired(old(LockoutState()), now)
      ensures LockoutState() == if expired then Unlocked else old(LockoutState())
      ensures Profile() == old(Profile())
      ensures old(Valid()) ==> Valid()
    {
      if lockoutUntil.Some? && now > lockoutUntil.value {
        ResetFailedAttempts();
        return true;
      }
      return false;
    }
  }
}
