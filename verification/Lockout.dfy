/** Account lockout of the sign-in sidecar: `lockoutUntil`, `isLocked`, and `postLogin` over the
    store's failure counter and lock deadline. */
module Lockout {
  import opened Wrappers
  import opened Timestamps

  const LOCKOUT_THRESHOLD := 5
  const LOCKOUT_BASE_DELAY: int := MINUTE
  const LOCKOUT_MAX_DELAY: int := 30 * MINUTE
  const MIN_PASSWORD: nat := 8

  // ---- the policy -------------------------------------------------------------------

  function Pow2(n: nat): (p: nat)
    ensures p > 0
  {
    if n == 0 then 1 else 2 * Pow2(n - 1)
  }

  /** min(2^(attempts - 5), 30) minutes. */
  function Delay(attempts: nat): int
    requires attempts >= LOCKOUT_THRESHOLD
  {
    var minutes := Pow2(attempts - LOCKOUT_THRESHOLD);
    (if minutes < 30 then minutes else 30) * MINUTE
  }

  /** The lock deadline after `attempts` failures, none below the threshold. */
  function Deadline(now: int, attempts: nat): Option<int> {
    if attempts < LOCKOUT_THRESHOLD then None else Some(now + Delay(attempts))
  }

  lemma {:induction false} Pow2Grows(a: nat, b: nat)
    requires a <= b
    ensures Pow2(a) <= Pow2(b)
  {
    if a < b {
      Pow2Grows(a, b - 1);
    }
  }

  method LockoutUntil(now: int, attempts: int) returns (until: Option<int>)
    ensures until == if attempts < 0 then None else Deadline(now, attempts)
  {
    if attempts < LOCKOUT_THRESHOLD {
      return None;
    }
    var over := attempts - LOCKOUT_THRESHOLD;
    var d := LOCKOUT_BASE_DELAY;
    var i := 0;
    while i < over
      invariant 0 <= i <= over
      invariant d == Pow2(i) * MINUTE && Pow2(i) < 30
    {
      d := d * 2;
      i := i + 1;
      if d >= LOCKOUT_MAX_DELAY {
        Pow2Grows(i, over);
        assert Pow2(i) >= 30;
        d := LOCKOUT_MAX_DELAY;
        break;
      }
    }
    assert d == Delay(attempts);
    if d <= 0 || d > LOCKOUT_MAX_DELAY {
      d := LOCKOUT_MAX_DELAY;
    }
    until := Some(now + d);
  }

  predicate IsLocked(lockedUntil: Option<int>, now: int) {
    lockedUntil.Some? && lockedUntil.value > now
  }

  // ---- the account and the sign-in handler ---------------------------------------------

  datatype Account = Account(email: string, passwordHash: string, emailVerified: bool, failedAttempts: int, lockedUntil: Option<int>)

  datatype Login = MissingInput | NoSuchUser | TooManyFailures | OAuthOnly | WrongPassword | Unverified | SignedIn

  /** From the fifth failure on, each one comes no earlier than the delay the one before it set. */
  ghost predicate Spaced(fails: seq<int>) {
    forall k :: LOCKOUT_THRESHOLD <= k < |fails| ==> fails[k] >= fails[k - 1] + Delay(k)
  }

  /** The row of an account tells its failures since the last reset. */
  ghost predicate Tells(a: Account, fails: seq<int>) {
    && Spaced(fails)
    && a.failedAttempts == |fails|
    && a.lockedUntil == if fails == [] then None else Deadline(fails[|fails| - 1], |fails|)
  }

  lemma FailureRecorded(a: Account, fails: seq<int>, now: int, later: int)
    requires Tells(a, fails) && !IsLocked(a.lockedUntil, now) && now <= later
    ensures Tells(a.(failedAttempts := |fails| + 1, lockedUntil := Deadline(later, |fails| + 1)), fails + [later])
  {}

  /** The users table, with the recorded failures of every account as a ghost. `matches` is the bcrypt
      comparison of a hash and a password. */
  class Store {
    var accounts: map<string, Account>
    const matches: (string, string) -> bool
    const requireVerification: bool
    ghost var fails: map<string, seq<int>>

    ghost predicate Valid()
      reads this
    {
      && fails.Keys == accounts.Keys
      && forall id :: id in accounts ==> Tells(accounts[id], fails[id])
    }

    constructor (matches: (string, string) -> bool, requireVerification: bool)
      ensures Valid() && accounts == map[] && this.matches == matches && this.requireVerification == requireVerification
    {
      this.matches, this.requireVerification := matches, requireVerification;
      accounts, fails := map[], map[];
    }

    method AddAccount(id: string, email: string, passwordHash: string)
      requires Valid() && id !in accounts
      modifies this
      ensures Valid() && fails == old(fails)[id := []]
      ensures accounts == old(accounts)[id := Account(email, passwordHash, false, 0, None)]
    {
      accounts := accounts[id := Account(email, passwordHash, false, 0, None)];
      fails := fails[id := []];
    }

    method GetUserByEmail(email: string) returns (id: Option<string>)
      ensures id.Some? ==> id.value in accounts && accounts[id.value].email == email
      ensures id.None? ==> forall i :: i in accounts ==> accounts[i].email != email
    {
      if i :| i in accounts && accounts[i].email == email {
        return Some(i);
      }
      id := None;
    }

    method RecordLoginFailure(id: string, attempts: int, lockedUntil: Option<int>)
      modifies this`accounts
      ensures accounts == if id in old(accounts)
                          then old(accounts)[id := old(accounts)[id].(failedAttempts := attempts, lockedUntil := lockedUntil)]
                          else old(accounts)
    {
      if id in accounts {
        accounts := accounts[id := accounts[id].(failedAttempts := attempts, lockedUntil := lockedUntil)];
      }
    }

    method ResetLoginAttempts(id: string)
      requires Valid()
      modifies this
      ensures Valid() && fails == if id in old(accounts) then old(fails)[id := []] else old(fails)
      ensures accounts == if id in old(accounts)
                          then old(accounts)[id := old(accounts)[id].(failedAttempts := 0, lockedUntil := None)]
                          else old(accounts)
    {
      if id in accounts {
        accounts := accounts[id := accounts[id].(failedAttempts := 0, lockedUntil := None)];
        fails := fails[id := []];
      }
    }

    /** A reset unlocks the account together with the new hash, or changes nothing. `hash` is what bcrypt makes
        of the password, which it refuses if it is too long, and `writes` whether the UPDATE succeeds. */
    method UpdatePassword(id: string, newPassword: string, hash: Option<string>, writes: bool) returns (ok: bool)
      requires Valid()
      modifies this
      ensures Valid() && ok == (|newPassword| >= 8 && hash.Some? && writes && id in old(accounts))
      ensures accounts == if ok then old(accounts)[id := old(accounts)[id].(passwordHash := hash.value, failedAttempts := 0, lockedUntil := None)]
                          else old(accounts)
      ensures fails == if ok then old(fails)[id := []] else old(fails)
    {
      if |newPassword| < MIN_PASSWORD {
        return false;
      }
      if hash.None? {
        return false;
      }
      if !writes || id !in accounts {
        return false;
      }
      accounts := accounts[id := accounts[id].(passwordHash := hash.value, failedAttempts := 0, lockedUntil := None)];
      fails := fails[id := []];
      ok := true;
    }

    /** The handler's `recordLoginFailure`: it writes what it read plus one, with the deadline of that
        count; `persisted` says whether the best-effort write reached the table. */
    method CountFailure(id: string, now: int, later: int, persisted: bool)
      requires Valid() && id in accounts && !IsLocked(accounts[id].lockedUntil, now) && now <= later
      modifies this
      ensures Valid()
      ensures fails == if persisted then old(fails)[id := old(fails)[id] + [later]] else old(fails)
      ensures accounts == if persisted
                          then old(accounts)[id := old(accounts)[id].(failedAttempts := |fails[id]|, lockedUntil := Deadline(later, |fails[id]|))]
                          else old(accounts)
    {
      var attempts := accounts[id].failedAttempts + 1;
      var until := LockoutUntil(later, attempts);
      FailureRecorded(accounts[id], fails[id], now, later);
      if persisted {
        RecordLoginFailure(id, attempts, until);
        fails := fails[id := fails[id] + [later]];
      }
    }

    /** `now` is the clock at the lock check, `later` at the recording of a failure; `persisted` and
        `cleared` say whether the best-effort writes reached the table. A locked account is refused
        whatever the password; only a wrong password adds a failure, only a sign-in clears them. */
    method PostLogin(email: string, password: string, now: int, later: int, persisted: bool, cleared: bool)
      returns (r: Login, id: Option<string>)
      requires Valid() && now <= later
      modifies this
      ensures Valid()
      ensures r == MissingInput <==> email == "" || password == ""
      ensures r == NoSuchUser <==> email != "" && password != "" && forall i :: i in old(accounts) ==> old(accounts)[i].email != email
      ensures id.Some? <==> r !in {MissingInput, NoSuchUser}
      ensures id.Some? ==> id.value in old(accounts) && old(accounts)[id.value].email == email
      ensures id.Some? ==> 
                (r == TooManyFailures <==>
                 var until := old(accounts)[id.value].lockedUntil;
                 until.Some? && now < until.value)
      ensures id.Some? && r != TooManyFailures ==>
                var a := old(accounts)[id.value];
                && (r == OAuthOnly <==> a.passwordHash == "")
                && (r == WrongPassword <==> a.passwordHash != "" && !matches(a.passwordHash, password))
                && (r == SignedIn <==> a.passwordHash != "" && matches(a.passwordHash, password) && (requireVerification ==> a.emailVerified))
      ensures accounts == if r == WrongPassword && persisted then
                            var n := old(accounts)[id.value].failedAttempts + 1;
                            old(accounts)[id.value := old(accounts)[id.value].(failedAttempts := n,
                              lockedUntil := if n < 0 then None else Deadline(later, n))]
                          else if r == SignedIn && cleared then
                            old(accounts)[id.value := old(accounts)[id.value].(failedAttempts := 0, lockedUntil := None)]
                          else old(accounts)
      ensures fails == if r == WrongPassword && persisted then old(fails)[id.value := old(fails)[id.value] + [later]]
                       else if r == SignedIn && cleared then old(fails)[id.value := []]
                       else old(fails)
    {
      assert forall i :: i in accounts ==> accounts[i].failedAttempts == |fails[i]|;
      hide Tells, Deadline;
      id := None;
      if email == "" || password == "" {
        return MissingInput, id;
      }
      id := GetUserByEmail(email);
      if id.None? {
        return NoSuchUser, id;
      }
      var user := accounts[id.value];
      if IsLocked(user.lockedUntil, now) {
        return TooManyFailures, id;
      }
      if user.passwordHash == "" {
        return OAuthOnly, id;
      }
      if !matches(user.passwordHash, password) {
        CountFailure(id.value, now, later, persisted);
        return WrongPassword, id;
      }
      if requireVerification && !user.emailVerified {
        return Unverified, id;
      }
      if cleared {
        ResetLoginAttempts(id.value);
      }
      r := SignedIn;
    }
  }

  // ---- how slowly an account can be guessed -----------------------------------------------

  /** Without a reset in between, failure number n >= 10 comes at least 31 + 30 (n - 10) minutes after
      failure number 5. */
  lemma {:induction false} GuessingIsSlow(fails: seq<int>, n: nat)
    requires Spaced(fails) && 10 <= n <= |fails|
    ensures fails[n - 1] >= fails[4] + (31 + 30 * (n - 10)) * MINUTE
  {
    if n == 10 {
      DelaysBeforeTheCap();
      assert fails[5] >= fails[4] + Delay(5) && fails[6] >= fails[5] + Delay(6) && fails[7] >= fails[6] + Delay(7);
      assert fails[8] >= fails[7] + Delay(8) && fails[9] >= fails[8] + Delay(9);
    } else {
      GuessingIsSlow(fails, n - 1);
      Pow2Grows(5, n - 1 - LOCKOUT_THRESHOLD);
      DelaysBeforeTheCap();
      assert fails[n - 1] >= fails[n - 2] + Delay(n - 1);
    }
  }

  /** When an account is locked, by its failures since the last reset alone: from the fifth on, until the delay
      of that many failures, doubled from one minute up to thirty, has passed since the last. So every lock
      ends, and from its deadline on the right password signs in. */
  lemma LockedIff(a: Account, fails: seq<int>, now: int)
    requires Tells(a, fails)
    ensures IsLocked(a.lockedUntil, now) <==>
            var n := |fails|;
            n >= 5 && now < fails[n - 1] + (if n == 5 then 1 else if n == 6 then 2 else if n == 7 then 4 else if n == 8 then 8
                                            else if n == 9 then 16 else 30) * 60 * SECOND
  {
    DelaysBeforeTheCap();
    if |fails| >= 10 {
      Pow2Grows(5, |fails| - 5);
    }
  }

  lemma DelaysBeforeTheCap()
    ensures Delay(5) == MINUTE && Delay(6) == 2 * MINUTE && Delay(7) == 4 * MINUTE && Delay(8) == 8 * MINUTE && Delay(9) == 16 * MINUTE
    ensures Pow2(5) == 32
  {
    assert Pow2(1) == 2 && Pow2(2) == 4 && Pow2(3) == 8 && Pow2(4) == 16;
  }

  /** The same of the table: no run of `PostLogin` calls gets ten failures in faster. */
  lemma TableGuessingIsSlow(s: Store, id: string, n: nat)
    requires s.Valid() && id in s.accounts && 10 <= n <= |s.fails[id]|
    ensures s.fails[id][n - 1] >= s.fails[id][4] + (31 + 30 * (n - 10)) * MINUTE
  {
    assert Tells(s.accounts[id], s.fails[id]);
    GuessingIsSlow(s.fails[id], n);
  }
}
