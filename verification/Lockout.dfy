/** The PIN lockout of joinSession (src/modules/table-sessions/table-session.service.js:21-23,
    116-145). Times are in milliseconds; whether the PIN matches is given. */
module Lockout {
  import opened Data

  const FAIL_AFTER := 3
  const BASE_SECONDS := 60

  datatype Guard = Guard(failedAttempts: nat, lockoutLevel: nat, lockoutUntil: Option<int>)

  datatype Outcome = Joined | WrongPin(remaining: nat) | LockedOut(seconds: int)

  datatype Attempt = Attempt(now: int, matches: bool)

  function Pow2(n: nat): (p: nat)
    ensures p >= 1
  {
    if n == 0 then 1 else 2 * Pow2(n - 1)
  }

  predicate IsLocked(g: Guard, now: int) {
    g.lockoutUntil.Some? && g.lockoutUntil.value > now
  }

  function AfterWrong(g: Guard, now: int): Guard {
    var failed := g.failedAttempts + 1;
    if failed >= FAIL_AFTER
    then Guard(failed, failed / FAIL_AFTER, Some(now + BASE_SECONDS * Pow2(failed / FAIL_AFTER) * 1000))
    else Guard(failed, 0, None)
  }

  function Try(g: Guard, a: Attempt): Guard {
    if IsLocked(g, a.now) then g
    else if a.matches then Guard(0, 0, None)
    else AfterWrong(g, a.now)
  }

  /** The attempts whose PIN was compared and wrong since the last success, oldest first. */
  function Failures(g: Guard, attempts: seq<Attempt>, so: seq<int>): seq<int>
    decreases |attempts|
  {
    if attempts == [] then so
    else
      var a := attempts[0];
      Failures(Try(g, a), attempts[1..],
        if IsLocked(g, a.now) then so else if a.matches then [] else so + [a.now])
  }

  function After(g: Guard, attempts: seq<Attempt>): Guard
    decreases |attempts|
  {
    if attempts == [] then g else After(Try(g, attempts[0]), attempts[1..])
  }

  /** The seconds that n consecutive failures take at least: the lockouts after failures
      3, ..., n - 1. */
  function LeastSeconds(n: nat): nat {
    if n <= FAIL_AFTER then 0 else LeastSeconds(n - 1) + BASE_SECONDS * Pow2((n - 1) / FAIL_AFTER)
  }

  const CLEAN := Guard(0, 0, None)

  predicate Ordered(attempts: seq<Attempt>) {
    forall i, j :: 0 <= i < j < |attempts| ==> attempts[i].now <= attempts[j].now
  }

  /** The guard counts the failures, locks from the last one, and they are far enough apart. */
  ghost predicate GuardOk(g: Guard, failures: seq<int>) {
    && g.failedAttempts == |failures|
    && g.lockoutLevel == |failures| / FAIL_AFTER
    && (|failures| < FAIL_AFTER ==> g.lockoutUntil.None?)
    && (|failures| >= FAIL_AFTER ==>
          g.lockoutUntil == Some(failures[|failures| - 1] + BASE_SECONDS * Pow2(|failures| / FAIL_AFTER) * 1000))
    && forall i :: 0 <= i < |failures| ==> failures[i] - failures[0] >= 1000 * LeastSeconds(i + 1)
  }

  lemma FailureKeepsGuard(g: Guard, failures: seq<int>, now: int)
    requires GuardOk(g, failures) && !IsLocked(g, now)
    requires |failures| > 0 ==> failures[|failures| - 1] <= now
    ensures GuardOk(AfterWrong(g, now), failures + [now])
  {
    var n := |failures|;
    if n >= FAIL_AFTER {
      assert failures[n - 1] - failures[0] >= 1000 * LeastSeconds(n);
      assert LeastSeconds(n + 1) == LeastSeconds(n) + BASE_SECONDS * Pow2(n / FAIL_AFTER);
    }
  }

  lemma {:induction false} RunKeepsGuard(g: Guard, attempts: seq<Attempt>, failures: seq<int>)
    requires GuardOk(g, failures) && Ordered(attempts)
    requires attempts != [] && failures != [] ==> failures[|failures| - 1] <= attempts[0].now
    ensures GuardOk(After(g, attempts), Failures(g, attempts, failures))
    decreases |attempts|
  {
    if attempts != [] {
      var a := attempts[0];
      if !IsLocked(g, a.now) && !a.matches {
        FailureKeepsGuard(g, failures, a.now);
        RunKeepsGuard(Try(g, a), attempts[1..], failures + [a.now]);
      } else if !IsLocked(g, a.now) {
        RunKeepsGuard(CLEAN, attempts[1..], []);
      } else {
        RunKeepsGuard(g, attempts[1..], failures);
      }
    }
  }

  /** n consecutive wrong PINs take at least LeastSeconds(n) seconds from the first to the last,
      and the guard counts exactly the compared failures since the last success. */
  lemma GuessingTakesTime(attempts: seq<Attempt>)
    requires Ordered(attempts)
    ensures var failures := Failures(CLEAN, attempts, []);
            && After(CLEAN, attempts).failedAttempts == |failures|
            && (failures != [] ==> failures[|failures| - 1] - failures[0] >= 1000 * LeastSeconds(|failures|))
  {
    RunKeepsGuard(CLEAN, attempts, []);
  }

  /** Exactly when an attempt is turned away uncompared: there were three failures or more since the
      last success, and the last of n is less than 60 * 2^(n / 3) seconds ago. */
  lemma LockedIff(attempts: seq<Attempt>, now: int)
    requires Ordered(attempts)
    ensures var failures := Failures(CLEAN, attempts, []);
            IsLocked(After(CLEAN, attempts), now)
            <==> |failures| >= 3 && now - failures[|failures| - 1] < 1000 * (60 * Pow2(|failures| / 3))
  {
    RunKeepsGuard(CLEAN, attempts, []);
  }

  /** The bound doubles with every three failures. */
  lemma {:induction false} LeastSecondsClosed(m: nat)
    requires m >= 1
    ensures LeastSeconds(3 * m) == 180 * (Pow2(m) - 2)
  {
    hide Pow2;
    if m == 1 {
      PowersOfTwo(0);
    } else {
      LeastSecondsClosed(m - 1);
      NextThree(m - 1);
      PowersOfTwo(m - 1);
    }
  }

  lemma PowersOfTwo(n: nat)
    ensures Pow2(n + 1) == 2 * Pow2(n) && Pow2(0) == 1
  {
  }

  /** Three more failures, all at the lockout of level `m`. */
  lemma {:induction false} NextThree(m: nat)
    requires m >= 1
    ensures LeastSeconds(3 * m + 3) == LeastSeconds(3 * m) + 180 * Pow2(m)
  {
    hide Pow2, LeastSeconds;
    NextFailure(3 * m, m);
    NextFailure(3 * m + 1, m);
    NextFailure(3 * m + 2, m);
  }

  lemma {:induction false} NextFailure(n: nat, m: nat)
    requires m >= 1 && 3 * m <= n <= 3 * m + 2
    ensures LeastSeconds(n + 1) == LeastSeconds(n) + BASE_SECONDS * Pow2(m)
  {
    hide Pow2;
    assert n / FAIL_AFTER == m;
  }

  /** The lockout columns of a session. */
  class JoinGuard {
    var failedAttempts: nat
    var lockoutLevel: nat
    var lockoutUntil: Option<int>

    function Value(): Guard
      reads this
    {
      Guard(failedAttempts, lockoutLevel, lockoutUntil)
    }

    constructor ()
      ensures Value() == CLEAN
    {
      failedAttempts, lockoutLevel, lockoutUntil := 0, 0, None;
    }

    method Lock(failed: nat, level: nat, until: Option<int>)
      modifies this
      ensures Value() == Guard(failed, level, until)
    {
      failedAttempts, lockoutLevel, lockoutUntil := failed, level, until;
    }

    /** joinSession up to the new member. While locked out nothing is compared or counted. */
    method Join(now: int, matches: bool) returns (outcome: Outcome)
      modifies this
      ensures Value() == Try(old(Value()), Attempt(now, matches))
      ensures outcome.LockedOut? <==> IsLocked(old(Value()), now)
      ensures outcome.LockedOut? ==>
                1000 * outcome.seconds >= old(lockoutUntil).value - now > 1000 * (outcome.seconds - 1)
      ensures outcome.Joined? <==> !IsLocked(old(Value()), now) && matches
      ensures outcome.WrongPin? ==> outcome.remaining == if failedAttempts < 3 then 3 - failedAttempts else 0
    {
      if lockoutUntil.Some? && lockoutUntil.value > now {
        return LockedOut((lockoutUntil.value - now + 999) / 1000);
      }
      if !matches {
        var failed := failedAttempts + 1;
        var until: Option<int> := None;
        var level := 0;
        if failed >= FAIL_AFTER {
          level := failed / FAIL_AFTER;
          until := Some(now + BASE_SECONDS * Pow2(level) * 1000);
        }
        Lock(failed, level, until);
        return WrongPin(if failed < FAIL_AFTER then FAIL_AFTER - failed else 0);
      }
      Lock(0, 0, None);
      outcome := Joined;
    }
  }
}
