/**
 The unlock rate limiter: a clocked state machine with exponential backoff, a cap and an
 idle reset. The shipped build has no overflow checks, so the backoff arithmetic wraps at
 64 bits, and the model keeps that wrap-around.
 */
module RateLimiter {
  const MAX_ATTEMPTS: nat := 5
  const BASE_LOCKOUT_MS: nat := 1000
  const MAX_LOCKOUT_MS: nat := 300_000
  const RESET_AFTER_MS: nat := 900_000

  // The number of guesses a quarter of an hour is meant to allow.
  const GUESSES: nat := 15

  const TWO_TO_64: nat := 0x1_0000_0000_0000_0000

  /** Milliseconds since the epoch, far enough below 2^64 that adding a quarter of an hour cannot wrap. */
  type Clock = t: nat | t < 0x8000_0000_0000_0000

  function Pow2(n: nat): (p: nat)
    ensures p >= 1
  {
    if n == 0 then 1 else 2 * Pow2(n - 1)
  }

  function Min(a: nat, b: nat): nat {
    if a < b then a else b
  }

  function Max(a: nat, b: nat): nat {
    if a < b then b else a
  }

  // The backoff as it is computed: both the power and the product wrap at 2^64.
  function LockoutDuration(attempts: nat): (ms: nat)
    ensures ms <= MAX_LOCKOUT_MS
  {
    if attempts < MAX_ATTEMPTS then 0
    else Min(BASE_LOCKOUT_MS * (Pow2(attempts - MAX_ATTEMPTS) % TWO_TO_64) % TWO_TO_64, MAX_LOCKOUT_MS)
  }

  // The backoff as it is documented: 1s, 2s, 4s, ... up to five minutes.
  function Backoff(attempts: nat): (ms: nat) {
    if attempts < 5 then 0 else Min(1000 * Pow2(attempts - 5), 300_000)
  }

  // ---------- State and operations ----------

  datatype Limiter = Limiter(attempts: nat, lastAttempt: nat, lockedUntil: nat)

  const FRESH := Limiter(0, 0, 0)

  predicate Idle(s: Limiter, now: nat) {
    now > s.lastAttempt + RESET_AFTER_MS && s.lastAttempt > 0
  }

  predicate Limited(s: Limiter, now: nat) {
    !Idle(s, now) && s.lockedUntil > now
  }

  function AfterCheck(s: Limiter, now: nat): Limiter {
    if Idle(s, now) then FRESH else s
  }

  function AfterFailure(s: Limiter, now: nat): Limiter {
    var kept := if Idle(s, now) then FRESH else s;
    var attempts := kept.attempts + 1;
    Limiter(attempts, now,
            if attempts >= MAX_ATTEMPTS then now + LockoutDuration(attempts) else kept.lockedUntil)
  }

  // What a recorded failure reports: that it has set a lock.
  predicate Locked(s: Limiter) {
    s.attempts >= MAX_ATTEMPTS
  }

  // n failures at one moment.
  function FailuresAt(s: Limiter, now: nat, n: nat): Limiter {
    if n == 0 then s else AfterFailure(FailuresAt(s, now, n - 1), now)
  }

  lemma {:induction false} FailuresAreCounted(s: Limiter, now: nat, n: nat)
    requires n >= 1
    ensures FailuresAt(s, now, n).lastAttempt == now
    ensures FailuresAt(s, now, n).attempts == n + if Idle(s, now) then 0 else s.attempts
  {
    if n == 1 {
      assert FailuresAt(s, now, 0) == s;
    } else {
      FailuresAreCounted(s, now, n - 1);
    }
  }

  class RateLimitState {
    var attempts: nat
    var lastAttempt: Clock
    var lockedUntil: nat

    function State(): Limiter
      reads this
    {
      Limiter(attempts, lastAttempt, lockedUntil)
    }

    constructor ()
      ensures State() == FRESH
    {
      attempts, lastAttempt, lockedUntil := 0, 0, 0;
    }

    method CheckLimit(now: Clock) returns (limited: bool, remaining: nat)
      modifies this
      ensures State() == AfterCheck(old(State()), now)
      ensures limited <==> Limited(old(State()), now)
      ensures remaining == if limited then old(lockedUntil) - now else 0
    {
      if now > lastAttempt + RESET_AFTER_MS && lastAttempt > 0 {
        attempts, lastAttempt, lockedUntil := 0, 0, 0;
        return false, 0;
      }
      if lockedUntil > now {
        return true, lockedUntil - now;
      }
      return false, 0;
    }

    // The counter is 32 bits wide.
    method RecordFailed(now: Clock) returns (locked: bool, lockoutMs: nat, remaining: nat)
      requires attempts < 0xFFFF_FFFF
      modifies this
      ensures State() == AfterFailure(old(State()), now)
      ensures locked <==> Locked(State())
      ensures locked <==> attempts >= 5
      ensures lockoutMs == if locked then lockedUntil - now else 0
      ensures attempts + remaining == if locked then attempts else MAX_ATTEMPTS
    {
      if now > lastAttempt + RESET_AFTER_MS && lastAttempt > 0 {
        attempts, lockedUntil := 0, 0;
      }
      attempts := attempts + 1;
      lastAttempt := now;
      if attempts >= MAX_ATTEMPTS {
        lockoutMs := LockoutDuration(attempts);
        lockedUntil := now + lockoutMs;
        return true, lockoutMs, 0;
      }
      return false, 0, MAX_ATTEMPTS - attempts;
    }

    method RecordSuccess()
      modifies this
      ensures State() == FRESH
    {
      attempts, lastAttempt, lockedUntil := 0, 0, 0;
    }

    // Tells how many failures, starting now, there are up to and including the first that
    // locks; 0 if the last one did. It changes nothing.
    method RemainingAttempts(now: Clock) returns (remaining: nat)
      ensures remaining <= MAX_ATTEMPTS
      ensures remaining == 0 <==> !Idle(State(), now) && Locked(State())
      ensures forall n: nat :: n >= 1 ==> (Locked(FailuresAt(State(), now, n)) <==> n >= remaining)
    {
      forall n: nat | n >= 1
        ensures FailuresAt(State(), now, n).attempts == n + if Idle(State(), now) then 0 else attempts
      {
        FailuresAreCounted(State(), now, n);
      }
      if now > lastAttempt + RESET_AFTER_MS && lastAttempt > 0 {
        return MAX_ATTEMPTS;
      }
      if attempts >= MAX_ATTEMPTS {
        return 0;
      }
      return MAX_ATTEMPTS - attempts;
    }
  }

  // ---------- The backoff formula ----------

  lemma {:induction false} Pow2Adds(a: nat, b: nat)
    ensures Pow2(a + b) == Pow2(a) * Pow2(b)
  {
    if a == 0 {
    } else {
      Pow2Adds(a - 1, b);
    }
  }

  lemma {:induction false} Pow2Monotone(a: nat, b: nat)
    requires a <= b
    ensures Pow2(a) <= Pow2(b)
  {
    if a == b {
    } else {
      Pow2Monotone(a, b - 1);
    }
  }

  lemma Pow2Values()
    ensures Pow2(9) == 512
    ensures Pow2(54) == 0x40_0000_0000_0000
    ensures Pow2(61) == 0x2000_0000_0000_0000
    ensures Pow2(64) == TWO_TO_64
  {
    assert Pow2(9) == 512 && Pow2(7) == 128 && Pow2(3) == 8;
    Pow2Adds(9, 9);
    Pow2Adds(9, 18);
    Pow2Adds(27, 27);
    Pow2Adds(7, 54);
    Pow2Adds(3, 61);
  }

  lemma ModOfMultiple(m: nat)
    ensures (TWO_TO_64 * m) % TWO_TO_64 == 0
  {
  }

  lemma LockoutVanishes(attempts: nat)
    requires attempts >= 66
    ensures LockoutDuration(attempts) == 0
  {
    var k := attempts - MAX_ATTEMPTS;
    if k >= 64 {
      PowerVanishes(k);
    } else {
      ProductVanishes(k);
    }
  }

  lemma PowerVanishes(k: nat)
    requires k >= 64
    ensures Pow2(k) % TWO_TO_64 == 0
  {
    Pow2Values();
    Pow2Adds(64, k - 64);
    ModOfMultiple(Pow2(k - 64));
  }

  lemma ProductVanishes(k: nat)
    requires 61 <= k < 64
    ensures Pow2(k) < TWO_TO_64 && BASE_LOCKOUT_MS * Pow2(k) % TWO_TO_64 == 0
  {
    Pow2Values();
    Pow2Adds(61, k - 61);
    assert Pow2(0) == 1 && Pow2(1) == 2 && Pow2(2) == 4;
    assert BASE_LOCKOUT_MS * Pow2(k) == TWO_TO_64 * (125 * Pow2(k - 61));
    ModOfMultiple(125 * Pow2(k - 61));
  }

  lemma Pow2Small(k: nat)
    requires 1 <= k <= 6
    ensures Pow2(k) in {2, 4, 8, 16, 32, 64}
  {
  }

  // The computed lockout is the documented one exactly up to the 65th failure in a row;
  // from the 66th on the product wraps to zero and there is no lockout at all.
  lemma LockoutIsBackoffExactlyUpTo65(attempts: nat)
    ensures LockoutDuration(attempts) == Backoff(attempts) <==> attempts <= 65
  {
    if MAX_ATTEMPTS <= attempts <= 59 {
      LockoutBeforeWrap(attempts);
    } else if attempts >= 60 {
      BackoffCapped(attempts);
      if attempts <= 65 {
        LockoutAfterFirstWrap(attempts);
      } else {
        LockoutVanishes(attempts);
      }
    }
  }

  lemma LockoutBeforeWrap(attempts: nat)
    requires MAX_ATTEMPTS <= attempts <= 59
    ensures LockoutDuration(attempts) == Backoff(attempts)
  {
    Pow2Values();
    Pow2Monotone(attempts - MAX_ATTEMPTS, 54);
  }

  lemma BackoffCapped(attempts: nat)
    requires attempts >= 14
    ensures Backoff(attempts) == MAX_LOCKOUT_MS
  {
    Pow2Values();
    Pow2Monotone(9, attempts - MAX_ATTEMPTS);
  }

  lemma WrappedAboveCap(p: nat)
    requires p in {2, 4, 8, 16, 32, 64}
    ensures BASE_LOCKOUT_MS * (0x40_0000_0000_0000 * p % TWO_TO_64) % TWO_TO_64 >= MAX_LOCKOUT_MS
  {
  }

  // The product of failures 60 to 65 wraps, but to values far above the cap.
  lemma LockoutAfterFirstWrap(attempts: nat)
    requires 60 <= attempts <= 65
    ensures LockoutDuration(attempts) == MAX_LOCKOUT_MS
  {
    var j := attempts - 59;
    Pow2Values();
    Pow2Adds(54, j);
    Pow2Small(j);
    WrappedAboveCap(Pow2(j));
  }

  lemma LockoutCapped(attempts: nat)
    requires 14 <= attempts <= 65
    ensures LockoutDuration(attempts) == MAX_LOCKOUT_MS
  {
    LockoutIsBackoffExactlyUpTo65(attempts);
    Pow2Monotone(9, attempts - MAX_ATTEMPTS);
    Pow2Values();
  }

  // The lockouts that n failures leave behind when the first of them is failure number `first`.
  function Delay(first: nat, n: nat): (ms: nat) {
    if n == 0 then 0 else Delay(first, n - 1) + LockoutDuration(first + n - 1)
  }

  lemma {:induction false} DelayGrows(first: nat, m: nat, n: nat)
    requires m <= n
    ensures Delay(first, m) <= Delay(first, n)
  {
    if m == n {
    } else {
      DelayGrows(first, m, n - 1);
    }
  }

  lemma {:induction false} DelayShifts(first: nat, n: nat)
    requires first + n <= 65
    ensures Delay(first, n) <= Delay(first + 1, n)
  {
    if n == 0 {
    } else {
      DelayShifts(first, n - 1);
      var k := first + n - 1;
      LockoutIsBackoffExactlyUpTo65(k);
      LockoutIsBackoffExactlyUpTo65(k + 1);
    }
  }

  lemma FirstFifteenLockouts()
    ensures Delay(1, GUESSES) == 1_111_000
  {
    forall k | 1 <= k <= 15
      ensures LockoutDuration(k) == Backoff(k)
    {
      LockoutIsBackoffExactlyUpTo65(k);
    }
    assert Delay(1, 8) == 15_000;
    assert Delay(1, 12) == 255_000;
  }

  lemma {:induction false} DelayFromFirst(first: nat)
    requires 1 <= first <= 14
    ensures Delay(first, GUESSES) >= 1_111_000
  {
    if first == 1 {
      FirstFifteenLockouts();
    } else {
      DelayFromFirst(first - 1);
      DelayShifts(first - 1, GUESSES);
    }
  }

  lemma {:induction false} DelayAfterWrap(first: nat, n: nat)
    requires first >= 66
    ensures Delay(first, n) == 0
  {
    if n == 0 {
    } else {
      DelayAfterWrap(first, n - 1);
      LockoutVanishes(first + n - 1);
    }
  }

  lemma {:induction false} CappedLockouts(first: nat, n: nat)
    requires 14 <= first && first + n <= 66
    ensures Delay(first, n) == n * MAX_LOCKOUT_MS
  {
    if n == 0 {
    } else {
      CappedLockouts(first, n - 1);
      LockoutCapped(first + n - 1);
    }
  }

  lemma {:induction false} DelayNearWrap(first: nat, n: nat)
    requires first >= 63
    ensures Delay(first, n) <= 3 * MAX_LOCKOUT_MS
  {
    if first >= 66 {
      DelayAfterWrap(first, n);
    } else if first + n <= 66 {
      CappedLockouts(first, n);
    } else {
      DelayNearWrap(first, n - 1);
      LockoutVanishes(first + n - 1);
    }
  }

  // Fifteen lockouts in a row outlast a quarter of an hour exactly when the first of the
  // failures that cause them is at most the 62nd in a row.
  lemma FifteenLockoutsOutlastTheWindow(first: nat)
    requires first >= 1
    ensures Delay(first, 15) > 900_000 <==> first <= 62
  {
    if first <= 14 {
      DelayFromFirst(first);
    } else if first <= 62 {
      CappedLockouts(first, 4);
      DelayGrows(first, 4, GUESSES);
    } else {
      DelayNearWrap(first, GUESSES);
    }
  }

  // ---------- Runs ----------

  datatype Event = Check(at: nat) | Failure(at: nat) | Success(at: nat)

  function Step(s: Limiter, e: Event): Limiter {
    match e
    case Check(at) => AfterCheck(s, at)
    case Failure(at) => AfterFailure(s, at)
    case Success(_) => FRESH
  }

  function Run(s: Limiter, es: seq<Event>): Limiter
    decreases es
  {
    if es == [] then s else Run(Step(s, es[0]), es[1..])
  }

  function Failures(es: seq<Event>): nat {
    if es == [] then 0 else (if es[0].Failure? then 1 else 0) + Failures(es[1..])
  }

  // The clock never goes back, and a failure is recorded only after a check that came
  // later than the previous failure and was not limited. `cleared` says that such a check
  // has already happened.
  predicate Guarded(s: Limiter, es: seq<Event>, now: nat, cleared: bool)
    decreases es
  {
    es == [] ||
    (now <= es[0].at &&
     match es[0]
     case Check(at) => Guarded(AfterCheck(s, at), es[1..], at, cleared || !Limited(s, at))
     case Failure(at) => cleared && Guarded(AfterFailure(s, at), es[1..], at, false)
     case Success(at) => Guarded(FRESH, es[1..], at, false))
  }

  predicate NoSuccess(es: seq<Event>) {
    forall i :: 0 <= i < |es| ==> !es[i].Success?
  }

  // No event of the run finds the limiter idle: its failures are consecutive ones.
  predicate NoReset(s: Limiter, es: seq<Event>)
    decreases es
  {
    es == [] || (!Idle(s, es[0].at) && NoReset(Step(s, es[0]), es[1..]))
  }

  // A lock is set exactly from the fifth failure on and ends one lockout after the last failure.
  predicate Valid(s: Limiter) {
    s.lockedUntil == if s.attempts < MAX_ATTEMPTS then 0 else s.lastAttempt + LockoutDuration(s.attempts)
  }

  lemma {:induction false} EveryRunKeepsValid(s: Limiter, es: seq<Event>)
    requires Valid(s)
    ensures Valid(Run(s, es))
    decreases es
  {
    if es == [] {
    } else {
      EveryRunKeepsValid(Step(s, es[0]), es[1..]);
    }
  }

  // A failure counts as the first exactly if it comes more than fifteen minutes after the last
  // one, or there was none.
  lemma NextFailureCounts(s: Limiter, now: nat)
    ensures AfterFailure(s, now).attempts == if s.lastAttempt > 0 && now > s.lastAttempt + 900_000 then 1 else s.attempts + 1
    ensures AfterCheck(s, now) == if s.lastAttempt > 0 && now > s.lastAttempt + 900_000 then Limiter(0, 0, 0) else s
  {
  }

  // The idle reset never releases a live lock, whatever the counter.
  lemma IdleResetReleasesNoLock(es: seq<Event>, now: nat)
    requires Idle(Run(FRESH, es), now)
    ensures Run(FRESH, es).lockedUntil < now
  {
    EveryRunKeepsValid(FRESH, es);
  }

  lemma {:induction false} LastIsLatest(s: Limiter, es: seq<Event>, now: nat, cleared: bool)
    requires Guarded(s, es, now, cleared) && es != []
    ensures now <= es[0].at <= es[|es| - 1].at
    decreases es
  {
    if |es| == 1 {
    } else {
      match es[0]
      case Check(at) => LastIsLatest(AfterCheck(s, at), es[1..], at, cleared || !Limited(s, at));
      case Failure(at) => LastIsLatest(AfterFailure(s, at), es[1..], at, false);
      case Success(at) => LastIsLatest(FRESH, es[1..], at, false);
    }
  }

  // What n failures since time t0 have cost, carried through the rest of a stretch: either
  // nothing was reset and every lockout was waited out, or a reset took over 15 minutes.
  lemma {:induction false} StretchCost(s: Limiter, es: seq<Event>, now: nat, cleared: bool,
                                      t0: nat, first: nat, n: nat)
    requires Valid(s) && s.lastAttempt <= now && Guarded(s, es, now, cleared) && NoSuccess(es)
    requires n >= 1 && s.attempts == first + n - 1
    requires s.lastAttempt >= t0 + Delay(first, n - 1)
    requires cleared ==> s.lockedUntil <= now
    ensures NoReset(s, es) ==>
              var end := Run(s, es);
              var m := n + Failures(es);
              end.attempts == first + m - 1 && end.lastAttempt >= t0 + Delay(first, m - 1)
    ensures !NoReset(s, es) ==> es != [] && es[|es| - 1].at > t0 + 900_000
    decreases es
  {
    if es == [] {
    } else {
      var at := es[0].at;
      if Idle(s, at) {
        LastIsLatest(s, es, now, cleared);
      } else if es[0].Check? {
        StretchCost(s, es[1..], at, cleared || !Limited(s, at), t0, first, n);
      } else {
        StretchCost(AfterFailure(s, at), es[1..], at, false, t0, first, n + 1);
      }
    }
  }

  lemma {:induction false} EndsAtLastFailure(s: Limiter, es: seq<Event>)
    requires es != [] && es[|es| - 1].Failure?
    ensures Run(s, es).lastAttempt == es[|es| - 1].at
    decreases es
  {
    if |es| == 1 {
    } else {
      EndsAtLastFailure(Step(s, es[0]), es[1..]);
    }
  }

  // A stretch of a guarded run that starts with one failure and ends with another.
  predicate Stretch(s: Limiter, es: seq<Event>) {
    && |es| > 1 && es[0].Failure? && es[|es| - 1].Failure? && NoSuccess(es)
    && Guarded(s, es, s.lastAttempt, true) && s.lockedUntil <= es[0].at
  }

  // Consecutive failures wait for every lockout between them: the m-th failure after
  // failure number `first` comes at least the sum of the m lockouts later.
  lemma ConsecutiveFailuresWait(s: Limiter, es: seq<Event>)
    requires Valid(s) && Stretch(s, es) && NoReset(s, es)
    ensures es[|es| - 1].at >= es[0].at + Delay(s.attempts + 1, Failures(es) - 1)
  {
    var at := es[0].at;
    StretchCost(AfterFailure(s, at), es[1..], at, false, at, s.attempts + 1, 1);
    EndsAtLastFailure(s, es);
  }

  // Counted from the fifth failure, with the documented backoffs, for up to 65 failures.
  lemma FailureAfterTheFifthWaits(s: Limiter, es: seq<Event>)
    requires Valid(s) && s.attempts == 4 && Stretch(s, es) && NoReset(s, es)
    requires 2 <= Failures(es) <= 61
    ensures es[|es| - 1].at >= es[0].at + BackoffSum(Failures(es) - 1)
  {
    ConsecutiveFailuresWait(s, es);
    DelayIsBackoffSum(Failures(es) - 1);
  }

  // min(1000, 300000) + min(2000, 300000) + ..., n terms, the first for the fifth failure.
  function BackoffSum(n: nat): nat {
    if n == 0 then 0 else BackoffSum(n - 1) + Backoff(MAX_ATTEMPTS + n - 1)
  }

  lemma {:induction false} DelayIsBackoffSum(n: nat)
    requires n <= 61
    ensures Delay(MAX_ATTEMPTS, n) == BackoffSum(n)
  {
    if n == 0 {
    } else {
      DelayIsBackoffSum(n - 1);
      LockoutIsBackoffExactlyUpTo65(MAX_ATTEMPTS + n - 1);
    }
  }

  // Any 16 failures without a success take more than 15 minutes, resets included, as long
  // as the counter before them is at most 61.
  lemma AtMost15FailuresPerWindow(s: Limiter, es: seq<Event>)
    requires Valid(s) && Stretch(s, es) && Failures(es) == 16
    requires s.attempts <= 61
    ensures es[|es| - 1].at > es[0].at + 900_000
  {
    var at := es[0].at;
    var s1 := AfterFailure(s, at);
    StretchCost(s1, es[1..], at, false, at, s1.attempts, 1);
    if NoReset(s1, es[1..]) {
      EndsAtLastFailure(s, es);
      FifteenLockoutsOutlastTheWindow(s1.attempts);
    }
  }

  // ---------- The bound is exact ----------

  // The fastest guarded run: wait for the lock to end, check, fail.
  function Fastest(s: Limiter, at: nat, n: nat): seq<Event>
    requires n >= 1
    decreases n
  {
    var s1 := AfterFailure(s, at);
    var next := Max(at, s1.lockedUntil);
    if n == 1 then [Failure(at)] else [Failure(at), Check(next)] + Fastest(s1, next, n - 1)
  }

  lemma GuardedPair(s: Limiter, at: nat, next: nat, rest: seq<Event>)
    requires at <= next && AfterFailure(s, at).lockedUntil <= next <= at + RESET_AFTER_MS
    requires Guarded(AfterFailure(s, at), rest, next, true)
    ensures Guarded(s, [Failure(at), Check(next)] + rest, at, true)
    ensures Failures([Failure(at), Check(next)] + rest) == 1 + Failures(rest)
  {
  }

  // The failure that follows, on its own clock.
  lemma NextFailure(s: Limiter, at: nat, s1: Limiter, next: nat)
    requires Valid(s) && s.lastAttempt <= at <= s.lastAttempt + RESET_AFTER_MS
    requires s1 == AfterFailure(s, at) && next == Max(at, s1.lockedUntil)
    ensures Valid(s1) && s1.attempts == s.attempts + 1 && s1.lastAttempt == at
    ensures next == at + LockoutDuration(s1.attempts) <= at + RESET_AFTER_MS
  {
  }

  lemma {:induction false} FastestIsGuarded(s: Limiter, at: nat, n: nat)
    requires Valid(s) && n >= 1 && s.lastAttempt <= at <= s.lastAttempt + RESET_AFTER_MS
    ensures var es := Fastest(s, at, n);
            Guarded(s, es, at, true) && Failures(es) == n
    decreases n
  {
    var s1 := AfterFailure(s, at);
    var next := Max(at, s1.lockedUntil);
    NextFailure(s, at, s1, next);
    if n == 1 {
      assert [Failure(at)][1..] == [];
    } else {
      FastestIsGuarded(s1, next, n - 1);
      GuardedPair(s, at, next, Fastest(s1, next, n - 1));
    }
  }

  lemma {:induction false} FastestEnds(s: Limiter, at: nat, n: nat, es: seq<Event>)
    requires Valid(s) && n >= 1 && s.lastAttempt <= at <= s.lastAttempt + RESET_AFTER_MS
    requires es == Fastest(s, at, n)
    ensures |es| >= n && es[0] == Failure(at)
    ensures es[|es| - 1] == Failure(at + Delay(s.attempts + 1, n - 1))
    decreases n
  {
    if n == 1 {
      assert es == [Failure(at)];
    } else {
      var s1 := AfterFailure(s, at);
      var next := Max(at, s1.lockedUntil);
      var rest := Fastest(s1, next, n - 1);
      NextFailure(s, at, s1, next);
      FastestEnds(s1, next, n - 1, rest);
      WaitAdds(at, next, s1.attempts, n - 1);
      EndsLikeRest(s, at, n, rest);
    }
  }

  lemma WaitAdds(at: nat, next: nat, first: nat, n: nat)
    requires n >= 1 && next == at + LockoutDuration(first)
    ensures next + Delay(first + 1, n - 1) == at + Delay(first, n)
  {
    DelaySplit(first, n);
  }

  lemma EndsLikeRest(s: Limiter, at: nat, n: nat, rest: seq<Event>)
    requires n > 1 && rest != []
    requires rest == Fastest(AfterFailure(s, at), Max(at, AfterFailure(s, at).lockedUntil), n - 1)
    ensures var es := Fastest(s, at, n);
            |es| == |rest| + 2 && es[0] == Failure(at) && es[|es| - 1] == rest[|rest| - 1]
  {
  }

  lemma {:induction false} FastestOnlyFails(s: Limiter, at: nat, n: nat)
    requires n >= 1
    ensures NoSuccess(Fastest(s, at, n))
    decreases n
  {
    if n == 1 {
    } else {
      var s1 := AfterFailure(s, at);
      FastestOnlyFails(s1, Max(at, s1.lockedUntil), n - 1);
    }
  }

  lemma {:induction false} DelaySplit(first: nat, n: nat)
    requires n >= 1
    ensures Delay(first, n) == LockoutDuration(first) + Delay(first + 1, n - 1)
  {
    if n == 1 {
    } else {
      DelaySplit(first, n - 1);
    }
  }

  // From a counter of 62 or more the bound fails: 16 guarded failures fit into 15 minutes.
  lemma SixteenFailuresFitAfterWrap(s: Limiter) returns (es: seq<Event>)
    requires Valid(s) && s.attempts >= 62
    ensures Stretch(s, es) && Failures(es) == 16 && es[|es| - 1].at <= es[0].at + 900_000
  {
    var start := s.lockedUntil;
    es := Fastest(s, start, GUESSES + 1);
    assert s.lastAttempt <= start <= s.lastAttempt + MAX_LOCKOUT_MS;
    FastestIsGuarded(s, start, GUESSES + 1);
    FastestEnds(s, start, GUESSES + 1, es);
    FastestOnlyFails(s, start, GUESSES + 1);
    FifteenLockoutsOutlastTheWindow(s.attempts + 1);
    GuardedFromEarlier(s, es, start, s.lastAttempt);
  }

  lemma GuardedFromEarlier(s: Limiter, es: seq<Event>, now: nat, earlier: nat)
    requires Guarded(s, es, now, true) && earlier <= now
    ensures Guarded(s, es, earlier, true)
  {
  }

  // ---------- Windows of runs from the start ----------

  // The part of a guarded run from its i-th event on is guarded too.
  lemma {:induction false} GuardedSuffix(s: Limiter, es: seq<Event>, now: nat, cleared: bool, i: nat)
    returns (at: nat, ok: bool)
    requires Valid(s) && s.lastAttempt <= now && (cleared ==> s.lockedUntil <= now)
    requires Guarded(s, es, now, cleared) && i <= |es|
    ensures var mid := Run(s, es[..i]);
            Valid(mid) && mid.lastAttempt <= at && (ok ==> mid.lockedUntil <= at) && Guarded(mid, es[i..], at, ok)
    decreases es
  {
    if i == 0 {
      assert es[..0] == [] && es[0..] == es;
      at, ok := now, cleared;
    } else {
      var e := es[0];
      assert es[..i][1..] == es[1..][..i - 1] && es[i..] == es[1..][i - 1..];
      match e
      case Check(t) => at, ok := GuardedSuffix(AfterCheck(s, t), es[1..], t, cleared || !Limited(s, t), i - 1);
      case Failure(t) => at, ok := GuardedSuffix(AfterFailure(s, t), es[1..], t, false, i - 1);
      case Success(t) => at, ok := GuardedSuffix(FRESH, es[1..], t, false, i - 1);
    }
  }

  lemma {:induction false} GuardedPrefix(s: Limiter, es: seq<Event>, now: nat, cleared: bool, n: nat)
    requires Guarded(s, es, now, cleared) && n <= |es|
    ensures Guarded(s, es[..n], now, cleared)
    decreases es
  {
    if n == 0 {
    } else {
      assert es[..n][1..] == es[1..][..n - 1];
      match es[0]
      case Check(t) => GuardedPrefix(AfterCheck(s, t), es[1..], t, cleared || !Limited(s, t), n - 1);
      case Failure(t) => GuardedPrefix(AfterFailure(s, t), es[1..], t, false, n - 1);
      case Success(t) => GuardedPrefix(FRESH, es[1..], t, false, n - 1);
    }
  }

  // The n-th failure of a list of events.
  lemma {:induction false} NthFailure(es: seq<Event>, n: nat) returns (k: nat)
    requires 1 <= n <= Failures(es)
    ensures k < |es| && es[k].Failure? && Failures(es[..k + 1]) == n
  {
    var rest := if es[0].Failure? then n - 1 else n;
    if rest == 0 {
      k := 0;
      assert es[..1] == [es[0]] && es[..1][1..] == [];
    } else {
      var j := NthFailure(es[1..], rest);
      k := j + 1;
      assert es[..k + 1][1..] == es[1..][..j + 1];
    }
  }

  // In every guarded run from the start, whatever came before, the failures of any 15 minutes
  // without a success are at most 15, as long as the counter before the first is at most 61.
  lemma EveryWindowHoldsAtMost15(es: seq<Event>, i: nat, j: nat)
    requires Guarded(FRESH, es, 0, false) && i < j < |es| && es[i].Failure? && es[j].Failure?
    requires NoSuccess(es[i..j + 1]) && es[j].at <= es[i].at + 900_000
    requires Run(FRESH, es[..i]).attempts <= 61
    ensures Failures(es[i..j + 1]) <= 15
  {
    if Failures(es[i..j + 1]) > GUESSES {
      var at, ok := GuardedSuffix(FRESH, es, 0, false, i);
      var mid, window := Run(FRESH, es[..i]), es[i..j + 1];
      assert es[i..][..j + 1 - i] == window;
      GuardedPrefix(mid, es[i..], at, ok, j + 1 - i);
      SixteenInWindow(mid, window, at);
    }
  }

  // Sixteen failures in a guarded window from a counter of at most 61 outlast it.
  lemma SixteenInWindow(s: Limiter, window: seq<Event>, at: nat)
    requires Valid(s) && s.lastAttempt <= at && s.lockedUntil <= at && s.attempts <= 61
    requires window != [] && window[0].Failure? && Guarded(s, window, at, true) && NoSuccess(window)
    requires Failures(window) > GUESSES
    ensures window[|window| - 1].at > window[0].at + RESET_AFTER_MS
  {
    var k := NthFailure(window, GUESSES + 1);
    var stretch := window[..k + 1];
    GuardedPrefix(s, window, at, true, k + 1);
    GuardedFromEarlier(s, stretch, at, s.lastAttempt);
    AtMost15FailuresPerWindow(s, stretch);
    var from, ok := GuardedSuffix(s, window, at, true, k);
    LastIsLatest(Run(s, window[..k]), window[k..], from, ok);
  }

  // Dropping failures from the front of the fastest run leaves a fastest run.
  lemma {:induction false} FastestSuffix(s: Limiter, at: nat, n: nat, k: nat, es: seq<Event>)
    returns (mid: Limiter, later: nat)
    requires Valid(s) && k < n && s.lastAttempt <= at <= s.lastAttempt + RESET_AFTER_MS
    requires es == Fastest(s, at, n)
    ensures |es| == 2 * n - 1 && mid == Run(s, es[..2 * k]) && es[2 * k..] == Fastest(mid, later, n - k)
    ensures Valid(mid) && mid.attempts == s.attempts + k
    ensures mid.lastAttempt <= later <= mid.lastAttempt + RESET_AFTER_MS
    decreases n
  {
    var s1 := AfterFailure(s, at);
    var next := Max(at, s1.lockedUntil);
    NextFailure(s, at, s1, next);
    if n == 1 {
      mid, later := s, at;
    } else {
      var rest := Fastest(s1, next, n - 1);
      mid, later := FastestSuffix(s1, next, n - 1, if k == 0 then 0 else k - 1, rest);
      if k == 0 {
        mid, later := s, at;
      } else {
        SuffixOfPair(s, Failure(at), Check(next), rest, 2 * (k - 1));
      }
    }
  }

  lemma SuffixOfPair(s: Limiter, a: Event, b: Event, rest: seq<Event>, k: nat)
    requires k <= |rest|
    ensures var es := [a, b] + rest;
            es[k + 2..] == rest[k..] && Run(s, es[..k + 2]) == Run(Step(Step(s, a), b), rest[..k])
  {
    var es := [a, b] + rest;
    assert es[..k + 2][1..] == [b] + rest[..k] && ([b] + rest[..k])[1..] == rest[..k];
  }

  // The counter from which the bound fails.
  const BEFORE_WRAP: nat := 62

  // The fastest run from the start, cut after so many failures.
  lemma FastestTail(at: nat, before: nat, n: nat, es: seq<Event>, k: nat)
    requires n >= 2 && at <= RESET_AFTER_MS && es == Fastest(FRESH, at, before + n) && k == 2 * before
    ensures k < |es| - 1 && Run(FRESH, es[..k]).attempts == before && Failures(es[k..]) == n
    ensures es[k].Failure? && es[|es| - 1] == Failure(es[k].at + Delay(before + 1, n - 1))
  {
    var mid, later := FastestSuffix(FRESH, at, before + n, before, es);
    var tail := es[k..];
    FastestShape(mid, later, n, tail);
    assert es[k] == tail[0] && es[|es| - 1] == tail[|tail| - 1];
  }

  lemma FastestShape(s: Limiter, at: nat, n: nat, es: seq<Event>)
    requires Valid(s) && n >= 1 && s.lastAttempt <= at <= s.lastAttempt + RESET_AFTER_MS
    requires es == Fastest(s, at, n)
    ensures |es| >= n && Failures(es) == n && es[0] == Failure(at)
    ensures es[|es| - 1] == Failure(at + Delay(s.attempts + 1, n - 1))
  {
    FastestIsGuarded(s, at, n);
    FastestEnds(s, at, n, es);
  }

  // From the start every counter is reached by a guarded run without success, and n more
  // failures then take no longer than the lockouts between them.
  lemma SomeRunTakesOnlyTheLockouts(before: nat, n: nat) returns (es: seq<Event>, i: nat, j: nat)
    requires n >= 2
    ensures Guarded(FRESH, es, 0, false) && NoSuccess(es)
    ensures i < j < |es| && es[i].Failure? && es[j].Failure? && Run(FRESH, es[..i]).attempts == before
    ensures Failures(es[i..j + 1]) == n && es[j].at == es[i].at + Delay(before + 1, n - 1)
  {
    var fastest, k := Fastest(FRESH, 1, before + n), 2 * before;
    FastestIsGuarded(FRESH, 1, before + n);
    FastestOnlyFails(FRESH, 1, before + n);
    FastestTail(1, before, n, fastest, k);
    es, i, j := [Check(1)] + fastest, k + 1, |fastest|;
    FirstCheck(fastest, k);
    FirstCheckShifts(fastest, k);
  }

  // So the bound does fail: some guarded run from the start has 16 failures in 15 minutes.
  lemma SomeRunHasSixteenInOneWindow() returns (es: seq<Event>, i: nat, j: nat)
    ensures Guarded(FRESH, es, 0, false) && NoSuccess(es)
    ensures i < j < |es| && es[i].Failure? && es[j].Failure? && Run(FRESH, es[..i]).attempts == 62
    ensures Failures(es[i..j + 1]) == 16 && es[j].at <= es[i].at + 900_000
  {
    es, i, j := SomeRunTakesOnlyTheLockouts(BEFORE_WRAP, GUESSES + 1);
    FifteenLockoutsOutlastTheWindow(BEFORE_WRAP + 1);
  }

  lemma FirstCheck(es: seq<Event>, k: nat)
    requires Guarded(FRESH, es, 1, true) && k <= |es|
    ensures var all := [Check(1)] + es;
            Guarded(FRESH, all, 0, false) && Run(FRESH, all[..k + 1]) == Run(FRESH, es[..k])
  {
    var all := [Check(1)] + es;
    assert all[1..] == es && all[..k + 1][1..] == es[..k];
    assert AfterCheck(FRESH, 1) == FRESH && !Limited(FRESH, 1);
  }

  lemma FirstCheckShifts(es: seq<Event>, k: nat)
    requires k < |es| && NoSuccess(es)
    ensures var all := [Check(1)] + es;
            && NoSuccess(all) && all[k + 1] == es[k] && all[|es|] == es[|es| - 1]
            && all[k + 1..|es| + 1] == es[k..]
  {
  }
}
