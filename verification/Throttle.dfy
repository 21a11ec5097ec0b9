/**
  The two brakes on guessing: account lockout (backend/internal/httpapi/server.go login)
  and the Redis fixed-window counter used by login, OAuth and MFA (allowLogin,
  allowOAuthRequest, Service.Allow). Both bounds are over every run.
 */
module Throttle {
  import opened Accounts

  // ----- Account lockout -----

  /** users.failed_logins and users.locked_until. */
  datatype Counter = Counter(failed: nat, lockedUntil: Option<Time>)

  /** `recorded`: the UPDATE of the counter took effect. Login ignores its failure, and may
      give up between a right password and the reset. */
  datatype Attempt = Attempt(at: Time, active: bool, passwordOk: bool, recorded: bool)

  /** The password is compared only for an active, unlocked account. */
  predicate Reaches(c: Counter, a: Attempt) {
    a.active && (c.lockedUntil == None || c.lockedUntil.value < a.at)
  }

  predicate Succeeds(c: Counter, a: Attempt) {
    Reaches(c, a) && a.passwordOk
  }

  /** `k` is the threshold, `lockout` its duration. */
  function AfterAttempt(c: Counter, a: Attempt, k: nat, lockout: Time): Counter {
    if !a.recorded then c
    else if Succeeds(c, a) then Counter(0, None)
    else Counter(c.failed + 1, if c.failed + 1 >= k then Some(a.at + lockout) else c.lockedUntil)
  }

  datatype LoginReply = SignedIn | Refused | Broken

  class Account {
    var failed: nat
    var lockedUntil: Option<Time>

    function Count(): Counter reads this {
      Counter(failed, lockedUntil)
    }

    constructor ()
      ensures Count() == Counter(0, None)
    {
      failed, lockedUntil := 0, None;
    }

    /** The part of login from the password check to the counter. `stops`: the policy, token
        or session statement fails after a right password; `updateFails`: the counter's
        UPDATE fails, which login does not notice. */
    method Login(now: Time, active: bool, passwordOk: bool, k: nat, lockout: Time, stops: bool, updateFails: bool)
        returns (reply: LoginReply)
      modifies this
      ensures reply.Refused? <==>
                !active || !passwordOk || (old(lockedUntil).Some? && now <= old(lockedUntil).value)
      ensures reply.SignedIn? <==> !reply.Refused? && !stops
      ensures reply.Broken? || updateFails ==> Count() == old(Count())
      ensures reply.SignedIn? && !updateFails ==> Count() == Counter(0, None)
      ensures reply.Refused? && !updateFails ==>
                && failed == old(failed) + 1
                && lockedUntil == if failed >= k then Some(now + lockout) else old(lockedUntil)
      ensures Count() ==
              AfterAttempt(old(Count()), Attempt(now, active, passwordOk, reply != Broken && !updateFails), k, lockout)
    {
      var ok := active && (lockedUntil == None || lockedUntil.value < now) && passwordOk;
      if !ok {
        if !updateFails {
          if failed + 1 >= k {
            lockedUntil := Some(now + lockout);
          }
          failed := failed + 1;
        }
        return Refused;
      }
      if stops {
        return Broken;
      }
      if !updateFails {
        failed, lockedUntil := 0, None;
      }
      reply := SignedIn;
    }

    /** unlockUser and resetUserPassword. */
    method Reset()
      modifies this
      ensures Count() == Counter(0, None)
    {
      failed, lockedUntil := 0, None;
    }
  }

  // ----- When an account is locked -----

  /** A login under the policy of its moment, or an administrator's unlock or reset. */
  datatype Step = Try(attempt: Attempt, k: nat, lockout: Time) | Unlock

  /** The life of one account from its creation: `counts[i]`, then `steps[i]`. */
  datatype Life = Life(counts: seq<Counter>, steps: seq<Step>)

  function AfterStep(c: Counter, s: Step): Counter {
    match s
    case Try(attempt, k, lockout) => AfterAttempt(c, attempt, k, lockout)
    case Unlock => Counter(0, None)
  }

  ghost predicate IsLife(life: Life) {
    && |life.counts| == |life.steps| + 1
    && life.counts[0] == Counter(0, None)
    && forall i :: 0 <= i < |life.steps| ==> life.counts[i + 1] == AfterStep(life.counts[i], life.steps[i])
  }

  predicate IsRecorded(s: Step) {
    s.Try? && s.attempt.recorded
  }

  /** Step `i` is an unlock or a recorded right password on an active account whose lock, if
      any, is over. */
  ghost predicate Clears(life: Life, i: nat)
    requires i < |life.steps| && i < |life.counts|
  {
    var s, lock := life.steps[i], life.counts[i].lockedUntil;
    || s.Unlock?
    || (&& s.attempt.recorded && s.attempt.active && s.attempt.passwordOk
        && (lock == None || lock.value < s.attempt.at))
  }

  /** The recorded attempts among the steps `p` to `i`. */
  ghost function RecordedIn(life: Life, p: nat, i: nat): set<nat>
    requires i <= |life.steps|
  {
    set j: nat | p <= j < i && IsRecorded(life.steps[j])
  }

  lemma RecordedGrows(life: Life, p: nat, i: nat)
    requires p <= i < |life.steps|
    ensures RecordedIn(life, p, i + 1) == RecordedIn(life, p, i) + if IsRecorded(life.steps[i]) then {i} else {}
    ensures |RecordedIn(life, p, i + 1)| == |RecordedIn(life, p, i)| + if IsRecorded(life.steps[i]) then 1 else 0
  {
    if IsRecorded(life.steps[i]) {
      assert RecordedIn(life, p, i + 1) == RecordedIn(life, p, i) + {i};
    } else {
      assert RecordedIn(life, p, i + 1) == RecordedIn(life, p, i);
    }
  }

  /** The `n`-th recorded failure after the counter was cleared sets the lock when `n` reaches
      the threshold of that moment, and nothing else does: `lock` is the last one to do so. */
  lemma {:induction false} LockIsSetBy(life: Life, p: nat, i: nat) returns (lock: Option<nat>)
    requires IsLife(life) && |life.counts| == |life.steps| + 1 && p <= i < |life.counts|
    requires p == 0 || Clears(life, p - 1)
    requires forall j: nat :: p <= j < i ==> !Clears(life, j)
    ensures life.counts[i].failed == |RecordedIn(life, p, i)|
    ensures life.counts[i].lockedUntil.Some? <==> lock.Some?
    ensures lock.Some? ==>
              && p <= lock.value < i && IsRecorded(life.steps[lock.value])
              && |RecordedIn(life, p, lock.value + 1)| >= life.steps[lock.value].k
              && life.counts[i].lockedUntil == Some(life.steps[lock.value].attempt.at + life.steps[lock.value].lockout)
    ensures forall j: nat :: (if lock.Some? then lock.value + 1 else p) <= j < i && IsRecorded(life.steps[j]) ==>
              |RecordedIn(life, p, j + 1)| < life.steps[j].k
    decreases i
  {
    hide RecordedIn, IsLife, Clears;
    if i == p {
      StartsCleared(life, p);
      lock := None;
    } else {
      lock := LockIsSetBy(life, p, i - 1);
      RecordedGrows(life, p, i - 1);
      CountsOn(life, i - 1);
      if IsRecorded(life.steps[i - 1]) && life.counts[i].failed >= life.steps[i - 1].k {
        lock := Some(i - 1);
      }
    }
  }

  lemma StartsCleared(life: Life, p: nat)
    requires IsLife(life) && p < |life.counts| && (p == 0 || Clears(life, p - 1))
    ensures life.counts[p] == Counter(0, None) && RecordedIn(life, p, p) == {}
  {
    assert p > 0 ==> life.counts[p - 1 + 1] == AfterStep(life.counts[p - 1], life.steps[p - 1]);
  }

  lemma CountsOn(life: Life, i: nat)
    requires IsLife(life) && i < |life.steps| && !Clears(life, i)
    ensures life.counts[i + 1] ==
            var c, s := life.counts[i], life.steps[i];
            if !IsRecorded(s) then c
            else Counter(c.failed + 1, if c.failed + 1 >= s.k then Some(s.attempt.at + s.lockout) else c.lockedUntil)
  {
    assert life.counts[i + 1] == AfterStep(life.counts[i], life.steps[i]);
  }

  /** Under one policy, whatever else is tried: with fewer than `k` recorded failures since the
      account was created, unlocked or last signed in to, it is not locked, and a recorded
      right password on an active account clears the counter again; from the `k`-th on it is
      locked until exactly `lockout` after the last recorded failure. */
  lemma LockedFromThreshold(life: Life, p: nat, i: nat, k: nat, lockout: Time)
    requires IsLife(life) && p <= i < |life.counts| && k > 0
    requires forall j :: 0 <= j < |life.steps| && life.steps[j].Try? ==>
               life.steps[j].k == k && life.steps[j].lockout == lockout
    requires p == 0 || Clears(life, p - 1)
    requires forall j: nat :: p <= j < i ==> !Clears(life, j)
    ensures
      var failures := set j: nat | p <= j < i && life.steps[j].Try? && life.steps[j].attempt.recorded;
      && life.counts[i].failed == |failures|
      && (|failures| < k ==> life.counts[i].lockedUntil == None)
      && (|failures| >= k ==>
            exists last :: last in failures && (forall j :: j in failures ==> j <= last)
              && life.counts[i].lockedUntil == Some(life.steps[last].attempt.at + lockout))
      && (|failures| < k && i < |life.steps| && life.steps[i].Try? && life.steps[i].attempt.recorded ==>
            life.counts[i + 1] ==
              if life.steps[i].attempt.active && life.steps[i].attempt.passwordOk then Counter(0, None)
              else Counter(|failures| + 1,
                           if |failures| + 1 == k then Some(life.steps[i].attempt.at + lockout) else None))
  {
    var failures := set j: nat | p <= j < i && life.steps[j].Try? && life.steps[j].attempt.recorded;
    assert failures == RecordedIn(life, p, i);
    var lock := LockIsSetBy(life, p, i);
    if lock.Some? {
      assert RecordedIn(life, p, lock.value + 1) <= failures;
      CountWithin(RecordedIn(life, p, lock.value + 1), failures);
      forall j | j in failures ensures j <= lock.value {
        if j > lock.value {
          CountWithin(RecordedIn(life, p, lock.value + 1), RecordedIn(life, p, j + 1));
        }
      }
    } else if |failures| >= k {
      var last := LastOf(life, p, i);
      assert |RecordedIn(life, p, last + 1)| < k;
      CountWithin(failures, RecordedIn(life, p, last + 1));
      assert false;
    }
    if i < |life.steps| {
      assert life.counts[i + 1] == AfterStep(life.counts[i], life.steps[i]);
    }
  }

  lemma CountWithin(a: set<nat>, b: set<nat>)
    requires a <= b
    ensures |a| <= |b|
  {
    assert b == a + (b - a);
  }

  lemma {:induction false} LastOf(life: Life, p: nat, i: nat) returns (last: nat)
    requires p <= i <= |life.steps| && |RecordedIn(life, p, i)| > 0
    ensures last in RecordedIn(life, p, i) && forall j :: j in RecordedIn(life, p, i) ==> j <= last
    decreases i
  {
    assert i > p;
    last := i - 1;
    if !IsRecorded(life.steps[i - 1]) {
      RecordedGrows(life, p, i - 1);
      last := LastOf(life, p, i - 1);
    }
  }

  // ----- How many passwords can be tried -----

  /** How many of the attempts have their password compared. */
  function Compared(c: Counter, attempts: seq<Attempt>, k: nat, lockout: Time): nat
    decreases |attempts|
  {
    if attempts == [] then 0
    else
      (if Reaches(c, attempts[0]) then 1 else 0)
      + Compared(AfterAttempt(c, attempts[0], k, lockout), attempts[1..], k, lockout)
  }

  /** How many of those leave no trace in the counter. */
  function Unrecorded(c: Counter, attempts: seq<Attempt>, k: nat, lockout: Time): nat
    decreases |attempts|
  {
    if attempts == [] then 0
    else
      (if Reaches(c, attempts[0]) && !attempts[0].recorded then 1 else 0)
      + Unrecorded(AfterAttempt(c, attempts[0], k, lockout), attempts[1..], k, lockout)
  }

  /** No attempt before the last resets the counter. */
  predicate NoReset(c: Counter, attempts: seq<Attempt>, k: nat, lockout: Time)
    decreases |attempts|
  {
    || |attempts| <= 1
    || (!(attempts[0].recorded && Succeeds(c, attempts[0]))
        && NoReset(AfterAttempt(c, attempts[0], k, lockout), attempts[1..], k, lockout))
  }

  /** Attempts in time order, none before `from` and none after `until`. */
  predicate Stretch(attempts: seq<Attempt>, from: Time, until: Time) {
    && (forall i :: 0 <= i < |attempts| ==> from <= attempts[i].at <= until)
    && (forall i, j :: 0 <= i < j < |attempts| ==> attempts[i].at <= attempts[j].at)
  }

  lemma MulMonotone(a: int, b: int, d: int)
    requires d > 0
    ensures a <= b ==> a * d <= b * d
  {
  }

  /** The quotient is the only number whose multiple fits. */
  lemma Quotient(x: int, d: int, q: int)
    requires d > 0 && q * d <= x < q * d + d
    ensures x / d == q
  {
    var p := x / d;
    assert p * d <= x < p * d + d;
    MulMonotone(p + 1, q, d);
    MulMonotone(q + 1, p, d);
    assert (p + 1) * d == p * d + d && (q + 1) * d == q * d + d;
  }

  lemma DivMonotone(x: int, y: int, d: int)
    requires 0 <= x <= y && d > 0
    ensures 0 <= x / d <= y / d
  {
    var p, q := x / d, y / d;
    assert p * d <= x && y < q * d + d;
    MulMonotone(q + 1, p, d);
    assert (q + 1) * d == q * d + d;
  }

  lemma DivStep(x: int, d: int)
    requires x >= d > 0
    ensures x / d == (x - d) / d + 1
  {
    var q := (x - d) / d;
    assert q * d <= x - d < q * d + d;
    assert (q + 1) * d == q * d + d;
    Quotient(x, d, q + 1);
  }

  /** Comparisons still possible up to `until` once the account is locked until `u`. */
  function AfterLock(u: Time, until: Time, lockout: Time): int
    requires lockout > 0
  {
    if u >= until then 0 else 1 + (until - u) / lockout
  }

  /** Comparisons still possible between `from` and `until`. */
  function Budget(c: Counter, from: Time, until: Time, k: nat, lockout: Time): int
    requires lockout > 0 && from <= until
  {
    if c.failed < k then k - c.failed + (until - from) / lockout
    else if c.lockedUntil == None || c.lockedUntil.value < from then 1 + (until - from) / lockout
    else AfterLock(if c.lockedUntil.value < from + lockout then c.lockedUntil.value else from + lockout, until, lockout)
  }

  lemma AfterLockMonotone(u: Time, v: Time, until: Time, lockout: Time)
    requires lockout > 0 && u <= v
    ensures 0 <= AfterLock(v, until, lockout) <= AfterLock(u, until, lockout)
  {
    if v < until {
      DivMonotone(until - v, until - u, lockout);
    } else if u < until {
      DivMonotone(0, until - u, lockout);
    }
  }

  lemma AfterLockSkips(u: Time, v: Time, until: Time, lockout: Time)
    requires lockout > 0 && u + lockout <= v
    ensures AfterLock(v, until, lockout) <= (if u >= until then 0 else (until - u) / lockout)
  {
    if v < until {
      DivStep(until - u, lockout);
      DivMonotone(until - v, until - u - lockout, lockout);
    } else if u < until {
      DivMonotone(0, until - u, lockout);
    }
  }

  lemma AfterLockShrinks(u: Time, v: Time, until: Time, lockout: Time)
    requires lockout > 0 && u <= v
    ensures 0 <= AfterLock(v, until, lockout) <= AfterLock(u, until, lockout)
    ensures u + lockout <= v ==> AfterLock(v, until, lockout) <= (if u >= until then 0 else (until - u) / lockout)
  {
    hide AfterLock;
    AfterLockMonotone(u, v, until, lockout);
    if u + lockout <= v {
      AfterLockSkips(u, v, until, lockout);
    }
  }

  lemma BudgetShrinks(c: Counter, s: Time, t: Time, until: Time, k: nat, lockout: Time)
    requires lockout > 0 && s <= t <= until
    ensures Budget(c, t, until, k, lockout) <= Budget(c, s, until, k, lockout)
    ensures Budget(c, t, until, k, lockout) >= 0
  {
    DivMonotone(until - t, until - s, lockout);
    if c.failed >= k && c.lockedUntil.Some? && c.lockedUntil.value >= s {
      var u := if c.lockedUntil.value < s + lockout then c.lockedUntil.value else s + lockout;
      if c.lockedUntil.value < t {
        AfterLockShrinks(u, t, until, lockout);
        DivMonotone(until - t, until - u, lockout);
      } else {
        var v := if c.lockedUntil.value < t + lockout then c.lockedUntil.value else t + lockout;
        AfterLockShrinks(u, v, until, lockout);
      }
    }
  }

  /** A failed attempt spends the budget if the password was compared. */
  lemma FailureSpends(c: Counter, a: Attempt, until: Time, k: nat, lockout: Time)
    requires lockout > 0 && k > 0 && a.at <= until && a.recorded && !Succeeds(c, a)
    ensures (if Reaches(c, a) then 1 else 0) + Budget(AfterAttempt(c, a, k, lockout), a.at, until, k, lockout)
         <= Budget(c, a.at, until, k, lockout)
  {
    var next := AfterAttempt(c, a, k, lockout);
    AfterLockShrinks(a.at, a.at + lockout, until, lockout);
    DivMonotone(0, until - a.at, lockout);
    if next.failed >= k {
      assert next.lockedUntil == Some(a.at + lockout);
      if c.failed >= k && c.lockedUntil.Some? && c.lockedUntil.value >= a.at {
        var u := if c.lockedUntil.value < a.at + lockout then c.lockedUntil.value else a.at + lockout;
        AfterLockShrinks(u, a.at + lockout, until, lockout);
      }
    }
  }

  lemma {:induction false} ComparedWithinBudget(c: Counter, attempts: seq<Attempt>, from: Time, until: Time, k: nat,
      lockout: Time)
    requires lockout > 0 && k > 0 && from <= until
    requires Stretch(attempts, from, until) && NoReset(c, attempts, k, lockout)
    ensures Compared(c, attempts, k, lockout) <=
        Budget(c, from, until, k, lockout) + Unrecorded(c, attempts, k, lockout)
    decreases |attempts|
  {
    if attempts == [] {
      BudgetShrinks(c, from, until, until, k, lockout);
    } else {
      var a := attempts[0];
      var next := AfterAttempt(c, a, k, lockout);
      BudgetShrinks(c, from, a.at, until, k, lockout);
      if !a.recorded {
        ComparedWithinBudget(c, attempts[1..], a.at, until, k, lockout);
      } else if Succeeds(c, a) {
        assert attempts[1..] == [];
        ReachesHasBudget(c, a, until, k, lockout);
      } else {
        FailureSpends(c, a, until, k, lockout);
        ComparedWithinBudget(next, attempts[1..], a.at, until, k, lockout);
      }
    }
  }

  lemma ReachesHasBudget(c: Counter, a: Attempt, until: Time, k: nat, lockout: Time)
    requires lockout > 0 && a.at <= until && Reaches(c, a)
    ensures Budget(c, a.at, until, k, lockout) >= 1
  {
    DivMonotone(0, until - a.at, lockout);
  }

  lemma {:induction false} AllRecorded(c: Counter, attempts: seq<Attempt>, k: nat, lockout: Time)
    requires forall i :: 0 <= i < |attempts| ==> attempts[i].recorded
    ensures Unrecorded(c, attempts, k, lockout) == 0
    decreases |attempts|
  {
    if attempts != [] {
      AllRecorded(AfterAttempt(c, attempts[0], k, lockout), attempts[1..], k, lockout);
    }
  }

  /** Lockout bound: in any stretch of length `span` without a reset, whatever else is tried
      while the account is locked, at most max(1, k - failed) + span / lockout attempts that
      leave a trace have their password compared; never more than k + span / lockout. */
  lemma LockoutBound(c: Counter, attempts: seq<Attempt>, from: Time, span: Time, k: nat, lockout: Time)
    requires lockout > 0 && k > 0 && span >= 0
    requires Stretch(attempts, from, from + span) && NoReset(c, attempts, k, lockout)
    ensures Compared(c, attempts, k, lockout) <=
            (if c.failed + 1 < k then k - c.failed else 1) + span / lockout + Unrecorded(c, attempts, k, lockout)
    ensures Compared(c, attempts, k, lockout) <= k + span / lockout + Unrecorded(c, attempts, k, lockout)
    ensures (forall i :: 0 <= i < |attempts| ==> attempts[i].recorded) ==>
        Compared(c, attempts, k, lockout) <= k + span / lockout
  {
    ComparedWithinBudget(c, attempts, from, from + span, k, lockout);
    if forall i :: 0 <= i < |attempts| ==> attempts[i].recorded {
      AllRecorded(c, attempts, k, lockout);
    }
    if c.failed >= k && c.lockedUntil.Some? && c.lockedUntil.value >= from {
      var u := if c.lockedUntil.value < from + lockout then c.lockedUntil.value else from + lockout;
      AfterLockShrinks(from, u, from + span, lockout);
      DivMonotone(0, span, lockout);
    }
  }

  // ----- The fixed-window counter -----

  /** A Redis key: gone, or a count with an expiry that may not be set (yet). `owed` says
      that somebody read 1 from INCR and has still to send EXPIRE. */
  datatype Window = Gone | Live(count: nat, expires: Option<Time>, owed: bool)

  /** Commands as they reach Redis. `lost`: the reply to INCR never arrived, so the request
      is refused although it was counted. `fails`: EXPIRE had no effect. */
  datatype Command = Incr(at: Time, lost: bool) | Expire(at: Time, fails: bool)

  function At(w: Window, now: Time): Window {
    if w.Live? && w.expires.Some? && w.expires.value <= now then Gone else w
  }

  function Reply(w: Window, now: Time): nat {
    match At(w, now)
    case Gone => 1
    case Live(count, _, _) => count + 1
  }

  predicate Possible(w: Window, c: Command) {
    c.Expire? ==> At(w, c.at).Live? && At(w, c.at).owed
  }

  function Run(w: Window, c: Command, ttl: Time): Window {
    var live := At(w, c.at);
    match c
    case Incr(_, lost) =>
      if live.Gone? then Live(1, None, !lost) else live.(count := live.count + 1)
    case Expire(at, fails) =>
      if live.Gone? then Gone
      else if fails then live.(owed := false)
      else live.(expires := Some(at + ttl), owed := false)
  }

  predicate Allows(w: Window, c: Command, limit: nat) {
    c.Incr? && !c.lost && Reply(w, c.at) <= limit
  }

  class Limiter {
    var window: Window

    constructor ()
      ensures window == Gone
    {
      window := Gone;
    }

    /** One request: INCR, and EXPIRE when it is the first of its window. */
    method Allow(now: Time, limit: nat, ttl: Time, lost: bool, expireFails: bool) returns (ok: bool)
      modifies this
      ensures ok == old(Allows(window, Incr(now, lost), limit))
      ensures var n := match old(window)
                       case Gone => 0
                       case Live(count, expires, _) => if expires.Some? && expires.value <= now then 0 else count;
              ok <==> !lost && n + 1 <= limit
      ensures window ==
                var counted := old(Run(window, Incr(now, lost), ttl));
                if !lost && old(Reply(window, now)) == 1 then Run(counted, Expire(now, expireFails), ttl) else counted
    {
      var n := Reply(window, now);
      window := Run(window, Incr(now, lost), ttl);
      if lost {
        return false;
      }
      if n == 1 {
        window := Run(window, Expire(now, expireFails), ttl);
      }
      return n <= limit;
    }
  }

  function AfterAll(w: Window, commands: seq<Command>, ttl: Time): Window
    decreases |commands|
  {
    if commands == [] then w else AfterAll(Run(w, commands[0], ttl), commands[1..], ttl)
  }

  /** A window that is not disturbed: it is opened at `start` by a request that is heard and sets
      the expiry; of the requests before `start + ttl`, lost or heard, the i-th to be counted
      is answered `i`, and allowed exactly when it is heard and `i` is within the limit; at
      `start + ttl` the count begins again. */
  lemma {:induction false} WindowLaw(start: Time, more: seq<Command>, next: Command, limit: nat, ttl: Time)
    requires ttl > 0 && next.Incr? && start <= next.at
    requires forall i :: 0 <= i < |more| ==> more[i].Incr? && start <= more[i].at < start + ttl
    ensures
      var w := AfterAll(Gone, [Incr(start, false), Expire(start, false)] + more, ttl);
      && w == Live(|more| + 1, Some(start + ttl), false)
      && (Allows(w, next, limit) <==>
            !next.lost && (if next.at < start + ttl then |more| + 2 else 1) <= limit)
      && (next.at >= start + ttl ==> Run(w, next, ttl) == Live(1, None, !next.lost))
  {
    var commands := [Incr(start, false), Expire(start, false)] + more;
    assert commands[1..][0] == Expire(start, false) && commands[1..][1..] == more;
    var open := Live(1, Some(start + ttl), false);
    assert Run(Run(Gone, commands[0], ttl), commands[1..][0], ttl) == open;
    Counted(open, more, start + ttl, ttl);
    assert AfterAll(Gone, commands, ttl) == AfterAll(open, more, ttl);
  }

  lemma {:induction false} Counted(w: Window, more: seq<Command>, end: Time, ttl: Time)
    requires w.Live? && w.expires == Some(end)
    requires forall i :: 0 <= i < |more| ==> more[i].Incr? && more[i].at < end
    ensures AfterAll(w, more, ttl) == w.(count := w.count + |more|)
    decreases |more|
  {
    if more != [] {
      Counted(w.(count := w.count + 1), more[1..], end, ttl);
    }
  }

  /** Requests allowed at times in [from, until). */
  function Allowed(w: Window, commands: seq<Command>, from: Time, until: Time, limit: nat, ttl: Time): nat
    decreases |commands|
  {
    if commands == [] then 0
    else
      (if from <= commands[0].at < until && Allows(w, commands[0], limit) then 1 else 0)
      + Allowed(Run(w, commands[0], ttl), commands[1..], from, until, limit, ttl)
  }

  predicate InOrder(commands: seq<Command>) {
    forall i, j :: 0 <= i < j < |commands| ==> commands[i].at <= commands[j].at
  }

  predicate AllPossible(w: Window, commands: seq<Command>, ttl: Time)
    decreases |commands|
  {
    commands == [] || (Possible(w, commands[0]) && AllPossible(Run(w, commands[0], ttl), commands[1..], ttl))
  }

  predicate Sound(w: Window) {
    w.Live? ==> w.count >= 1
  }

  /** Requests that can still be allowed before `until`, no more than `ttl` ahead. */
  function Room(w: Window, until: Time, limit: nat): int {
    match w
    case Gone => limit
    case Live(count, expires, _) =>
      (if count < limit then limit - count else 0) + (if expires.Some? && expires.value < until then limit else 0)
  }

  lemma CommandUsesRoom(w: Window, c: Command, until: Time, limit: nat, ttl: Time)
    requires Sound(w) && until <= c.at + ttl && c.at < until && Possible(w, c)
    ensures Sound(Run(w, c, ttl))
    ensures (if Allows(w, c, limit) then 1 else 0) + Room(Run(w, c, ttl), until, limit) <= Room(w, until, limit)
  {
  }

  lemma {:induction false} AllowedFitsRoom(w: Window, commands: seq<Command>, from: Time, until: Time, limit: nat,
      ttl: Time)
    requires Sound(w) && InOrder(commands) && AllPossible(w, commands, ttl)
    requires until <= from + ttl
    requires commands != [] ==> from <= commands[0].at
    ensures Allowed(w, commands, from, until, limit, ttl) <= Room(w, until, limit)
    decreases |commands|
  {
    if commands != [] {
      var c, rest := commands[0], commands[1..];
      assert InOrder(rest) by {
        forall i, j | 0 <= i < j < |rest| ensures rest[i].at <= rest[j].at {
          assert rest[i] == commands[i + 1] && rest[j] == commands[j + 1];
        }
      }
      if c.at < until {
        CommandUsesRoom(w, c, until, limit, ttl);
        AllowedFitsRoom(Run(w, c, ttl), rest, from, until, limit, ttl);
      } else {
        NothingAfter(w, commands, from, until, limit, ttl);
      }
    }
  }

  lemma {:induction false} NothingAfter(w: Window, commands: seq<Command>, from: Time, until: Time, limit: nat,
      ttl: Time)
    requires forall i :: 0 <= i < |commands| ==> until <= commands[i].at
    ensures Allowed(w, commands, from, until, limit, ttl) == 0
    decreases |commands|
  {
    if commands != [] {
      NothingAfter(Run(w, commands[0], ttl), commands[1..], from, until, limit, ttl);
    }
  }

  /** Over every run of interleaved commands, delayed, failed or lost ones included, fewer
      than 2 * limit requests are allowed in any half-open interval of length `ttl`. */
  lemma {:induction false} LimiterBound(w: Window, commands: seq<Command>, from: Time, limit: nat, ttl: Time)
    requires Sound(w) && InOrder(commands) && AllPossible(w, commands, ttl) && limit > 0
    ensures Allowed(w, commands, from, from + ttl, limit, ttl) <= 2 * limit - 1
    decreases |commands|
  {
    if commands != [] && commands[0].at < from {
      var rest := commands[1..];
      assert InOrder(rest) by {
        forall i, j | 0 <= i < j < |rest| ensures rest[i].at <= rest[j].at {
          assert rest[i] == commands[i + 1] && rest[j] == commands[j + 1];
        }
      }
      LimiterBound(Run(w, commands[0], ttl), rest, from, limit, ttl);
    } else {
      AllowedFitsRoom(w, commands, from, from + ttl, limit, ttl);
    }
  }

  /** `n` requests at one instant, all heard. */
  function Burst(n: nat, at: Time): seq<Command> {
    if n == 0 then [] else [Incr(at, false)] + Burst(n - 1, at)
  }

  lemma {:induction false} BurstIsAllowed(w: Window, n: nat, at: Time, tail: seq<Command>, from: Time, until: Time,
      limit: nat, ttl: Time)
    requires w.Live? && At(w, at) == w && w.count + n <= limit && from <= at < until
    ensures Allowed(w, Burst(n, at) + tail, from, until, limit, ttl)
         == n + Allowed(w.(count := w.count + n), tail, from, until, limit, ttl)
    decreases n
  {
    if n == 0 {
      assert Burst(0, at) + tail == tail;
      assert w.(count := w.count + 0) == w;
    } else {
      var commands := Burst(n, at) + tail;
      assert commands[0] == Incr(at, false) && commands[1..] == Burst(n - 1, at) + tail;
      BurstIsAllowed(w.(count := w.count + 1), n - 1, at, tail, from, until, limit, ttl);
    }
  }

  lemma {:induction false} BurstFacts(w: Window, n: nat, at: Time, tail: seq<Command>, ttl: Time)
    requires w.Live? && At(w, at) == w
    ensures |Burst(n, at)| == n && forall i :: 0 <= i < n ==> Burst(n, at)[i].at == at
    ensures AllPossible(w.(count := w.count + n), tail, ttl) ==> AllPossible(w, Burst(n, at) + tail, ttl)
    decreases n
  {
    if n == 0 {
      assert Burst(0, at) + tail == tail;
      assert w.(count := w.count + 0) == w;
    } else {
      var commands := Burst(n, at) + tail;
      assert commands[0] == Incr(at, false) && commands[1..] == Burst(n - 1, at) + tail;
      BurstFacts(w.(count := w.count + 1), n - 1, at, tail, ttl);
    }
  }

  /** A window opened early, used up just before it ends, and used up again just after. */
  function Peak(limit: nat, ttl: Time): seq<Command>
    requires limit > 0
  {
    [Incr(0, false), Expire(0, false)]
    + (Burst(limit - 1, ttl - 1) + ([Incr(ttl, false), Expire(ttl, false)] + Burst(limit - 1, ttl)))
  }

  lemma PeakInOrder(limit: nat, ttl: Time)
    requires limit > 0 && ttl >= 2
    ensures InOrder(Peak(limit, ttl))
  {
    hide Burst;
    BurstFacts(Live(1, None, true), limit - 1, ttl - 1, [], ttl);
    BurstFacts(Live(1, None, true), limit - 1, ttl, [], ttl);
    var n, commands := limit - 1, Peak(limit, ttl);
    forall i | 0 <= i < |commands| ensures commands[i].at == if i < 2 then 0 else if i < 2 + n then ttl - 1 else ttl {
    }
  }

  lemma PeakPossible(limit: nat, ttl: Time)
    requires limit > 0 && ttl >= 2
    ensures AllPossible(Gone, Peak(limit, ttl), ttl)
  {
    hide Burst, AllPossible;
    var again := Burst(limit - 1, ttl);
    var late := [Incr(ttl, false), Expire(ttl, false)] + again;
    var early := Burst(limit - 1, ttl - 1) + late;
    var w1, w2 := Live(1, None, true), Live(1, Some(ttl), false);
    var w3, w4, w5 := Live(limit, Some(ttl), false), Live(1, None, true), Live(1, Some(ttl + ttl), false);
    BurstFacts(w5, limit - 1, ttl, [], ttl);
    assert again + [] == again;
    NothingPossible(w5.(count := w5.count + (limit - 1)), ttl);
    PairPossible(w3, late, again, ttl, w4, w5);
    BurstFacts(w2, limit - 1, ttl - 1, late, ttl);
    PairPossible(Gone, Peak(limit, ttl), early, ttl, w1, w2);
  }

  lemma NothingPossible(w: Window, ttl: Time)
    ensures AllPossible(w, [], ttl)
  {
  }

  lemma PairPossible(w: Window, commands: seq<Command>, rest: seq<Command>, ttl: Time, w1: Window, w2: Window)
    requires |commands| >= 2 && commands[1..][1..] == rest && AllPossible(w2, rest, ttl)
    requires Possible(w, commands[0]) && w1 == Run(w, commands[0], ttl)
    requires Possible(w1, commands[1]) && w2 == Run(w1, commands[1], ttl)
    ensures AllPossible(w, commands, ttl)
  {
    assert commands[1..][0] == commands[1];
    assert AllPossible(w1, commands[1..], ttl);
  }

  /** The bound is reached by a run whose commands are in order and possible. */
  lemma LimiterBoundIsReached(limit: nat, ttl: Time) returns (commands: seq<Command>)
    requires limit > 0 && ttl >= 2
    ensures InOrder(commands) && AllPossible(Gone, commands, ttl)
    ensures Allowed(Gone, commands, ttl - 1, ttl - 1 + ttl, limit, ttl) == 2 * limit - 1
  {
    commands := Peak(limit, ttl);
    PeakInOrder(limit, ttl);
    PeakPossible(limit, ttl);
    PeakCount(limit, ttl);
  }

  lemma PeakCount(limit: nat, ttl: Time)
    requires limit > 0 && ttl >= 2
    ensures Allowed(Gone, Peak(limit, ttl), ttl - 1, ttl - 1 + ttl, limit, ttl) == 2 * limit - 1
  {
    hide Burst;
    var from, until := ttl - 1, ttl - 1 + ttl;
    var late := [Incr(ttl, false), Expire(ttl, false)] + Burst(limit - 1, ttl);
    var early := Burst(limit - 1, ttl - 1) + late;
    var commands := Peak(limit, ttl);
    var w1, w2 := Live(1, None, true), Live(1, Some(ttl), false);
    assert commands[0] == Incr(0, false) && commands[1..][0] == Expire(0, false) && commands[1..][1..] == early;
    assert Run(Gone, commands[0], ttl) == w1 && Run(w1, commands[1..][0], ttl) == w2;
    BurstIsAllowed(w2, limit - 1, ttl - 1, late, from, until, limit, ttl);
    var w3, w4, w5 := Live(limit, Some(ttl), false), Live(1, None, true), Live(1, Some(ttl + ttl), false);
    var again := Burst(limit - 1, ttl);
    assert late[0] == Incr(ttl, false) && late[1..][0] == Expire(ttl, false) && late[1..][1..] == again;
    assert Run(w3, late[0], ttl) == w4 && Run(w4, late[1..][0], ttl) == w5;
    BurstIsAllowed(w5, limit - 1, ttl, [], from, until, limit, ttl);
    assert again + [] == again;
    assert Allowed(w5, again, from, until, limit, ttl) == limit - 1;
    assert Allowed(w4, late[1..], from, until, limit, ttl) == limit - 1;
    assert Allowed(w3, late, from, until, limit, ttl) == limit;
    assert Allowed(w2, early, from, until, limit, ttl) == limit - 1 + limit;
    assert Allowed(w1, commands[1..], from, until, limit, ttl) == limit - 1 + limit;
  }
}
