/** The login lockout: a Redis hash per normalised address, counting failures and holding a lock, and the
    rate bound it gives. All times are milliseconds on one clock. */
module Lockout {
  import opened Text

  const MAX_FAILURES := 10
  const WINDOW_MS := 3_600_000
  const DURATION_MS := 900_000

  // ─── The Redis commands used ───────────────────────────────────────────────

  /** The hash under a key. `expiresAt` is absent until an EXPIRE. */
  datatype Hash = Hash(failures: nat, lockedUntil: Option<int>, expiresAt: Option<int>)

  const EMPTY_HASH := Hash(0, None, None)

  /** A key is gone from the instant its time to live ends. */
  function Alive(h: Option<Hash>, now: int): Option<Hash> {
    if h.Some? && (h.value.expiresAt.None? || now < h.value.expiresAt.value) then h else None
  }

  function OrEmpty(h: Option<Hash>): Hash {
    if h.Some? then h.value else EMPTY_HASH
  }

  function HIncrBy(h: Option<Hash>, now: int): Hash {
    var old' := OrEmpty(Alive(h, now));
    old'.(failures := old'.failures + 1)
  }

  function Expire(h: Option<Hash>, now: int, ttl: int): Option<Hash> {
    match Alive(h, now)
    case None => None
    case Some(live) => Some(live.(expiresAt := Some(now + ttl)))
  }

  function HSetLocked(h: Option<Hash>, now: int, until: int): Hash {
    OrEmpty(Alive(h, now)).(lockedUntil := Some(until))
  }

  // ─── The three helpers of the service, on one key ──────────────────────────

  predicate Locked(h: Option<Hash>, now: int) {
    var live := Alive(h, now);
    live.Some? && live.value.lockedUntil.Some? && now < live.value.lockedUntil.value
  }

  /** When each command of one recording runs. */
  datatype Timing = Timing(incr: int, expire: int, lock: int, relock: int)

  predicate Ordered(t: Timing) {
    t.incr <= t.expire <= t.lock <= t.relock
  }

  function Recorded(h: Option<Hash>, t: Timing): Option<Hash> {
    var counted := HIncrBy(h, t.incr);
    var kept := Expire(Some(counted), t.expire, WINDOW_MS);
    if counted.failures >= MAX_FAILURES
    then Expire(Some(HSetLocked(kept, t.lock, t.lock + DURATION_MS)), t.relock, DURATION_MS)
    else kept
  }

  /** The store and the service's helpers over it. */
  class LockoutStore {
    var keys: map<string, Hash>

    constructor ()
      ensures keys == map[]
    {
      keys := map[];
    }

    ghost function At(email: string): Option<Hash>
      reads this
    {
      Look(keys, email)
    }

    method CheckLockout(email: string, now: int) returns (locked: bool, secondsRemaining: int)
      ensures locked == Locked(At(email), now)
      ensures !locked ==> secondsRemaining == 0
      ensures locked ==>
        1000 * (secondsRemaining - 1) < At(email).value.lockedUntil.value - now <= 1000 * secondsRemaining
    {
      locked, secondsRemaining := false, 0;
      var live := Alive(Look(keys, email), now);
      if live.Some? && live.value.lockedUntil.Some? {
        var until := live.value.lockedUntil.value;
        if now < until {
          locked, secondsRemaining := true, (until - now + 999) / 1000;
        }
      }
    }

    method RecordFailedLogin(email: string, t: Timing)
      modifies this
      ensures At(email) == Recorded(old(At(email)), t)
      ensures keys - {email} == old(keys) - {email}
    {
      ghost var before, others := At(email), keys - {email};
      var counted := HIncrBy(Look(keys, email), t.incr);
      keys := keys[email := counted];
      assert At(email) == Some(counted) && keys - {email} == others;
      ExpireKey(email, t.expire, WINDOW_MS);
      if counted.failures >= MAX_FAILURES {
        var locked := HSetLocked(Look(keys, email), t.lock, t.lock + DURATION_MS);
        keys := keys[email := locked];
        assert At(email) == Some(locked) && keys - {email} == others;
        ExpireKey(email, t.relock, DURATION_MS);
      }
    }

    method ExpireKey(email: string, now: int, ttl: int)
      modifies this
      ensures At(email) == Expire(old(At(email)), now, ttl)
      ensures keys - {email} == old(keys) - {email}
    {
      var live := Expire(Look(keys, email), now, ttl);
      keys := if live.Some? then keys[email := live.value] else keys - {email};
    }

    method ClearLockout(email: string)
      modifies this
      ensures At(email) == None
      ensures keys - {email} == old(keys) - {email}
    {
      keys := keys - {email};
    }
  }

  function Look(keys: map<string, Hash>, email: string): Option<Hash> {
    if email in keys then Some(keys[email]) else None
  }

  // ─── Runs of logins, one at a time ─────────────────────────────────────────

  /** What the credentials of an attempt that was not locked out lead to. `Refused` is a right password on
      an unverified or suspended account: neither counted nor cleared. */
  datatype Outcome = Failed | Refused | Succeeded

  /** One login: the address as typed, when the lockout was read, when the credentials were checked, and
      when the failure, if it is one, was recorded. */
  datatype Attempt = Attempt(rawEmail: string, check: int, compared: int, outcome: Outcome, timing: Timing)

  predicate WellTimed(a: Attempt) {
    a.check <= a.compared <= a.timing.incr && Ordered(a.timing)
  }

  /** Every attempt starts after the one before it has finished. */
  ghost predicate OneAtATime(run: seq<Attempt>) {
    && (forall i :: 0 <= i < |run| ==> WellTimed(run[i]))
    && (forall i :: 0 < i < |run| ==> run[i - 1].timing.relock <= run[i].check)
  }

  function Key(a: Attempt): string {
    Normalize(a.rawEmail)
  }

  /** The hash of one address after a run of logins from an empty store. */
  function After(run: seq<Attempt>, email: string): Option<Hash> {
    if run == [] then None
    else
      var before, a := After(run[..|run| - 1], email), run[|run| - 1];
      if Key(a) != email || Locked(before, a.check) then before
      else match a.outcome
        case Failed => Recorded(before, a.timing)
        case Refused => before
        case Succeeded => None
  }

  /** When the credentials of one address were checked and found wrong. */
  function FailedChecks(run: seq<Attempt>, email: string): seq<int> {
    if run == [] then []
    else
      var earlier, a := run[..|run| - 1], run[|run| - 1];
      if Key(a) == email && a.outcome == Failed && !Locked(After(earlier, email), a.check)
      then FailedChecks(earlier, email) + [a.compared]
      else FailedChecks(earlier, email)
  }

  ghost predicate NoSuccess(run: seq<Attempt>, email: string) {
    forall i :: 0 <= i < |run| && Key(run[i]) == email ==> run[i].outcome != Succeeded
  }

  /** The key of this recording ran out between its HINCRBY and its EXPIRE. */
  predicate Straddles(before: Option<Hash>, t: Timing) {
    Alive(before, t.incr).Some? && Alive(before, t.expire).None?
  }

  ghost predicate NoStraddle(run: seq<Attempt>, email: string) {
    forall i :: 0 <= i < |run| && Key(run[i]) == email ==> !Straddles(After(run[..i], email), run[i].timing)
  }

  // ─── How long a lock lasts, and a count ────────────────────────────────────

  /** This recording is the tenth, or a later one: nine failures stand counted when it starts. */
  predicate TenthFailure(h: Option<Hash>, t: Timing) {
    Alive(h, t.incr).Some? && h.value.failures >= 9
  }

  /** The hour the key was given ends between the lock and the last EXPIRE, so that the lock goes with it.
      It takes an hour from one command of a recording to another. */
  predicate LosesLock(h: Option<Hash>, t: Timing) {
    !Straddles(h, t) && t.lock < t.expire + 3_600_000 <= t.relock
  }

  /** Once the tenth failure is recorded, the address is locked until 900 seconds after the lock was set and
      no longer, unless the lock is lost. */
  lemma LockLasts(h: Option<Hash>, t: Timing, now: int)
    requires Ordered(t) && t.relock <= now && TenthFailure(h, t)
    ensures Locked(Recorded(h, t), now) <==> now < t.lock + 900_000 && !LosesLock(h, t)
  {
    assert Straddles(h, t) <==> Expire(Some(HIncrBy(h, t.incr)), t.expire, WINDOW_MS).None?;
  }

  /** No earlier failure locks anything. */
  lemma FewerDoNotLock(h: Option<Hash>, t: Timing, now: int)
    requires Ordered(t) && t.relock <= now && !TenthFailure(h, t) && !Locked(h, t.incr)
    ensures !Locked(Recorded(h, t), now)
  {
  }

  /** It is counted, and the count is kept for an hour, and no longer. */
  lemma CountLasts(h: Option<Hash>, t: Timing, now: int)
    requires Ordered(t) && t.relock <= now && !TenthFailure(h, t) && !Straddles(h, t)
    ensures Alive(Recorded(h, t), now).Some? <==> now < t.expire + 3_600_000
    ensures Recorded(h, t).Some?
    ensures Recorded(h, t).value.failures == 1 + if Alive(h, t.incr).Some? then h.value.failures else 0
  {
  }

  // ─── Bursts ────────────────────────────────────────────────────────────────

  /** How many of the last entries follow each other by less than the lock's length. */
  function Burst(times: seq<int>): nat {
    if times == [] then 0
    else if |times| == 1 || times[|times| - 1] - times[|times| - 2] >= DURATION_MS then 1
    else 1 + Burst(times[..|times| - 1])
  }

  /** How many of the entries lie in the 900 seconds from `start`. */
  function CountIn(times: seq<int>, start: int): nat {
    if times == [] then 0
    else CountIn(times[..|times| - 1], start) + if start <= times[|times| - 1] < start + 900_000 then 1 else 0
  }

  predicate Increasing(times: seq<int>) {
    forall i, j :: 0 <= i <= j < |times| ==> times[i] <= times[j]
  }

  predicate BurstsAtMost(times: seq<int>, bound: nat) {
    forall n :: 0 <= n <= |times| ==> Burst(times[..n]) <= bound
  }

  /** The entries close to the last one all belong to its burst. */
  lemma {:induction false} CountWithinBurst(times: seq<int>, start: int)
    requires Increasing(times) && times != [] && start <= times[|times| - 1] < start + DURATION_MS
    ensures CountIn(times, start) <= Burst(times)
  {
    var earlier := times[..|times| - 1];
    if earlier != [] {
      var last := earlier[|earlier| - 1];
      assert last == times[|times| - 2] <= times[|times| - 1];
      if start <= last {
        CountWithinBurst(earlier, start);
      } else {
        CountNone(earlier, start);
      }
    }
  }

  lemma {:induction false} CountNone(times: seq<int>, start: int)
    requires forall i :: 0 <= i < |times| ==> times[i] < start
    ensures CountIn(times, start) == 0
  {
    if times != [] { CountNone(times[..|times| - 1], start); }
  }

  lemma {:induction false} CountBounded(times: seq<int>, start: int, bound: nat)
    requires Increasing(times) && BurstsAtMost(times, bound)
    ensures CountIn(times, start) <= bound
  {
    if times != [] {
      var earlier := times[..|times| - 1];
      if start <= times[|times| - 1] < start + DURATION_MS {
        CountWithinBurst(times, start);
        assert times[..|times|] == times;
      } else {
        assert forall n :: 0 <= n <= |earlier| ==> earlier[..n] == times[..n];
        CountBounded(earlier, start, bound);
      }
    }
  }

  // ─── The bound ─────────────────────────────────────────────────────────────

  /** What the hash promises at an instant that could still extend a burst: a lock in force, or a count
      that is behind the burst by no more than `slack` and will outlive it, or, where a first count was
      lost, nothing at all. */
  predicate Guards(h: Option<Hash>, burst: int, last: int, slack: nat, now: int) {
    || Locked(h, now)
    || (&& Alive(h, now).Some?
        && burst - slack <= h.value.failures < MAX_FAILURES
        && (h.value.expiresAt.None? || last + WINDOW_MS <= h.value.expiresAt.value))
    || (burst <= slack && Alive(h, now).None?)
  }

  ghost predicate GuardedFrom(h: Option<Hash>, burst: int, last: int, slack: nat, end: int) {
    forall now :: end <= now < last + DURATION_MS ==> Guards(h, burst, last, slack, now)
  }

  ghost predicate Guarded(h: Option<Hash>, times: seq<int>, slack: nat, end: int) {
    times != [] ==> GuardedFrom(h, Burst(times), times[|times| - 1], slack, end)
  }

  lemma RecordingContinues(h: Option<Hash>, burst: int, last: int, slack: nat, a: Attempt, now: int)
    requires WellTimed(a) && slack <= 1
    requires Guards(h, burst, last, slack, a.check) && !Locked(h, a.check)
    requires last <= a.compared < last + DURATION_MS && a.timing.relock <= now < a.compared + DURATION_MS
    ensures Guards(Recorded(h, a.timing), burst + 1, a.compared, slack, now)
  {
    var t := a.timing;
    if Alive(h, a.check).Some? {
      assert Alive(h, t.incr).Some? && Alive(h, t.expire).Some?;
    } else {
      assert Alive(h, t.incr).None?;
    }
  }

  lemma RecordingStarts(h: Option<Hash>, slack: nat, a: Attempt, now: int)
    requires WellTimed(a) && slack <= 1 && (Straddles(h, a.timing) ==> slack == 1)
    requires a.timing.relock <= now < a.compared + DURATION_MS
    ensures Guards(Recorded(h, a.timing), 1, a.compared, slack, now)
  {
  }

  /** How the burst grows when one more failed check is recorded. */
  lemma {:induction false} FailureKeepsBound(h: Option<Hash>, times: seq<int>, slack: nat, end: int, a: Attempt)
    requires WellTimed(a) && slack <= 1 && (Straddles(h, a.timing) ==> slack == 1)
    requires Guarded(h, times, slack, end) && !Locked(h, a.check)
    requires end <= a.check && (times != [] ==> times[|times| - 1] <= end)
    requires Burst(times) <= MAX_FAILURES + slack
    ensures Burst(times + [a.compared]) <= MAX_FAILURES + slack
    ensures Guarded(Recorded(h, a.timing), times + [a.compared], slack, a.timing.relock)
  {
    var grown := times + [a.compared];
    assert grown[..|grown| - 1] == times;
    var continues := times != [] && a.compared < times[|times| - 1] + DURATION_MS;
    if continues {
      assert GuardedFrom(h, Burst(times), times[|times| - 1], slack, end);
      assert Guards(h, Burst(times), times[|times| - 1], slack, a.check);
    }
    forall now | a.timing.relock <= now < a.compared + DURATION_MS
      ensures Guards(Recorded(h, a.timing), Burst(grown), a.compared, slack, now)
    {
      if continues {
        RecordingContinues(h, Burst(times), times[|times| - 1], slack, a, now);
      } else {
        RecordingStarts(h, slack, a, now);
      }
    }
  }

  function End(run: seq<Attempt>): int {
    if run == [] then 0 else run[|run| - 1].timing.relock
  }

  ghost predicate InOrder(times: seq<int>, slack: nat, end: int) {
    && (times != [] ==> times[|times| - 1] <= end)
    && Increasing(times) && BurstsAtMost(times, MAX_FAILURES + slack)
  }

  lemma {:induction false} InOrderGrows(times: seq<int>, slack: nat, end: int, time: int, later: int)
    requires InOrder(times, slack, end) && (times != [] ==> end <= time) && time <= later
    requires Burst(times + [time]) <= MAX_FAILURES + slack
    ensures InOrder(times + [time], slack, later)
  {
    var grown := times + [time];
    assert forall n :: 0 <= n <= |times| ==> grown[..n] == times[..n];
    assert grown[..|grown|] == grown;
  }

  lemma {:induction false} EarlierRun(run: seq<Attempt>, email: string)
    requires run != [] && OneAtATime(run) && NoSuccess(run, email)
    ensures var earlier, a := run[..|run| - 1], run[|run| - 1];
      && OneAtATime(earlier) && NoSuccess(earlier, email) && WellTimed(a)
      && (earlier != [] ==> End(earlier) <= a.check)
      && (Key(a) == email ==> a.outcome != Succeeded)
      && (NoStraddle(run, email) ==>
            NoStraddle(earlier, email) && (Key(a) == email ==> !Straddles(After(earlier, email), a.timing)))
  {
    var earlier := run[..|run| - 1];
    assert forall i :: 0 <= i < |earlier| ==> earlier[i] == run[i] && earlier[..i] == run[..i];
  }

  lemma {:induction false} RunGuarded(run: seq<Attempt>, email: string, slack: nat)
    requires OneAtATime(run) && NoSuccess(run, email) && slack <= 1
    requires slack == 0 ==> NoStraddle(run, email)
    ensures run == [] ==> FailedChecks(run, email) == []
    ensures Guarded(After(run, email), FailedChecks(run, email), slack, End(run))
    ensures InOrder(FailedChecks(run, email), slack, End(run))
  {
    if run != [] {
      var earlier, a := run[..|run| - 1], run[|run| - 1];
      EarlierRun(run, email);
      RunGuarded(earlier, email, slack);
      LastStep(run, email);
      if Counts(run, email) {
        CountedStep(After(earlier, email), FailedChecks(earlier, email), slack, earlier, a);
      }
    }
  }

  /** The last attempt of the run is a failed check of this address. */
  predicate Counts(run: seq<Attempt>, email: string)
    requires run != []
  {
    var a := run[|run| - 1];
    Key(a) == email && a.outcome == Failed && !Locked(After(run[..|run| - 1], email), a.check)
  }

  lemma LastStep(run: seq<Attempt>, email: string)
    requires run != [] && NoSuccess(run, email)
    ensures var earlier, a := run[..|run| - 1], run[|run| - 1];
      if Counts(run, email) then
        && After(run, email) == Recorded(After(earlier, email), a.timing)
        && FailedChecks(run, email) == FailedChecks(earlier, email) + [a.compared]
      else After(run, email) == After(earlier, email) && FailedChecks(run, email) == FailedChecks(earlier, email)
  {
    assert Key(run[|run| - 1]) == email ==> run[|run| - 1].outcome != Succeeded;
  }

  lemma CountedStep(h: Option<Hash>, times: seq<int>, slack: nat, earlier: seq<Attempt>, a: Attempt)
    requires WellTimed(a) && slack <= 1 && (Straddles(h, a.timing) ==> slack == 1)
    requires Guarded(h, times, slack, End(earlier)) && InOrder(times, slack, End(earlier))
    requires !Locked(h, a.check) && (if earlier == [] then times == [] else End(earlier) <= a.check)
    ensures Guarded(Recorded(h, a.timing), times + [a.compared], slack, a.timing.relock)
    ensures InOrder(times + [a.compared], slack, a.timing.relock)
  {
    assert times[..|times|] == times;
    var end := if earlier == [] then a.check else End(earlier);
    FailureKeepsBound(h, times, slack, end, a);
    InOrderGrows(times, slack, end, a.compared, a.timing.relock);
  }

  /** The rate bound: in any run of logins taken one at a time, with no successful login to the address,
      every half-open window of 900 seconds holds at most 10 failed credential checks of one address,
      however it was typed and whenever keys expire, provided no key runs out between the HINCRBY and the
      EXPIRE of one recording. */
  lemma {:induction false} RateBound(run: seq<Attempt>, email: string, start: int)
    requires OneAtATime(run) && NoSuccess(run, email) && NoStraddle(run, email)
    ensures CountIn(FailedChecks(run, email), start) <= 10
  {
    RunGuarded(run, email, 0);
    CountBounded(FailedChecks(run, email), start, 10);
  }

  /** With no such proviso the bound is 11: a count lost to expiry is lost only at the start of a burst. */
  lemma {:induction false} RateBoundAnyTiming(run: seq<Attempt>, email: string, start: int)
    requires OneAtATime(run) && NoSuccess(run, email)
    ensures CountIn(FailedChecks(run, email), start) <= 11
  {
    RunGuarded(run, email, 1);
    CountBounded(FailedChecks(run, email), start, 11);
  }

  /** The last ten entries follow each other by less than 900 seconds. */
  predicate TenInARow(times: seq<int>) {
    |times| >= 10 && forall k :: |times| - 9 <= k < |times| ==> times[k] < times[k - 1] + 900_000
  }

  lemma {:induction false} InARow(times: seq<int>, n: nat)
    requires 1 <= n <= |times|
    requires forall k :: |times| - n < k < |times| ==> times[k] < times[k - 1] + 900_000
    ensures Burst(times) >= n
  {
    if n > 1 {
      var earlier := times[..|times| - 1];
      assert times[|times| - 1] < times[|times| - 2] + 900_000;
      assert forall k :: 0 <= k < |earlier| ==> earlier[k] == times[k];
      InARow(earlier, n - 1);
    }
  }

  /** Ten failed checks in a row, each less than 900 seconds after the one before, lock the address for 900
      seconds from the last of them, whatever came before. */
  lemma {:induction false} TenInARowLock(run: seq<Attempt>, email: string, now: int)
    requires OneAtATime(run) && NoSuccess(run, email) && NoStraddle(run, email)
    requires var times := FailedChecks(run, email);
      TenInARow(times) && End(run) <= now < times[|times| - 1] + 900_000
    ensures Locked(After(run, email), now)
  {
    var times := FailedChecks(run, email);
    RunGuarded(run, email, 0);
    InARow(times, 10);
    assert GuardedFrom(After(run, email), Burst(times), times[|times| - 1], 0, End(run));
    assert Guards(After(run, email), Burst(times), times[|times| - 1], 0, now);
  }

  /** The hash counts no more failures than there were, and holds a lock only after ten, set no later than
      the last of them was recorded. */
  predicate CountedAtMost(h: Option<Hash>, failures: nat, lastLock: int) {
    h.Some? ==>
      && h.value.failures <= failures
      && (h.value.lockedUntil.Some? ==> failures >= 10 && h.value.lockedUntil.value <= lastLock + 900_000)
  }

  lemma RecordingCounts(h: Option<Hash>, failures: nat, lastLock: int, t: Timing)
    requires CountedAtMost(h, failures, lastLock) && Ordered(t) && lastLock <= t.lock
    ensures CountedAtMost(Recorded(h, t), failures + 1, t.lock)
  {
  }

  /** When the last failure of the address was recorded, as far as its lock. */
  function LastLock(run: seq<Attempt>, email: string): int {
    if run == [] then 0 else if Counts(run, email) then run[|run| - 1].timing.lock
    else LastLock(run[..|run| - 1], email)
  }

  lemma {:induction false} RunCounts(run: seq<Attempt>, email: string)
    requires OneAtATime(run) && NoSuccess(run, email) && (run != [] ==> 0 <= run[0].check)
    ensures CountedAtMost(After(run, email), |FailedChecks(run, email)|, LastLock(run, email))
    ensures run != [] ==> LastLock(run, email) <= End(run)
  {
    if run != [] {
      var earlier, a := run[..|run| - 1], run[|run| - 1];
      EarlierRun(run, email);
      RunCounts(earlier, email);
      LastStep(run, email);
      assert 0 <= run[0].check <= a.timing.lock by { FromTheFirst(run); }
      if Counts(run, email) {
        RecordingCounts(After(earlier, email), |FailedChecks(earlier, email)|, LastLock(earlier, email), a.timing);
      }
    }
  }

  lemma {:induction false} FromTheFirst(run: seq<Attempt>)
    requires OneAtATime(run) && run != []
    ensures run[0].check <= run[|run| - 1].timing.lock
  {
    if |run| > 1 { FromTheFirst(run[..|run| - 1]); }
  }

  /** Fewer than ten failed checks lock nothing, and no lock outlasts the last failure recorded by more than
      900 seconds. */
  lemma {:induction false} LocksTakeTen(run: seq<Attempt>, email: string, now: int)
    requires OneAtATime(run) && NoSuccess(run, email) && (run != [] ==> 0 <= run[0].check)
    requires Locked(After(run, email), now)
    ensures |FailedChecks(run, email)| >= 10 && now < LastLock(run, email) + 900_000
  {
    RunCounts(run, email);
  }

  // ─── The lost count is real ────────────────────────────────────────────────

  function FailAt(email: string, time: int, expire: int): Attempt {
    Attempt(email, time, time, Failed, Timing(time, expire, expire, expire))
  }

  /** One failure at 0; one an instant before its key runs out, whose EXPIRE comes an instant too late; and
      then `n` more, a millisecond apart. */
  function LostCountRun(email: string, n: nat): seq<Attempt> {
    if n == 0 then [FailAt(email, 0, 0)] + [FailAt(email, WINDOW_MS - 1, WINDOW_MS)]
    else LostCountRun(email, n - 1) + [FailAt(email, WINDOW_MS + n, WINDOW_MS + n)]
  }

  lemma LongerRun(earlier: seq<Attempt>, email: string, a: Attempt)
    requires OneAtATime(earlier) && NoSuccess(earlier, email) && WellTimed(a)
    requires earlier != [] ==> End(earlier) <= a.check
    requires a.outcome == Failed
    ensures OneAtATime(earlier + [a]) && NoSuccess(earlier + [a], email)
  {
    var run := earlier + [a];
    assert run[|earlier|] == a;
    assert forall i :: 0 <= i < |earlier| ==> run[i] == earlier[i];
  }

  lemma {:induction false} LongerCount(times: seq<int>, time: int, start: int)
    ensures CountIn(times + [time], start)
      == CountIn(times, start) + if start <= time < start + 900_000 then 1 else 0
  {
    assert (times + [time])[..|times|] == times;
  }

  lemma {:induction false} OneMore(earlier: seq<Attempt>, email: string, a: Attempt, start: int)
    requires OneAtATime(earlier) && NoSuccess(earlier, email) && WellTimed(a)
    requires earlier != [] ==> End(earlier) <= a.check
    requires Key(a) == email && a.outcome == Failed && !Locked(After(earlier, email), a.check)
    ensures var run := earlier + [a];
      && OneAtATime(run) && NoSuccess(run, email) && End(run) == a.timing.relock
      && After(run, email) == Recorded(After(earlier, email), a.timing)
      && CountIn(FailedChecks(run, email), start)
         == CountIn(FailedChecks(earlier, email), start) + if start <= a.compared < start + DURATION_MS then 1 else 0
  {
    LongerRun(earlier, email, a);
    assert (earlier + [a])[..|earlier|] == earlier;
    LastStep(earlier + [a], email);
    LongerCount(FailedChecks(earlier, email), a.compared, start);
  }

  lemma {:induction false} LostCountStart(email: string)
    requires Normalize(email) == email
    ensures var run := LostCountRun(email, 0);
      && OneAtATime(run) && NoSuccess(run, email) && End(run) == WINDOW_MS
      && After(run, email) == None
      && CountIn(FailedChecks(run, email), WINDOW_MS - 1) == 1
  {
    var first := [FailAt(email, 0, 0)];
    assert [] + first == first;
    OneMore([], email, FailAt(email, 0, 0), WINDOW_MS - 1);
    OneMore(first, email, FailAt(email, WINDOW_MS - 1, WINDOW_MS), WINDOW_MS - 1);
  }

  function LostCountHash(n: nat): Option<Hash> {
    var time := WINDOW_MS + n;
    if n == 0 then None
    else if n < MAX_FAILURES then Some(Hash(n, None, Some(time + WINDOW_MS)))
    else Some(Hash(n, Some(time + DURATION_MS), Some(time + DURATION_MS)))
  }

  lemma QuickFailure(n: nat, t: Timing)
    requires n < MAX_FAILURES
    requires t == Timing(WINDOW_MS + n + 1, WINDOW_MS + n + 1, WINDOW_MS + n + 1, WINDOW_MS + n + 1)
    ensures !Locked(LostCountHash(n), t.incr) && Recorded(LostCountHash(n), t) == LostCountHash(n + 1)
  {
  }

  /** A run after which `n` quick failures stand counted, one more having been lost. */
  ghost predicate Lost(run: seq<Attempt>, email: string, n: nat) {
    && run != [] && OneAtATime(run) && NoSuccess(run, email) && End(run) == WINDOW_MS + n
    && After(run, email) == LostCountHash(n)
    && CountIn(FailedChecks(run, email), WINDOW_MS - 1) == n + 1
  }

  lemma LostOneMore(earlier: seq<Attempt>, email: string, n: nat, a: Attempt)
    requires n < MAX_FAILURES && Normalize(email) == email && Lost(earlier, email, n)
    requires a == FailAt(email, WINDOW_MS + n + 1, WINDOW_MS + n + 1)
    ensures Lost(earlier + [a], email, n + 1)
  {
    QuickFailure(n, a.timing);
    OneMore(earlier, email, a, WINDOW_MS - 1);
  }

  lemma {:induction false} LostCount(email: string, n: nat)
    requires n <= MAX_FAILURES && Normalize(email) == email
    ensures Lost(LostCountRun(email, n), email, n)
  {
    if n == 0 {
      LostCountStart(email);
    } else {
      LostCount(email, n - 1);
      LostStep(email, n, LostCountRun(email, n - 1));
    }
  }

  lemma {:induction false} LostStep(email: string, n: nat, earlier: seq<Attempt>)
    requires 0 < n <= MAX_FAILURES && Normalize(email) == email
    requires earlier == LostCountRun(email, n - 1) && Lost(earlier, email, n - 1)
    ensures Lost(LostCountRun(email, n), email, n)
  {
    LostOneMore(earlier, email, n - 1, FailAt(email, WINDOW_MS + n, WINDOW_MS + n));
  }

  /** So the proviso cannot be dropped: for every address there is a run with eleven failed checks in one
      window. */
  lemma ElevenInOneWindow(email: string) returns (run: seq<Attempt>, start: int)
    requires Normalize(email) == email
    ensures OneAtATime(run) && NoSuccess(run, email)
    ensures CountIn(FailedChecks(run, email), start) == 11
  {
    run, start := LostCountRun(email, MAX_FAILURES), WINDOW_MS - 1;
    LostCount(email, MAX_FAILURES);
  }
}
