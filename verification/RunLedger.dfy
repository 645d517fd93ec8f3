/**
 What a run leaves behind: the attempts it handed to the instruments, the time they took, the clean-up it
 started, the shutdown budget it offered, and the durable log. The predicates here speak about these records
 alone; the runner keeps them up to date and is proved against them.
 */
module RunLedger {
  import opened Outcomes
  import opened Plan
  import opened Policy
  import opened Boundary

  // ---- Attempts ----

  /** Where in the plan an attempt comes from. */
  datatype Origin = FromPrelude(index: nat) | FromLoop(index: nat) | FromCleanup(index: nat)

  /** One hand-over of an action to the instruments, and whether Stop was set at that moment. */
  datatype Dispatch = Dispatch(origin: Origin, stopSet: bool)

  function Dispatches(ds: seq<Dispatch>, origin: Origin): nat {
    if ds == [] then 0
    else Dispatches(ds[..|ds| - 1], origin) + if ds[|ds| - 1].origin == origin then 1 else 0
  }

  /** Attempts of the measurement itself that were handed over although Stop was set. */
  function AfterStop(ds: seq<Dispatch>): nat {
    if ds == [] then 0
    else AfterStop(ds[..|ds| - 1]) + if ds[|ds| - 1].origin.FromLoop? && ds[|ds| - 1].stopSet then 1 else 0
  }

  lemma DispatchesOneMore(ds: seq<Dispatch>, d: Dispatch)
    ensures forall o :: Dispatches(ds + [d], o) == Dispatches(ds, o) + if d.origin == o then 1 else 0
    ensures AfterStop(ds + [d]) == AfterStop(ds) + if d.origin.FromLoop? && d.stopSet then 1 else 0
  {
    assert (ds + [d])[..|ds|] == ds;
  }

  /** At most one attempt was handed over, and with Stop set only if it is set now. */
  predicate OneDispatch(before: seq<Dispatch>, after: seq<Dispatch>, origin: Origin, stopNow: bool) {
    || after == before
    || after == before + [Dispatch(origin, false)]
    || (stopNow && after == before + [Dispatch(origin, true)])
  }

  /** The attempts grew by at most n, all of them of this origin. */
  ghost predicate DispatchedWithin(before: seq<Dispatch>, after: seq<Dispatch>, origin: Origin, n: nat) {
    && (forall o :: Dispatches(before, o) <= Dispatches(after, o))
    && (forall o :: Dispatches(after, o) <= Dispatches(before, o) + if o == origin then n else 0)
  }

  /** The action was handed over at least once more. */
  predicate HandedOver(before: seq<Dispatch>, after: seq<Dispatch>, origin: Origin) {
    Dispatches(after, origin) > Dispatches(before, origin)
  }

  lemma OneDispatchCounts(before: seq<Dispatch>, after: seq<Dispatch>, origin: Origin, stopNow: bool)
    requires OneDispatch(before, after, origin, stopNow)
    ensures DispatchedWithin(before, after, origin, 1)
    ensures after != before ==> Dispatches(after, origin) == Dispatches(before, origin) + 1
    ensures AfterStop(after) <= AfterStop(before) + 1
    ensures !stopNow ==> AfterStop(after) == AfterStop(before)
  {
    DispatchesOneMore(before, Dispatch(origin, false));
    DispatchesOneMore(before, Dispatch(origin, true));
  }

  /** Time spent on an attempt, with the deadline it had, or on waiting before the next one. */
  datatype TimeEntry = Attempted(elapsedS: real, deadlineS: real) | BackedOff(waitS: real)

  function Busy(times: seq<TimeEntry>): real {
    if times == [] then 0.0
    else
      var last := times[|times| - 1];
      Busy(times[..|times| - 1]) + if last.Attempted? then last.elapsedS else last.waitS
  }

  /** Every attempt stayed within its deadline. */
  predicate Timely(times: seq<TimeEntry>) {
    forall i | 0 <= i < |times| && times[i].Attempted? :: times[i].elapsedS <= times[i].deadlineS
  }

  lemma BusyOneMore(times: seq<TimeEntry>, t: TimeEntry)
    ensures Busy(times + [t]) == Busy(times) + if t.Attempted? then t.elapsedS else t.waitS
    ensures Timely(times + [t]) ==> Timely(times) && (t.Attempted? ==> t.elapsedS <= t.deadlineS)
  {
    assert (times + [t])[..|times|] == times;
    if Timely(times + [t]) {
      assert (times + [t])[|times|] == t;
      forall i | 0 <= i < |times| && times[i].Attempted? ensures times[i].elapsedS <= times[i].deadlineS {
        assert (times + [t])[i] == times[i];
      }
    }
  }

  /** If every attempt so far was timely, the time grew by at most this much. */
  predicate TimeWithin(before: seq<TimeEntry>, after: seq<TimeEntry>, seconds: real) {
    Timely(after) ==> Timely(before) && Busy(after) <= Busy(before) + seconds
  }

  /** How many attempts the time ledger records. */
  function AttemptsIn(times: seq<TimeEntry>): nat {
    if times == [] then 0
    else AttemptsIn(times[..|times| - 1]) + if times[|times| - 1].Attempted? then 1 else 0
  }

  lemma AttemptsOneMore(times: seq<TimeEntry>, t: TimeEntry)
    ensures AttemptsIn(times + [t]) == AttemptsIn(times) + if t.Attempted? then 1 else 0
  {
    assert (times + [t])[..|times|] == times;
  }

  /** The last entry is an attempt that took no longer than this deadline. */
  predicate InTime(times: seq<TimeEntry>, deadlineS: real) {
    times != [] && var last := times[|times| - 1]; last.Attempted? && last.elapsedS <= last.deadlineS == deadlineS
  }

  /** The records that grow with every attempt. */
  datatype Ledger = Ledger(dispatches: seq<Dispatch>, times: seq<TimeEntry>, rawSweeps: nat)

  function Repeated(n: nat, each: real): real {
    if n == 0 then 0.0 else Repeated(n - 1, each) + each
  }

  function RepeatedCount(n: nat, each: nat): nat {
    if n == 0 then 0 else RepeatedCount(n - 1, each) + each
  }

  /** n attempts of this action, each followed by its backoff, account for the growth of the ledger. */
  ghost predicate Accounted(policy: ExecutionPolicy, a: PlanAction, origin: Origin, before: Ledger, after: Ledger, n: nat) {
    && DispatchedWithin(before.dispatches, after.dispatches, origin, n)
    && before.rawSweeps <= after.rawSweeps <= before.rawSweeps + RepeatedCount(n, SweepsPerAttempt(a))
    && TimeWithin(before.times, after.times, Repeated(n, policy.DeadlineFor(a) + policy.retryBackoffS))
    && AttemptsIn(after.times) == AttemptsIn(before.times) + n
  }

  /** All that the policy allows for this action accounts for the growth of the ledger. */
  ghost predicate WithinPolicy(policy: ExecutionPolicy, a: PlanAction, origin: Origin, before: Ledger, after: Ledger) {
    && DispatchedWithin(before.dispatches, after.dispatches, origin, 1 + policy.Retries(a))
    && before.rawSweeps <= after.rawSweeps <= before.rawSweeps + SweepBound(policy, a)
    && TimeWithin(before.times, after.times, TimeBound(policy, a))
  }

  /** One attempt: handed over at most once, with its time recorded. */
  ghost predicate OneAttempt(policy: ExecutionPolicy, a: PlanAction, origin: Origin, before: Ledger, after: Ledger, stopNow: bool) {
    && OneDispatch(before.dispatches, after.dispatches, origin, stopNow)
    && before.rawSweeps <= after.rawSweeps <= before.rawSweeps + SweepsPerAttempt(a)
    && exists e :: after.times == before.times + [Attempted(e, policy.DeadlineFor(a))]
  }

  function Waited(policy: ExecutionPolicy, l: Ledger): Ledger {
    l.(times := l.times + [BackedOff(policy.retryBackoffS)])
  }

  lemma AttemptTimed(policy: ExecutionPolicy, a: PlanAction, origin: Origin, l0: Ledger, l1: Ledger, l2: Ledger, n: nat, stopNow: bool)
    requires policy.Accepted() && DurationsValid(a.kind) && n <= policy.Retries(a)
    requires Accounted(policy, a, origin, l0, l1, n) && OneAttempt(policy, a, origin, l1, l2, stopNow)
    ensures TimeWithin(l0.times, l2.times, TimeBound(policy, a))
    ensures TimeWithin(l0.times, Waited(policy, l2).times, Repeated(n + 1, policy.DeadlineFor(a) + policy.retryBackoffS))
    ensures AttemptsIn(l2.times) == AttemptsIn(l0.times) + n + 1 == AttemptsIn(Waited(policy, l2).times)
  {
    var e :| l2.times == l1.times + [Attempted(e, policy.DeadlineFor(a))];
    BusyOneMore(l1.times, Attempted(e, policy.DeadlineFor(a)));
    BusyOneMore(l2.times, BackedOff(policy.retryBackoffS));
    AttemptsOneMore(l1.times, Attempted(e, policy.DeadlineFor(a)));
    AttemptsOneMore(l2.times, BackedOff(policy.retryBackoffS));
    RepeatedWithin(policy, a, n);
  }

  lemma RepeatedIsProduct(n: nat, each: real)
    ensures Repeated(n, each) == n as real * each
  {
    if n > 0 {
      RepeatedIsProduct(n - 1, each);
      assert n as real * each == (n - 1) as real * each + each;
    }
  }

  lemma RepeatedWithin(policy: ExecutionPolicy, a: PlanAction, n: nat)
    requires policy.Accepted() && DurationsValid(a.kind) && n <= policy.Retries(a)
    ensures Repeated(n, policy.DeadlineFor(a) + policy.retryBackoffS) + policy.DeadlineFor(a) <= TimeBound(policy, a)
  {
    RepeatedIsProduct(n, policy.DeadlineFor(a) + policy.retryBackoffS);
    WithinTimeBound(policy, a, n);
  }

  lemma SweepsWithin(policy: ExecutionPolicy, a: PlanAction, n: nat)
    requires n <= 1 + policy.Retries(a)
    ensures RepeatedCount(n, SweepsPerAttempt(a)) <= SweepBound(policy, a)
  {
    RepeatedCountIsProduct(n, SweepsPerAttempt(a));
    Multiples(n, 1 + policy.Retries(a), SweepsPerAttempt(a));
  }

  lemma RepeatedCountIsProduct(n: nat, each: nat)
    ensures RepeatedCount(n, each) == n * each
  {
  }

  lemma Multiples(m: nat, n: nat, k: nat)
    requires m <= n
    ensures m * k <= n * k
  {
  }

  lemma AttemptDispatched(before: seq<Dispatch>, mid: seq<Dispatch>, after: seq<Dispatch>, origin: Origin, n: nat, most: nat, stopNow: bool)
    requires DispatchedWithin(before, mid, origin, n) && OneDispatch(mid, after, origin, stopNow) && n < most
    ensures DispatchedWithin(before, after, origin, n + 1) && DispatchedWithin(before, after, origin, most)
    ensures after != mid ==> HandedOver(before, after, origin)
    ensures AfterStop(after) <= AfterStop(mid) + 1
    ensures !stopNow ==> AfterStop(after) == AfterStop(mid)
  {
    OneDispatchCounts(mid, after, origin, stopNow);
  }

  lemma AttemptAccounted(policy: ExecutionPolicy, a: PlanAction, origin: Origin, l0: Ledger, l1: Ledger, l2: Ledger, n: nat, stopNow: bool)
    requires policy.Accepted() && DurationsValid(a.kind) && n <= policy.Retries(a)
    requires Accounted(policy, a, origin, l0, l1, n) && OneAttempt(policy, a, origin, l1, l2, stopNow)
    ensures WithinPolicy(policy, a, origin, l0, l2)
    ensures Accounted(policy, a, origin, l0, Waited(policy, l2), n + 1)
    ensures AttemptsIn(l2.times) == AttemptsIn(l0.times) + n + 1
    ensures l2.dispatches != l1.dispatches ==> HandedOver(l0.dispatches, l2.dispatches, origin)
    ensures AfterStop(l2.dispatches) <= AfterStop(l1.dispatches) + 1
    ensures !stopNow ==> AfterStop(l2.dispatches) == AfterStop(l1.dispatches)
  {
    AttemptDispatched(l0.dispatches, l1.dispatches, l2.dispatches, origin, n, 1 + policy.Retries(a), stopNow);
    AttemptTimed(policy, a, origin, l0, l1, l2, n, stopNow);
    SweepsWithin(policy, a, n + 1);
  }

  lemma NothingDone(policy: ExecutionPolicy, a: PlanAction, origin: Origin, l: Ledger)
    requires policy.Accepted() && DurationsValid(a.kind)
    ensures WithinPolicy(policy, a, origin, l, l) && Accounted(policy, a, origin, l, l, 0)
  {
    DeadlineNonNegative(policy, a);
    RepeatedWithin(policy, a, 0);
  }

  /** A wait cut short by Stop is still within the policy when a retry was left. */
  lemma WaitedWithinPolicy(policy: ExecutionPolicy, a: PlanAction, origin: Origin, l0: Ledger, l1: Ledger, n: nat)
    requires policy.Accepted() && DurationsValid(a.kind) && n < policy.Retries(a)
    requires WithinPolicy(policy, a, origin, l0, l1) && Accounted(policy, a, origin, l0, Waited(policy, l1), n + 1)
    ensures WithinPolicy(policy, a, origin, l0, Waited(policy, l1))
  {
    DeadlineNonNegative(policy, a);
    RepeatedWithin(policy, a, n + 1);
  }

  /** The actions at positions start..i account for the growth of the ledger. */
  ghost predicate PlanAccounted(policy: ExecutionPolicy, actions: seq<PlanAction>, start: nat, i: nat, before: Ledger, after: Ledger)
    requires start <= i <= |actions|
  {
    && DispatchesAccounted(policy, actions, start, i, before.dispatches, after.dispatches)
    && before.rawSweeps <= after.rawSweeps <= before.rawSweeps + TotalSweepBound(policy, actions[start..i])
    && TimeWithin(before.times, after.times, TotalTimeBound(policy, actions[start..i]))
  }

  ghost predicate DispatchesAccounted(
    policy: ExecutionPolicy, actions: seq<PlanAction>, start: nat, i: nat, before: seq<Dispatch>, after: seq<Dispatch>)
    requires start <= i <= |actions|
  {
    && (forall o :: Dispatches(before, o) <= Dispatches(after, o))
    && forall o :: Dispatches(after, o) <= Dispatches(before, o) +
                  if o.FromLoop? && start <= o.index < i then 1 + policy.Retries(actions[o.index]) else 0
  }

  lemma PlanAccountedStep(policy: ExecutionPolicy, actions: seq<PlanAction>, start: nat, i: nat, l0: Ledger, l1: Ledger, l2: Ledger)
    requires start <= i < |actions| && PlanAccounted(policy, actions, start, i, l0, l1)
    requires WithinPolicy(policy, actions[i], FromLoop(i), l1, l2)
    ensures PlanAccounted(policy, actions, start, i + 1, l0, l2)
  {
    assert actions[start..i + 1][..i - start] == actions[start..i];
    assert actions[start..i + 1][i - start] == actions[i];
    assert DispatchesAccounted(policy, actions, start, i + 1, l0.dispatches, l2.dispatches);
  }

  lemma NothingAccounted(policy: ExecutionPolicy, actions: seq<PlanAction>, start: nat, l: Ledger)
    requires start <= |actions|
    ensures PlanAccounted(policy, actions, start, start, l, l)
  {
  }

  /** A run cut short has used no more than the whole plan may use. */
  lemma {:induction false} PlanAccountedByAll(policy: ExecutionPolicy, actions: seq<PlanAction>, start: nat, i: nat, l0: Ledger, l1: Ledger)
    requires policy.Accepted() && forall a | a in actions :: DurationsValid(a.kind)
    requires start <= i <= |actions| && PlanAccounted(policy, actions, start, i, l0, l1)
    ensures PlanAccounted(policy, actions, start, |actions|, l0, l1)
    decreases |actions| - i
  {
    if i < |actions| {
      assert actions[i] in actions;
      NothingDone(policy, actions[i], FromLoop(i), l1);
      PlanAccountedStep(policy, actions, start, i, l0, l1, l1);
      PlanAccountedByAll(policy, actions, start, i + 1, l0, l1);
    }
  }

  // ---- Clean-up ----

  predicate AwaitsCleanup(a: PlanAction, attempted: set<string>) {
    a.isFinally && !a.completionOnly && a.nodeId !in attempted
  }

  /** The `finally` actions from position i on that clean-up starts, each node once, in plan order. */
  function Pending(actions: seq<PlanAction>, attempted: set<string>, i: nat): seq<nat>
    requires i <= |actions|
    decreases |actions| - i
  {
    if i == |actions| then []
    else if AwaitsCleanup(actions[i], attempted) then [i] + Pending(actions, attempted + {actions[i].nodeId}, i + 1)
    else Pending(actions, attempted, i + 1)
  }

  /** Clean-up can only turn outputs off, and acquires nothing. */
  lemma CleanupNeverEnergizes(a: PlanAction)
    requires CompiledAction(a) && a.isFinally && !a.completionOnly
    ensures !a.kind.UpdateMokeVoltage? && TurnsOn(a.kind) == {} && SweepsPerAttempt(a) == 0 && !ProducesCheckpoint(a)
  {
  }

  /** The attempts grew by at most one for each of these clean-up actions. */
  ghost predicate CleanedUp(before: seq<Dispatch>, after: seq<Dispatch>, started: seq<nat>) {
    && AfterStop(after) == AfterStop(before)
    && (forall o :: Dispatches(before, o) <= Dispatches(after, o))
    && forall o :: Dispatches(after, o) <= Dispatches(before, o) + if o.FromCleanup? && o.index in started then 1 else 0
  }

  /** Every one of these clean-up actions was handed over. */
  ghost predicate AllCleanedUp(before: seq<Dispatch>, after: seq<Dispatch>, started: seq<nat>) {
    forall i | i in started :: HandedOver(before, after, FromCleanup(i))
  }

  lemma CleanedUpOneMore(before: seq<Dispatch>, mid: seq<Dispatch>, after: seq<Dispatch>, started: seq<nat>, i: nat, stopNow: bool)
    requires CleanedUp(before, mid, started) && OneDispatch(mid, after, FromCleanup(i), stopNow) && i !in started
    ensures CleanedUp(before, after, started + [i])
    ensures AllCleanedUp(before, mid, started) && after != mid ==> AllCleanedUp(before, after, started + [i])
  {
    DispatchesOneMore(mid, Dispatch(FromCleanup(i), false));
    DispatchesOneMore(mid, Dispatch(FromCleanup(i), true));
  }

  /** The clean-up loop has started `started` when it reaches action i with these node ids marked. */
  ghost predicate CleanupAt(actions: seq<PlanAction>, attempted: set<string>, i: nat, marked: set<string>, started: seq<nat>)
    requires i <= |actions|
  {
    && started + Pending(actions, marked, i) == Pending(actions, attempted, 0)
    && forall k | k in started :: k < i
  }

  lemma CleanupAtStep(actions: seq<PlanAction>, attempted: set<string>, i: nat, marked: set<string>, started: seq<nat>)
    requires i < |actions| && CleanupAt(actions, attempted, i, marked, started)
    ensures if AwaitsCleanup(actions[i], marked)
            then i !in started && CleanupAt(actions, attempted, i + 1, marked + {actions[i].nodeId}, started + [i])
            else CleanupAt(actions, attempted, i + 1, marked, started)
  {
    if AwaitsCleanup(actions[i], marked) {
      var rest := Pending(actions, marked + {actions[i].nodeId}, i + 1);
      assert started + ([i] + rest) == (started + [i]) + rest;
    }
  }

  lemma CleanupAtStart(actions: seq<PlanAction>, attempted: set<string>)
    ensures CleanupAt(actions, attempted, 0, attempted, [])
  {
  }

  lemma CleanupAtEnd(actions: seq<PlanAction>, attempted: set<string>, marked: set<string>, started: seq<nat>)
    requires CleanupAt(actions, attempted, |actions|, marked, started)
    ensures started == Pending(actions, attempted, 0)
  {
  }

  predicate DistinctFinally(actions: seq<PlanAction>) {
    forall i, j | 0 <= i < j < |actions| && actions[i].isFinally && actions[j].isFinally ::
      actions[i].nodeId != actions[j].nodeId
  }

  predicate Ascending(s: seq<nat>) {
    forall i, j | 0 <= i < j < |s| :: s[i] < s[j]
  }

  function NodeIds(actions: seq<PlanAction>, indices: seq<nat>): set<string>
    requires forall i | i in indices :: i < |actions|
  {
    set i | i in indices :: actions[i].nodeId
  }

  lemma {:induction false} PendingAwaits(actions: seq<PlanAction>, attempted: set<string>, i: nat, k: nat)
    requires i <= |actions| && k in Pending(actions, attempted, i)
    ensures i <= k < |actions| && AwaitsCleanup(actions[k], attempted)
    decreases |actions| - i
  {
    if !AwaitsCleanup(actions[i], attempted) {
      PendingAwaits(actions, attempted, i + 1, k);
    } else if k != i {
      PendingAwaits(actions, attempted + {actions[i].nodeId}, i + 1, k);
    }
  }

  lemma {:induction false} PendingAscending(actions: seq<PlanAction>, attempted: set<string>, i: nat)
    requires i <= |actions|
    ensures Ascending(Pending(actions, attempted, i))
    decreases |actions| - i
  {
    if i < |actions| && AwaitsCleanup(actions[i], attempted) {
      var marked := attempted + {actions[i].nodeId};
      var rest := Pending(actions, marked, i + 1);
      PendingAscending(actions, marked, i + 1);
      forall x | 0 <= x < |rest| ensures i < rest[x] {
        PendingAwaits(actions, marked, i + 1, rest[x]);
      }
    } else if i < |actions| {
      PendingAscending(actions, attempted, i + 1);
    }
  }

  lemma {:induction false} PendingIncludes(actions: seq<PlanAction>, attempted: set<string>, i: nat, k: nat)
    requires i <= k < |actions| && DistinctFinally(actions) && AwaitsCleanup(actions[k], attempted)
    ensures k in Pending(actions, attempted, i)
    decreases |actions| - i
  {
    if i < k {
      PendingIncludes(actions, if AwaitsCleanup(actions[i], attempted) then attempted + {actions[i].nodeId} else attempted, i + 1, k);
    }
  }

  /** With distinct node ids, clean-up starts exactly the actions that still await it, in plan order. */
  lemma PendingExactly(actions: seq<PlanAction>, attempted: set<string>)
    requires DistinctFinally(actions)
    ensures var p := Pending(actions, attempted, 0);
            && Ascending(p)
            && forall k: nat :: k in p <==> k < |actions| && AwaitsCleanup(actions[k], attempted)
  {
    PendingAscending(actions, attempted, 0);
    forall k: nat ensures k in Pending(actions, attempted, 0) <==> k < |actions| && AwaitsCleanup(actions[k], attempted) {
      if k in Pending(actions, attempted, 0) {
        PendingAwaits(actions, attempted, 0, k);
      } else if k < |actions| && AwaitsCleanup(actions[k], attempted) {
        PendingIncludes(actions, attempted, 0, k);
        assert false;
      }
    }
  }

  /** What the measurement itself started of the `finally` part: each at most once, and nothing fault-only. */
  predicate LoopStarts(actions: seq<PlanAction>, starts: seq<nat>) {
    Ascending(starts) && forall i | i in starts :: i < |actions| && actions[i].isFinally && !actions[i].faultOnly
  }

  /** When the measurement has come from `start` to action i, it has started all of them that are not fault-only. */
  ghost predicate StartedUpTo(actions: seq<PlanAction>, start: nat, i: nat, starts: seq<nat>, attempted: set<string>) {
    && LoopStarts(actions, starts) && (forall k | k in starts :: start <= k < i)
    && (forall k: nat | start <= k < i && k < |actions| && actions[k].isFinally && !actions[k].faultOnly :: k in starts)
    && attempted == NodeIds(actions, starts)
  }

  lemma StartedUpToStep(actions: seq<PlanAction>, start: nat, i: nat, starts: seq<nat>, attempted: set<string>)
    requires start <= i < |actions| && StartedUpTo(actions, start, i, starts, attempted)
    ensures if actions[i].isFinally && !actions[i].faultOnly
            then StartedUpTo(actions, start, i + 1, starts + [i], attempted + {actions[i].nodeId})
            else StartedUpTo(actions, start, i + 1, starts, attempted)
  {
    forall x | 0 <= x < |starts| ensures starts[x] < i {
      assert starts[x] in starts;
    }
  }

  /**
   With distinct node ids, the measurement and the clean-up after a fault together start every `finally` action
   that is not completion-only exactly once, and clean-up starts no completion-only action.
   */
  lemma FinallyStartedExactlyOnce(actions: seq<PlanAction>, starts: seq<nat>)
    requires LoopStarts(actions, starts) && DistinctFinally(actions)
    ensures var cleanup := Pending(actions, NodeIds(actions, starts), 0);
            && Ascending(cleanup)
            && (forall i: nat | i < |actions| && actions[i].isFinally && !actions[i].completionOnly ::
                  (i in starts) != (i in cleanup))
            && (forall i | i in cleanup :: i < |actions| && actions[i].isFinally && !actions[i].completionOnly)
  {
    PendingExactly(actions, NodeIds(actions, starts));
    forall i: nat | i < |actions| && actions[i].isFinally && i !in starts
      ensures actions[i].nodeId !in NodeIds(actions, starts)
    {
    }
  }

  // ---- The durable log ----

  predicate QuietEvent(d: Durable) {
    d.EventStored? && d.event.OtherEvent?
  }

  /** Only diagnostics were added. */
  predicate QuietlyExtends(before: seq<Durable>, after: seq<Durable>) {
    && |before| <= |after| && after[..|before|] == before
    && forall i | |before| <= i < |after| :: QuietEvent(after[i])
  }

  lemma QuietlyExtendsSelf(h: seq<Durable>)
    ensures QuietlyExtends(h, h)
  {
  }

  lemma QuietlyExtendsTransitive(a: seq<Durable>, b: seq<Durable>, c: seq<Durable>)
    requires QuietlyExtends(a, b) && QuietlyExtends(b, c)
    ensures QuietlyExtends(a, c)
  {
    assert c[..|a|] == c[..|b|][..|a|];
    forall i | |a| <= i < |c| ensures QuietEvent(c[i]) {
      if i < |b| {
        assert c[i] == c[..|b|][i];
      }
    }
  }

  lemma {:induction false} QuietlyExtendsPoints(before: seq<Durable>, after: seq<Durable>)
    requires QuietlyExtends(before, after)
    ensures PointsIn(after) == PointsIn(before)
    decreases |after|
  {
    if |before| < |after| {
      assert after[..|after| - 1][..|before|] == before;
      QuietlyExtendsPoints(before, after[..|after| - 1]);
    } else {
      assert after == before;
    }
  }

  /** The log of a run so far; `last` is the point count of its last boundary, or of its start. */
  ghost predicate LoggedTo(plan: ExecutionPlan, start: nat, h: seq<Durable>, last: nat) {
    && RunLog(plan, start, h) && start <= last
    && forall i | 0 <= i < |h| && IsBoundary(h[i]) :: BoundaryAt(h, i).storedPoints <= last
  }

  lemma LoggedOneMore(plan: ExecutionPlan, start: nat, h: seq<Durable>, last: nat, d: Durable)
    requires LoggedTo(plan, start, h, last) && !IsBoundary(d)
    ensures LoggedTo(plan, start, h + [d], last)
  {
    var g := h + [d];
    forall i | 0 <= i < |g| && IsBoundary(g[i]) ensures g[i] == h[i] && g[..i] == h[..i] {
    }
  }

  lemma {:induction false} LoggedQuietly(plan: ExecutionPlan, start: nat, h: seq<Durable>, last: nat, after: seq<Durable>)
    requires LoggedTo(plan, start, h, last) && QuietlyExtends(h, after)
    ensures LoggedTo(plan, start, after, last) && PointsIn(after) == PointsIn(h)
    decreases |after|
  {
    QuietlyExtendsPoints(h, after);
    if |h| < |after| {
      var front := after[..|after| - 1];
      assert front[..|h|] == h;
      LoggedQuietly(plan, start, h, last, front);
      LoggedOneMore(plan, start, front, last, after[|after| - 1]);
      assert after == front + [after[|after| - 1]];
    } else {
      assert after == h;
    }
  }

  lemma LoggedBoundary(plan: ExecutionPlan, start: nat, h: seq<Durable>, last: nat, f: BoundaryFields)
    requires LoggedTo(plan, start, h, last)
    requires f.planHash == plan.hash && Acceptable(f, plan, start + PointsIn(h)) && last < f.storedPoints
    ensures LoggedTo(plan, start, h + [EventStored(SafeResumeBoundary(Fields(f)))], f.storedPoints)
  {
    var g := h + [EventStored(SafeResumeBoundary(Fields(f)))];
    forall i | 0 <= i < |g| && IsBoundary(g[i]) ensures g[..i] == h[..i] && (i < |h| ==> g[i] == h[i]) {
    }
    assert g[..|h|] == h;
  }

  lemma PointsOneMore(h: seq<Durable>, d: Durable)
    ensures PointsIn(h + [d]) == PointsIn(h) + if d.PointStored? then 1 else 0
  {
    assert (h + [d])[..|h|] == h;
  }

  /**
   The count of stored points agrees with the log; if the run began in step with its plan, the log is one that
   recovery accepts; and a plan that drives the MOKE field has no boundary at all.
   */
  ghost predicate OnRecord(plan: ExecutionPlan, inStep: bool, start: nat, stored: nat, last: nat, h: seq<Durable>) {
    && stored == start + PointsIn(h) && start <= last <= stored
    && (inStep ==> LoggedTo(plan, start, h, last))
    && (MokeField in ControlledOutputEndpoints(plan.actions) ==> Quiet(h))
  }

  /** As left behind by a failure: the last point may have been written without having been counted. */
  ghost predicate LeftOnRecord(plan: ExecutionPlan, inStep: bool, start: nat, stored: nat, h: seq<Durable>) {
    && stored <= start + PointsIn(h) <= stored + 1
    && (inStep ==> RunLog(plan, start, h))
    && (MokeField in ControlledOutputEndpoints(plan.actions) ==> Quiet(h))
  }

  lemma NothingLogged(plan: ExecutionPlan, inStep: bool, start: nat)
    ensures OnRecord(plan, inStep, start, start, start, [])
  {
  }

  lemma NothingHandedOver()
    ensures OnlyPrelude([])
  {
  }

  lemma OnRecordQuietly(plan: ExecutionPlan, inStep: bool, start: nat, stored: nat, last: nat, h: seq<Durable>, after: seq<Durable>)
    requires OnRecord(plan, inStep, start, stored, last, h) && QuietlyExtends(h, after)
    ensures OnRecord(plan, inStep, start, stored, last, after) && LeftOnRecord(plan, inStep, start, stored, after)
  {
    QuietlyExtendsPoints(h, after);
    if inStep {
      LoggedQuietly(plan, start, h, last, after);
    }
    QuietStaysQuiet(h, after);
  }

  lemma QuietStaysQuiet(h: seq<Durable>, after: seq<Durable>)
    requires QuietlyExtends(h, after)
    ensures Quiet(h) ==> Quiet(after)
  {
    forall i | 0 <= i < |h| ensures after[i] == h[i] {
      assert after[..|h|][i] == after[i];
    }
  }

  lemma LeftOnRecordQuietly(plan: ExecutionPlan, inStep: bool, start: nat, stored: nat, h: seq<Durable>, after: seq<Durable>)
    requires LeftOnRecord(plan, inStep, start, stored, h) && QuietlyExtends(h, after)
    ensures LeftOnRecord(plan, inStep, start, stored, after)
  {
    QuietlyExtendsPoints(h, after);
    if inStep {
      RunLogBounded(plan, start, h);
      var last :| LoggedTo(plan, start, h, last);
      LoggedQuietly(plan, start, h, last, after);
    }
    QuietStaysQuiet(h, after);
  }

  /** The points of the boundaries in a log are bounded. */
  lemma {:induction false} RunLogBounded(plan: ExecutionPlan, start: nat, h: seq<Durable>)
    requires RunLog(plan, start, h)
    ensures exists last: nat :: LoggedTo(plan, start, h, last)
  {
    var bound := start + |h|;
    forall i | 0 <= i < |h| && IsBoundary(h[i]) ensures BoundaryAt(h, i).storedPoints <= bound {
      PointsAtMost(h[..i]);
    }
    assert LoggedTo(plan, start, h, bound);
  }

  lemma PointsAtMost(h: seq<Durable>)
    ensures PointsIn(h) <= |h|
  {
  }

  lemma OnRecordPoint(plan: ExecutionPlan, inStep: bool, start: nat, stored: nat, last: nat, h: seq<Durable>)
    requires OnRecord(plan, inStep, start, stored, last, h)
    ensures OnRecord(plan, inStep, start, stored + 1, last, h + [PointStored])
    ensures LeftOnRecord(plan, inStep, start, stored, h + [PointStored])
  {
    PointsOneMore(h, PointStored);
    if inStep {
      LoggedOneMore(plan, start, h, last, PointStored);
    }
  }

  lemma OnRecordBoundary(plan: ExecutionPlan, inStep: bool, start: nat, stored: nat, last: nat, h: seq<Durable>, f: BoundaryFields)
    requires OnRecord(plan, inStep, start, stored, last, h)
    requires f.planHash == plan.hash && f.storedPoints == stored && last < stored
    requires inStep ==> Acceptable(f, plan, stored)
    requires MokeField !in ControlledOutputEndpoints(plan.actions)
    ensures OnRecord(plan, inStep, start, stored, stored, h + [EventStored(SafeResumeBoundary(Fields(f)))])
  {
    PointsOneMore(h, EventStored(SafeResumeBoundary(Fields(f))));
    if inStep {
      LoggedBoundary(plan, start, h, last, f);
    }
  }

  // ---- Dispatch safety over a whole run ----

  predicate PreludeKind(k: Kind) {
    || k.ConfigureRigol? || k.ConfigureRigolOutput? || k.ConfigureKeithley? || k.ConfigureAnritsu?
    || k.ConfigureAnritsuAdvanced? || k.ConfigureAnritsuSg?
  }

  lemma {:induction false} NoneFromLoop(ds: seq<Dispatch>)
    requires forall i: nat :: Dispatches(ds, FromLoop(i)) == 0
    ensures AfterStop(ds) == 0
  {
    if ds != [] {
      var last := ds[|ds| - 1];
      assert last.origin.FromLoop? ==> Dispatches(ds, FromLoop(last.origin.index)) >= 1;
      forall i: nat ensures Dispatches(ds[..|ds| - 1], FromLoop(i)) == 0 {
        assert Dispatches(ds, FromLoop(i)) == 0;
      }
      NoneFromLoop(ds[..|ds| - 1]);
    }
  }

  lemma PreludeStep(policy: ExecutionPolicy, a: PlanAction, k: nat, l1: Ledger, l2: Ledger)
    requires PreludeKind(a.kind) && WithinPolicy(policy, a, FromPrelude(k), l1, l2)
    requires OnlyPrelude(l1.dispatches)
    ensures OnlyPrelude(l2.dispatches) && l2.rawSweeps == l1.rawSweeps
  {
    NoneFromLoop(l2.dispatches);
    assert SweepsPerAttempt(a) == 0;
    assert SweepBound(policy, a) == 0;
  }

  ghost predicate OnlyPrelude(ds: seq<Dispatch>) {
    AfterStop(ds) == 0 && forall o: Origin | !o.FromPrelude? :: Dispatches(ds, o) == 0
  }

  /** How often the actions of a whole run, its clean-up included, were handed over. */
  ghost predicate DispatchSafe(policy: ExecutionPolicy, actions: seq<PlanAction>, starts: seq<nat>, cleanup: seq<nat>, ds: seq<Dispatch>) {
    && AfterStop(ds) <= 1
    && (forall i: nat :: Dispatches(ds, FromLoop(i)) <= if i < |actions| then 1 + policy.Retries(actions[i]) else 0)
    && (forall i: nat :: Dispatches(ds, FromCleanup(i)) <= if i in cleanup then 1 else 0)
    && MarkedBeforeDispatch(actions, ds, starts)
  }

  /** In a whole run, an action is handed over at most once more than it may be retried, and one that can energize once. */
  lemma {:induction false} AttemptsBounded(policy: ExecutionPolicy, plan: ExecutionPlan, starts: seq<nat>, cleanup: seq<nat>, ds: seq<Dispatch>, i: nat)
    requires Compiled(plan) && i < |plan.actions| && LoopStarts(plan.actions, starts)
    requires cleanup == [] || cleanup == Pending(plan.actions, NodeIds(plan.actions, starts), 0)
    requires DispatchSafe(policy, plan.actions, starts, cleanup, ds)
    ensures Dispatches(ds, FromLoop(i)) + Dispatches(ds, FromCleanup(i)) <= 1 + policy.Retries(plan.actions[i])
    ensures policy.Retries(plan.actions[i]) <= policy.retryCount
    ensures plan.actions[i].kind.UpdateMokeVoltage? || TurnsOn(plan.actions[i].kind) != {} ==>
              Dispatches(ds, FromLoop(i)) + Dispatches(ds, FromCleanup(i)) <= 1
  {
    if i in cleanup {
      PendingAwaits(plan.actions, NodeIds(plan.actions, starts), 0, i);
      assert i !in starts;
    }
    if plan.actions[i].kind.UpdateMokeVoltage? || TurnsOn(plan.actions[i].kind) != {} {
      EnergizingIsNeverRetried(policy, plan.actions[i]);
    }
  }

  // ---- The measurement, action by action ----

  /** All the records of a run at one moment. */
  datatype Tally = Tally(books: Ledger, stopSet: bool, starts: seq<nat>, archive: seq<Durable>, last: nat)

  /** What a run of the plan starts from. `inStep`: its point count agrees with its first action. */
  datatype Beginning = Beginning(plan: ExecutionPlan, start: nat, stored: nat, inStep: bool, books: Ledger)

  /** No `finally` action is handed over before it is marked as started. */
  ghost predicate MarkedBeforeDispatch(actions: seq<PlanAction>, ds: seq<Dispatch>, starts: seq<nat>) {
    forall i: nat | i < |actions| && actions[i].isFinally && i !in starts :: Dispatches(ds, FromLoop(i)) == 0
  }

  /** Every action between two positions that is not for failures only was handed over. */
  ghost predicate AllHandedOver(actions: seq<PlanAction>, start: nat, i: nat, ds: seq<Dispatch>) {
    forall k: nat | start <= k < i && k < |actions| && !actions[k].faultOnly :: Dispatches(ds, FromLoop(k)) >= 1
  }

  /** Between two actions of the measurement: all that is promised holds of the actions before position i. */
  ghost predicate Measuring(
    policy: ExecutionPolicy, b: Beginning, t: Tally, i: nat, stored: nat, attempted: set<string>, confirmed: set<Endpoint>)
  {
    && b.start <= i <= |b.plan.actions|
    && PlanAccounted(policy, b.plan.actions, b.start, i, b.books, t.books)
    && AfterStop(t.books.dispatches) <= 1 && (!t.stopSet ==> AfterStop(t.books.dispatches) == 0)
    && StartedUpTo(b.plan.actions, b.start, i, t.starts, attempted)
    && MarkedBeforeDispatch(b.plan.actions, t.books.dispatches, t.starts)
    && AllHandedOver(b.plan.actions, b.start, i, t.books.dispatches)
    && OnRecord(b.plan, b.inStep, b.stored, stored, t.last, t.archive)
    && stored - b.stored == Checkpoints(b.plan.actions[..i]) - Checkpoints(b.plan.actions[..b.start])
    && confirmed == RetainedOutputs(b.plan.actions[b.start..i])
  }

  /** However the measurement ends. */
  ghost predicate Measured(policy: ExecutionPolicy, b: Beginning, t: Tally, completed: nat, stored: nat, attempted: set<string>) {
    && b.start <= completed <= |b.plan.actions|
    && PlanAccounted(policy, b.plan.actions, b.start, |b.plan.actions|, b.books, t.books)
    && AfterStop(t.books.dispatches) <= 1
    && LoopStarts(b.plan.actions, t.starts) && attempted == NodeIds(b.plan.actions, t.starts)
    && MarkedBeforeDispatch(b.plan.actions, t.books.dispatches, t.starts)
    && LeftOnRecord(b.plan, b.inStep, b.stored, stored, t.archive)
  }

  lemma MeasuringIsMeasured(
    policy: ExecutionPolicy, b: Beginning, t: Tally, i: nat, stored: nat, attempted: set<string>, confirmed: set<Endpoint>)
    requires Compiled(b.plan) && policy.Accepted() && Measuring(policy, b, t, i, stored, attempted, confirmed)
    ensures Measured(policy, b, t, i, stored, attempted)
  {
    PlanAccountedByAll(policy, b.plan.actions, b.start, i, b.books, t.books);
  }

  function NextAttempted(a: PlanAction, attempted: set<string>): set<string> {
    if a.isFinally && !a.faultOnly then attempted + {a.nodeId} else attempted
  }

  function NextConfirmed(a: PlanAction, confirmed: set<Endpoint>): set<Endpoint> {
    if a.completionOnly && a.retainedOutput.Some? then confirmed + {a.retainedOutput.value} else confirmed
  }

  lemma RetainedStep(actions: seq<PlanAction>, start: nat, i: nat)
    requires start <= i < |actions|
    ensures RetainedOutputs(actions[start..i + 1]) == NextConfirmed(actions[i], RetainedOutputs(actions[start..i]))
  {
    assert actions[start..i + 1] == actions[start..i] + [actions[i]];
  }

  /** What one action, executed or skipped, does to the records. */
  ghost predicate ActionTaken(policy: ExecutionPolicy, b: Beginning, i: nat, t1: Tally, t2: Tally, stored: nat)
    requires i < |b.plan.actions|
  {
    && WithinPolicy(policy, b.plan.actions[i], FromLoop(i), t1.books, t2.books)
    && (b.plan.actions[i].faultOnly ==> t2.books == t1.books)
    && AfterStop(t2.books.dispatches) <= 1 && (!t2.stopSet ==> AfterStop(t2.books.dispatches) == 0)
    && t2.starts == t1.starts + (if b.plan.actions[i].isFinally && !b.plan.actions[i].faultOnly then [i] else [])
    && LeftOnRecord(b.plan, b.inStep, b.stored, stored, t2.archive)
  }

  lemma ActionMeasured(
    policy: ExecutionPolicy, b: Beginning, t1: Tally, t2: Tally, i: nat,
    stored1: nat, completed: nat, stored2: nat, attempted: set<string>, confirmed: set<Endpoint>)
    requires Compiled(b.plan) && policy.Accepted() && i < |b.plan.actions| && i <= completed <= i + 1
    requires Measuring(policy, b, t1, i, stored1, attempted, confirmed) && ActionTaken(policy, b, i, t1, t2, stored2)
    ensures Measured(policy, b, t2, completed, stored2, NextAttempted(b.plan.actions[i], attempted))
    ensures OnRecord(b.plan, b.inStep, b.stored, stored2, t2.last, t2.archive) &&
            stored2 == stored1 + (if ProducesCheckpoint(b.plan.actions[i]) then 1 else 0) &&
            (b.plan.actions[i].faultOnly || HandedOver(t1.books.dispatches, t2.books.dispatches, FromLoop(i))) ==>
      Measuring(policy, b, t2, i + 1, stored2, NextAttempted(b.plan.actions[i], attempted), NextConfirmed(b.plan.actions[i], confirmed))
  {
    hide WithinPolicy, PlanAccounted, OnRecord, LeftOnRecord, MarkedBeforeDispatch, AllHandedOver, HandedOver;
    ActionAccounted(policy, b, t1, t2, i);
    StartedUpToStep(b.plan.actions, b.start, i, t1.starts, attempted);
    StillMarked(policy, b.plan.actions, i, t1, t2);
    StillHandedOver(policy, b.plan.actions, b.start, i, t1, t2);
    CheckpointsStep(b.plan.actions, i);
    RetainedStep(b.plan.actions, b.start, i);
  }

  lemma ActionAccounted(policy: ExecutionPolicy, b: Beginning, t1: Tally, t2: Tally, i: nat)
    requires Compiled(b.plan) && policy.Accepted() && b.start <= i < |b.plan.actions|
    requires PlanAccounted(policy, b.plan.actions, b.start, i, b.books, t1.books)
    requires WithinPolicy(policy, b.plan.actions[i], FromLoop(i), t1.books, t2.books)
    ensures PlanAccounted(policy, b.plan.actions, b.start, i + 1, b.books, t2.books)
    ensures PlanAccounted(policy, b.plan.actions, b.start, |b.plan.actions|, b.books, t2.books)
  {
    hide WithinPolicy, PlanAccounted;
    PlanAccountedStep(policy, b.plan.actions, b.start, i, b.books, t1.books, t2.books);
    PlanAccountedByAll(policy, b.plan.actions, b.start, i + 1, b.books, t2.books);
  }

  lemma StillMarked(policy: ExecutionPolicy, actions: seq<PlanAction>, i: nat, t1: Tally, t2: Tally)
    requires i < |actions| && WithinPolicy(policy, actions[i], FromLoop(i), t1.books, t2.books)
    requires actions[i].faultOnly ==> t2.books == t1.books
    requires t2.starts == t1.starts + if actions[i].isFinally && !actions[i].faultOnly then [i] else []
    requires MarkedBeforeDispatch(actions, t1.books.dispatches, t1.starts)
    ensures MarkedBeforeDispatch(actions, t2.books.dispatches, t2.starts)
  {
    forall k: nat | k < |actions| && actions[k].isFinally && k !in t2.starts
      ensures Dispatches(t2.books.dispatches, FromLoop(k)) == 0
    {
      assert k !in t1.starts;
      assert Dispatches(t1.books.dispatches, FromLoop(k)) == 0;
    }
  }

  lemma StillHandedOver(policy: ExecutionPolicy, actions: seq<PlanAction>, start: nat, i: nat, t1: Tally, t2: Tally)
    requires i < |actions| && WithinPolicy(policy, actions[i], FromLoop(i), t1.books, t2.books)
    requires AllHandedOver(actions, start, i, t1.books.dispatches)
    ensures actions[i].faultOnly || HandedOver(t1.books.dispatches, t2.books.dispatches, FromLoop(i)) ==>
      AllHandedOver(actions, start, i + 1, t2.books.dispatches)
  {
    forall k: nat | start <= k < i && !actions[k].faultOnly ensures Dispatches(t2.books.dispatches, FromLoop(k)) >= 1 {
      assert Dispatches(t1.books.dispatches, FromLoop(k)) >= 1;
    }
  }

  lemma MeasuringStarts(policy: ExecutionPolicy, b: Beginning, t: Tally)
    requires b.start <= |b.plan.actions| && t.books == b.books && t.starts == []
    requires AfterStop(t.books.dispatches) == 0 && OnRecord(b.plan, b.inStep, b.stored, b.stored, t.last, t.archive)
    requires OnlyPrelude(t.books.dispatches)
    ensures Measuring(policy, b, t, b.start, b.stored, {}, {})
  {
    NothingAccounted(policy, b.plan.actions, b.start, b.books);
  }

  lemma MeasuredQuietly(policy: ExecutionPolicy, b: Beginning, t1: Tally, t2: Tally, completed: nat, stored: nat, attempted: set<string>)
    requires Measured(policy, b, t1, completed, stored, attempted)
    requires t2.books == t1.books && t2.starts == t1.starts && QuietlyExtends(t1.archive, t2.archive)
    ensures Measured(policy, b, t2, completed, stored, attempted)
  {
    LeftOnRecordQuietly(b.plan, b.inStep, b.stored, stored, t1.archive, t2.archive);
  }

  /** What holds of the records after every run, however it ended. */
  ghost predicate RunKept(
    policy: ExecutionPolicy, b: Beginning, completed: nat, stored: nat, archive: seq<Durable>,
    starts: seq<nat>, cleanup: seq<nat>, books: Ledger)
  {
    && b.start <= completed <= |b.plan.actions|
    && LeftOnRecord(b.plan, b.inStep, b.stored, stored, archive)
    && LoopStarts(b.plan.actions, starts)
    && DispatchSafe(policy, b.plan.actions, starts, cleanup, books.dispatches)
    && books.rawSweeps <= TotalSweepBound(policy, b.plan.actions[b.start..])
    && TimeWithin(b.books.times, books.times, TotalTimeBound(policy, b.plan.actions[b.start..]))
  }

  lemma MeasuredIsKept(
    policy: ExecutionPolicy, b: Beginning, t: Tally, completed: nat, stored: nat, attempted: set<string>,
    archive: seq<Durable>, cleanup: seq<nat>, books: Ledger)
    requires OnlyPrelude(b.books.dispatches) && b.books.rawSweeps == 0
    requires Measured(policy, b, t, completed, stored, attempted)
    requires CleanedUp(t.books.dispatches, books.dispatches, cleanup) && books.rawSweeps == t.books.rawSweeps
    requires books.times == t.books.times && QuietlyExtends(t.archive, archive)
    ensures RunKept(policy, b, completed, stored, archive, t.starts, cleanup, books)
  {
    WholeRunSafe(policy, b, t, completed, stored, attempted, books.dispatches, cleanup);
    LeftOnRecordQuietly(b.plan, b.inStep, b.stored, stored, t.archive, archive);
    assert b.plan.actions[b.start..|b.plan.actions|] == b.plan.actions[b.start..];
  }

  /** What a measurement that came to its end has counted, started and confirmed. */
  lemma MeasuredToTheEnd(
    policy: ExecutionPolicy, b: Beginning, t: Tally, stored: nat, attempted: set<string>, confirmed: set<Endpoint>, archive: seq<Durable>)
    requires Measuring(policy, b, t, |b.plan.actions|, stored, attempted, confirmed) && QuietlyExtends(t.archive, archive)
    ensures stored == b.stored + PointsIn(archive)
    ensures stored - b.stored == Checkpoints(b.plan.actions) - Checkpoints(b.plan.actions[..b.start])
    ensures forall i: nat | b.start <= i < |b.plan.actions| && b.plan.actions[i].isFinally :: i in t.starts <==> !b.plan.actions[i].faultOnly
    ensures confirmed == RetainedOutputs(b.plan.actions[b.start..])
    ensures AllHandedOver(b.plan.actions, b.start, |b.plan.actions|, t.books.dispatches)
  {
    QuietlyExtendsPoints(t.archive, archive);
    assert b.plan.actions[..|b.plan.actions|] == b.plan.actions;
    assert b.plan.actions[b.start..|b.plan.actions|] == b.plan.actions[b.start..];
  }

  /** The hand-overs of the measurement and of the clean-up after it, together. */
  lemma WholeRunSafe(
    policy: ExecutionPolicy, b: Beginning, t: Tally, completed: nat, stored: nat, attempted: set<string>,
    ds: seq<Dispatch>, cleanup: seq<nat>)
    requires OnlyPrelude(b.books.dispatches) && Measured(policy, b, t, completed, stored, attempted)
    requires CleanedUp(t.books.dispatches, ds, cleanup)
    ensures DispatchSafe(policy, b.plan.actions, t.starts, cleanup, ds)
  {
    forall i: nat ensures Dispatches(ds, FromLoop(i)) <= if i < |b.plan.actions| then 1 + policy.Retries(b.plan.actions[i]) else 0 {
      assert Dispatches(ds, FromLoop(i)) <= Dispatches(t.books.dispatches, FromLoop(i));
    }
    forall i: nat ensures Dispatches(ds, FromCleanup(i)) <= if i in cleanup then 1 else 0 {
      assert Dispatches(t.books.dispatches, FromCleanup(i)) <= Dispatches(b.books.dispatches, FromCleanup(i));
    }
    forall i: nat | i < |b.plan.actions| && b.plan.actions[i].isFinally && i !in t.starts
      ensures Dispatches(ds, FromLoop(i)) == 0
    {
      assert Dispatches(t.books.dispatches, FromLoop(i)) == 0;
    }
  }

  lemma NothingCleanedUp(ds: seq<Dispatch>)
    ensures CleanedUp(ds, ds, [])
  {
  }

  // ---- The estimate and the run ----

  /**
   A full run whose attempts all stay within their deadlines takes no longer than any duration that dominates the
   bounds of its actions, and never commits more raw sweeps than were reserved for them.
   */
  lemma EstimateDominatesRun(
    policy: ExecutionPolicy, b: Beginning, completed: nat, stored: nat, archive: seq<Durable>,
    starts: seq<nat>, cleanup: seq<nat>, books: Ledger, e: Estimate)
    requires RunKept(policy, b, completed, stored, archive, starts, cleanup, books)
    requires b.start == 0 && b.books.times == []
    requires TotalTimeBound(policy, b.plan.actions) <= e.retryUpperDurationS
    requires TotalSweepBound(policy, b.plan.actions) <= e.reservedSweeps
    ensures books.rawSweeps <= e.reservedSweeps
    ensures Timely(books.times) ==> Busy(books.times) <= e.retryUpperDurationS
  {
    assert b.plan.actions[0..] == b.plan.actions;
    assert Busy(b.books.times) == 0.0;
  }

  // ---- Runs and resumes ----

  /**
   A run that resumes an archive where recovery says leaves a log that recovery reads in turn, wherever it is cut off;
   and what is then there can be resumed again if and only if a boundary or no point is.
   */
  lemma ResumedRunIsALeg(plan: ExecutionPlan, a: Archive, start: nat, stored: nat, h: seq<Durable>)
    requires InStep(plan, a) && start == ResumeAt(a, plan).value.nextActionIndex
    requires LeftOnRecord(plan, a.points == Checkpoints(plan.actions[..start]), a.points, stored, h)
    ensures RunLog(plan, a.points, h)
    ensures forall cut: nat | cut <= |h| :: Chain(plan, a, [Leg(h, cut)])
    ensures forall cut: nat | cut <= |h| ::
              var left := Extend(a, h[..cut]);
              ResumeAt(left, plan).Ok? <==> HasBoundary(left, plan) || left.points == 0
  {
    forall cut: nat | cut <= |h|
      ensures var left := Extend(a, h[..cut]); ResumeAt(left, plan).Ok? <==> HasBoundary(left, plan) || left.points == 0
    {
      CrashedArchiveResumesIff(a, plan, h, cut);
    }
  }

  /**
   A run that drives the MOKE field records no boundary at all. Cut off anywhere, it can be resumed if and only if it
   stored no point, and then only from the beginning.
   */
  lemma MokeRunResumesIffPointless(plan: ExecutionPlan, stored: nat, h: seq<Durable>, cut: nat)
    requires MokeField in ControlledOutputEndpoints(plan.actions)
    requires LeftOnRecord(plan, true, 0, stored, h) && cut <= |h|
    ensures var left := Extend(Archive([], 0), h[..cut]);
            && (ResumeAt(left, plan).Ok? <==> PointsIn(h[..cut]) == 0)
            && (ResumeAt(left, plan).Ok? ==> ResumeAt(left, plan).value == ResumePoint(0, 0))
  {
    FreshArchiveInStep(plan);
    CrashedArchiveResumesIff(Archive([], 0), plan, h, cut);
    QuietIffNoLast(h[..cut]);
  }

  /**
   Any chain of runs that faulted, were aborted or crashed, each resumed at its last boundary, can be continued if and
   only if no run stored a point before the first boundary. One run that succeeds then ends with exactly the points
   the plan promises, whatever was stored twice or lost on the way.
   */
  lemma ChainEndsWithTotal(plan: ExecutionPlan, legs: seq<Leg>, start: nat, stored: nat)
    requires Compiled(plan) && CutsInRange(legs) && Chain(plan, Archive([], 0), legs)
    ensures AfterChain(plan, Archive([], 0), legs).Ok? <==> PointsFollowBoundary(legs)
    ensures PointsFollowBoundary(legs) ==>
              var a := AfterChain(plan, Archive([], 0), legs).value;
              && InStep(plan, a)
              && (start == ResumeAt(a, plan).value.nextActionIndex &&
                  stored - a.points == Checkpoints(plan.actions) - Checkpoints(plan.actions[..start]) ==>
                    stored == plan.totalPoints)
  {
    FreshArchiveInStep(plan);
    ChainConservesPoints(plan, Archive([], 0), legs);
  }

  // ---- Output states ----

  /** A recorded OFF is a physical OFF. */
  predicate Truthful(status: map<Endpoint, Status>, energized: set<Endpoint>) {
    forall e | e in status && status[e] == Off :: e !in energized
  }

  /** The MOKE field is never recorded as off: nothing reads it back. */
  predicate FieldUnproven(status: map<Endpoint, Status>) {
    MokeField in status ==> status[MokeField] == Unknown
  }

  /**
   One step on the outputs: recorded OFF stays truthful unless an energizing command failed, and only the outputs that
   the step is to light can be turned on, and none in a dry run.
   */
  predicate StepKeeps(
    lights: set<Endpoint>, dryRun: bool, ok: bool,
    status0: map<Endpoint, Status>, energized0: set<Endpoint>, status1: map<Endpoint, Status>, energized1: set<Endpoint>)
  {
    && (FieldUnproven(status0) ==> FieldUnproven(status1))
    && (Truthful(status0, energized0) && (ok || lights == {} || dryRun) ==> Truthful(status1, energized1))
    && (forall e | e in energized1 :: e in energized0 || (!dryRun && e in lights))
    && status0.Keys <= status1.Keys
  }

  /** Every output of a device that the run owns is recorded, and physically, on exactly when it is held. */
  predicate Settled(d: Device, owned: set<Endpoint>, held: set<Endpoint>, status: map<Endpoint, Status>, energized: set<Endpoint>) {
    forall e | e in owned && e.Owner() == d ::
      && e in status && status[e] == (if e in held then On else Off)
      && (e in energized <==> e in held)
  }

  /** One shutdown: what it was told to leave on, and how many attempts had been handed over before it. */
  datatype Shutdown = Shutdown(retained: set<Endpoint>, dispatched: nat)

  /** Nothing outside of this device was touched. */
  ghost predicate OnlyOn(d: Device, status0: map<Endpoint, Status>, energized0: set<Endpoint>, status1: map<Endpoint, Status>, energized1: set<Endpoint>) {
    forall e: Endpoint | e.Owner() != d ::
      && (e in energized1 <==> e in energized0) && (e in status1 <==> e in status0)
      && (e in status0 ==> status1[e] == status0[e])
  }

  /** Every owned output is recorded, and physically, on exactly when it is held. */
  predicate OutputsSettled(owned: set<Endpoint>, held: set<Endpoint>, status: map<Endpoint, Status>, energized: set<Endpoint>) {
    forall e | e in owned ::
      && e in status && status[e] == (if e in held then On else Off)
      && (e in energized <==> e in held)
  }

  lemma RetainedAreRetainable(plan: ExecutionPlan)
    requires Compiled(plan)
    ensures forall e | e in RetainedOutputs(plan.actions) :: Retainable(e)
  {
  }

  /** Settling one device leaves the settled others settled. */
  lemma SettledElsewhere(
    d: Device, others: set<Device>, owned: set<Endpoint>, held: set<Endpoint>,
    status0: map<Endpoint, Status>, energized0: set<Endpoint>, status1: map<Endpoint, Status>, energized1: set<Endpoint>)
    requires OnlyOn(d, status0, energized0, status1, energized1)
    requires forall x | x in others :: Settled(x, owned, held, status0, energized0)
    ensures forall x | x in others && x != d :: Settled(x, owned, held, status1, energized1)
  {
  }

  lemma StepKeepsSelf(dryRun: bool, status: map<Endpoint, Status>, energized: set<Endpoint>)
    ensures StepKeeps({}, dryRun, true, status, energized, status, energized)
  {
  }

  /** A step that energizes nothing only turns outputs off, and keeps recorded OFF states true. */
  lemma StepKeepsMeans(
    dryRun: bool, status0: map<Endpoint, Status>, energized0: set<Endpoint>, status1: map<Endpoint, Status>, energized1: set<Endpoint>)
    requires StepKeeps({}, dryRun, true, status0, energized0, status1, energized1)
    ensures energized1 <= energized0 && status0.Keys <= status1.Keys
    ensures Truthful(status0, energized0) ==> Truthful(status1, energized1)
  {
  }

  /** Only outputs that some action of the plan is to switch on were turned on, and none in a dry run. */
  ghost predicate LitOnly(dryRun: bool, actions: seq<PlanAction>, before: set<Endpoint>, after: set<Endpoint>) {
    forall e | e in after && e !in before :: !dryRun && exists a :: a in actions && e in TurnsOn(a.kind)
  }

  lemma LitByOne(dryRun: bool, actions: seq<PlanAction>, i: nat, start: set<Endpoint>, before: set<Endpoint>, after: set<Endpoint>)
    requires i < |actions| && LitOnly(dryRun, actions, start, before)
    requires forall e | e in after && e !in before :: !dryRun && e in TurnsOn(actions[i].kind)
    ensures LitOnly(dryRun, actions, start, after)
  {
    hide TurnsOn;
    assert actions[i] in actions;
  }

  lemma LitFewer(dryRun: bool, actions: seq<PlanAction>, start: set<Endpoint>, before: set<Endpoint>, after: set<Endpoint>)
    requires LitOnly(dryRun, actions, start, before) && after <= before
    ensures LitOnly(dryRun, actions, start, after)
  {
  }

  lemma NothingLit(dryRun: bool, actions: seq<PlanAction>, before: set<Endpoint>, after: set<Endpoint>)
    ensures after <= before ==> LitOnly(dryRun, actions, before, after)
    ensures dryRun && LitOnly(dryRun, actions, before, after) ==> after <= before
  {
  }

  lemma StepKeepsTransitive(
    dryRun: bool, status0: map<Endpoint, Status>, energized0: set<Endpoint>, status1: map<Endpoint, Status>,
    energized1: set<Endpoint>, status2: map<Endpoint, Status>, energized2: set<Endpoint>)
    requires StepKeeps({}, dryRun, true, status0, energized0, status1, energized1)
    requires StepKeeps({}, dryRun, true, status1, energized1, status2, energized2)
    ensures StepKeeps({}, dryRun, true, status0, energized0, status2, energized2)
  {
  }

  /** The turn of a device in a shutdown: what was left when it came, and the slice of it that the device was offered. */
  datatype Turn = Turn(device: Device, leftS: real, sliceS: Option<real>) {
    /** A slice was offered exactly if something was left. */
    predicate Served() {
      if leftS > 0.0 then sliceS.Some? && 0.0 < sliceS.value <= leftS else sliceS.None?
    }
  }

  /** The device had its turn since, and was served. */
  predicate TriedSince(before: seq<Turn>, after: seq<Turn>, d: Device) {
    exists i :: |before| <= i < |after| && after[i].device == d && after[i].Served()
  }

  lemma StillTried(start: seq<Turn>, before: seq<Turn>, after: seq<Turn>, attempted0: set<Device>, attempted1: set<Device>)
    requires |start| <= |before| <= |after| && after[..|before|] == before
    requires forall d | d in attempted0 :: TriedSince(start, before, d)
    requires forall d | d in attempted1 && d !in attempted0 :: TriedSince(before, after, d)
    ensures forall d | d in attempted1 :: TriedSince(start, after, d)
  {
    forall d | d in attempted1 ensures TriedSince(start, after, d) {
      if d in attempted0 {
        var i :| |start| <= i < |before| && before[i].device == d && before[i].Served();
        assert after[i] == before[i];
      }
    }
  }

  predicate DistinctDevices(steps: seq<ShutdownStep>) {
    forall i, j | 0 <= i < j < |steps| && steps[i].DeviceStep? && steps[j].DeviceStep? :: steps[i] != steps[j]
  }

  // ---- What a successful action leaves on record ----

  /** The output whose state an action confirms. */
  function Reported(k: Kind): Option<Endpoint> {
    match k
    case ConfigureRigol(r, _) => Some(RigolOut(r))
    case ConfigureRigolOutput(r, _) => Some(RigolOut(r))
    case ConfigureKeithley(s, _) => Some(KeithleyOut(s))
    case RampKeithleyToZero(s, _) => Some(KeithleyOut(s))
    case MeasureKeithley(s) => Some(KeithleyOut(s))
    case SetKeithleyOutput(s, _) => Some(KeithleyOut(s))
    case SetRigolOutput(r, _) => Some(RigolOut(r))
    case SetAnritsuSgOutput(_) => Some(AnritsuSg)
    case ConfigureAnritsuSg(_) => Some(AnritsuSg)
    case UpdateAnritsuSg(_) => Some(AnritsuSg)
    case AssertOutputOn(e) => Some(e)
    case _ => None
  }

  /** Set-ups and ramps end with the output off, and so does every switch in a dry run. */
  predicate LeavesOff(k: Kind, dryRun: bool) {
    || k.ConfigureRigol? || k.ConfigureRigolOutput? || k.ConfigureKeithley? || k.RampKeithleyToZero?
    || (dryRun && (k.SetKeithleyOutput? || k.SetRigolOutput? || k.SetAnritsuSgOutput?))
  }

  /** The outputs as the run records them, and as they are. */
  datatype Outputs = Outputs(status: map<Endpoint, Status>, active: set<Endpoint>, energized: set<Endpoint>)

  /** The state of one output, confirmed; the others untouched. */
  ghost predicate Confirms(e: Endpoint, before: Outputs, after: Outputs) {
    && after.status == before.status[e := if e in after.energized then On else Off]
    && after.active == (if e in after.energized then before.active + {e} else before.active - {e})
    && forall x | x != e :: x in after.energized <==> x in before.energized
  }

  /** Only sources that were active were sampled again. */
  ghost predicate Resampled(before: Outputs, after: Outputs) {
    && after.energized == before.energized
    && forall e: Endpoint | !(e.KeithleyOut? && e in before.active) ::
         && (e in after.status <==> e in before.status) && (e in before.status ==> after.status[e] == before.status[e])
         && (e in after.active <==> e in before.active)
  }

  /** Exactly what a successful action changes in the records of the outputs. */
  ghost predicate OutputEffect(k: Kind, dryRun: bool, ownsGenerator: bool, before: Outputs, after: Outputs) {
    if Reported(k).Some? then
      var e := Reported(k).value;
      && Confirms(e, before, after)
      && (LeavesOff(k, dryRun) ==> e !in after.energized)
      && (k.AssertOutputOn? || k.MeasureKeithley? ==> after.energized == before.energized)
      && (k.AssertOutputOn? && !dryRun ==> e in after.energized)
      && (k.UpdateAnritsuSg? ==> (e in after.energized <==> e in before.active))
    else if k.ConfigureAnritsu? then
      || after == before
      || (k.config.mask.None? && ownsGenerator && Confirms(AnritsuSg, before, after) && AnritsuSg !in after.energized)
    else if k.AcquireReference? || k.AcquireSpectrum? then Resampled(before, after)
    else if k.ArmMokeVoltage? || k.StopMokeVoltage? then
      after == before || after == before.(status := before.status[MokeField := Unknown])
    else after == before
  }

  /** One attempt to bring a MOKE channel, or the instrument's current one, to zero. */
  datatype MokeStop = MokeStop(channel: Option<int>, confirmed: bool)

  /** This channel was tried since, whatever came of it. */
  predicate StopTried(before: seq<MokeStop>, after: seq<MokeStop>, channel: int) {
    exists i :: |before| <= i < |after| && after[i].channel == Some(channel)
  }

  /** A stop was tried of the channel that the instrument itself takes for the current one. */
  predicate AnyStopTried(before: seq<MokeStop>, after: seq<MokeStop>) {
    exists i :: |before| <= i < |after| && after[i].channel.None?
  }

  predicate AllConfirmed(before: seq<MokeStop>, after: seq<MokeStop>) {
    |before| <= |after| && forall i | |before| <= i < |after| :: after[i].confirmed
  }

  /** This channel was brought to zero since, and confirmed there. */
  predicate ZeroConfirmed(before: seq<MokeStop>, after: seq<MokeStop>, channel: int) {
    exists i :: |before| <= i < |after| && after[i] == MokeStop(Some(channel), true)
  }

  /** What a shutdown has done for the MOKE DAC: turns, attempts to stop, the channels owned, and those driven off zero. */
  datatype MokeBooks = MokeBooks(turns: seq<Turn>, stops: seq<MokeStop>, channels: set<int>, driven: set<int>)

  predicate MokeTurn(before: seq<Turn>, after: seq<Turn>) {
    exists i :: |before| <= i < |after| && after[i].device == Moke
  }

  /** The MOKE DAC was offered a slice of the time left. */
  predicate MokeOffered(before: seq<Turn>, after: seq<Turn>) {
    exists i :: |before| <= i < |after| && after[i].device == Moke && after[i].sliceS.Some?
  }

  /**
   Part of a shutdown: turns go to instruments in scope; a MOKE turn that was offered a slice tried every owned channel
   that is not held; and if all went well it brought them to zero.
   */
  ghost predicate TurnsKept(scope: set<Device>, held: set<Endpoint>, ok: bool, b: MokeBooks, a: MokeBooks) {
    && |b.turns| <= |a.turns| && a.turns[..|b.turns|] == b.turns
    && (forall i | |b.turns| <= i < |a.turns| :: a.turns[i].device in scope)
    && |b.stops| <= |a.stops| && a.stops[..|b.stops|] == b.stops
    && b.channels <= a.channels && a.driven <= b.driven
    && (MokeOffered(b.turns, a.turns) ==> forall c | c in b.channels && MokeVout(c) !in held :: StopTried(b.stops, a.stops, c))
    && (ok ==> AllConfirmed(b.stops, a.stops))
    && (ok && MokeTurn(b.turns, a.turns) ==>
          MokeOffered(b.turns, a.turns) && forall c | c in b.channels && MokeVout(c) !in held :: c !in a.driven)
  }

  lemma TurnsKeptSelf(scope: set<Device>, held: set<Endpoint>, ok: bool, b: MokeBooks)
    ensures TurnsKept(scope, held, ok, b, b)
  {
  }

  /** The commands of one turn. */
  ghost predicate TurnTaken(d: Device, held: set<Endpoint>, ok: bool, b: MokeBooks, a: MokeBooks) {
    && a.turns == b.turns
    && |b.stops| <= |a.stops| && a.stops[..|b.stops|] == b.stops && b.channels <= a.channels && a.driven <= b.driven
    && (d == Moke ==> forall c | c in b.channels && MokeVout(c) !in held :: StopTried(b.stops, a.stops, c))
    && (ok ==> AllConfirmed(b.stops, a.stops))
    && (ok && d == Moke ==> forall c | c in b.channels && MokeVout(c) !in held :: c !in a.driven)
  }

  lemma TurnKept(d: Device, held: set<Endpoint>, ok: bool, b: MokeBooks, a: MokeBooks, turn: Turn)
    requires TurnTaken(d, held, ok, b, a) && turn.device == d && turn.sliceS.Some?
    ensures TurnsKept({d}, held, ok, b, a.(turns := b.turns + [turn]))
  {
    hide StopTried, AllConfirmed;
    assert (b.turns + [turn])[|b.turns|] == turn;
  }

  lemma TurnRefused(d: Device, held: set<Endpoint>, b: MokeBooks, turn: Turn)
    requires turn.device == d && turn.sliceS.None?
    ensures TurnsKept({d}, held, false, b, b.(turns := b.turns + [turn]))
  {
    hide StopTried, AllConfirmed;
  }

  lemma StopStillTried(start: seq<MokeStop>, before: seq<MokeStop>, after: seq<MokeStop>, c: int)
    requires |start| <= |before| <= |after| && after[..|before|] == before
    ensures StopTried(start, before, c) || StopTried(before, after, c) ==> StopTried(start, after, c)
  {
    if StopTried(start, before, c) {
      var i :| |start| <= i < |before| && before[i].channel == Some(c);
      assert after[i] == before[i];
    }
  }

  lemma ConfirmedInTurn(start: seq<MokeStop>, before: seq<MokeStop>, after: seq<MokeStop>)
    requires |start| <= |before| <= |after| && after[..|before|] == before
    requires AllConfirmed(start, before) && AllConfirmed(before, after)
    ensures AllConfirmed(start, after)
  {
    forall i | |start| <= i < |after| ensures after[i].confirmed {
      if i < |before| {
        assert after[i] == before[i];
      }
    }
  }

  lemma TurnsInTurn(start: seq<Turn>, before: seq<Turn>, after: seq<Turn>)
    requires |start| <= |before| <= |after| && after[..|before|] == before
    ensures MokeTurn(start, after) <==> MokeTurn(start, before) || MokeTurn(before, after)
    ensures MokeOffered(start, after) <==> MokeOffered(start, before) || MokeOffered(before, after)
  {
    forall i | |start| <= i < |before| ensures after[i] == before[i] {
    }
  }

  lemma TurnsKeptTransitive(scope: set<Device>, held: set<Endpoint>, ok1: bool, ok2: bool, b: MokeBooks, m: MokeBooks, a: MokeBooks)
    requires TurnsKept(scope, held, ok1, b, m) && TurnsKept(scope, held, ok2, m, a)
    ensures TurnsKept(scope, held, ok1 && ok2, b, a)
  {
    hide StopTried, AllConfirmed, MokeTurn, MokeOffered;
    TurnsInTurn(b.turns, m.turns, a.turns);
    forall c ensures StopTried(b.stops, m.stops, c) || StopTried(m.stops, a.stops, c) ==> StopTried(b.stops, a.stops, c) {
      StopStillTried(b.stops, m.stops, a.stops, c);
    }
    if ok1 && ok2 {
      ConfirmedInTurn(b.stops, m.stops, a.stops);
    }
    forall i | |b.turns| <= i < |a.turns| ensures a.turns[i].device in scope {
      assert i < |m.turns| ==> a.turns[i] == m.turns[i];
    }
  }

  /** A shutdown in which all went well, the MOKE DAC included. */
  lemma ZeroedIfOwned(scope: set<Device>, held: set<Endpoint>, b: MokeBooks, a: MokeBooks)
    requires TurnsKept(scope, held, true, b, a) && TriedSince(b.turns, a.turns, Moke)
    ensures forall c | c in b.channels && MokeVout(c) !in held :: ZeroConfirmed(b.stops, a.stops, c) && c !in a.driven
  {
    assert MokeTurn(b.turns, a.turns);
    forall c | c in b.channels && MokeVout(c) !in held ensures ZeroConfirmed(b.stops, a.stops, c) && c !in a.driven {
      var i :| |b.stops| <= i < |a.stops| && a.stops[i].channel == Some(c);
      assert a.stops[i] == MokeStop(Some(c), true);
    }
  }

  // ---- MOKE permission ----

  /** What the runner checks against the trajectory it prepared last. */
  predicate MokePermits(k: Kind, prepared: Option<MokePlan>) {
    match k
    case ConfigureMokeBox(_, _, _, plan) => plan.Some?
    case ArmMokeVoltage(plan) => plan == prepared
    case UpdateMokeVoltage(_, _, _, _) => prepared.Some?
    case _ => true
  }

  function MokePlanAfter(k: Kind, prepared: Option<MokePlan>): Option<MokePlan> {
    match k
    case ConfigureMokeBox(_, _, _, plan) => plan
    case StopMokeVoltage(_, _) => None
    case _ => prepared
  }

  lemma OtherActionsArePermitted(k: Kind, prepared: Option<MokePlan>)
    requires !k.ConfigureMokeBox? && !k.ArmMokeVoltage? && !k.UpdateMokeVoltage? && !k.StopMokeVoltage?
    ensures MokePermits(k, prepared) && MokePlanAfter(k, prepared) == prepared
  {
  }

  /** Only a configuration and a stop change the prepared trajectory. */
  predicate ChangesMokePlan(k: Kind) {
    k.ConfigureMokeBox? || k.StopMokeVoltage?
  }

  /** The trajectory that the runner holds after the first n actions of a successful run. */
  function HeldAfter(actions: seq<PlanAction>, n: nat): Option<MokePlan>
    requires n <= |actions|
  {
    if n == 0 then None
    else if actions[n - 1].faultOnly then HeldAfter(actions, n - 1)
    else MokePlanAfter(actions[n - 1].kind, HeldAfter(actions, n - 1))
  }

  // ---- The shared shutdown budget ----

  /** One slice of the shutdown budget, handed to one operation. */
  datatype Offer = Offer(device: Device, budgetS: real)

  /** What is left of the budget; before it starts, all of it. */
  function Left(deadline: Option<real>, now: real, timeout: real): real {
    match deadline
    case Some(d) => d - now
    case None => timeout
  }

  /** One operation within the budget: of its time, at most its slice counts as spent and the rest as lost. */
  predicate SliceUsed(slots: nat, left: real, spentHere: real)
    requires 0 < slots
  {
    0.0 <= spentHere <= (if left > 0.0 then left / slots as real else 0.0)
  }

  /** The device was offered an equal slice of what was left, or nothing was left. */
  ghost predicate OfferMade(before: seq<Offer>, after: seq<Offer>, d: Device, slots: nat, left: real, lostHere: real)
    requires 0 < slots
  {
    || (after == before && left <= lostHere)
    || exists b: real :: after == before + [Offer(d, b)] && b >= (left - lostHere) / slots as real
  }

  /** What operations have spent of the budget, and what is left of it: together never more than the budget. */
  function ReserveOf(deadline: Option<real>, now: real, spent: real, timeout: real): real {
    var left := Left(deadline, now, timeout);
    spent + if left > 0.0 then left else 0.0
  }

  /**
   What one operation, or none, does to the budget: it spends at most its slice, the rest of its duration is lost time,
   and nothing gives time back.
   */
  ghost predicate BudgetStep(
    timeout: real, slots: nat, deadline0: Option<real>, now0: real, spent0: real, deadline1: Option<real>, now1: real, spent1: real)
  {
    var left0, left1 := Left(deadline0, now0, timeout), Left(deadline1, now1, timeout);
    && 0 < slots
    && (deadline0.Some? ==> deadline1 == deadline0)
    && SliceUsed(slots, left0, spent1 - spent0)
    && spent1 - spent0 <= now1 - now0
    && left0 - (now1 - now0) <= left1 <= left0
    && ReserveOf(deadline1, now1, spent1, timeout) <= ReserveOf(deadline0, now0, spent0, timeout)
  }

  /** The deadline once the first operation has begun. */
  function Started(deadline: Option<real>, now: real, timeout: real): Option<real> {
    Some(if deadline.Some? then deadline.value else now + timeout)
  }

  lemma OperationBooked(
    timeout: real, slots: nat, deadline: Option<real>, now0: real, spent0: real, began: real, budget: real, now1: real, spent1: real)
    requires 0 < slots && now0 <= began <= now1
    requires Left(Started(deadline, now0, timeout), began, timeout) > 0.0
    requires budget == Left(Started(deadline, now0, timeout), began, timeout) / slots as real
    requires spent0 <= spent1 <= spent0 + budget && spent1 - spent0 <= now1 - began
    ensures BudgetStep(timeout, slots, deadline, now0, spent0, Started(deadline, now0, timeout), now1, spent1)
  {
    var left0, leftBegan := Left(deadline, now0, timeout), Left(Started(deadline, now0, timeout), began, timeout);
    SliceIsPart(leftBegan, slots);
    SliceAtLeast(leftBegan, left0, 0.0, slots);
  }

  lemma OperationRefused(timeout: real, slots: nat, deadline: Option<real>, now0: real, spent: real, now1: real)
    requires 0 < slots && now0 <= now1
    ensures BudgetStep(timeout, slots, deadline, now0, spent, Started(deadline, now0, timeout), now1, spent)
    ensures BudgetStep(timeout, slots, deadline, now0, spent, deadline, now1, spent)
  {
    if Left(deadline, now0, timeout) > 0.0 {
      SliceIsPart(Left(deadline, now0, timeout), slots);
    }
  }

  lemma SliceIsPart(left: real, slots: nat)
    requires 0 < slots && 0.0 <= left
    ensures 0.0 <= left / slots as real <= left
    ensures 0.0 < left ==> 0.0 < left / slots as real
  {
  }

  lemma SliceAtLeast(left0: real, leftBegan: real, lostHere: real, slots: nat)
    requires 0 < slots && leftBegan >= left0 - lostHere
    ensures leftBegan / slots as real >= (left0 - lostHere) / slots as real
  {
    var gap := leftBegan - (left0 - lostHere);
    assert leftBegan / slots as real == (left0 - lostHere) / slots as real + gap / slots as real;
  }

  /** An operation that began with `began` left, got its slice of it, and spent at most that. */
  lemma SliceBooked(before: seq<Offer>, d: Device, slots: nat, left: real, began: real, lostHere: real, budget: real, spentHere: real)
    requires 0 < slots && 0.0 < began <= left && began >= left - lostHere
    requires budget == began / slots as real && 0.0 <= spentHere <= budget
    ensures SliceUsed(slots, left, spentHere)
    ensures OfferMade(before, before + [Offer(d, budget)], d, slots, left, lostHere)
  {
    SliceAtLeast(left, began, lostHere, slots);
    SliceAtLeast(began, left, 0.0, slots);
  }

  /** An operation that was refused because nothing was left. */
  lemma SliceRefused(before: seq<Offer>, d: Device, slots: nat, left: real, lostHere: real)
    requires 0 < slots && left <= lostHere
    ensures SliceUsed(slots, left, 0.0) && OfferMade(before, before, d, slots, left, lostHere)
  {
    if left > 0.0 {
      assert 0.0 <= left / slots as real;
    }
  }

  /** With m of n devices still to go, m/n of the whole is left, less the time lost since outside of operations. */
  predicate FairShare(whole: real, lost: real, n: nat, m: nat, left: real)
    requires 0 < n
  {
    left >= whole * (m as real / n as real) - lost
  }

  lemma Scale(a: real, b: real, c: real)
    requires a <= b && 0.0 <= c
    ensures a * c <= b * c
  {
  }

  lemma Shrink(gap: real, M: real, lost: real)
    requires gap * M <= lost && 1.0 <= M && 0.0 <= lost
    ensures gap <= lost && gap * (M - 1.0) <= lost
  {
    if gap > 0.0 {
      Scale(1.0, M, gap);
    } else {
      Scale(gap, 0.0, M - 1.0);
    }
  }

  lemma SliceOf(whole: real, n: real, m: real)
    requires 1.0 <= m <= n
    ensures whole * (m / n) / m == whole / n
    ensures whole * ((m - 1.0) / n) == whole * (m / n) - whole / n
  {
  }

  /** Handing the next device an equal slice of what is left keeps the shares of the others. */
  lemma FairShareStep(whole: real, lost: real, lostHere: real, spentHere: real, n: nat, m: nat, left: real)
    requires 1 <= m <= n && FairShare(whole, lost, n, m, left) && 0.0 <= whole && 0.0 <= lost && 0.0 <= lostHere
    requires SliceUsed(m, left, spentHere)
    ensures FairShare(whole, lost + lostHere, n, m - 1, left - lostHere - spentHere)
  {
    var N, M := n as real, m as real;
    assert (m - 1) as real == M - 1.0;
    SliceOf(whole, N, M);
    if left > 0.0 {
      FairShareRest(whole, lost, N, M, left);
    } else {
      assert whole / N >= 0.0;
    }
  }

  lemma FairShareRest(whole: real, lost: real, N: real, M: real, left: real)
    requires 1.0 <= M <= N && left >= whole * (M / N) - lost && 0.0 <= lost
    ensures left - left / M >= whole * ((M - 1.0) / N) - lost
    ensures left / M >= whole / N - lost
  {
    SliceOf(whole, N, M);
    var slice := left / M;
    var p := whole * (M / N);
    assert left == slice * M;
    assert p == (whole / N) * M;
    // slice * M >= (whole / N) * M - lost, and M >= 1
    var gap := whole / N - slice;
    assert gap * M <= lost;
    Shrink(gap, M, lost);
    assert left - slice == slice * (M - 1.0);
    assert whole * ((M - 1.0) / N) == (whole / N) * (M - 1.0);
  }

  /**
   The state of a shutdown with m of n devices still to go: every slice offered so far is at least an equal share of
   the whole less the lost time, and no device was refused its slice while time was lost sparingly.
   */
  ghost predicate Sharing(
    whole: real, n: nat, m: nat, lost: real, left: real, before: seq<Offer>, after: seq<Offer>, attempted: set<Device>)
  {
    && 0 < n && FairShare(whole, lost, n, m, left)
    && |before| <= |after|
    && (forall i | |before| <= i < |after| :: after[i].budgetS >= whole / n as real - lost)
    && (whole / n as real > lost ==> forall d | d in attempted :: Offered(before, after, d))
  }

  /** What a shutdown promises to share out: what was left when it began. Only a list that names a device twice breaks it. */
  datatype Share = Share(whole: real, lost: real, offers: seq<Offer>, fair: bool)

  predicate Offered(before: seq<Offer>, after: seq<Offer>, d: Device) {
    exists i :: |before| <= i < |after| && after[i].device == d
  }

  lemma SharingStart(whole: real, n: nat, offers: seq<Offer>)
    requires 0 < n
    ensures Sharing(whole, n, n, 0.0, whole, offers, offers, {})
  {
    assert n as real / n as real == 1.0;
  }

  /**
   What a shutdown guarantees its n devices: each slice is at least 1/n of what was left when it began, less the time
   lost outside of operations, and no device was refused a slice while less than that was lost.
   */
  ghost predicate FairlyShared(whole: real, scope: set<Device>, lost: real, before: seq<Offer>, after: seq<Offer>)
    requires scope != {}
  {
    && (forall i | |before| <= i < |after| :: after[i].budgetS >= whole / |scope| as real - lost)
    && (whole / |scope| as real > lost ==> forall d | d in scope :: Offered(before, after, d))
  }

  /** Time lost outside of operations. */
  lemma SharingTime(
    whole: real, n: nat, m: nat, lost0: real, left0: real, lost1: real, left1: real,
    before: seq<Offer>, after: seq<Offer>, attempted: set<Device>)
    requires Sharing(whole, n, m, lost0, left0, before, after, attempted)
    requires lost0 <= lost1 && left1 >= left0 - (lost1 - lost0)
    ensures Sharing(whole, n, m, lost1, left1, before, after, attempted)
  {
  }

  /** One more device, offered an equal slice of what is left. */
  lemma SharingStep(
    whole: real, n: nat, m: nat, lost0: real, left0: real, lost1: real, left1: real, spentHere: real,
    before: seq<Offer>, offers0: seq<Offer>, offers1: seq<Offer>, attempted: set<Device>, d: Device)
    requires Sharing(whole, n, m, lost0, left0, before, offers0, attempted) && 0.0 <= whole && 0.0 <= lost0 <= lost1
    requires 1 <= m <= n && SliceUsed(m, left0, spentHere) && left1 >= left0 - (lost1 - lost0) - spentHere
    requires OfferMade(offers0, offers1, d, m, left0, lost1 - lost0)
    ensures Sharing(whole, n, m - 1, lost1, left1, before, offers1, attempted + {d})
  {
    FairShareStep(whole, lost0, lost1 - lost0, spentHere, n, m, left0);
    NextSlice(whole, lost0, lost1 - lost0, n, m, left0);
    if offers1 != offers0 {
      var b: real :| offers1 == offers0 + [Offer(d, b)] && b >= (left0 - (lost1 - lost0)) / m as real;
      assert offers1[|offers0|].device == d;
      forall x | x in attempted && Offered(before, offers0, x) ensures Offered(before, offers1, x) {
        var i :| |before| <= i < |offers0| && offers0[i].device == x;
        assert offers1[i].device == x;
      }
    }
  }

  /** An equal slice is at least an equal share of the whole, less the lost time; if nothing is left, so much was lost. */
  lemma NextSlice(whole: real, lost: real, lostHere: real, n: nat, m: nat, left: real)
    requires 1 <= m <= n && FairShare(whole, lost, n, m, left) && 0.0 <= whole && 0.0 <= lost && 0.0 <= lostHere
    ensures (left - lostHere) / m as real >= whole / n as real - (lost + lostHere)
    ensures left <= lostHere ==> whole / n as real <= lost + lostHere
  {
    var N, M := n as real, m as real;
    FairShareRest(whole, lost, N, M, left);
    assert lostHere / M <= lostHere;
    assert (left - lostHere) / M == left / M - lostHere / M;
    if left <= lostHere {
      assert left / M <= lostHere / M;
    }
  }

  /** How many operations the time left is divided by at a turn of a device. */
  function Slots(scope: set<Device>, attempted: set<Device>, d: Device): (slots: nat)
    ensures 0 < slots
  {
    Max(1, |scope - (attempted + {d})| + 1)
  }

  function SliceAt(scope: set<Device>, attempted: set<Device>, d: Device, left: real): real {
    left / Slots(scope, attempted, d) as real
  }

  /** The slices of a shutdown list when every operation uses up its slice and no time is lost. */
  function SlicesUsedUp(order: seq<Device>, scope: set<Device>, attempted: set<Device>, left: real): (slices: seq<real>)
    ensures |slices| == |order|
  {
    if order == [] then []
    else
      var slice := SliceAt(scope, attempted, order[0], left);
      [slice] + SlicesUsedUp(order[1..], scope, attempted + {order[0]}, left - slice)
  }

  /** Every device gets at least this share at its first turn. */
  predicate SharesKept(order: seq<Device>, scope: set<Device>, attempted: set<Device>, left: real, share: real) {
    var slices := SlicesUsedUp(order, scope, attempted, left);
    forall k | 0 <= k < |order| && order[k] !in attempted && order[k] !in order[..k] :: slices[k] >= share
  }

  /** No device has another turn before every device in scope has had one. */
  predicate RepeatsComeLast(order: seq<Device>, scope: set<Device>, attempted: set<Device>) {
    forall k | 0 <= k < |order| && (order[k] in attempted || order[k] in order[..k]) ::
      forall d | d in scope :: d in attempted || d in order[..k]
  }

  lemma TailMembers(order: seq<Device>, k: nat)
    requires order != [] && k < |order| - 1
    ensures order[k + 1] == order[1..][k]
    ensures forall d :: d in order[..k + 1] <==> d == order[0] || d in order[1..][..k]
  {
    var n := k + 1;
    assert order[..n] == [order[0]] + order[1..][..k];
  }

  lemma SharesKeptTail(order: seq<Device>, scope: set<Device>, attempted: set<Device>, left: real, share: real)
    requires order != []
    ensures var slice := SliceAt(scope, attempted, order[0], left);
            SharesKept(order, scope, attempted, left, share) <==>
            (order[0] !in attempted ==> slice >= share)
            && SharesKept(order[1..], scope, attempted + {order[0]}, left - slice, share)
  {
    hide SliceAt;
    var slice, rest, tried := SliceAt(scope, attempted, order[0], left), order[1..], attempted + {order[0]};
    var slices, tail := SlicesUsedUp(order, scope, attempted, left), SlicesUsedUp(rest, scope, tried, left - slice);
    assert slices == [slice] + tail;
    hide SlicesUsedUp;
    assert order[..0] == [];
    if SharesKept(order, scope, attempted, left, share) {
      forall k | 0 <= k < |rest| && rest[k] !in tried && rest[k] !in rest[..k] ensures tail[k] >= share {
        TailMembers(order, k);
        var n := k + 1;
        assert slices[n] == tail[k] && order[n] !in attempted && order[n] !in order[..n];
      }
    }
    if (order[0] !in attempted ==> slice >= share) && SharesKept(rest, scope, tried, left - slice, share) {
      forall k | 0 <= k < |order| && order[k] !in attempted && order[k] !in order[..k] ensures slices[k] >= share {
        if k > 0 {
          var m := k - 1;
          TailMembers(order, m);
          assert slices[k] == tail[m] && rest[m] !in tried && rest[m] !in rest[..m];
        }
      }
    }
  }

  lemma RepeatsComeLastTail(order: seq<Device>, scope: set<Device>, attempted: set<Device>)
    requires order != []
    ensures RepeatsComeLast(order, scope, attempted) <==>
            (order[0] in attempted ==> scope <= attempted) && RepeatsComeLast(order[1..], scope, attempted + {order[0]})
  {
    var rest, tried := order[1..], attempted + {order[0]};
    assert order[..0] == [];
    forall k | 0 <= k < |rest|
      ensures (order[k + 1] in attempted || order[k + 1] in order[..k + 1]) <==> (rest[k] in tried || rest[k] in rest[..k])
      ensures (forall d | d in scope :: d in attempted || d in order[..k + 1]) <==>
              (forall d | d in scope :: d in tried || d in rest[..k])
    {
      TailMembers(order, k);
    }
    if RepeatsComeLast(order, scope, attempted) {
      forall k | 0 <= k < |rest| && (rest[k] in tried || rest[k] in rest[..k])
        ensures forall d | d in scope :: d in tried || d in rest[..k]
      {
        var n := k + 1;
        assert order[n] in attempted || order[n] in order[..n];
      }
    }
    if (order[0] in attempted ==> scope <= attempted) && RepeatsComeLast(rest, scope, tried) {
      forall k | 0 <= k < |order| && (order[k] in attempted || order[k] in order[..k])
        ensures forall d | d in scope :: d in attempted || d in order[..k]
      {
        if k > 0 {
          var m := k - 1;
          assert rest[m] in tried || rest[m] in rest[..m];
        }
      }
    }
  }

  /** At a first turn the slots are the devices still to go; at a repeated one they are one more. */
  lemma SlotsAt(scope: set<Device>, attempted: set<Device>, d: Device)
    requires d in scope
    ensures Slots(scope, attempted, d) == if d in attempted then |scope - attempted| + 1 else |scope - attempted|
  {
    if d in attempted {
      assert attempted + {d} == attempted;
    } else {
      assert scope - attempted == (scope - (attempted + {d})) + {d};
    }
  }

  lemma Below(left: real, share: real, m: real)
    requires 1.0 <= m && left < share * m
    ensures left / m < share
  {
  }

  lemma EqualSlice(share: real, m: real)
    requires 1.0 <= m
    ensures share * m / m == share
  {
  }

  /** A first turn takes an equal share, */
  lemma FirstTurn(scope: set<Device>, attempted: set<Device>, d: Device, left: real, share: real)
    requires d in scope && d !in attempted && left == share * |scope - attempted| as real
    ensures SliceAt(scope, attempted, d, left) == share
    ensures left - share == share * |scope - (attempted + {d})| as real
  {
    SlotsAt(scope, attempted, d);
    assert scope - attempted == (scope - (attempted + {d})) + {d};
    var m := |scope - attempted|;
    EqualSlice(share, m as real);
    assert (m - 1) as real == m as real - 1.0;
  }

  /** or less, if less than that is left for everyone; */
  lemma PoorTurn(scope: set<Device>, attempted: set<Device>, d: Device, left: real, share: real)
    requires d in scope && d !in attempted && left < share * |scope - attempted| as real
    ensures SliceAt(scope, attempted, d, left) < share
  {
    SlotsAt(scope, attempted, d);
    assert scope - attempted == (scope - (attempted + {d})) + {d};
    Below(left, share, |scope - attempted| as real);
  }

  /** another turn of the same device leaves less for the others. */
  lemma RepeatedTurn(scope: set<Device>, attempted: set<Device>, d: Device, left: real)
    requires d in scope && d in attempted && 0.0 <= left
    ensures 0.0 <= left - SliceAt(scope, attempted, d, left) <= left
    ensures 0.0 < left ==> left - SliceAt(scope, attempted, d, left) < left
    ensures |scope - attempted| == 0 && left == 0.0 ==> SliceAt(scope, attempted, d, left) == 0.0
  {
    SliceIsPart(left, Slots(scope, attempted, d));
  }

  /** Less than a share for each device still to go cannot become one again. */
  lemma {:induction false} ShareIsGone(order: seq<Device>, scope: set<Device>, attempted: set<Device>, left: real, share: real)
    requires forall d | d in order :: d in scope
    requires forall d | d in scope && d !in attempted :: d in order
    requires |scope - attempted| >= 1 && 0.0 <= left < share * |scope - attempted| as real
    ensures !SharesKept(order, scope, attempted, left, share)
    decreases |order|
  {
    hide SharesKept, SliceAt;
    var someone :| someone in scope - attempted;
    var d := order[0];
    SharesKeptTail(order, scope, attempted, left, share);
    if d !in attempted {
      PoorTurn(scope, attempted, d, left, share);
    } else {
      RepeatedTurn(scope, attempted, d, left);
      assert attempted + {d} == attempted;
      ShareIsGone(order[1..], scope, attempted, left - SliceAt(scope, attempted, d, left), share);
    }
  }

  lemma NothingForNobody(share: real)
    ensures share * 0.0 == 0.0
  {
  }

  lemma SomethingLeft(share: real, m: real)
    requires 0.0 < share && 1.0 <= m
    ensures 0.0 < share * m
  {
  }

  lemma {:induction false} SharesKeptFrom(order: seq<Device>, scope: set<Device>, attempted: set<Device>, left: real, share: real)
    requires forall d | d in order :: d in scope
    requires forall d | d in scope && d !in attempted :: d in order
    requires 0.0 < share && left == share * |scope - attempted| as real
    ensures SharesKept(order, scope, attempted, left, share) <==> RepeatsComeLast(order, scope, attempted)
    decreases |order|
  {
    hide SharesKept, RepeatsComeLast, SliceAt;
    if order == [] {
      NoTurns(scope, attempted, left, share);
    } else {
      var d, m := order[0], |scope - attempted|;
      var rest := left - SliceAt(scope, attempted, d, left);
      SharesKeptTail(order, scope, attempted, left, share);
      RepeatsComeLastTail(order, scope, attempted);
      NoneToGo(scope, attempted);
      if d !in attempted {
        FirstTurn(scope, attempted, d, left, share);
        SharesKeptFrom(order[1..], scope, attempted + {d}, rest, share);
      } else if m == 0 {
        NothingForNobody(share);
        RepeatedTurn(scope, attempted, d, left);
        assert attempted + {d} == attempted;
        SharesKeptFrom(order[1..], scope, attempted, rest, share);
      } else {
        SomethingLeft(share, m as real);
        RepeatedTurn(scope, attempted, d, left);
        assert attempted + {d} == attempted;
        ShareIsGone(order[1..], scope, attempted, rest, share);
      }
    }
  }

  lemma NoTurns(scope: set<Device>, attempted: set<Device>, left: real, share: real)
    ensures SharesKept([], scope, attempted, left, share) && RepeatsComeLast([], scope, attempted)
  {
  }

  lemma NoneToGo(scope: set<Device>, attempted: set<Device>)
    ensures |scope - attempted| == 0 <==> scope <= attempted
  {
    assert |scope - attempted| == 0 <==> scope - attempted == {};
    if !(scope <= attempted) {
      var d :| d in scope && d !in attempted;
      assert d in scope - attempted;
    }
  }

  /**
   A shutdown list that comes to every device in scope, whose operations use up their slices, gives every device an
   equal share at its first turn if and only if no device has another turn before all of them have had one.
   */
  lemma EqualSharesIff(order: seq<Device>, scope: set<Device>, whole: real)
    requires 0.0 < whole && scope != {} && forall d :: d in order <==> d in scope
    ensures SharesKept(order, scope, {}, whole, whole / |scope| as real) <==> RepeatsComeLast(order, scope, {})
  {
    var n := |scope| as real;
    assert scope - {} == scope;
    assert whole / n * n == whole && 0.0 < whole / n;
    SharesKeptFrom(order, scope, {}, whole, whole / n);
  }

  function Pow2(k: nat): (r: real)
    ensures r >= 1.0
  {
    if k == 0 then 1.0 else 2.0 * Pow2(k - 1)
  }

  /** After k clean-up actions, each offered half of what was left, 1/2^k of the whole is left, less the time lost. */
  predicate Halved(whole: real, lost: real, k: nat, left: real) {
    left >= whole / Pow2(k) - lost
  }

  lemma HalvedStep(whole: real, lost: real, lostHere: real, spentHere: real, k: nat, left: real)
    requires Halved(whole, lost, k, left) && 0.0 <= whole && 0.0 <= lost && 0.0 <= lostHere
    requires SliceUsed(2, left, spentHere)
    ensures Halved(whole, lost + lostHere, k + 1, left - lostHere - spentHere)
  {
    var p := Pow2(k);
    assert whole / (2.0 * p) == whole / p / 2.0;
    assert whole / p >= 0.0;
  }
}
