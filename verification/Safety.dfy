/** What holds in every state of every run, from boot, over any interleaving of any number of CPUs. */
module Safety {
  import opened Procs
  import opened Numbers
  import opened Queue
  import opened Weights
  import opened Machine
  import opened CoreInvariant
  import CoreSteps
  import opened WaitInvariant
  import WaitSteps
  import opened TickInvariant

  ghost predicate Inv(s: State) {
    Core(s) && Families(s) && Clocks(s)
  }

  // ----- runs -----

  const UNUSED_SLOT := Task(UNUSED, Nothing, false, NULL, NULL, 0, 0, 0, 0, 0, Suspended, 0, User, Nowhere, 0, 0, 0)

  /** After procinit and userinit: one process, in the tree; the scheduler loops about to begin. */
  ghost predicate Boot(s: State) {
    && s.initproc == 0 && |s.tasks| > 0
    && s.tasks[0] == UNUSED_SLOT.(state := RUNNABLE, weightVal := Weight(0), place := InTree)
    && (forall p: nat {:trigger s.tasks[p]} :: 0 < p < |s.tasks| ==> s.tasks[p] == UNUSED_SLOT)
    && (forall c: nat {:trigger s.cpus[c]} :: c < |s.cpus| ==> s.cpus[c] == Cpu(Picking, NULL))
    && s.rq == Enqueue(RunQueue(|s.tasks|, [], 0, 0, Latency(|s.tasks|)), Entry(0, 0, Weight(0)))
    && s.waitLock == Free && s.ticksLock == Free && s.clock == ClockIdle
  }

  ghost predicate Possible(s: State, run: seq<Action>)
    decreases |run|
  {
    run != [] ==> Can(s, run[0]) && Possible(Do(s, run[0]), run[1..])
  }

  ghost function After(s: State, run: seq<Action>): (r: State)
    requires Possible(s, run)
    ensures |r.tasks| == |s.tasks| && |r.cpus| == |s.cpus| && r.initproc == s.initproc
    decreases |run|
  {
    if run == [] then s else After(Do(s, run[0]), run[1..])
  }

  lemma BootSound(s: State)
    requires Boot(s)
    ensures Inv(s)
  {
    var e, q := Entry(0, 0, Weight(0)), RunQueue(|s.tasks|, [], 0, 0, Latency(|s.tasks|));
    WeightRange(0);
    EnqueueSound(q, e);
    assert s.rq.entries == [e];
    assert Queued(s.rq.entries, 0) by { assert s.rq.entries[0].id == 0; }
    BootCore(s);
    BootFamilies(s);
    BootClocks(s);
  }

  lemma BootFamilies(s: State)
    requires Boot(s)
    ensures Families(s)
  {
    forall p: nat | p < |s.tasks| ensures ParentOk(s, p) && FamilyOk(s, p) {
      assert s.tasks[p].op == User;
    }
    forall p: nat, z: nat | p < |s.tasks| && z < |s.tasks| ensures NotLost(s, p, z) {
      assert s.tasks[p].op == User;
    }
  }

  lemma BootClocks(s: State)
    requires Boot(s)
    ensures Clocks(s)
  {
    forall p: nat | p < |s.tasks| ensures TickOk(s, p) {
      assert s.tasks[p].op == User;
    }
  }

  lemma BootCore(s: State)
    requires Boot(s) && Sound(s.rq) && s.rq.entries == [Entry(0, 0, Weight(0))] && Queued(s.rq.entries, 0)
    ensures Core(s)
  {
    forall p: nat | p < |s.tasks| ensures PlaceOk(s, p) && LockOk(s, p) && StateOk(s.tasks[p], p) {
      assert s.tasks[p].op == User;
    }
    forall c: nat | c < |s.cpus| ensures CpuOk(s, c) {
      assert s.cpus[c].sched == Picking;
    }
  }

  /** Every step keeps every invariant. */
  lemma InvKept(s: State, a: Action)
    requires Inv(s) && Can(s, a)
    ensures Inv(Do(s, a))
  {
    CoreSteps.CoreKept(s, a);
    WaitSteps.FamiliesKept(s, a);
    ClocksKept(s, a);
  }

  /** Every reachable state satisfies the invariants. */
  lemma {:induction false} InvAlways(s: State, run: seq<Action>)
    requires Inv(s) && Possible(s, run)
    ensures Inv(After(s, run))
    decreases |run|
  {
    if run != [] {
      InvKept(s, run[0]);
      InvAlways(Do(s, run[0]), run[1..]);
    }
  }

  /** Some run from boot, over any interleaving of any number of CPUs, reaches s. */
  ghost predicate Reachable(s: State) {
    exists boot: State, run: seq<Action> :: Boot(boot) && Possible(boot, run) && After(boot, run) == s
  }

  lemma ReachableSound(s: State)
    requires Reachable(s)
    ensures Inv(s) && WellIndexed(s)
  {
    var boot, run :| Boot(boot) && Possible(boot, run) && After(boot, run) == s;
    BootSound(boot);
    InvAlways(boot, run);
    CoreIndexed(s);
  }

  /** The first steps of a kernel with a CPU: init is retrieved, with the whole period as its slice, and runs. */
  lemma InitRuns(s: State)
    requires Boot(s) && |s.cpus| > 0
    ensures var run := [Sched(0, Retrieve), Sched(0, Dispatch), Run(0, Release)];
      && Possible(s, run)
      && var t := After(s, run).tasks[0];
         t.state == RUNNING && t.stage == Live && t.cpu == 0 && t.maxExecutionTime == Stretched(s.rq)
  {
    BootQueue(s);
    var s1 := Do(s, Sched(0, Retrieve));
    var s2 := Do(s1, Sched(0, Dispatch));
    OneStep(s2, Run(0, Release));
    Then(s1, Sched(0, Dispatch), [Run(0, Release)]);
    Then(s, Sched(0, Retrieve), [Sched(0, Dispatch), Run(0, Release)]);
  }

  lemma BootQueue(s: State)
    requires Boot(s)
    ensures s.rq.entries == [Entry(0, 0, Weight(0))] && s.rq.treeWeight == Weight(0) > 0
    ensures Slice(s.rq) == Stretched(s.rq)
  {
    WeightRange(0);
    QuotientBetween(Stretched(s.rq) * Weight(0), Weight(0), Stretched(s.rq), Stretched(s.rq));
  }

  lemma OneStep(s: State, a: Action)
    requires Can(s, a)
    ensures Possible(s, [a]) && After(s, [a]) == Do(s, a)
  {
    assert [a][1..] == [];
  }

  lemma Then(s: State, a: Action, run: seq<Action>)
    requires Can(s, a) && Possible(Do(s, a), run)
    ensures Possible(s, [a] + run) && After(s, [a] + run) == After(Do(s, a), run)
  {
    assert ([a] + run)[1..] == run;
  }

  lemma {:induction false} Compose(s: State, a: seq<Action>, m: State, b: seq<Action>)
    requires Possible(s, a) && After(s, a) == m && Possible(m, b)
    ensures Possible(s, a + b) && After(s, a + b) == After(m, b)
    decreases |a|
  {
    if a == [] {
      assert a + b == b;
    } else {
      Compose(Do(s, a[0]), a[1..], m, b);
      Then(s, a[0], a[1..] + b);
      assert a + b == [a[0]] + (a[1..] + b);
    }
  }

  // ----- conservation of runnable processes -----

  datatype Keeper = Tree | Dispatcher(c: nat) | Forker(r: nat)

  ghost function Dispatchers(s: State, q: nat): set<Keeper> {
    set c: nat | c < |s.cpus| && s.cpus[c].sched == Hand(q) :: Dispatcher(c)
  }

  ghost function Forkers(s: State, q: nat): set<Keeper> {
    set r: nat | r < |s.tasks| && s.tasks[r].op == ForkPending(q) :: Forker(r)
  }

  /** Everyone who keeps process q for later dispatch. */
  ghost function Keepers(s: State, q: nat): set<Keeper> {
    (if Queued(s.rq.entries, q) then {Tree} else {}) + Dispatchers(s, q) + Forkers(s, q)
  }

  lemma DispatchersKnown(s: State, q: nat)
    requires Core(s) && q < |s.tasks|
    ensures Dispatchers(s, q) == if s.tasks[q].place.InHand? then {Dispatcher(s.tasks[q].place.c)} else {}
  {
    assert PlaceOk(s, q);
    forall c: nat | c < |s.cpus| && s.cpus[c].sched == Hand(q) ensures s.tasks[q].place == InHand(c) {
      assert CpuOk(s, c);
    }
  }

  lemma ForkersKnown(s: State, q: nat)
    requires Core(s) && q < |s.tasks|
    ensures Forkers(s, q) == if s.tasks[q].place.Pending? then {Forker(s.tasks[q].place.r)} else {}
  {
    assert PlaceOk(s, q);
    forall r: nat | r < |s.tasks| && s.tasks[r].op == ForkPending(q) ensures s.tasks[q].place == Pending(r) {
      assert PlaceOk(s, r);
    }
  }

  /** A RUNNABLE process is kept exactly once, any other process not at all: none is lost and none is duplicated. */
  lemma RunnableConserved(s: State, q: nat)
    requires Reachable(s) && q < |s.tasks|
    ensures |Keepers(s, q)| == if s.tasks[q].state == RUNNABLE then 1 else 0
    ensures Distinct(s.rq.entries)
  {
    ReachableSound(s);
    assert PlaceOk(s, q);
    DispatchersKnown(s, q);
    ForkersKnown(s, q);
  }

  /** The two tests of p->state against RUNNABLE on the way to a dispatch never fail. */
  lemma NeverRefused(s: State, c: nat)
    requires Reachable(s) && c < |s.cpus|
    ensures s.rq.entries != [] ==> s.rq.entries[0].id < |s.tasks| && s.tasks[s.rq.entries[0].id].state == RUNNABLE
    ensures s.cpus[c].sched.Hand? ==> s.cpus[c].sched.p < |s.tasks| && s.tasks[s.cpus[c].sched.p].state == RUNNABLE
  {
    ReachableSound(s);
    if s.rq.entries != [] { CoreSteps.HeadRunnable(s); }
    if s.cpus[c].sched.Hand? { CoreSteps.HandRunnable(s, c); }
  }

  // ----- exclusive execution -----

  /** No process is current on two CPUs. */
  lemma MutualExclusion(s: State, c: nat, d: nat)
    requires Reachable(s) && c < |s.cpus| && d < |s.cpus|
    requires s.cpus[c].proc == s.cpus[d].proc != NULL
    ensures c == d
  {
    ReachableSound(s);
    assert CpuOk(s, c) && CpuOk(s, d);
  }

  /** A process that another CPU has retrieved can be resumed only once no CPU is running on its stack. */
  lemma ResumedOnlyWhenAway(s: State, c: nat, d: nat)
    requires Reachable(s) && c < |s.cpus| && d < |s.cpus| && WellIndexed(s) && CanDispatch(s, c)
    ensures s.cpus[d].proc != s.cpus[c].sched.p
  {
    ReachableSound(s);
    var p := s.cpus[c].sched.p;
    assert CpuOk(s, c) && CpuOk(s, d) && LockOk(s, p) && StateOk(s.tasks[p], p) && PlaceOk(s, p);
  }

  /** The tests in sched() never fail: own lock held, no other lock held, not RUNNING. */
  lemma SchedNeverPanics(s: State, p: nat)
    requires Reachable(s) && WellIndexed(s) && (CanYieldSwtch(s, p) || CanSleepSwtch(s, p) || CanExitSwtch(s, p))
    ensures s.tasks[p].lock == s.tasks[p].cpu && s.waitLock != ByTask(p) && s.ticksLock != ByTask(p)
    ensures forall q: nat :: q < |s.tasks| && q != p ==> s.tasks[q].lock != s.tasks[p].cpu
    ensures CanYieldSwtch(s, p) ==> DoYieldSwtch(s, p).tasks[p].state == RUNNABLE
    ensures CanSleepSwtch(s, p) ==> DoSleepSwtch(s, p).tasks[p].state == SLEEPING
    ensures CanExitSwtch(s, p) ==> DoExitSwtch(s, p).tasks[p].state == ZOMBIE
  {
    ReachableSound(s);
    assert LockOk(s, p) && StateOk(s.tasks[p], p) && FamilyOk(s, p) && TickOk(s, p);
    forall q: nat | q < |s.tasks| && q != p ensures s.tasks[q].lock != s.tasks[p].cpu {
      assert LockOk(s, q) && CpuOk(s, s.tasks[p].cpu);
    }
  }

  // ----- keys and accounts -----

  /** What one step may do to the record of a process: the key and weight of a queued one are frozen, and until
      the slot is freed no virtual runtime falls and only a charge counts as one. */
  ghost predicate Ledger(t: Task, t': Task, charged: bool) {
    && (t.place == InTree ==> SameKey(t, t') && t'.currentRuntime == t.currentRuntime && t'.niceVal == t.niceVal)
    && (t.state != UNUSED ==>
          t'.virtualRuntime >= t.virtualRuntime && t'.charges == t.charges + (if charged then 1 else 0))
  }

  lemma SchedLedger(s: State, c: nat, a: SchedStep, q: nat)
    requires WellIndexed(s) && CanSched(s, c, a) && q < |s.tasks|
    ensures Ledger(s.tasks[q], DoSched(s, c, a).tasks[q], false)
  {
  }

  lemma RunLedger(s: State, p: nat, a: RunStep, q: nat)
    requires Core(s) && WellIndexed(s) && CanRun(s, p, a) && q < |s.tasks|
    ensures Ledger(s.tasks[q], DoRun(s, p, a).tasks[q], a == Charge && p == q)
  {
    assert PlaceOk(s, p) && StateOk(s.tasks[p], p) && TimeOk(s.tasks[p], |s.tasks|);
  }

  lemma ForkLedger(s: State, p: nat, a: ForkStep, q: nat)
    requires Core(s) && WellIndexed(s) && CanFork(s, p, a) && q < |s.tasks|
    ensures Ledger(s.tasks[q], DoFork(s, p, a).tasks[q], false)
  {
    if a.ForkAlloc? {
      assert PlaceOk(s, a.np);
    } else {
      CoreSteps.ForkedSlot(s, p);
    }
  }

  lemma SleepLedger(s: State, p: nat, a: SleepStep, q: nat)
    requires WellIndexed(s) && CanSleep(s, p, a) && q < |s.tasks|
    ensures Ledger(s.tasks[q], DoSleep(s, p, a).tasks[q], false)
  {
  }

  lemma ExitWakeLedger(s: State, p: nat, q: nat)
    requires WellIndexed(s) && CanExitWake(s, p) && q < |s.tasks|
    requires PlaceOk(s, q) && TimeOk(s.tasks[q], |s.tasks|)
    ensures Ledger(s.tasks[q], DoExitWake(s, p).tasks[q], false)
  {
  }

  lemma ExitLedger(s: State, p: nat, a: ExitStep, q: nat)
    requires Core(s) && WellIndexed(s) && CanExit(s, p, a) && q < |s.tasks|
    ensures Ledger(s.tasks[q], DoExit(s, p, a).tasks[q], false)
  {
    if a.ExitWake? {
      assert PlaceOk(s, q) && TimeOk(s.tasks[q], |s.tasks|);
      ExitWakeLedger(s, p, q);
    }
  }

  lemma TickLedger(s: State, p: nat, a: TickStep, q: nat)
    requires WellIndexed(s) && CanTick(s, p, a) && q < |s.tasks|
    ensures Ledger(s.tasks[q], DoTick(s, p, a).tasks[q], false)
  {
  }

  lemma OutsideLedger(s: State, a: OtherStep, q: nat)
    requires Core(s) && WellIndexed(s) && CanOutside(s, a) && q < |s.tasks|
    ensures Ledger(s.tasks[q], DoOutside(s, a).tasks[q], false)
  {
    assert PlaceOk(s, q) && TimeOk(s.tasks[q], |s.tasks|);
  }

  lemma LedgerKept(s: State, a: Action, q: nat)
    requires Inv(s) && Can(s, a) && q < |s.tasks|
    ensures Ledger(s.tasks[q], Do(s, a).tasks[q], a == Run(q, Charge))
  {
    match a
    case Sched(c, b) => SchedLedger(s, c, b, q);
    case Run(p, b) => RunLedger(s, p, b, q);
    case Fork(p, b) => ForkLedger(s, p, b, q);
    case Sleep(p, b) => SleepLedger(s, p, b, q);
    case Exit(p, b) => ExitLedger(s, p, b, q);
    case Tick(p, b) => TickLedger(s, p, b, q);
    case Outside(b) => OutsideLedger(s, b, q);
  }

  /** q is in the tree before and after every step of the run. */
  ghost predicate StaysQueued(s: State, run: seq<Action>, q: nat)
    requires Possible(s, run)
    decreases |run|
  {
    Queued(s.rq.entries, q) && (run != [] ==> StaysQueued(Do(s, run[0]), run[1..], q))
  }

  /** As long as a process stays in the tree its key and weight do not change, whatever else happens:
      the order of the tree persists, and its aggregates stay exact. */
  lemma {:induction false} FrozenWhileQueued(s: State, run: seq<Action>, q: nat)
    requires Inv(s) && Possible(s, run) && q < |s.tasks| && StaysQueued(s, run, q)
    ensures SameKey(s.tasks[q], After(s, run).tasks[q])
    ensures Sound(After(s, run).rq)
    decreases |run|
  {
    assert PlaceOk(s, q);
    if run != [] {
      InvKept(s, run[0]);
      LedgerKept(s, run[0], q);
      FrozenWhileQueued(Do(s, run[0]), run[1..], q);
    }
  }

  /** Slot q is not freed during the run. */
  ghost predicate StaysAllocated(s: State, run: seq<Action>, q: nat)
    requires Possible(s, run) && q < |s.tasks|
    decreases |run|
  {
    s.tasks[q].state != UNUSED && (run != [] ==> StaysAllocated(Do(s, run[0]), run[1..], q))
  }

  function Charges(run: seq<Action>, q: nat): nat {
    if run == [] then 0 else (if run[0] == Run(q, Charge) then 1 else 0) + Charges(run[1..], q)
  }

  /** Charged time is conserved: over any stretch of a process's life its accumulated runtime grows by exactly the
      number of its charges, and its virtual runtime never falls. */
  lemma {:induction false} ChargesConserved(s: State, run: seq<Action>, q: nat)
    requires Inv(s) && Possible(s, run) && q < |s.tasks| && StaysAllocated(s, run, q)
    ensures var t, t' := s.tasks[q], After(s, run).tasks[q];
      && t'.virtualRuntime + t'.currentRuntime == t.virtualRuntime + t.currentRuntime + Charges(run, q)
      && t'.virtualRuntime >= t.virtualRuntime && 0 <= t'.currentRuntime <= Cap(t')
    decreases |run|
  {
    assert TimeOk(s.tasks[q], |s.tasks|);
    if run != [] {
      var s1 := Do(s, run[0]);
      InvKept(s, run[0]);
      LedgerKept(s, run[0], q);
      assert TimeOk(s1.tasks[q], |s1.tasks|);
      ChargesConserved(s1, run[1..], q);
    }
  }

  // ----- time slices -----

  /** Only a retrieval moves the period, and only while there are more processes than fit into the latency at the
      minimum granularity: to that granularity for each of them. */
  lemma PeriodMoves(s: State, a: Action)
    requires Inv(s) && Can(s, a)
    ensures Do(s, a).rq.period ==
      if a.Sched? && a.sched == Retrieve && |s.rq.entries| > |s.tasks| / 2 / 2 then 2 * |s.rq.entries| else s.rq.period
  {
    match a
    case Sched(c, b) =>
    case Run(p, b) =>
    case Fork(p, b) =>
    case Sleep(p, b) => SleepInsertsNobody(s, p, b);
    case Exit(p, b) => ExitMovesNoPeriod(s, p, b);
    case Tick(p, b) =>
    case Outside(b) =>
  }

  lemma ExitMovesNoPeriod(s: State, p: nat, b: ExitStep)
    requires WellIndexed(s) && CanExit(s, p, b)
    ensures DoExit(s, p, b).rq.period == s.rq.period
  {
  }

  /** Exactly when the period falls. */
  lemma PeriodFallsExactly(s: State, a: Action)
    requires Inv(s) && Can(s, a)
    ensures Do(s, a).rq.period < s.rq.period
            <==> && a.Sched? && a.sched == Retrieve
                 && |s.tasks| / 2 / 2 < |s.rq.entries| && 2 * |s.rq.entries| < s.rq.period
  {
    PeriodMoves(s, a);
  }

  /** Once the period has been stretched beyond the latency it never comes back to it. */
  lemma {:induction false} StretchedForGood(s: State, run: seq<Action>)
    requires Inv(s) && Possible(s, run) && s.rq.period > |s.tasks| / 2
    ensures After(s, run).rq.period > |s.tasks| / 2
    decreases |run|
  {
    if run != [] {
      InvKept(s, run[0]);
      PeriodMoves(s, run[0]);
      StretchedForGood(Do(s, run[0]), run[1..]);
    }
  }

  /** At every retrieval of every run the tree has weight, the period is at least the latency and leaves every queued
      process the minimum granularity, and the slice given lies between 0 and the period, which never exceeds
      max(latency, NPROC * granularity). A process of at least average weight gets at least the granularity. */
  lemma SliceBounds(s: State, c: nat)
    requires Reachable(s) && WellIndexed(s) && CanRetrieve(s, c) && s.rq.entries != []
    ensures var p, s' := s.rq.entries[0].id, DoRetrieve(s, c);
      && s.rq.treeWeight > 0
      && p < |s.tasks| && s'.cpus[c].sched == Hand(p) && !Queued(s'.rq.entries, p)
      && s'.rq.period >= Latency(|s.tasks|) && s'.rq.period >= s.rq.count * MIN_GRANULARITY
      && 0 <= s'.tasks[p].maxExecutionTime <= s'.rq.period <= MaxPeriod(|s.tasks|)
      && (s.rq.entries[0].weight * s.rq.count >= s.rq.treeWeight ==> s'.tasks[p].maxExecutionTime >= MIN_GRANULARITY)
      && IsShare(s'.tasks[p].maxExecutionTime, s'.rq.period, s.tasks[p].weightVal, TotalWeight(s.rq.entries))
  {
    ReachableSound(s);
    NeverRefused(s, c);
    SliceIsShare(s.rq);
    DequeueSound(s.rq);
    if s.rq.entries[0].weight * s.rq.count >= s.rq.treeWeight { AverageShare(s.rq); }
  }

  /** In every reachable state: with the minimum read as it is, a yield preempts exactly if p has used up its slice and
      the minimum granularity, or if somebody in the tree has a smaller virtual runtime and p has run for the minimum
      granularity or has just been picked. */
  lemma PreemptsExactlyWhen(s: State, p: nat)
    requires Reachable(s) && WellIndexed(s) && CanYield(s, p)
    ensures CheckPreemption(s, p) <==>
      var t := s.tasks[p];
      || (t.currentRuntime >= t.maxExecutionTime && t.currentRuntime >= 2)
      || (CoreSteps.SomeoneBehind(s, p) && (t.currentRuntime == 0 || t.currentRuntime >= 2))
  {
    ReachableSound(s);
    CoreSteps.PreemptionRule(s, p);
  }

  /** No process ever overruns its slice, or the minimum granularity if that is longer; and whoever is in the tree, or
      otherwise ready to run, has nothing left to account for. */
  lemma NeverOverrun(s: State, p: nat)
    requires Reachable(s) && p < |s.tasks|
    ensures 0 <= s.tasks[p].currentRuntime <= Cap(s.tasks[p])
    ensures s.tasks[p].state == RUNNABLE || Queued(s.rq.entries, p) ==> s.tasks[p].currentRuntime == 0
  {
    ReachableSound(s);
    assert TimeOk(s.tasks[p], |s.tasks|) && PlaceOk(s, p);
  }

  // ----- the capacity test -----

  /** The process that a step inserts into the tree, if it inserts one. */
  ghost predicate Inserts(s: State, a: Action, q: nat)
    requires Can(s, a) && q < |s.tasks|
  {
    match a
    case Run(p, Yield(preempt)) => q == p && preempt
    case Fork(p, ForkInsert) => q == s.tasks[p].op.np
    case Outside(Kill(k)) => q == k && s.tasks[k].state == SLEEPING
    case Outside(WakeElsewhere(k)) => q == k && s.tasks[k].state == SLEEPING
    case Outside(ClockStep) => q == s.clock.k && s.tasks[q].state == SLEEPING && s.tasks[q].chan == Ticks
    case Exit(p, ExitWake) =>
      var target := if s.tasks[p].op.ExitWakeInit? then s.initproc else s.tasks[p].parent;
      && q == s.tasks[p].op.k && q != p && s.tasks[q].state == SLEEPING
      && target >= 0 && s.tasks[q].chan == Children(target)
    case _ => false
  }

  /** The capacity test of insertProcess never turns a process away: whenever a step inserts q, q is not yet in the
      tree and the tree is not full. */
  lemma InsertionFits(s: State, a: Action, q: nat)
    requires Reachable(s) && Can(s, a) && q < |s.tasks| && Inserts(s, a, q)
    ensures !Queued(s.rq.entries, q) && s.rq.count < s.rq.nproc && Queued(Do(s, a).rq.entries, q)
  {
    ReachableSound(s);
    InsertedFits(s, a, q);
  }

  lemma InsertedFits(s: State, a: Action, q: nat)
    requires Inv(s) && Can(s, a) && q < |s.tasks| && Inserts(s, a, q)
    ensures !Queued(s.rq.entries, q) && s.rq.count < s.rq.nproc && Queued(Do(s, a).rq.entries, q)
  {
    assert PlaceOk(s, q) && StateOk(s.tasks[q], q);
    if a.Fork? { CoreSteps.ForkedSlot(s, a.p); }
    Pigeonhole(s.rq.entries, s.rq.nproc);
    InvKept(s, a);
    InsertedPlace(s, a, q);
    assert PlaceOk(Do(s, a), q);
  }

  /** Waking, like every insertion, adds nobody else. */
  lemma RequeuedAlone(s: State, p: nat, q: nat)
    requires p < |s.tasks| && q != p && !Queued(s.rq.entries, q)
    ensures !Queued(Requeued(s, p).rq.entries, q)
  {
    var t := s.tasks[p];
    CoreSteps.QueuedAfterInsert(s.rq.entries, Entry(p, t.virtualRuntime + t.currentRuntime, Weight(t.niceVal)), q);
  }

  lemma RunInserts(s: State, p: nat, b: RunStep, q: nat)
    requires WellIndexed(s) && CanRun(s, p, b) && !Queued(s.rq.entries, q) && Queued(DoRun(s, p, b).rq.entries, q)
    ensures b == Yield(true) && q == p
  {
    if b == Yield(true) && q != p {
      var t := s.tasks[p];
      RequeuedAlone(WithTask(s, p, t.(lock := t.cpu, stage := Yielding)), p, q);
    }
  }

  lemma ForkInserts(s: State, p: nat, b: ForkStep, q: nat)
    requires WellIndexed(s) && CanFork(s, p, b) && !Queued(s.rq.entries, q) && Queued(DoFork(s, p, b).rq.entries, q)
    ensures b == ForkInsert && q == s.tasks[p].op.np
  {
    if b == ForkInsert {
      var t := s.tasks[s.tasks[p].op.np];
      var e := Entry(s.tasks[p].op.np, t.virtualRuntime, Weight(t.niceVal));
      CoreSteps.QueuedAfterInsert(s.rq.entries, e, q);
    }
  }

  lemma WakeInserts(s: State, p: nat, op: Op, k: nat, target: Ptr, q: nat)
    requires p < |s.tasks| && k < |s.tasks| && !Queued(s.rq.entries, q)
    requires Queued(WakeRound(s, p, op, k, target).rq.entries, q)
    ensures q == k != p && target >= 0 && s.tasks[k].state == SLEEPING && s.tasks[k].chan == Children(target)
  {
    if k != p && target >= 0 && q != k { RequeuedAlone(WithOp(s, p, op), k, q); }
  }

  lemma ExitInserts(s: State, p: nat, b: ExitStep, q: nat)
    requires WellIndexed(s) && CanExit(s, p, b) && q < |s.tasks|
    requires !Queued(s.rq.entries, q) && Queued(DoExit(s, p, b).rq.entries, q)
    ensures b == ExitWake && Inserts(s, Exit(p, b), q)
  {
    if b == ExitWake {
      var op := s.tasks[p].op;
      if op.k >= |s.tasks| {
        CoreSteps.WakeDoneForm(s, p);
      } else {
        CoreSteps.WakeRoundForm(s, p, CoreSteps.NextRound(op), CoreSteps.Target(s, p));
        WakeInserts(s, p, CoreSteps.NextRound(op), op.k, CoreSteps.Target(s, p), q);
      }
    }
  }

  lemma OutsideInserts(s: State, b: OtherStep, q: nat)
    requires WellIndexed(s) && CanOutside(s, b) && q < |s.tasks|
    requires !Queued(s.rq.entries, q) && Queued(DoOutside(s, b).rq.entries, q)
    ensures Inserts(s, Outside(b), q)
  {
    match b
    case Kill(k) => if q != k { RequeuedAlone(WithTask(s, k, s.tasks[k].(killed := true)), k, q); }
    case WakeElsewhere(k) => if q != k { RequeuedAlone(s, k, q); }
    case ClockStep => if q != s.clock.k { RequeuedAlone(s, s.clock.k, q); }
    case _ =>
  }

  /** The list of insertions is complete: whatever step puts a process into the tree, it is listed. */
  lemma InsertsComplete(s: State, a: Action, q: nat)
    requires Distinct(s.rq.entries) && Can(s, a) && q < |s.tasks|
    requires !Queued(s.rq.entries, q) && Queued(Do(s, a).rq.entries, q)
    ensures Inserts(s, a, q)
  {
    match a
    case Sched(c, b) => if s.rq.entries != [] { CoreSteps.QueuedAfterRemoval(s.rq.entries, q); }
    case Run(p, b) => RunInserts(s, p, b, q);
    case Fork(p, b) => ForkInserts(s, p, b, q);
    case Sleep(p, b) => SleepInsertsNobody(s, p, b);
    case Exit(p, b) => ExitInserts(s, p, b, q);
    case Tick(p, b) =>
    case Outside(b) => OutsideInserts(s, b, q);
  }

  lemma SleepInsertsNobody(s: State, p: nat, b: SleepStep)
    requires WellIndexed(s) && CanSleep(s, p, b)
    ensures DoSleep(s, p, b).rq == s.rq
  {
  }

  lemma InsertedPlace(s: State, a: Action, q: nat)
    requires Can(s, a) && q < |s.tasks| && Inserts(s, a, q)
    requires a.Fork? ==> q != a.p
    ensures Do(s, a).tasks[q].place == InTree
  {
  }

  // ----- the registered system call -----

  /** Every nice value is 0, and so every weight in the tree is the largest. */
  ghost predicate AllPlain(s: State) {
    && (forall q: nat {:trigger s.tasks[q]} :: q < |s.tasks| ==> s.tasks[q].niceVal == 0)
    && forall e {:trigger e in s.rq.entries} :: e in s.rq.entries ==> e.weight == Weight(0)
  }

  predicate SetsNice(a: Action) {
    a.Run? && a.run.SetNice?
  }

  lemma InsertPlain(q: RunQueue, e: Entry)
    requires e.weight == Weight(0) && forall x {:trigger x in q.entries} :: x in q.entries ==> x.weight == Weight(0)
    ensures forall x {:trigger x in Enqueue(q, e).entries} :: x in Enqueue(q, e).entries ==> x.weight == Weight(0)
  {
    InsertMembers(q.entries, e);
  }

  lemma RequeuedPlain(s: State, p: nat)
    requires AllPlain(s) && p < |s.tasks|
    ensures AllPlain(Requeued(s, p))
  {
    var t := s.tasks[p];
    InsertPlain(s.rq, Entry(p, t.virtualRuntime + t.currentRuntime, Weight(0)));
  }

  lemma SchedPlain(s: State, c: nat, b: SchedStep)
    requires AllPlain(s) && WellIndexed(s) && CanSched(s, c, b)
    ensures AllPlain(DoSched(s, c, b))
  {
    forall e | e in DoSched(s, c, b).rq.entries ensures e.weight == Weight(0) {
      assert e in s.rq.entries;
    }
  }

  lemma RunPlain(s: State, p: nat, b: RunStep)
    requires AllPlain(s) && WellIndexed(s) && CanRun(s, p, b) && !b.SetNice?
    ensures AllPlain(DoRun(s, p, b))
  {
    if b.Yield? {
      RequeuedPlain(WithTask(s, p, s.tasks[p].(lock := s.tasks[p].cpu, stage := Yielding)), p);
    }
  }

  lemma ForkPlain(s: State, p: nat, b: ForkStep)
    requires AllPlain(s) && WellIndexed(s) && CanFork(s, p, b)
    ensures AllPlain(DoFork(s, p, b))
  {
    if b == ForkInsert {
      var np := s.tasks[p].op.np;
      InsertPlain(s.rq, Entry(np, s.tasks[np].virtualRuntime, Weight(0)));
    }
  }

  lemma ExitPlain(s: State, p: nat, b: ExitStep)
    requires AllPlain(s) && WellIndexed(s) && CanExit(s, p, b)
    ensures AllPlain(DoExit(s, p, b))
  {
    if b == ExitWake {
      var op := s.tasks[p].op;
      if op.k >= |s.tasks| {
        CoreSteps.WakeDoneForm(s, p);
      } else {
        CoreSteps.WakeRoundForm(s, p, CoreSteps.NextRound(op), CoreSteps.Target(s, p));
        RequeuedPlain(WithOp(s, p, CoreSteps.NextRound(op)), op.k);
      }
    }
  }

  lemma OutsidePlain(s: State, b: OtherStep)
    requires AllPlain(s) && WellIndexed(s) && CanOutside(s, b)
    ensures AllPlain(DoOutside(s, b))
  {
    match b
    case Kill(k) => RequeuedPlain(WithTask(s, k, s.tasks[k].(killed := true)), k);
    case WakeElsewhere(k) => RequeuedPlain(s, k);
    case ClockStep => RequeuedPlain(s, s.clock.k);
    case _ =>
  }

  lemma PlainKept(s: State, a: Action)
    requires AllPlain(s) && Can(s, a) && !SetsNice(a)
    ensures AllPlain(Do(s, a))
  {
    match a
    case Sched(c, b) => SchedPlain(s, c, b);
    case Run(p, b) => RunPlain(s, p, b);
    case Fork(p, b) => ForkPlain(s, p, b);
    case Sleep(p, b) => SleepPlain(s, p, b);
    case Exit(p, b) => ExitPlain(s, p, b);
    case Tick(p, b) =>
    case Outside(b) => OutsidePlain(s, b);
  }

  lemma SleepPlain(s: State, p: nat, b: SleepStep)
    requires AllPlain(s) && WellIndexed(s) && CanSleep(s, p, b)
    ensures AllPlain(DoSleep(s, p, b))
  {
    SleepInsertsNobody(s, p, b);
  }

  lemma {:induction false} PlainAlways(s: State, run: seq<Action>)
    requires AllPlain(s) && Possible(s, run) && forall i :: 0 <= i < |run| ==> !SetsNice(run[i])
    ensures AllPlain(After(s, run))
    decreases |run|
  {
    if run != [] {
      PlainKept(s, run[0]);
      PlainAlways(Do(s, run[0]), run[1..]);
    }
  }

  /** With the system call that is registered, which does nothing, every nice value stays 0 in every run: all weights
      in the tree are 819, and the loop of calculateWight as written is always left. */
  lemma StubKeepsWeights(s: State, run: seq<Action>)
    requires Boot(s) && Possible(s, run) && forall i :: 0 <= i < |run| ==> !SetsNice(run[i])
    ensures forall q: nat :: q < |s.tasks| ==> After(s, run).tasks[q].niceVal == 0
    ensures forall i :: 0 <= i < |After(s, run).rq.entries| ==> After(s, run).rq.entries[i].weight == 819
    ensures exists k: nat :: !LoopGuard(AfterRounds(k), Clamp(0))
  {
    BootQueue(s);
    PlainAlways(s, run);
    LargestWeight();
    UnadvancedLoopStops(0);
    forall i | 0 <= i < |After(s, run).rq.entries| ensures After(s, run).rq.entries[i].weight == 819 {
      assert After(s, run).rq.entries[i] in After(s, run).rq.entries;
    }
  }

  // ----- wait and exit -----

  /** Whenever wait_lock is free, no process that is asleep in wait, or committed to it, has a zombie child. */
  lemma NoLostExit(s: State, p: nat, z: nat)
    requires Reachable(s) && s.waitLock == Free && p < |s.tasks| && z < |s.tasks|
    requires WaitAsleep(s.tasks[p]) && s.tasks[z].parent == p
    ensures s.tasks[z].state != ZOMBIE
  {
    ReachableSound(s);
    assert NotLost(s, p, z);
  }

  /** Unless its caller has been killed, wait fails only if no process at all has the caller as its parent. */
  lemma WaitFailsOnlyWithoutChildren(s: State, p: nat)
    requires Reachable(s) && WellIndexed(s) && CanWaitEnd(s, p)
    requires DoWaitEnd(s, p).tasks[p].op == User
    ensures s.tasks[p].killed || forall z: nat :: z < |s.tasks| ==> s.tasks[z].parent != p
  {
    ReachableSound(s);
    WaitSteps.LookedSoFar(s, p);
  }

  /** Every process but init has a parent that can still wait for it, and init never ends. */
  lemma ParentsLive(s: State, z: nat)
    requires Reachable(s) && z < |s.tasks|
    ensures z == s.initproc ==> Alive(s.tasks[z])
    ensures z != s.initproc && (Alive(s.tasks[z]) || s.tasks[z].state == ZOMBIE) ==>
      0 <= s.tasks[z].parent < |s.tasks| && Alive(s.tasks[s.tasks[z].parent])
  {
    ReachableSound(s);
    assert ParentOk(s, z);
  }

  /** Every exit is reaped at most once, and as long as it is not, the process is a zombie. */
  lemma ReapedOnce(s: State, z: nat)
    requires Reachable(s) && z < |s.tasks|
    ensures s.tasks[z].reaps <= s.tasks[z].exits <= s.tasks[z].reaps + 1
    ensures s.tasks[z].exits == s.tasks[z].reaps + 1 <==> s.tasks[z].state == ZOMBIE
  {
    ReachableSound(s);
    assert TimeOk(s.tasks[z], |s.tasks|);
  }

  /** Whoever is asleep is so on the channel of its call, and sleep leaves no channel behind. */
  lemma ChannelsExact(s: State, p: nat)
    requires Reachable(s) && p < |s.tasks|
    ensures s.tasks[p].state == SLEEPING ==> s.tasks[p].op.Asleep? && s.tasks[p].chan == ChanOf(s.tasks[p].op.cont, p)
    ensures s.tasks[p].stage == Live ==> s.tasks[p].chan == Nothing
  {
    ReachableSound(s);
    assert StateOk(s.tasks[p], p);
  }

  // ----- sys_sleep -----

  /** The loop test of sys_sleep ends the loop, and with it the call, which then returns 0. */
  ghost predicate TestPasses(s: State, p: nat)
    requires p < |s.tasks| && s.tasks[p].op.TickCheck?
  {
    Elapsed(s.ticks, s.tasks[p].op.ticks0) >= s.tasks[p].op.n
  }

  /** sys_sleep(n) returns 0 only when at least n ticks have passed, even if the 32-bit counter has wrapped; and
      while fewer than 2^32 ticks have passed it does return then. */
  lemma SleepsLongEnough(s: State, p: nat)
    requires Reachable(s) && WellIndexed(s) && CanTickTest(s, p)
    ensures s.tasks[p].op.ticks0 <= s.ticks
    ensures TestPasses(s, p) ==> s.ticks - s.tasks[p].op.ticks0 >= s.tasks[p].op.n
    ensures TestPasses(s, p) ==> DoTickTest(s, p).tasks[p].op == User
    ensures s.ticks - s.tasks[p].op.ticks0 < UINT ==>
      (TestPasses(s, p) <==> s.ticks - s.tasks[p].op.ticks0 >= s.tasks[p].op.n)
    ensures !TestPasses(s, p) && !s.tasks[p].killed ==> DoTickTest(s, p).tasks[p].op.SleepHeld?
  {
    ReachableSound(s);
    TickStarted(s, p);
    ElapsedBounds(s.ticks, s.tasks[p].op.ticks0);
  }

  lemma TickStarted(s: State, p: nat)
    requires Clocks(s) && p < |s.tasks| && s.tasks[p].op.TickCheck?
    ensures s.tasks[p].op.ticks0 <= s.ticks
  {
    assert TickOk(s, p);
  }

  lemma ElapsedBounds(ticks: nat, ticks0: nat)
    requires ticks0 <= ticks
    ensures Elapsed(ticks, ticks0) <= ticks - ticks0
    ensures ticks - ticks0 < UINT ==> Elapsed(ticks, ticks0) == ticks - ticks0
  {
    ElapsedIsDifference(ticks, ticks0);
    RemainderAtMost(ticks - ticks0);
  }

  lemma RemainderAtMost(x: nat)
    ensures x % UINT <= x && (x < UINT ==> x % UINT == x)
  {
  }

  /** When the clock interrupt has released tickslock, whoever is asleep in sys_sleep has tested the current tick
      and still has ticks to go. */
  lemma NobodyOversleeps(s: State, p: nat)
    requires Reachable(s) && s.ticksLock != ByClock && p < |s.tasks| && TickAsleep(s.tasks[p])
    ensures s.tasks[p].op.cont.seen == s.ticks
    ensures Elapsed(s.ticks, s.tasks[p].op.cont.ticks0) < s.tasks[p].op.cont.n
  {
    ReachableSound(s);
    assert TickOk(s, p);
  }
}
