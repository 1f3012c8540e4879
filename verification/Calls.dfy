/** What the callers of wait, sys_sleep, kill, fork and sys_setNice get, over whole runs; and who waits for whom. */
module Calls {
  import opened Procs
  import opened Queue
  import opened Weights
  import opened Machine
  import opened CoreInvariant
  import CoreSteps
  import opened WaitInvariant
  import WaitSteps
  import opened TickInvariant
  import opened Safety

  // ----- what one step does to the record of one process -----

  /** Somewhere in a call of sys_sleep. */
  ghost predicate InSleep(op: Op) {
    op.TickCheck? || InTickSleep(op)
  }

  /** The ticks still to be slept in that call, counted from when. */
  ghost function Asked(op: Op): (nat, nat)
    requires InSleep(op)
  {
    if op.TickCheck? then (op.n, op.ticks0) else (op.cont.n, op.cont.ticks0)
  }

  /** A step marks a process killed only by kill, and clears the mark only by reaping; it changes a nice value only by
      setting it or in a slot not in use; and it does not change what a call of sys_sleep was asked for. */
  ghost predicate Record(t: Task, t': Task, a: Action, q: nat) {
    && (t'.reaps == t.reaps || (t'.reaps == t.reaps + 1 && t.state == ZOMBIE && t'.state == UNUSED && !t'.killed))
    && (t'.reaps == t.reaps ==> t'.killed == (t.killed || a == Outside(Kill(q))))
    && (t.state != UNUSED && t'.state == UNUSED ==> t'.reaps == t.reaps + 1)
    && (t.state != UNUSED && !(a.Run? && a.p == q && a.run.SetNice?) ==> t'.niceVal == t.niceVal)
    && (InSleep(t.op) && InSleep(t'.op) ==> Asked(t'.op) == Asked(t.op))
    && (t'.parent == t.parent || a.Fork? || a.Exit? || (t'.parent == NULL && t'.reaps == t.reaps + 1))
  }

  lemma SchedRecord(s: State, c: nat, b: SchedStep, q: nat)
    requires WellIndexed(s) && CanSched(s, c, b) && q < |s.tasks|
    ensures Record(s.tasks[q], DoSched(s, c, b).tasks[q], Sched(c, b), q)
  {
  }

  lemma RunRecord(s: State, p: nat, b: RunStep, q: nat)
    requires WellIndexed(s) && CanRun(s, p, b) && q < |s.tasks|
    ensures Record(s.tasks[q], DoRun(s, p, b).tasks[q], Run(p, b), q)
  {
  }

  lemma ForkRecord(s: State, p: nat, b: ForkStep, q: nat)
    requires WellIndexed(s) && CanFork(s, p, b) && q < |s.tasks|
    requires b == ForkReady ==> s.tasks[s.tasks[p].op.np].state == USED
    ensures Record(s.tasks[q], DoFork(s, p, b).tasks[q], Fork(p, b), q)
  {
  }

  lemma SleepRecord(s: State, p: nat, b: SleepStep, q: nat)
    requires WellIndexed(s) && CanSleep(s, p, b) && q < |s.tasks|
    ensures Record(s.tasks[q], DoSleep(s, p, b).tasks[q], Sleep(p, b), q)
  {
    if b.WaitLook? { WaitLookRecord(s, p, b.copyFails, q); }
  }

  lemma WaitLookRecord(s: State, p: nat, copyFails: bool, q: nat)
    requires WellIndexed(s) && CanWaitLook(s, p) && q < |s.tasks|
    ensures Record(s.tasks[q], DoWaitLook(s, p, copyFails).tasks[q], Sleep(p, WaitLook(copyFails)), q)
  {
  }

  lemma ExitWakeRecord(s: State, p: nat, q: nat)
    requires WellIndexed(s) && CanExitWake(s, p) && q < |s.tasks|
    ensures Record(s.tasks[q], DoExitWake(s, p).tasks[q], Exit(p, ExitWake), q)
  {
  }

  lemma ExitRecord(s: State, p: nat, b: ExitStep, q: nat)
    requires WellIndexed(s) && CanExit(s, p, b) && q < |s.tasks|
    ensures Record(s.tasks[q], DoExit(s, p, b).tasks[q], Exit(p, b), q)
  {
    if b == ExitWake { ExitWakeRecord(s, p, q); }
  }

  lemma TickRecord(s: State, p: nat, b: TickStep, q: nat)
    requires WellIndexed(s) && CanTick(s, p, b) && q < |s.tasks|
    ensures Record(s.tasks[q], DoTick(s, p, b).tasks[q], Tick(p, b), q)
  {
  }

  lemma OutsideRecord(s: State, b: OtherStep, q: nat)
    requires WellIndexed(s) && CanOutside(s, b) && q < |s.tasks|
    ensures Record(s.tasks[q], DoOutside(s, b).tasks[q], Outside(b), q)
  {
  }

  lemma RecordKept(s: State, a: Action, q: nat)
    requires Inv(s) && Can(s, a) && q < |s.tasks|
    ensures Record(s.tasks[q], Do(s, a).tasks[q], a, q)
  {
    match a
    case Sched(c, b) => SchedRecord(s, c, b, q);
    case Run(p, b) => RunRecord(s, p, b, q);
    case Fork(p, b) =>
      if b == ForkReady { CoreSteps.ForkedSlot(s, p); }
      ForkRecord(s, p, b, q);
    case Sleep(p, b) => SleepRecord(s, p, b, q);
    case Exit(p, b) => ExitRecord(s, p, b, q);
    case Tick(p, b) => TickRecord(s, p, b, q);
    case Outside(b) => OutsideRecord(s, b, q);
  }

  // ----- kill -----

  /** Over a run in which slot q is not reaped it stays killed if it was, and is killed if kill hits it. */
  lemma {:induction false} KilledOverRun(s: State, run: seq<Action>, q: nat)
    requires Inv(s) && Possible(s, run) && q < |s.tasks|
    ensures After(s, run).tasks[q].reaps >= s.tasks[q].reaps
    ensures After(s, run).tasks[q].reaps == s.tasks[q].reaps ==>
      After(s, run).tasks[q].killed == (s.tasks[q].killed || Outside(Kill(q)) in run)
    decreases |run|
  {
    if run != [] {
      RecordKept(s, run[0], q);
      InvKept(s, run[0]);
      KilledOverRun(Do(s, run[0]), run[1..], q);
      assert Outside(Kill(q)) in run <==> run[0] == Outside(Kill(q)) || Outside(Kill(q)) in run[1..];
    }
  }

  /** kill marks its process and wakes it if it sleeps; the mark stays until the process is reaped; and as long as it
      does, whenever the process would go back to sleep in wait or sys_sleep its call ends instead. */
  lemma KillEndsCalls(s: State, q: nat, run: seq<Action>)
    requires Reachable(s) && Can(s, Outside(Kill(q))) && Possible(Do(s, Outside(Kill(q))), run)
    ensures var s1 := Do(s, Outside(Kill(q)));
      s.tasks[q].state == SLEEPING ==> s1.tasks[q].state == RUNNABLE && Queued(s1.rq.entries, q)
    ensures var s1, s2 := Do(s, Outside(Kill(q))), After(Do(s, Outside(Kill(q))), run);
      s2.tasks[q].reaps == s1.tasks[q].reaps ==>
        s2.tasks[q].killed && NextTestEnds(s2, q)
  {
    ReachableSound(s);
    var a, s1 := Outside(Kill(q)), Do(s, Outside(Kill(q)));
    InvKept(s, a);
    if s.tasks[q].state == SLEEPING { InsertedFits(s, a, q); }
    KillMarks(s, q);
    KilledOverRun(s1, run, q);
    if After(s1, run).tasks[q].killed { MarkEndsCalls(After(s1, run), q); }
  }

  /** If p is about to go back to sleep in wait or sys_sleep, the call ends instead. */
  ghost predicate NextTestEnds(s: State, p: nat) {
    && (WellIndexed(s) && CanWaitEnd(s, p) ==>
          DoWaitEnd(s, p).tasks[p].op == User && DoWaitEnd(s, p).waitLock == Free)
    && (WellIndexed(s) && CanTickTest(s, p) ==>
          DoTickTest(s, p).tasks[p].op == User && DoTickTest(s, p).ticksLock == Free)
  }

  lemma MarkEndsCalls(s: State, p: nat)
    requires p < |s.tasks| && s.tasks[p].killed
    ensures NextTestEnds(s, p)
  {
  }

  lemma KillMarks(s: State, q: nat)
    requires WellIndexed(s) && CanKill(s, q)
    ensures DoKill(s, q).tasks[q].killed
    ensures s.tasks[q].state == SLEEPING ==> DoKill(s, q).tasks[q].state == RUNNABLE
  {
  }

  // ----- sys_sleep -----

  /** How many clock interrupts there are in a run. */
  function ClockTicks(run: seq<Action>): nat {
    if run == [] then 0 else (if run[0] == Outside(ClockTick) then 1 else 0) + ClockTicks(run[1..])
  }

  lemma TicksStep(s: State, a: Action)
    requires Can(s, a)
    ensures Do(s, a).ticks == s.ticks + (if a == Outside(ClockTick) then 1 else 0)
  {
    match a
    case Sched(c, b) =>
    case Run(p, b) =>
    case Fork(p, b) =>
    case Sleep(p, b) => SleepTicks(s, p, b);
    case Exit(p, b) => ExitTicks(s, p, b);
    case Tick(p, b) =>
    case Outside(b) =>
  }

  lemma SleepTicks(s: State, p: nat, b: SleepStep)
    requires WellIndexed(s) && CanSleep(s, p, b)
    ensures DoSleep(s, p, b).ticks == s.ticks
  {
  }

  lemma ExitTicks(s: State, p: nat, b: ExitStep)
    requires WellIndexed(s) && CanExit(s, p, b)
    ensures DoExit(s, p, b).ticks == s.ticks
  {
  }

  /** The tick count counts the clock interrupts. */
  lemma {:induction false} TicksCounted(s: State, run: seq<Action>)
    requires Possible(s, run)
    ensures After(s, run).ticks == s.ticks + ClockTicks(run)
    decreases |run|
  {
    if run != [] {
      TicksStep(s, run[0]);
      TicksCounted(Do(s, run[0]), run[1..]);
    }
  }

  /** p is in its call of sys_sleep before and after every step of the run. */
  ghost predicate StaysInSleep(s: State, run: seq<Action>, p: nat)
    requires Possible(s, run)
    decreases |run|
  {
    && p < |s.tasks| && InSleep(s.tasks[p].op)
    && (run != [] ==> StaysInSleep(Do(s, run[0]), run[1..], p))
  }

  lemma {:induction false} AskedOverRun(s: State, run: seq<Action>, p: nat)
    requires Inv(s) && Possible(s, run) && StaysInSleep(s, run, p)
    ensures InSleep(After(s, run).tasks[p].op) && Asked(After(s, run).tasks[p].op) == Asked(s.tasks[p].op)
    ensures Inv(After(s, run))
    decreases |run|
  {
    if run != [] {
      RecordKept(s, run[0], p);
      InvKept(s, run[0]);
      AskedOverRun(Do(s, run[0]), run[1..], p);
    }
  }

  lemma SleepStarts(s: State, p: nat, arg: int)
    requires WellIndexed(s) && CanTickStart(s, p)
    ensures InSleep(DoTickStart(s, p, arg).tasks[p].op)
    ensures Asked(DoTickStart(s, p, arg).tasks[p].op) == (if arg < 0 then 0 else arg, s.ticks)
    ensures DoTickStart(s, p, arg).ticks == s.ticks
  {
  }

  /** When a test of the sys_sleep loop ends the call: if enough ticks have passed since the call began, or if the
      process has been killed. */
  lemma SleepTest(s: State, p: nat)
    requires Inv(s) && WellIndexed(s) && CanTickTest(s, p)
    ensures var n, t0 := Asked(s.tasks[p].op).0, Asked(s.tasks[p].op).1;
      var t' := DoTickTest(s, p).tasks[p];
      && t0 <= s.ticks
      && (t'.op == User && !s.tasks[p].killed ==> s.ticks - t0 >= n)
      && (s.ticks - t0 >= n && s.ticks - t0 < UINT ==> t'.op == User)
      && (s.tasks[p].killed ==> t'.op == User)
      && (t'.op != User ==> t'.op.SleepHeld? && t'.op.cont.TickLoop?)
  {
    TickStarted(s, p);
    ElapsedBounds(s.ticks, s.tasks[p].op.ticks0);
  }

  /** sys_sleep(arg) of a process that is not killed ends at a test of its loop exactly when at least arg clock
      interrupts have come since the call (while fewer than 2^32 have); with more of them it still does not end
      early. Until then the process goes to sleep. */
  lemma SleepLastsExactly(s: State, p: nat, arg: int, run: seq<Action>)
    requires Reachable(s) && Can(s, Tick(p, TickStart(arg)))
    requires Possible(Do(s, Tick(p, TickStart(arg))), run) && StaysInSleep(Do(s, Tick(p, TickStart(arg))), run, p)
    requires Can(After(Do(s, Tick(p, TickStart(arg))), run), Tick(p, TickTest))
    ensures var s2 := After(Do(s, Tick(p, TickStart(arg))), run);
      var t' := Do(s2, Tick(p, TickTest)).tasks[p];
      && (t'.op == User && !s2.tasks[p].killed ==> ClockTicks(run) >= arg)
      && (ClockTicks(run) >= arg && ClockTicks(run) < UINT ==> t'.op == User)
      && (s2.tasks[p].killed ==> t'.op == User)
      && (t'.op != User ==> t'.op.SleepHeld? && t'.op.cont.TickLoop?)
  {
    ReachableSound(s);
    var s1 := Do(s, Tick(p, TickStart(arg)));
    InvKept(s, Tick(p, TickStart(arg)));
    SleepStarts(s, p, arg);
    AskedOverRun(s1, run, p);
    TicksCounted(s1, run);
    SleepTest(After(s1, run), p);
  }

  lemma SchedInSleep(s: State, c: nat, b: SchedStep, p: nat)
    requires WellIndexed(s) && CanSched(s, c, b) && p < |s.tasks|
    ensures DoSched(s, c, b).tasks[p].op == s.tasks[p].op
  {
  }

  lemma RunInSleep(s: State, q: nat, b: RunStep, p: nat)
    requires WellIndexed(s) && CanRun(s, q, b) && p < |s.tasks| && InSleep(s.tasks[p].op)
    ensures InSleep(DoRun(s, q, b).tasks[p].op)
  {
  }

  lemma ForkInSleep(s: State, q: nat, b: ForkStep, p: nat)
    requires WellIndexed(s) && CanFork(s, q, b) && p < |s.tasks| && InSleep(s.tasks[p].op)
    requires s.tasks[p].state != UNUSED
    ensures InSleep(DoFork(s, q, b).tasks[p].op)
  {
  }

  lemma SleepInSleep(s: State, q: nat, b: SleepStep, p: nat)
    requires WellIndexed(s) && CanSleep(s, q, b) && p < |s.tasks| && InSleep(s.tasks[p].op)
    requires s.tasks[p].state != ZOMBIE
    ensures InSleep(DoSleep(s, q, b).tasks[p].op)
  {
  }

  lemma ExitInSleep(s: State, q: nat, b: ExitStep, p: nat)
    requires WellIndexed(s) && CanExit(s, q, b) && p < |s.tasks| && InSleep(s.tasks[p].op)
    ensures InSleep(DoExit(s, q, b).tasks[p].op)
  {
  }

  lemma TickInSleep(s: State, q: nat, b: TickStep, p: nat)
    requires WellIndexed(s) && CanTick(s, q, b) && p < |s.tasks| && InSleep(s.tasks[p].op)
    ensures InSleep(DoTick(s, q, b).tasks[p].op) || (b == TickTest && q == p)
  {
  }

  lemma OutsideInSleep(s: State, b: OtherStep, p: nat)
    requires WellIndexed(s) && CanOutside(s, b) && p < |s.tasks|
    ensures DoOutside(s, b).tasks[p].op == s.tasks[p].op
  {
  }

  /** A call of sys_sleep ends nowhere but at a test of its loop. */
  lemma SleepEndsAtTest(s: State, a: Action, p: nat)
    requires Inv(s) && Can(s, a) && p < |s.tasks| && InSleep(s.tasks[p].op)
    ensures InSleep(Do(s, a).tasks[p].op) || a == Tick(p, TickTest)
  {
    assert StateOk(s.tasks[p], p);
    match a
    case Sched(c, b) => SchedInSleep(s, c, b, p);
    case Run(q, b) => RunInSleep(s, q, b, p);
    case Fork(q, b) => ForkInSleep(s, q, b, p);
    case Sleep(q, b) => SleepInSleep(s, q, b, p);
    case Exit(q, b) => ExitInSleep(s, q, b, p);
    case Tick(q, b) => TickInSleep(s, q, b, p);
    case Outside(b) => OutsideInSleep(s, b, p);
  }

  // ----- wait -----

  ghost predicate HasChildren(s: State, p: nat) {
    exists z: nat :: z < |s.tasks| && s.tasks[z].parent == p
  }

  /** The scan of wait that found nothing ends the call exactly if the caller has been killed or has no children;
      otherwise the caller lets go of wait_lock and sleeps on its children. */
  lemma WaitGivesUpExactly(s: State, p: nat)
    requires Reachable(s) && WellIndexed(s) && CanWaitEnd(s, p)
    ensures var s' := DoWaitEnd(s, p);
      && (s'.tasks[p].op == User <==> s.tasks[p].killed || !HasChildren(s, p))
      && (s'.tasks[p].op == User ==> s'.waitLock == Free)
      && (s'.tasks[p].op != User ==>
            && WellIndexed(s') && CanSleepRelease(s', p)
            && var s1 := DoSleepRelease(s', p);
            && s1.waitLock == Free && WellIndexed(s1) && CanSleepSwtch(s1, p)
            && var t := DoSleepSwtch(s1, p).tasks[p];
               t.state == SLEEPING && t.chan == Children(p))
  {
    ReachableSound(s);
    WaitSteps.LookedSoFar(s, p);
    NoChildrenBelowAll(s, p, s.tasks[p].op.i);
  }

  lemma NoChildrenBelowAll(s: State, p: nat, n: nat)
    requires n >= |s.tasks|
    ensures NoChildBelow(s, p, n) <==> !HasChildren(s, p)
  {
    if HasChildren(s, p) {
      var z: nat :| z < |s.tasks| && s.tasks[z].parent == p;
      assert s.tasks[z].parent == p;
    }
  }

  /** A look at slot i ends the call of wait exactly if a zombie child is there; unless the status cannot be copied out,
      the child is then free for reuse, unmarked, and counted as reaped. */
  lemma WaitReapsExactly(s: State, p: nat, copyFails: bool)
    requires Reachable(s) && WellIndexed(s) && CanWaitLook(s, p)
    ensures var i, s' := s.tasks[p].op.i, DoWaitLook(s, p, copyFails);
      && (s'.tasks[p].op == User <==> s.tasks[i].parent == p && s.tasks[i].state == ZOMBIE)
      && (s'.tasks[p].op == User ==>
            && s'.waitLock == Free && i != p
            && if copyFails then s'.tasks[i] == s.tasks[i]
               else
                 && s'.tasks[i].state == UNUSED && s'.tasks[i].parent == NULL && !s'.tasks[i].killed
                 && s'.tasks[i].reaps == s.tasks[i].reaps + 1)
      && (s'.tasks[p].op != User ==> s'.waitLock == s.waitLock && s'.tasks[p].op.WaitScan?)
      && forall q: nat :: q < |s.tasks| && q != p && q != i ==> s'.tasks[q] == s.tasks[q]
  {
    ReachableSound(s);
    LiveState(s, p);
  }

  /** Somewhere in a call of wait. */
  ghost predicate InWait(op: Op) {
    op.WaitScan? || ((op.SleepHeld? || op.SleepReady? || op.Asleep? || op.Reacquire?) && op.cont == WaitLoop)
  }

  lemma RunInWait(s: State, q: nat, b: RunStep, p: nat)
    requires WellIndexed(s) && CanRun(s, q, b) && p < |s.tasks| && InWait(s.tasks[p].op)
    ensures InWait(DoRun(s, q, b).tasks[p].op)
  {
  }

  lemma ForkInWait(s: State, q: nat, b: ForkStep, p: nat)
    requires WellIndexed(s) && CanFork(s, q, b) && p < |s.tasks| && InWait(s.tasks[p].op)
    requires s.tasks[p].state != UNUSED
    ensures InWait(DoFork(s, q, b).tasks[p].op)
  {
  }

  lemma SleepInWait(s: State, q: nat, b: SleepStep, p: nat)
    requires WellIndexed(s) && CanSleep(s, q, b) && p < |s.tasks| && InWait(s.tasks[p].op)
    requires s.tasks[p].state != ZOMBIE
    ensures InWait(DoSleep(s, q, b).tasks[p].op) || (q == p && (b.WaitLook? || b.WaitEnd?))
  {
  }

  lemma ExitInWait(s: State, q: nat, b: ExitStep, p: nat)
    requires WellIndexed(s) && CanExit(s, q, b) && p < |s.tasks| && InWait(s.tasks[p].op)
    ensures InWait(DoExit(s, q, b).tasks[p].op)
  {
  }

  lemma TickInWait(s: State, q: nat, b: TickStep, p: nat)
    requires WellIndexed(s) && CanTick(s, q, b) && p < |s.tasks| && InWait(s.tasks[p].op)
    ensures InWait(DoTick(s, q, b).tasks[p].op)
  {
  }

  /** A call of wait ends nowhere but at a look at a slot or at the end of a scan. */
  lemma WaitEndsAtScan(s: State, a: Action, p: nat)
    requires Inv(s) && Can(s, a) && p < |s.tasks| && InWait(s.tasks[p].op)
    ensures InWait(Do(s, a).tasks[p].op) || (a.Sleep? && a.p == p && (a.sleep.WaitLook? || a.sleep.WaitEnd?))
  {
    assert StateOk(s.tasks[p], p);
    match a
    case Sched(c, b) => SchedInSleep(s, c, b, p);
    case Run(q, b) => RunInWait(s, q, b, p);
    case Fork(q, b) => ForkInWait(s, q, b, p);
    case Sleep(q, b) => SleepInWait(s, q, b, p);
    case Exit(q, b) => ExitInWait(s, q, b, p);
    case Tick(q, b) => TickInWait(s, q, b, p);
    case Outside(b) => OutsideInSleep(s, b, p);
  }

  // ----- sys_setNice -----

  predicate SetsNiceOf(a: Action, p: nat) {
    a.Run? && a.p == p && a.run.SetNice?
  }

  lemma {:induction false} NiceOverRun(s: State, run: seq<Action>, p: nat)
    requires Inv(s) && Possible(s, run) && p < |s.tasks| && s.tasks[p].state != UNUSED
    requires forall i :: 0 <= i < |run| ==> !SetsNiceOf(run[i], p)
    requires After(s, run).tasks[p].reaps == s.tasks[p].reaps
    ensures After(s, run).tasks[p].niceVal == s.tasks[p].niceVal && Inv(After(s, run))
    decreases |run|
  {
    if run != [] {
      RecordKept(s, run[0], p);
      InvKept(s, run[0]);
      KilledOverRun(Do(s, run[0]), run[1..], p);
      NiceOverRun(Do(s, run[0]), run[1..], p);
    }
  }

  /** An insertion caches the weight of the nice value that the process has then. */
  lemma InsertCachesWeight(s: State, a: Action, p: nat)
    requires Core(s) && Can(s, a) && p < |s.tasks| && Inserts(s, a, p)
    ensures Do(s, a).tasks[p].weightVal == Weight(s.tasks[p].niceVal)
  {
    match a
    case Run(q, b) =>
    case Fork(q, b) => CoreSteps.ForkedSlot(s, q);
    case Exit(q, b) =>
      CoreSteps.WakeRoundForm(s, q, CoreSteps.NextRound(s.tasks[q].op), CoreSteps.Target(s, q));
    case Outside(b) => OutsideCachesWeight(s, b, p);
    case _ =>
  }

  lemma OutsideCachesWeight(s: State, b: OtherStep, p: nat)
    requires Can(s, Outside(b)) && p < |s.tasks| && Inserts(s, Outside(b), p)
    ensures DoOutside(s, b).tasks[p].weightVal == Weight(s.tasks[p].niceVal)
  {
  }

  lemma NiceSetForm(s: State, p: nat, nice: int)
    requires WellIndexed(s) && CanSetNice(s, p)
    ensures var t, t' := s.tasks[p], DoSetNice(s, p, nice).tasks[p];
      t' == t.(niceVal := if 0 <= nice <= 39 then nice else t.niceVal)
  {
  }

  lemma NiceCounts(s: State, p: nat, run: seq<Action>, a: Action)
    requires Inv(s) && Possible(s, run) && p < |s.tasks| && s.tasks[p].state != UNUSED
    requires forall i :: 0 <= i < |run| ==> !SetsNiceOf(run[i], p)
    requires After(s, run).tasks[p].reaps == s.tasks[p].reaps
    requires Can(After(s, run), a) && Inserts(After(s, run), a, p)
    ensures Do(After(s, run), a).tasks[p].weightVal == Weight(s.tasks[p].niceVal)
    ensures Queued(Do(After(s, run), a).rq.entries, p)
  {
    NiceOverRun(s, run, p);
    InsertCachesWeight(After(s, run), a, p);
    InsertedFits(After(s, run), a, p);
  }

  /** A nice value that sys_setNice accepts is the one whose weight counts at every insertion of the process, until it
      sets another or is reaped; any other argument changes nothing. */
  lemma NiceTakesEffect(s: State, p: nat, nice: int, run: seq<Action>, a: Action)
    requires Reachable(s) && Can(s, Run(p, SetNice(nice))) && Possible(Do(s, Run(p, SetNice(nice))), run)
    requires forall i :: 0 <= i < |run| ==> !SetsNiceOf(run[i], p)
    requires After(Do(s, Run(p, SetNice(nice))), run).tasks[p].reaps == s.tasks[p].reaps
    requires Can(After(Do(s, Run(p, SetNice(nice))), run), a)
    requires Inserts(After(Do(s, Run(p, SetNice(nice))), run), a, p)
    ensures var s2 := After(Do(s, Run(p, SetNice(nice))), run);
      && Do(s2, a).tasks[p].weightVal == Weight(if 0 <= nice <= 39 then nice else s.tasks[p].niceVal)
      && Queued(Do(s2, a).rq.entries, p)
  {
    ReachableSound(s);
    InvKept(s, Run(p, SetNice(nice)));
    LiveState(s, p);
    NiceSetForm(s, p, nice);
    NiceCounts(Do(s, Run(p, SetNice(nice))), p, run, a);
  }

  // ----- a slot between two lives -----

  ghost predicate StaysUnused(s: State, run: seq<Action>, q: nat)
    requires Possible(s, run)
    decreases |run|
  {
    && q < |s.tasks| && s.tasks[q].state == UNUSED
    && (run != [] ==> StaysUnused(Do(s, run[0]), run[1..], q))
  }

  lemma {:induction false} UnusedOverRun(s: State, run: seq<Action>, q: nat)
    requires Inv(s) && Possible(s, run) && StaysUnused(s, run, q)
    ensures After(s, run).tasks[q].reaps == s.tasks[q].reaps && After(s, run).tasks[q].state == UNUSED
    decreases |run|
  {
    if run != [] {
      RecordKept(s, run[0], q);
      InvKept(s, run[0]);
      UnusedOverRun(Do(s, run[0]), run[1..], q);
    }
  }

  lemma AllocForm(s: State, p: nat, np: nat)
    requires WellIndexed(s) && CanForkAlloc(s, p, np)
    ensures var t := DoForkAlloc(s, p, np).tasks[np];
      p != np ==>
        && t.state == USED && t.killed == s.tasks[np].killed && t.niceVal == 0
        && t.virtualRuntime == 0 && t.currentRuntime == 0 && t.maxExecutionTime == 0
  {
  }

  /** A process starts with nice value 0 and without any runtime; and it starts killed exactly if kill has hit its slot
      since it was last free and unmarked, for allocproc does not clear the mark. */
  lemma BornKilledExactly(s: State, run: seq<Action>, p: nat, np: nat)
    requires Reachable(s) && Possible(s, run) && StaysUnused(s, run, np) && !s.tasks[np].killed
    requires Can(After(s, run), Fork(p, ForkAlloc(np)))
    ensures var t := Do(After(s, run), Fork(p, ForkAlloc(np))).tasks[np];
      && t.state == USED && t.niceVal == 0 && t.virtualRuntime == 0 && t.currentRuntime == 0
      && (t.killed <==> Outside(Kill(np)) in run)
  {
    ReachableSound(s);
    UnusedOverRun(s, run, np);
    KilledOverRun(s, run, np);
    InvAlways(s, run);
    LiveState(After(s, run), p);
    AllocForm(After(s, run), p, np);
  }

  /** fork ends with a child of the caller in the tree, at virtual runtime 0 and with the weight of nice value 0. */
  lemma ForkDelivers(s: State, p: nat)
    requires Reachable(s) && Can(s, Fork(p, ForkInsert))
    ensures var np, s' := s.tasks[p].op.np, Do(s, Fork(p, ForkInsert));
      && np < |s.tasks| && np != p && s'.tasks[p].op == User
      && s'.tasks[np].parent == p && s'.tasks[np].state == RUNNABLE && s'.tasks[np].op == User
      && Entry(np, 0, 819) in s'.rq.entries
  {
    ReachableSound(s);
    PendingChild(s, p);
    ForkInsertForm(s, p);
    InsertionFits(s, Fork(p, ForkInsert), s.tasks[p].op.np);
    InsertMembers(s.rq.entries, Entry(s.tasks[p].op.np, 0, 819));
  }

  lemma PendingChild(s: State, p: nat)
    requires Inv(s) && WellIndexed(s) && CanForkInsert(s, p)
    ensures var np := s.tasks[p].op.np;
      && np < |s.tasks| && np != p
      && s.tasks[np].parent == p && s.tasks[np].state == RUNNABLE && s.tasks[np].op == User
      && s.tasks[np].virtualRuntime == 0 && Weight(s.tasks[np].niceVal) == 819
  {
    CoreSteps.ForkedSlot(s, p);
    var np := s.tasks[p].op.np;
    assert PlaceOk(s, p) && PlaceOk(s, np) && ParentOk(s, p) && TimeOk(s.tasks[np], |s.tasks|);
    LargestWeight();
  }

  lemma ForkInsertForm(s: State, p: nat)
    requires WellIndexed(s) && CanForkInsert(s, p) && s.tasks[p].op.np != p
    ensures var np, s' := s.tasks[p].op.np, DoForkInsert(s, p);
      && s'.tasks[p].op == User && s'.tasks[np].parent == s.tasks[np].parent
      && s'.tasks[np].state == s.tasks[np].state && s'.tasks[np].op == s.tasks[np].op
      && s'.rq == Enqueue(s.rq, Entry(np, s.tasks[np].virtualRuntime, Weight(s.tasks[np].niceVal)))
  {
  }

  // ----- parents -----

  lemma ForkGivesParent(s: State, p: nat, b: ForkStep, q: nat)
    requires WellIndexed(s) && CanFork(s, p, b) && q < |s.tasks|
    ensures DoFork(s, p, b).tasks[q].parent ==
      if b == ForkParent && s.tasks[p].op.np == q then p else s.tasks[q].parent
  {
  }

  lemma ExitGivesParent(s: State, p: nat, b: ExitStep, q: nat)
    requires WellIndexed(s) && CanExit(s, p, b) && q < |s.tasks|
    ensures DoExit(s, p, b).tasks[q].parent == s.tasks[q].parent
            || (s.tasks[q].parent == p && DoExit(s, p, b).tasks[q].parent == s.initproc)
  {
  }

  /** A process gets its forker as parent; it is handed on only to init, and only by its parent's exit; and it loses its
      parent only when it is reaped. */
  lemma ParentChanges(s: State, a: Action, q: nat)
    requires Reachable(s) && Can(s, a) && q < |s.tasks| && Do(s, a).tasks[q].parent != s.tasks[q].parent
    ensures
      || (a.Fork? && s.tasks[q].state == USED && s.tasks[q].place == Embryo(a.p) && Do(s, a).tasks[q].parent == a.p)
      || (a.Exit? && s.tasks[q].parent == a.p && Do(s, a).tasks[q].parent == s.initproc)
      || (s.tasks[q].state == ZOMBIE && Do(s, a).tasks[q].parent == NULL)
  {
    ReachableSound(s);
    RecordKept(s, a, q);
    match a
    case Fork(p, b) =>
      ForkGivesParent(s, p, b, q);
      assert PlaceOk(s, p) && PlaceOk(s, q);
    case Exit(p, b) => ExitGivesParent(s, p, b, q);
    case _ =>
  }

  /** A process that has ended has given all its children away. */
  lemma NoChildrenLeft(s: State, p: nat)
    requires Reachable(s) && p < |s.tasks| && s.tasks[p].state == ZOMBIE
    ensures !HasChildren(s, p)
  {
    ReachableSound(s);
    assert StateOk(s.tasks[p], p) && FamilyOk(s, p);
    NoChildrenBelowAll(s, p, |s.tasks|);
  }

  // ----- who waits for whom -----

  /** The step that the kernel thread of p takes next of its own. */
  function NextStep(s: State, p: nat): Action
    requires p < |s.tasks|
  {
    var t := s.tasks[p];
    if t.stage == Resumed then Run(p, Release)
    else if t.stage == MustYield then Run(p, Yield(SliceSpent(t)))
    else if t.stage == Yielding then Run(p, YieldSwtch)
    else
      match t.op
      case User => Run(p, Charge)
      case ForkAllocated(_) => Fork(p, ForkParent)
      case ForkParented(_) => Fork(p, ForkReady)
      case ForkPending(_) => Fork(p, ForkInsert)
      case WaitScan(i, _) => Sleep(p, if i < |s.tasks| then WaitLook(false) else WaitEnd)
      case TickCheck(_, _) => Tick(p, TickTest)
      case SleepHeld(_) => Sleep(p, SleepRelease)
      case SleepReady(_) => Sleep(p, SleepSwtch)
      case Asleep(_) => Run(p, Release)
      case Reacquire(_) => Sleep(p, Reacquired)
      case ExitReparent(_) => Exit(p, ExitScan)
      case ExitWakeInit(_, _) => Exit(p, ExitWake)
      case ExitWakeParent(k) => Exit(p, if k < |s.tasks| then ExitWake else ExitMark)
      case ExitZombie => Exit(p, ExitRelease)
      case ExitDone => Exit(p, ExitSwtch)
  }

  /** The lock of slot k is held by another CPU than c, which can go on. */
  ghost predicate SlotBusy(s: State, k: nat, c: int) {
    && k < |s.tasks| && s.tasks[k].lock != NULL && s.tasks[k].lock != c
    && 0 <= s.tasks[k].lock < |s.cpus|
    && (if s.tasks[k].stage == Suspended then Can(s, Sched(s.tasks[k].lock, Finish))
        else s.tasks[k].cpu == s.tasks[k].lock && Can(s, NextStep(s, k)))
  }

  /** Whoever holds the lock of a slot can go on: no such holder waits for anything. */
  lemma HoldersGoOn(s: State, k: nat, c: int)
    requires Core(s) && k < |s.tasks| && s.tasks[k].lock != NULL && s.tasks[k].lock != c
    ensures SlotBusy(s, k, c)
  {
    CoreIndexed(s);
    assert LockOk(s, k) && StateOk(s.tasks[k], k) && CpuOk(s, s.tasks[k].lock);
  }

  /** The slot whose lock the next step of a process takes, if it is not its own. */
  function Wanted(op: Op): int {
    match op
    case ForkParented(np) => np
    case WaitScan(i, _) => i
    case ExitWakeInit(_, k) => k
    case ExitWakeParent(k) => k
    case _ => NULL
  }

  /** p can take its next step, unless another CPU has the lock of a slot, and that CPU can go on. */
  ghost predicate GoesOn(s: State, p: nat)
    requires p < |s.tasks|
  {
    var k := Wanted(s.tasks[p].op);
    Can(s, NextStep(s, p)) || (k >= 0 && SlotBusy(s, k, s.tasks[p].cpu))
  }

  /** The step that the clock interrupt takes next. */
  function ClockNext(s: State): Action
    requires s.clock.ClockWake?
  {
    Outside(if s.clock.k < |s.tasks| then ClockStep else ClockEnd)
  }

  ghost predicate WaitLockBusy(s: State, p: nat) {
    s.waitLock.ByTask? && s.waitLock.p != p && s.waitLock.p < |s.tasks| && GoesOn(s, s.waitLock.p)
  }

  ghost predicate TicksLockBusy(s: State, p: nat) {
    if s.ticksLock == ByClock then s.clock.ClockWake? && (Can(s, ClockNext(s)) || SlotBusy(s, s.clock.k, NULL))
    else s.ticksLock.ByTask? && s.ticksLock.p != p && s.ticksLock.p < |s.tasks| && GoesOn(s, s.ticksLock.p)
  }

  /** A process on a CPU waits only for a lock that another party holds, never for one it holds itself; and, apart from
      the tick reads that scheduler makes for its log, nobody waits in a circle. */
  lemma NeverStuck(s: State, p: nat)
    requires Reachable(s) && p < |s.tasks| && s.tasks[p].stage != Suspended
    ensures
      || GoesOn(s, p)
      || ((s.tasks[p].op.ForkAllocated? || s.tasks[p].op == Reacquire(WaitLoop)) && WaitLockBusy(s, p))
      || (s.tasks[p].op.Reacquire? && s.tasks[p].op.cont.TickLoop? && TicksLockBusy(s, p))
  {
    ReachableSound(s);
    CoreIndexed(s);
    NeedsAtMostOneLock(s, p);
    if s.tasks[p].op.ForkAllocated? || s.tasks[p].op == Reacquire(WaitLoop) {
      if s.waitLock != Free { WaitHolderGoesOn(s, p); }
    } else if s.tasks[p].op.Reacquire? && s.tasks[p].op.cont.TickLoop? && s.ticksLock != Free {
      TicksHolderGoesOn(s, p);
    }
  }

  lemma NeedsAtMostOneLock(s: State, p: nat)
    requires Inv(s) && WellIndexed(s) && p < |s.tasks| && s.tasks[p].stage != Suspended
    ensures
      || GoesOn(s, p)
      || ((s.tasks[p].op.ForkAllocated? || s.tasks[p].op == Reacquire(WaitLoop)) && s.waitLock != Free)
      || (s.tasks[p].op.Reacquire? && s.tasks[p].op.cont.TickLoop? && s.ticksLock != Free)
  {
    assert LockOk(s, p) && StateOk(s.tasks[p], p) && PlaceOk(s, p);
    if !HoldsOwn(s.tasks[p]) {
      FreeLock(s, p);
      var k := Wanted(s.tasks[p].op);
      if 0 <= k < |s.tasks| && s.tasks[k].lock != NULL {
        OwnCpuHoldsNone(s, p, k);
        HoldersGoOn(s, k, s.tasks[p].cpu);
      }
    }
  }

  /** A process that does not hold its own lock is on a CPU that holds no slot's lock. */
  lemma OwnCpuHoldsNone(s: State, p: nat, k: nat)
    requires Core(s) && p < |s.tasks| && s.tasks[p].stage != Suspended && !HoldsOwn(s.tasks[p]) && k < |s.tasks|
    ensures s.tasks[k].lock != s.tasks[p].cpu
  {
    assert LockOk(s, p) && LockOk(s, k);
  }

  lemma WaitHolderGoesOn(s: State, p: nat)
    requires Inv(s) && p < |s.tasks| && !HoldsWait(s.tasks[p].op) && s.waitLock != Free
    ensures WaitLockBusy(s, p)
  {
    CoreIndexed(s);
    var q := s.waitLock.p;
    assert FamilyOk(s, p) && FamilyOk(s, q) && StateOk(s.tasks[q], q);
    NeedsAtMostOneLock(s, q);
  }

  lemma TicksHolderGoesOn(s: State, p: nat)
    requires Inv(s) && p < |s.tasks| && !HoldsTicks(s.tasks[p].op) && s.ticksLock != Free
    ensures TicksLockBusy(s, p)
  {
    CoreIndexed(s);
    if s.ticksLock == ByClock {
      if s.clock.k < |s.tasks| && s.tasks[s.clock.k].lock != NULL { HoldersGoOn(s, s.clock.k, NULL); }
    } else {
      var q := s.ticksLock.p;
      assert TickOk(s, p) && TickOk(s, q) && StateOk(s.tasks[q], q);
      NeedsAtMostOneLock(s, q);
    }
  }

  /** The scheduler loop of a CPU waits only for a lock that another CPU holds. */
  lemma SchedulerNeverStuck(s: State, c: nat)
    requires Reachable(s) && c < |s.cpus|
    ensures match s.cpus[c].sched
      case Picking => Can(s, Sched(c, Retrieve))
      case Hand(p) => Can(s, Sched(c, Dispatch)) || SlotBusy(s, p, c)
      case Away(p) => p < |s.tasks| && s.tasks[p].stage != Suspended && s.tasks[p].cpu == c
      case Back(p) => Can(s, Sched(c, Finish))
  {
    ReachableSound(s);
    CoreIndexed(s);
    assert CpuOk(s, c);
    if s.cpus[c].sched.Hand? {
      var p := s.cpus[c].sched.p;
      assert LockOk(s, p);
      if s.tasks[p].lock != NULL { HoldersGoOn(s, p, c); }
    }
  }

  /** In user code a process can trap and make any call, as soon as the lock is free that the call begins with. */
  lemma CallsOpen(s: State, p: nat)
    requires Reachable(s) && Running(s, p, Live) && s.tasks[p].op == User
    ensures Can(s, Run(p, Charge))
    ensures forall n :: Can(s, Run(p, SetNice(n)))
    ensures forall n :: Can(s, Sleep(p, SleepElsewhere(n)))
    ensures forall q: nat :: q < |s.tasks| && s.tasks[q].state == UNUSED ==> Can(s, Fork(p, ForkAlloc(q)))
    ensures Can(s, Sleep(p, WaitStart)) <==> s.waitLock == Free
    ensures Can(s, Exit(p, ExitStart)) <==> s.waitLock == Free && p != s.initproc
    ensures forall n :: Can(s, Tick(p, TickStart(n))) <==> s.ticksLock == Free
  {
    ReachableSound(s);
    CoreIndexed(s);
    LiveState(s, p);
    FreeLock(s, p);
    forall q: nat | q < |s.tasks| && s.tasks[q].state == UNUSED ensures Can(s, Fork(p, ForkAlloc(q))) {
      ForkOpen(s, p, q);
    }
  }

  lemma ForkOpen(s: State, p: nat, q: nat)
    requires Core(s) && Running(s, p, Live) && s.tasks[p].op == User && q < |s.tasks| && s.tasks[q].state == UNUSED
    ensures Can(s, Fork(p, ForkAlloc(q)))
  {
    CoreIndexed(s);
    assert StateOk(s.tasks[q], q);
  }

  /** kill can hit any slot, as soon as the slot's lock is free. */
  lemma KillOpen(s: State, q: nat)
    requires Reachable(s)
    ensures Can(s, Outside(Kill(q))) <==> q < |s.tasks| && s.tasks[q].lock == NULL
  {
    ReachableSound(s);
    CoreIndexed(s);
  }
}
