/** The kernel's steps on the tree itself: the links in the process table always hold the run queue that the state
    machine describes, and the tree code is never called outside its conditions. */
module Kernel {
  import opened Procs
  import opened Queue
  import opened Shape
  import opened Layout
  import opened RedBlack
  import opened RBTrees
  import opened Machine
  import opened CoreInvariant
  import CoreSteps
  import Safety

  /** The record of a process in the table and its task in the machine agree on all fields that both have. */
  ghost predicate Agrees(p: Proc, t: Task) {
    && p.state == t.state && p.virtualRuntime == t.virtualRuntime && p.currentRuntime == t.currentRuntime
    && p.maxExecutionTime == t.maxExecutionTime && p.niceVal == t.niceVal && p.weightVal == t.weightVal
  }

  ghost predicate AllAgree(m: Table, s: State) {
    |m| == |s.tasks| && forall p: nat {:trigger m[p]} {:trigger s.tasks[p]} :: p < |m| ==> Agrees(m[p], s.tasks[p])
  }

  /** The tree is valid and holds the run queue of s, in a table that agrees with s. */
  ghost predicate Glued(tree: RBTree, s: State)
    reads tree, tree.proc
  {
    tree.Valid() && tree.View() == s.rq && AllAgree(tree.proc[..], s)
  }

  ghost predicate SameData(t: Task, t': Task) {
    && t'.state == t.state && t'.virtualRuntime == t.virtualRuntime && t'.currentRuntime == t.currentRuntime
    && t'.maxExecutionTime == t.maxExecutionTime && t'.niceVal == t.niceVal && t'.weightVal == t.weightVal
  }

  /** From s to s' only process p changes fields that the table has. */
  ghost predicate OnlyData(s: State, s': State, p: nat) {
    |s'.tasks| == |s.tasks| && forall q: nat {:trigger s'.tasks[q]} ::
      q < |s.tasks| && q != p ==> SameData(s.tasks[q], s'.tasks[q])
  }

  /** No field that the table has changes. */
  ghost predicate NoData(s: State, s': State) {
    && |s'.tasks| == |s.tasks| && s'.rq == s.rq
    && forall q: nat {:trigger s'.tasks[q]} :: q < |s.tasks| ==> SameData(s.tasks[q], s'.tasks[q])
  }

  lemma GluedSame(tree: RBTree, s: State, s': State)
    requires Glued(tree, s) && NoData(s, s')
    ensures Glued(tree, s')
  {
    var m := tree.proc[..];
    forall p: nat | p < |m| ensures Agrees(m[p], s'.tasks[p]) {
      assert Agrees(m[p], s.tasks[p]) && SameData(s.tasks[p], s'.tasks[p]);
    }
  }

  /** A process that is not queued is not linked in. */
  lemma NotLinked(tree: RBTree, s: State, p: nat)
    requires Glued(tree, s)
    ensures p in Nodes(tree.shape) <==> Queued(s.rq.entries, p)
  {
    NodesAreQueued(tree.shape, s.rq.entries, p);
  }

  /** The kernel writes scheduling fields of process p outside the tree code. */
  method Write(tree: RBTree, p: nat, state: ProcState, virtualRuntime: int, currentRuntime: int, niceVal: int)
    requires tree.Valid() && p < tree.proc.Length
    requires p in Nodes(tree.shape) ==> virtualRuntime == tree.proc[p].virtualRuntime
    modifies tree.proc
    ensures tree.Valid() && tree.View() == old(tree.View())
    ensures tree.proc[..] == old(tree.proc[..])[p := old(tree.proc[p]).(
      state := state, virtualRuntime := virtualRuntime, currentRuntime := currentRuntime, niceVal := niceVal)]
  {
    ghost var m := tree.proc[..];
    tree.proc[p] := tree.proc[p].(
      state := state, virtualRuntime := virtualRuntime, currentRuntime := currentRuntime, niceVal := niceVal);
    assert Agree(m, tree.proc[..], Nodes(tree.shape));
    FrameTree(m, tree.proc[..], tree.shape, NULL);
    assert tree.Holds(tree.shape, Top);
  }

  /** A step that changes the state of p, and nothing else the table has. */
  method WriteState(tree: RBTree, ghost s: State, ghost s': State, p: nat, state: ProcState)
    requires Glued(tree, s) && p < |s.tasks| && OnlyData(s, s', p) && s'.rq == s.rq
    requires SameData(s.tasks[p].(state := state), s'.tasks[p])
    modifies tree.proc
    ensures Glued(tree, s')
  {
    var r := tree.proc[p];
    Write(tree, p, state, r.virtualRuntime, r.currentRuntime, r.niceVal);
  }

  /** Marks p RUNNABLE, folds its current runtime into its virtual runtime and inserts it. */
  method Requeue(tree: RBTree, ghost s: State, p: nat)
    requires Glued(tree, s) && p < |s.tasks| && !Queued(s.rq.entries, p)
    modifies tree, tree.proc
    ensures Glued(tree, Requeued(s, p))
  {
    NotLinked(tree, s, p);
    var r := tree.proc[p];
    Write(tree, p, RUNNABLE, r.virtualRuntime + r.currentRuntime, 0, r.niceVal);
    assert !tree.IsFull() by { Pigeonhole(s.rq.entries, s.rq.nproc); }
    tree.InsertProcess(p);
  }

  lemma Unqueued(s: State, p: nat)
    requires Core(s) && p < |s.tasks|
    ensures s.tasks[p].state != RUNNABLE ==> !Queued(s.rq.entries, p)
    ensures s.tasks[p].place.Pending? ==> !Queued(s.rq.entries, p)
    ensures s.tasks[p].stage == Live || s.tasks[p].stage == MustYield ==> s.tasks[p].state != RUNNABLE
  {
    assert PlaceOk(s, p) && StateOk(s.tasks[p], p);
  }

  // ----- scheduler -----

  method Retrieve(tree: RBTree, ghost s: State, c: nat)
    requires Glued(tree, s) && WellIndexed(s) && CanRetrieve(s, c)
    modifies tree, tree.proc
    ensures Glued(tree, DoRetrieve(s, c))
  {
    var p;
    ghost var rounds;
    p, rounds := tree.RetrieveProcess();
  }

  method Dispatch(tree: RBTree, s: State, c: nat)
    requires Glued(tree, s) && WellIndexed(s) && CanDispatch(s, c)
    modifies tree.proc
    ensures Glued(tree, DoDispatch(s, c))
  {
    var p := s.cpus[c].sched.p;
    if tree.proc[p].state == RUNNABLE {
      WriteState(tree, s, DoDispatch(s, c), p, RUNNING);
    }
  }

  // ----- usertrap and yield -----

  method Charge(tree: RBTree, ghost s: State, p: nat)
    requires Glued(tree, s) && WellIndexed(s) && CanCharge(s, p)
    modifies tree.proc
    ensures Glued(tree, DoCharge(s, p))
  {
    var r := tree.proc[p];
    Write(tree, p, r.state, r.virtualRuntime, r.currentRuntime + 1, r.niceVal);
  }

  /** checkPreemption on the records. Whatever minimum it is given, even one that is out of date, it returns what a
      yield of the machine may carry; given the cached minimum as it is, it returns what CheckPreemption says. */
  method Preempts(tree: RBTree, ghost s: State, current: nat, minvRuntime: Ptr) returns (preempt: bool)
    requires Glued(tree, s) && WellIndexed(s) && current < |s.tasks|
    requires minvRuntime == NULL || 0 <= minvRuntime < tree.proc.Length
    ensures MayReturn(s.tasks[current], preempt)
    ensures minvRuntime == tree.minvRuntime ==> preempt == CheckPreemption(s, current)
  {
    MinIsFirst(tree.shape);
    var procRuntime := tree.proc[current].currentRuntime;
    if procRuntime >= tree.proc[current].maxExecutionTime && procRuntime >= MIN_GRANULARITY {
      return true;
    }
    if minvRuntime != NULL && tree.proc[minvRuntime].state == RUNNABLE
       && tree.proc[current].virtualRuntime > tree.proc[minvRuntime].virtualRuntime {
      if procRuntime != 0 && procRuntime >= MIN_GRANULARITY {
        return true;
      } else if procRuntime == 0 {
        return true;
      }
    }
    return false;
  }

  /** yield, once checkPreemption has returned. */
  method Yielded(tree: RBTree, ghost s: State, p: nat, preempt: bool)
    requires Glued(tree, s) && WellIndexed(s) && CanYield(s, p) && !Queued(s.rq.entries, p)
    modifies tree, tree.proc
    ensures Glued(tree, DoYield(s, p, preempt))
  {
    ghost var t := s.tasks[p];
    if preempt {
      ghost var s1 := WithTask(s, p, t.(lock := t.cpu, stage := Yielding));
      GluedSame(tree, s, s1);
      Requeue(tree, s1, p);
    } else {
      GluedSame(tree, s, DoYield(s, p, preempt));
    }
  }

  /** yield as it stands, with whatever value of minvRuntime it has read: the machine has a step that does the same.
      If the value is not out of date, p is preempted exactly if it has used up its slice and the minimum granularity,
      or if somebody in the tree is behind it in virtual runtime and it has run for the granularity or not at all. */
  method YieldReading(tree: RBTree, ghost s: State, p: nat, minvRuntime: Ptr) returns (preempt: bool)
    requires Glued(tree, s) && Core(s) && WellIndexed(s) && CanYield(s, p)
    requires minvRuntime == NULL || 0 <= minvRuntime < tree.proc.Length
    modifies tree, tree.proc
    ensures CanRun(s, p, RunStep.Yield(preempt)) && Glued(tree, DoYield(s, p, preempt))
    ensures minvRuntime == old(tree.minvRuntime) ==>
      var t := s.tasks[p];
      (preempt <==>
        || (t.currentRuntime >= t.maxExecutionTime && t.currentRuntime >= 2)
        || (CoreSteps.SomeoneBehind(s, p) && (t.currentRuntime == 0 || t.currentRuntime >= 2)))
  {
    Unqueued(s, p);
    CoreSteps.PreemptionRule(s, p);
    preempt := Preempts(tree, s, p, minvRuntime);
    Yielded(tree, s, p, preempt);
  }

  method NiceSet(tree: RBTree, ghost s: State, p: nat, nice: int)
    requires Glued(tree, s) && WellIndexed(s) && CanSetNice(s, p)
    modifies tree.proc
    ensures Glued(tree, DoSetNice(s, p, nice))
  {
    if nice < 0 || nice > 39 {
      return;
    }
    var r := tree.proc[p];
    Write(tree, p, r.state, r.virtualRuntime, r.currentRuntime, nice);
  }

  // ----- fork -----

  method Allocated(tree: RBTree, ghost s: State, p: nat, np: nat)
    requires Glued(tree, s) && WellIndexed(s) && CanForkAlloc(s, p, np) && !Queued(s.rq.entries, np)
    modifies tree.proc
    ensures Glued(tree, DoForkAlloc(s, p, np))
  {
    NotLinked(tree, s, np);
    tree.AllocProc(np);
  }

  method Inserted(tree: RBTree, ghost s: State, p: nat, np: nat)
    requires Glued(tree, s) && WellIndexed(s) && CanForkInsert(s, p) && np == s.tasks[p].op.np
    requires !Queued(s.rq.entries, np)
    modifies tree, tree.proc
    ensures Glued(tree, DoForkInsert(s, p))
  {
    NotLinked(tree, s, np);
    assert !tree.IsFull() by { Pigeonhole(s.rq.entries, s.rq.nproc); }
    tree.InsertProcess(np);
  }

  // ----- wakeup -----

  /** One slot of wakeup(chan). */
  method Wake(tree: RBTree, s: State, q: nat, chan: Chan)
    requires Glued(tree, s) && q < |s.tasks| && (s.tasks[q].state == SLEEPING ==> !Queued(s.rq.entries, q))
    modifies tree, tree.proc
    ensures Glued(tree, Woken(s, q, chan))
  {
    if tree.proc[q].state == SLEEPING && s.tasks[q].chan == chan {
      Requeue(tree, s, q);
    }
  }

  // ----- every step of the machine, on the tree -----

  method SchedOn(tree: RBTree, s: State, c: nat, a: SchedStep)
    requires Glued(tree, s) && WellIndexed(s) && CanSched(s, c, a)
    modifies tree, tree.proc
    ensures Glued(tree, DoSched(s, c, a))
  {
    match a {
      case Retrieve => Retrieve(tree, s, c);
      case Dispatch => Dispatch(tree, s, c);
      case Finish => GluedSame(tree, s, DoFinish(s, c));
    }
  }

  method RunOn(tree: RBTree, s: State, p: nat, a: RunStep)
    requires Glued(tree, s) && Core(s) && WellIndexed(s) && CanRun(s, p, a)
    modifies tree, tree.proc
    ensures Glued(tree, DoRun(s, p, a))
  {
    Unqueued(s, p);
    match a {
      case Release => GluedSame(tree, s, DoRelease(s, p));
      case Charge => Charge(tree, s, p);
      case Yield(preempt) => Yielded(tree, s, p, preempt);
      case YieldSwtch => GluedSame(tree, s, DoYieldSwtch(s, p));
      case SetNice(nice) => NiceSet(tree, s, p, nice);
    }
  }

  method ForkOn(tree: RBTree, s: State, p: nat, a: ForkStep)
    requires Glued(tree, s) && Core(s) && WellIndexed(s) && CanFork(s, p, a)
    modifies tree, tree.proc
    ensures Glued(tree, DoFork(s, p, a))
  {
    match a {
      case ForkAlloc(np) =>
        Unqueued(s, np);
        Allocated(tree, s, p, np);
      case ForkParent => GluedSame(tree, s, DoForkParent(s, p));
      case ForkReady =>
        CoreSteps.ForkedSlot(s, p);
        WriteState(tree, s, DoForkReady(s, p), s.tasks[p].op.np, RUNNABLE);
      case ForkInsert =>
        CoreSteps.ForkedSlot(s, p);
        Unqueued(s, s.tasks[p].op.np);
        Inserted(tree, s, p, s.tasks[p].op.np);
    }
  }

  method LookedAt(tree: RBTree, s: State, p: nat, copyFails: bool)
    requires Glued(tree, s) && WellIndexed(s) && CanWaitLook(s, p)
    modifies tree.proc
    ensures Glued(tree, DoWaitLook(s, p, copyFails))
  {
    var i := s.tasks[p].op.i;
    if s.tasks[i].parent == p && tree.proc[i].state == ZOMBIE && !copyFails {
      WriteState(tree, s, DoWaitLook(s, p, copyFails), i, UNUSED);
    } else {
      GluedSame(tree, s, DoWaitLook(s, p, copyFails));
    }
  }

  lemma SleepNoData(s: State, p: nat, a: SleepStep)
    requires WellIndexed(s) && CanSleep(s, p, a) && !a.WaitLook? && !a.SleepSwtch?
    ensures NoData(s, DoSleep(s, p, a))
  {
  }

  method SleepOn(tree: RBTree, s: State, p: nat, a: SleepStep)
    requires Glued(tree, s) && WellIndexed(s) && CanSleep(s, p, a)
    modifies tree, tree.proc
    ensures Glued(tree, DoSleep(s, p, a))
  {
    match a {
      case WaitLook(copyFails) => LookedAt(tree, s, p, copyFails);
      case SleepSwtch => WriteState(tree, s, DoSleepSwtch(s, p), p, SLEEPING);
      case _ =>
        SleepNoData(s, p, a);
        GluedSame(tree, s, DoSleep(s, p, a));
    }
  }

  lemma ExitNoData(s: State, p: nat, a: ExitStep)
    requires WellIndexed(s) && CanExit(s, p, a) && !a.ExitWake? && !a.ExitMark?
    ensures NoData(s, DoExit(s, p, a))
  {
  }

  method ExitWoke(tree: RBTree, s: State, p: nat)
    requires Glued(tree, s) && Core(s) && WellIndexed(s) && CanExitWake(s, p)
    modifies tree, tree.proc
    ensures Glued(tree, DoExitWake(s, p))
  {
    var op := s.tasks[p].op;
    if op.k >= |s.tasks| {
      CoreSteps.WakeDoneForm(s, p);
      GluedSame(tree, s, DoExitWake(s, p));
    } else {
      var next := if op.ExitWakeInit? then ExitWakeInit(op.j, op.k + 1) else ExitWakeParent(op.k + 1);
      var target := if op.ExitWakeInit? then s.initproc else s.tasks[p].parent;
      CoreSteps.WakeRoundForm(s, p, next, target);
      Unqueued(s, op.k);
      var s1 := WithOp(s, p, next);
      GluedSame(tree, s, s1);
      if op.k != p && target >= 0 {
        Wake(tree, s1, op.k, Children(target));
      }
    }
  }

  method ExitOn(tree: RBTree, s: State, p: nat, a: ExitStep)
    requires Glued(tree, s) && Core(s) && WellIndexed(s) && CanExit(s, p, a)
    modifies tree, tree.proc
    ensures Glued(tree, DoExit(s, p, a))
  {
    match a {
      case ExitWake => ExitWoke(tree, s, p);
      case ExitMark => WriteState(tree, s, DoExitMark(s, p), p, ZOMBIE);
      case _ =>
        ExitNoData(s, p, a);
        GluedSame(tree, s, DoExit(s, p, a));
    }
  }

  lemma TickNoData(s: State, p: nat, a: TickStep)
    requires WellIndexed(s) && CanTick(s, p, a)
    ensures NoData(s, DoTick(s, p, a))
  {
  }

  method OutsideOn(tree: RBTree, s: State, a: OtherStep)
    requires Glued(tree, s) && Core(s) && WellIndexed(s) && CanOutside(s, a)
    modifies tree, tree.proc
    ensures Glued(tree, DoOutside(s, a))
  {
    match a {
      case Kill(q) =>
        Unqueued(s, q);
        var s1 := WithTask(s, q, s.tasks[q].(killed := true));
        GluedSame(tree, s, s1);
        if tree.proc[q].state == SLEEPING {
          Requeue(tree, s1, q);
        }
      case WakeElsewhere(q) =>
        Unqueued(s, q);
        Wake(tree, s, q, s.tasks[q].chan);
      case ClockStep =>
        Unqueued(s, s.clock.k);
        Wake(tree, s, s.clock.k, Ticks);
        GluedSame(tree, Woken(s, s.clock.k, Ticks), DoClockStep(s));
      case _ => GluedSame(tree, s, DoOutside(s, a));
    }
  }

  /** Every step the machine can take from a sound state can be taken on the tree, with all conditions of the tree code
      met, and leaves the tree valid and in agreement with the machine. */
  method Step(tree: RBTree, s: State, a: Action)
    requires Glued(tree, s) && Core(s) && Can(s, a)
    modifies tree, tree.proc
    ensures Glued(tree, Do(s, a))
  {
    match a {
      case Sched(c, b) => SchedOn(tree, s, c, b);
      case Run(p, b) => RunOn(tree, s, p, b);
      case Fork(p, b) => ForkOn(tree, s, p, b);
      case Sleep(p, b) => SleepOn(tree, s, p, b);
      case Exit(p, b) => ExitOn(tree, s, p, b);
      case Tick(p, b) =>
        TickNoData(s, p, b);
        GluedSame(tree, s, DoTick(s, p, b));
      case Outside(b) => OutsideOn(tree, s, b);
    }
  }

  /** A whole run on the tree. */
  method Execute(tree: RBTree, s: State, run: seq<Action>)
    requires Glued(tree, s) && Safety.Inv(s) && Safety.Possible(s, run)
    modifies tree, tree.proc
    ensures Glued(tree, Safety.After(s, run))
    decreases |run|
  {
    if run != [] {
      Step(tree, s, run[0]);
      Safety.InvKept(s, run[0]);
      Execute(tree, Do(s, run[0]), run[1..]);
    }
  }

  const UNUSED_RECORD := Proc(UNUSED, 0, 0, 0, 0, 0, RED, NULL, NULL, NULL)

  /** procinit and userinit on a process table of zeros. */
  method Boot(proc: array<Proc>, ghost s: State) returns (tree: RBTree)
    requires proc.Length > 0 && forall p: nat :: p < proc.Length ==> proc[p] == UNUSED_RECORD
    requires Safety.Boot(s) && |s.tasks| == proc.Length
    modifies proc
    ensures fresh(tree) && tree.proc == proc && Glued(tree, s)
  {
    tree := new RBTree(proc);
    tree.AllocProc(0);
    Write(tree, 0, RUNNABLE, 0, 0, 0);
    tree.InsertProcess(0);
  }
}
