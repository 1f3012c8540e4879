/** One CPU and a fixed set of processes that only compute: what the scheduling policy guarantees them.
    Stated first for a small abstract machine, which the full machine is shown to refine. */
module Window {
  import opened Procs
  import opened Queue
  import opened Machine
  import opened CoreInvariant
  import Weights
  import CoreSteps
  import opened Safety

  // ----- the abstract machine -----

  /** The process outside the tree: chosen, or running with cr of its cap used up. */
  datatype Out = NoOne | Chosen(p: nat, vr: int, cap: int) | Current(p: nat, vr: int, cr: int, cap: int)

  datatype Win = Win(q: seq<Entry>, out: Out)

  datatype Event = Quiet | Picks(cap: int, w: int) | Goes | Charged | Requeues(w: int)

  ghost predicate WinStep(w: Win, e: Event, w': Win) {
    match e
    case Quiet => w' == w
    case Picks(cap, _) =>
      w.out == NoOne && w.q != [] && w' == Win(w.q[1..], Chosen(w.q[0].id, w.q[0].key, cap))
    case Goes => w.out.Chosen? && w' == w.(out := Current(w.out.p, w.out.vr, 0, w.out.cap))
    case Charged =>
      w.out.Current? && w.out.cr < w.out.cap && w' == w.(out := Current(w.out.p, w.out.vr, w.out.cr + 1, w.out.cap))
    case Requeues(weight) =>
      && w.out.Current? && w.out.cr == w.out.cap
      && w' == Win(StableInsert(w.q, Entry(w.out.p, w.out.vr + w.out.cap, weight)), NoOne)
  }

  /** The queue is sorted, and the process outside it has the smallest virtual runtime of all. */
  ghost predicate WinSound(w: Win, m: int) {
    && Sorted(w.q) && Distinct(w.q) && (w.out != NoOne ==> !Queued(w.q, w.out.p))
    && (w.out != NoOne ==> MIN_GRANULARITY <= w.out.cap <= m && forall i :: 0 <= i < |w.q| ==> w.out.vr <= w.q[i].key)
    && (w.out.Current? ==> 0 <= w.out.cr <= w.out.cap)
  }

  lemma WinSoundKept(w: Win, e: Event, w': Win, m: int)
    requires WinSound(w, m) && WinStep(w, e, w') && (e.Picks? ==> MIN_GRANULARITY <= e.cap <= m)
    ensures WinSound(w', m)
  {
    if e.Requeues? {
      InsertSorted(w.q, Entry(w.out.p, w.out.vr + w.out.cap, e.w));
      InsertDistinct(w.q, Entry(w.out.p, w.out.vr + w.out.cap, e.w));
    }
  }

  // ----- fairness: the spread of accumulated runtimes -----

  /** No two queued virtual runtimes are further apart than g. */
  ghost predicate Gaps(q: seq<Entry>, g: int) {
    forall i, j :: 0 <= i < |q| && 0 <= j < |q| ==> q[i].key - q[j].key <= g
  }

  /** No two accumulated runtimes, inside or outside the queue, are further apart than g. */
  ghost predicate Spread(w: Win, g: int) {
    && Gaps(w.q, g)
    && (w.out != NoOne ==> forall i :: 0 <= i < |w.q| ==> w.q[i].key - w.out.vr <= g)
  }

  lemma SpreadKept(w: Win, e: Event, w': Win, m: int, g: int)
    requires WinSound(w, m) && WinStep(w, e, w') && Spread(w, g) && m <= g
    ensures Spread(w', g)
  {
    if e.Requeues? {
      var x := Entry(w.out.p, w.out.vr + w.out.cap, e.w);
      InsertMembers(w.q, x);
      forall i, j | 0 <= i < |w'.q| && 0 <= j < |w'.q| ensures w'.q[i].key - w'.q[j].key <= g {
        assert w'.q[i] in w'.q && w'.q[j] in w'.q;
      }
    }
  }

  // ----- bounded waiting -----

  /** How many more charges can go to a queued process with key x before one with key v has its turn: none if x is
      larger, for then it is not dispatched; otherwise what it lacks to v, and one last slice. */
  function Slack(x: int, v: int, m: nat): nat {
    if x <= v then v - x + m else 0
  }

  /** The sum over all queued processes but id. */
  function QueueSlack(q: seq<Entry>, id: nat, v: int, m: nat): nat {
    if q == [] then 0 else (if q[0].id == id then 0 else Slack(q[0].key, v, m)) + QueueSlack(q[1..], id, v, m)
  }

  function OutSlack(out: Out, v: int, m: nat): int {
    match out
    case NoOne => 0
    case Chosen(_, vr, _) => v - vr + m
    case Current(_, vr, cr, _) => v - vr - cr + m
  }

  function TotalSlack(w: Win, id: nat, v: int, m: nat): int {
    QueueSlack(w.q, id, v, m) + OutSlack(w.out, v, m)
  }

  lemma {:induction false} SlackAdds(a: seq<Entry>, b: seq<Entry>, id: nat, v: int, m: nat)
    ensures QueueSlack(a + b, id, v, m) == QueueSlack(a, id, v, m) + QueueSlack(b, id, v, m)
  {
    if a == [] {
      assert a + b == b;
    } else {
      assert (a + b)[1..] == a[1..] + b;
      SlackAdds(a[1..], b, id, v, m);
    }
  }

  lemma InsertSlack(q: seq<Entry>, e: Entry, id: nat, v: int, m: nat)
    requires e.id != id
    ensures QueueSlack(StableInsert(q, e), id, v, m) == QueueSlack(q, id, v, m) + Slack(e.key, v, m)
  {
    var i := InsertSplits(q, e);
    assert q == q[..i] + q[i..];
    SlackAdds(q[..i], q[i..], id, v, m);
    SlackAdds(q[..i] + [e], q[i..], id, v, m);
    SlackAdds(q[..i], [e], id, v, m);
    assert QueueSlack([e], id, v, m) == Slack(e.key, v, m);
  }

  ghost predicate Waits(q: seq<Entry>, id: nat, v: int) {
    exists i :: 0 <= i < |q| && q[i].id == id && q[i].key == v
  }

  /** While process id with key v waits, there is slack left for whoever is outside the queue, every charge uses up
      slack, and nothing creates any. */
  lemma SlackFalls(w: Win, e: Event, w': Win, id: nat, v: int, m: nat)
    requires WinSound(w, m) && WinStep(w, e, w') && Waits(w.q, id, v) && Waits(w'.q, id, v)
    ensures TotalSlack(w', id, v, m) + (if e == Charged then 1 else 0) <= TotalSlack(w, id, v, m)
    ensures OutSlack(w.out, v, m) >= 0
  {
    var i :| 0 <= i < |w.q| && w.q[i].id == id && w.q[i].key == v;
    if e.Requeues? {
      InsertSlack(w.q, Entry(w.out.p, w.out.vr + w.out.cap, e.w), id, v, m);
    }
  }

  /** How often process p can still be dispatched before one with key v has its turn. */
  function Turns(x: int, v: int): nat {
    if x <= v then (v - x) / MIN_GRANULARITY + 1 else 0
  }

  ghost predicate TurnsLeft(w: Win, p: nat, v: int, n: nat) {
    && (forall i :: 0 <= i < |w.q| && w.q[i].id == p ==> Turns(w.q[i].key, v) <= n)
    && (w.out.Chosen? && w.out.p == p ==> Turns(w.out.vr, v) <= n)
    && (w.out.Current? && w.out.p == p ==> Turns(w.out.vr, v) <= n + 1)
  }

  /** While a process with key v waits, every dispatch of p uses up one of its turns. */
  lemma TurnsFall(w: Win, e: Event, w': Win, id: nat, p: nat, v: int, m: int, n: nat)
    requires WinSound(w, m) && WinStep(w, e, w') && Waits(w.q, id, v) && TurnsLeft(w, p, v, n)
    ensures e == Goes && w.out.p == p ==> n > 0 && TurnsLeft(w', p, v, n - 1)
    ensures !(e == Goes && w.out.p == p) ==> TurnsLeft(w', p, v, n)
  {
    if e.Requeues? {
      var x := Entry(w.out.p, w.out.vr + w.out.cap, e.w);
      InsertMembers(w.q, x);
      forall i | 0 <= i < |w'.q| && w'.q[i].id == p ensures Turns(w'.q[i].key, v) <= n {
        assert w'.q[i] in w'.q;
      }
    }
  }

  // ----- the full machine in a window -----

  /** Nothing the policy looks at changes: neither the tree, nor what the CPUs do, nor the state or the times of
      any process. */
  ghost predicate Calm(s: State, s': State) {
    && |s'.tasks| == |s.tasks| && s'.rq == s.rq && s'.cpus == s.cpus
    && forall p: nat {:trigger s'.tasks[p]} :: p < |s.tasks| ==>
        var t, t' := s.tasks[p], s'.tasks[p];
        && t'.state == t.state && t'.virtualRuntime == t.virtualRuntime
        && t'.currentRuntime == t.currentRuntime && t'.maxExecutionTime == t.maxExecutionTime
  }

  /** Scheduler steps, charges, yields and nice changes, and all calm steps of processes and interrupt handlers:
      nobody blocks, wakes, is created or ends. With one CPU, and interrupts off in yield, the minimum is read as it
      is. */
  ghost predicate WindowAction(s: State, a: Action)
    requires Can(s, a)
  {
    match a
    case Sched(_, _) => true
    case Run(p, Yield(preempt)) => preempt == CheckPreemption(s, p)
    case Run(_, _) => true
    case _ => Calm(s, Do(s, a))
  }

  ghost predicate InWindow(s: State, run: seq<Action>)
    requires Possible(s, run)
    decreases |run|
  {
    run != [] ==> WindowAction(s, run[0]) && InWindow(Do(s, run[0]), run[1..])
  }

  /** An interrupt that wakes nobody is calm: the clock may tick all through a window. */
  lemma InterruptsAreCalm(s: State, b: OtherStep)
    requires Can(s, Outside(b)) && forall q: nat :: q < |s.tasks| ==> !Inserts(s, Outside(b), q)
    ensures WindowAction(s, Outside(b))
  {
    match b
    case Kill(q) => assert !Inserts(s, Outside(b), q);
    case WakeElsewhere(q) => assert !Inserts(s, Outside(b), q);
    case ClockStep => assert !Inserts(s, Outside(b), s.clock.k);
    case _ =>
  }

  ghost function Abstract(s: State): Win
    requires |s.cpus| == 1
  {
    Win(s.rq.entries,
        match s.cpus[0].sched
        case Hand(p) => if p < |s.tasks| then Chosen(p, s.tasks[p].virtualRuntime, Cap(s.tasks[p])) else NoOne
        case Away(p) =>
          if p < |s.tasks| && s.tasks[p].state == RUNNING then
            Current(p, s.tasks[p].virtualRuntime, s.tasks[p].currentRuntime, Cap(s.tasks[p]))
          else NoOne
        case _ => NoOne)
  }

  ghost predicate WinOk(s: State) {
    && Inv(s) && |s.cpus| == 1 && WinSound(Abstract(s), MaxPeriod(|s.tasks|))
    && Control(s)
  }

  /** The process the CPU is switched to is running or has just queued itself. */
  ghost predicate Control(s: State)
    requires |s.cpus| == 1
  {
    match s.cpus[0].sched
    case Away(p) => p < |s.tasks| && (s.tasks[p].state == RUNNING || s.tasks[p].state == RUNNABLE)
    case Back(p) => p < |s.tasks| && s.tasks[p].state == RUNNABLE
    case _ => true
  }

  ghost function EventOf(s: State, a: Action): Event
    requires Can(s, a)
  {
    match a
    case Sched(c, Retrieve) =>
      if s.rq.entries == [] then Quiet
      else
        var p := s.rq.entries[0].id;
        Picks(Cap(s.tasks[p].(maxExecutionTime := Slice(s.rq))), 0)
    case Sched(c, Dispatch) => Goes
    case Run(p, Charge) => Charged
    case Run(p, Yield(preempt)) => YieldEvent(s, p, preempt)
    case _ => Quiet
  }

  ghost function YieldEvent(s: State, p: nat, preempt: bool): Event
    requires p < |s.tasks|
  {
    if preempt then Requeues(Weights.Weight(s.tasks[p].niceVal)) else Quiet
  }

  /** With one CPU, the process that takes a step is the one the CPU is switched to. */
  lemma OnlyRunner(s: State, p: nat)
    requires Locks(s) && |s.cpus| == 1 && p < |s.tasks| && s.tasks[p].stage != Suspended
    ensures s.cpus[0].sched == Away(p) && s.tasks[p].cpu == 0
  {
    assert LockOk(s, p);
  }

  /** Where the running process has the smallest virtual runtime, yield preempts exactly when the slice, or the minimum
      granularity, is used up. */
  lemma YieldPreempts(s: State, p: nat)
    requires WinOk(s) && WellIndexed(s) && CanYield(s, p)
    ensures CheckPreemption(s, p) <==> s.tasks[p].currentRuntime == Cap(s.tasks[p])
    ensures CheckPreemption(s, p) ==>
      DoYield(s, p, true).tasks[p].virtualRuntime == s.tasks[p].virtualRuntime + Cap(s.tasks[p])
  {
    OnlyRunner(s, p);
    assert StateOk(s.tasks[p], p) && TimeOk(s.tasks[p], |s.tasks|);
    if s.rq.entries != [] {
      assert s.tasks[s.rq.entries[0].id].virtualRuntime == s.rq.entries[0].key;
      assert Abstract(s).out.vr <= Abstract(s).q[0].key;
    }
  }

  // Each kind of step, from the facts about its process alone.

  lemma RetrieveShape(s: State, c: nat)
    requires |s.cpus| == 1 && WellIndexed(s) && CanRetrieve(s, c)
    requires s.rq.entries != [] ==>
      && s.tasks[s.rq.entries[0].id].state == RUNNABLE
      && s.tasks[s.rq.entries[0].id].virtualRuntime == s.rq.entries[0].key
    ensures WinStep(Abstract(s), EventOf(s, Sched(c, Retrieve)), Abstract(DoRetrieve(s, c)))
    ensures Control(DoRetrieve(s, c))
  {
  }

  lemma DispatchShape(s: State, c: nat)
    requires |s.cpus| == 1 && WellIndexed(s) && CanDispatch(s, c)
    requires s.tasks[s.cpus[c].sched.p].state == RUNNABLE && s.tasks[s.cpus[c].sched.p].currentRuntime == 0
    ensures WinStep(Abstract(s), Goes, Abstract(DoDispatch(s, c))) && Control(DoDispatch(s, c))
  {
  }

  lemma FinishShape(s: State, c: nat)
    requires |s.cpus| == 1 && WellIndexed(s) && CanFinish(s, c)
    ensures WinStep(Abstract(s), Quiet, Abstract(DoFinish(s, c))) && Control(DoFinish(s, c))
  {
  }

  lemma YieldShape(s: State, p: nat, preempt: bool)
    requires |s.cpus| == 1 && WellIndexed(s) && CanYield(s, p) && s.cpus[0].sched == Away(p)
    requires s.tasks[p].state == RUNNING && s.rq.count < s.rq.nproc
    requires preempt <==> s.tasks[p].currentRuntime == Cap(s.tasks[p])
    ensures WinStep(Abstract(s), YieldEvent(s, p, preempt), Abstract(DoYield(s, p, preempt)))
    ensures Control(DoYield(s, p, preempt))
  {
  }

  lemma ReleaseShape(s: State, p: nat)
    requires |s.cpus| == 1 && WellIndexed(s) && CanRelease(s, p)
    requires s.cpus[0].sched == Away(p) && s.tasks[p].state == RUNNING
    ensures WinStep(Abstract(s), Quiet, Abstract(DoRelease(s, p))) && Control(DoRelease(s, p))
  {
  }

  lemma ChargeShape(s: State, p: nat)
    requires |s.cpus| == 1 && WellIndexed(s) && CanCharge(s, p) && s.cpus[0].sched == Away(p)
    requires s.tasks[p].currentRuntime < Cap(s.tasks[p])
    ensures WinStep(Abstract(s), Charged, Abstract(DoCharge(s, p))) && Control(DoCharge(s, p))
  {
  }

  lemma SwtchShape(s: State, p: nat)
    requires |s.cpus| == 1 && WellIndexed(s) && CanYieldSwtch(s, p) && s.cpus[0].sched == Away(p)
    requires s.tasks[p].cpu == 0 && s.tasks[p].state == RUNNABLE
    ensures WinStep(Abstract(s), Quiet, Abstract(DoYieldSwtch(s, p))) && Control(DoYieldSwtch(s, p))
  {
  }

  lemma SetNiceShape(s: State, p: nat, nice: int)
    requires |s.cpus| == 1 && WellIndexed(s) && CanSetNice(s, p)
    requires s.cpus[0].sched == Away(p) && s.tasks[p].state == RUNNING
    ensures WinStep(Abstract(s), Quiet, Abstract(DoSetNice(s, p, nice))) && Control(DoSetNice(s, p, nice))
  {
  }

  /** The facts the shapes need, from the invariants. */
  lemma RunnerFacts(s: State, p: nat)
    requires WinOk(s) && p < |s.tasks| && s.tasks[p].stage != Suspended
    ensures s.cpus[0].sched == Away(p) && s.tasks[p].cpu == 0
    ensures s.tasks[p].stage == Yielding ==> s.tasks[p].state == RUNNABLE
    ensures s.tasks[p].stage != Yielding ==> s.tasks[p].state == RUNNING && s.rq.count < s.rq.nproc
    ensures s.tasks[p].stage == Live ==> s.tasks[p].currentRuntime < Cap(s.tasks[p])
  {
    OnlyRunner(s, p);
    assert StateOk(s.tasks[p], p) && TimeOk(s.tasks[p], |s.tasks|) && PlaceOk(s, p);
    Pigeonhole(s.rq.entries, s.rq.nproc);
  }

  /** The events of a window step, and where they leave the CPU. */
  ghost predicate StepRefines(s: State, e: Event, s': State)
    requires |s.cpus| == 1
  {
    && |s'.cpus| == 1 && WinStep(Abstract(s), e, Abstract(s')) && Control(s')
    && (e.Picks? ==> MIN_GRANULARITY <= e.cap <= MaxPeriod(|s.tasks|))
  }

  lemma SchedRefines(s: State, c: nat, a: SchedStep)
    requires WinOk(s) && WellIndexed(s) && CanSched(s, c, a)
    ensures StepRefines(s, EventOf(s, Sched(c, a)), DoSched(s, c, a))
  {
    match a
    case Retrieve =>
      if s.rq.entries != [] {
        CoreSteps.HeadRunnable(s);
        DequeueSound(s.rq);
      }
      RetrieveShape(s, c);
    case Dispatch =>
      CoreSteps.HandRunnable(s, c);
      assert TimeOk(s.tasks[s.cpus[c].sched.p], |s.tasks|);
      DispatchShape(s, c);
    case Finish => FinishShape(s, c);
  }

  lemma RunRefines(s: State, p: nat, a: RunStep)
    requires WinOk(s) && WellIndexed(s) && CanRun(s, p, a) && (a.Yield? ==> a.preempt == CheckPreemption(s, p))
    ensures StepRefines(s, EventOf(s, Run(p, a)), DoRun(s, p, a))
  {
    RunnerFacts(s, p);
    match a
    case Release => ReleaseShape(s, p);
    case Charge => ChargeShape(s, p);
    case Yield(preempt) =>
      YieldPreempts(s, p);
      YieldShape(s, p, preempt);
    case YieldSwtch => SwtchShape(s, p);
    case SetNice(nice) => SetNiceShape(s, p, nice);
  }

  lemma CalmRefines(s: State, s': State)
    requires |s.cpus| == 1 && Control(s) && Calm(s, s')
    ensures StepRefines(s, Quiet, s')
  {
    assert s.cpus[0].sched.Away? && s.cpus[0].sched.p < |s.tasks| ==>
        s'.tasks[s.cpus[0].sched.p].state == s.tasks[s.cpus[0].sched.p].state;
    assert s.cpus[0].sched.Back? && s.cpus[0].sched.p < |s.tasks| ==>
        s'.tasks[s.cpus[0].sched.p].state == s.tasks[s.cpus[0].sched.p].state;
    assert s.cpus[0].sched.Hand? && s.cpus[0].sched.p < |s.tasks| ==>
        s'.tasks[s.cpus[0].sched.p].state == s.tasks[s.cpus[0].sched.p].state;
  }

  /** Every window action of the full machine is a step of the abstract one. */
  lemma Refines(s: State, a: Action)
    requires WinOk(s) && Can(s, a) && WindowAction(s, a)
    ensures StepRefines(s, EventOf(s, a), Do(s, a))
  {
    match a
    case Sched(c, b) => SchedRefines(s, c, b);
    case Run(p, b) => RunRefines(s, p, b);
    case _ => CalmRefines(s, Do(s, a));
  }

  lemma WinOkKept(s: State, a: Action)
    requires WinOk(s) && Can(s, a) && WindowAction(s, a)
    ensures WinOk(Do(s, a))
  {
    InvKept(s, a);
    Refines(s, a);
    WinSoundKept(Abstract(s), EventOf(s, a), Abstract(Do(s, a)), MaxPeriod(|s.tasks|));
  }

  // ----- what a window guarantees, over runs of any length -----

  /** A window opens in any reachable state, at a scheduler pick. */
  ghost predicate Opens(s: State) {
    Reachable(s) && |s.cpus| == 1 && s.cpus[0].sched == Picking
  }

  function Runtime(t: Task): int {
    t.virtualRuntime + t.currentRuntime
  }

  ghost predicate Inside(w: Win, p: nat) {
    Queued(w.q, p) || (w.out != NoOne && w.out.p == p)
  }

  /** A window neither gains nor loses processes. */
  lemma InsideKept(w: Win, e: Event, w': Win, p: nat)
    requires WinStep(w, e, w') && Distinct(w.q) && Inside(w, p)
    ensures Inside(w', p)
  {
    if e.Picks? { CoreSteps.QueuedAfterRemoval(w.q, p); }
    if e.Requeues? { CoreSteps.QueuedAfterInsert(w.q, Entry(w.out.p, w.out.vr + w.out.cap, e.w), p); }
  }

  /** Throughout every window the invariants hold and the process outside the tree has the smallest virtual runtime. */
  lemma WindowSound(s: State, run: seq<Action>)
    requires Opens(s) && Possible(s, run) && InWindow(s, run)
    ensures WinOk(After(s, run))
  {
    ReachableSound(s);
    WinOkAlways(s, run);
  }

  lemma {:induction false} WinOkAlways(s: State, run: seq<Action>)
    requires WinOk(s) && Possible(s, run) && InWindow(s, run)
    ensures WinOk(After(s, run))
    decreases |run|
  {
    if run != [] {
      WinOkKept(s, run[0]);
      WinOkAlways(Do(s, run[0]), run[1..]);
    }
  }

  /** In a window yield preempts exactly when the slice, or the minimum granularity, is used up: then the process has
      run for exactly that long. The comparison of virtual runtimes never fires. */
  lemma PreemptsExactly(s: State, run: seq<Action>, p: nat)
    requires Opens(s) && Possible(s, run) && InWindow(s, run)
    requires WellIndexed(After(s, run)) && CanYield(After(s, run), p)
    ensures var s' := After(s, run);
      && (CheckPreemption(s', p) <==> s'.tasks[p].currentRuntime == Cap(s'.tasks[p]))
      && (CheckPreemption(s', p) ==>
            DoYield(s', p, true).tasks[p].virtualRuntime == s'.tasks[p].virtualRuntime + Cap(s'.tasks[p]))
  {
    WindowSound(s, run);
    YieldPreempts(After(s, run), p);
  }

  // ----- what one dispatch is charged -----

  /** p is running before and after every step of the run. */
  ghost predicate KeepsRunning(s: State, run: seq<Action>, p: nat)
    requires Possible(s, run)
    decreases |run|
  {
    && p < |s.tasks| && s.tasks[p].state == RUNNING
    && (run != [] ==> KeepsRunning(Do(s, run[0]), run[1..], p))
  }

  lemma RunningIsCurrent(s: State, p: nat)
    requires WinOk(s) && p < |s.tasks| && s.tasks[p].state == RUNNING
    ensures Abstract(s).out == Current(p, s.tasks[p].virtualRuntime, s.tasks[p].currentRuntime, Cap(s.tasks[p]))
  {
    assert StateOk(s.tasks[p], p);
    OnlyRunner(s, p);
  }

  lemma RunningStep(s: State, a: Action, p: nat)
    requires WinOk(s) && Can(s, a) && WindowAction(s, a)
    requires p < |s.tasks| && s.tasks[p].state == RUNNING && Do(s, a).tasks[p].state == RUNNING
    ensures var t, t' := s.tasks[p], Do(s, a).tasks[p];
      && WinOk(Do(s, a)) && t'.virtualRuntime == t.virtualRuntime && Cap(t') == Cap(t)
      && Do(s, a).rq.entries == s.rq.entries
      && t'.currentRuntime == t.currentRuntime + (if a == Run(p, Charge) then 1 else 0)
  {
    WinOkKept(s, a);
    Refines(s, a);
    RunningIsCurrent(s, p);
    RunningIsCurrent(Do(s, a), p);
    if a.Run? && a.run == Charge {
      OnlyRunner(s, a.p);
    }
  }

  lemma {:induction false} RunningCharges(s: State, run: seq<Action>, p: nat)
    requires WinOk(s) && Possible(s, run) && InWindow(s, run) && KeepsRunning(s, run, p)
    ensures var t, t' := s.tasks[p], After(s, run).tasks[p];
      && WinOk(After(s, run)) && t'.virtualRuntime == t.virtualRuntime && Cap(t') == Cap(t)
      && After(s, run).rq.entries == s.rq.entries
      && t'.currentRuntime == t.currentRuntime + Charges(run, p)
    decreases |run|
  {
    if run != [] {
      var s1 := Do(s, run[0]);
      RunningStep(s, run[0], p);
      RunningCharges(s1, run[1..], p);
    }
  }

  /** One turn of p: dispatched, running throughout `turn`, and preempted by the yield that follows. */
  ghost predicate FullTurn(s: State, p: nat, turn: seq<Action>) {
    && Can(s, Sched(0, Dispatch)) && s.cpus[0].sched == Hand(p)
    && var s1 := Do(s, Sched(0, Dispatch));
    && Possible(s1, turn) && InWindow(s1, turn) && KeepsRunning(s1, turn, p)
    && Can(After(s1, turn), Run(p, Yield(true))) && CheckPreemption(After(s1, turn), p)
  }

  ghost function AfterTurn(s: State, p: nat, turn: seq<Action>): State
    requires FullTurn(s, p, turn)
  {
    Do(After(Do(s, Sched(0, Dispatch)), turn), Run(p, Yield(true)))
  }

  lemma DispatchedFresh(s: State, p: nat)
    requires WinOk(s) && Can(s, Sched(0, Dispatch)) && s.cpus[0].sched == Hand(p)
    ensures var s1 := Do(s, Sched(0, Dispatch));
      && WinOk(s1) && p < |s.tasks| && s1.tasks[p].virtualRuntime == s.tasks[p].virtualRuntime
      && Cap(s1.tasks[p]) == Cap(s.tasks[p]) && s1.tasks[p].currentRuntime == 0
  {
    WinOkKept(s, Sched(0, Dispatch));
    CoreSteps.HandRunnable(s, 0);
    assert TimeOk(s.tasks[p], |s.tasks|);
  }

  lemma PreemptedSpent(s: State, p: nat)
    requires WinOk(s) && Can(s, Run(p, Yield(true))) && CheckPreemption(s, p)
    ensures var t, t' := s.tasks[p], Do(s, Run(p, Yield(true))).tasks[p];
      && t.currentRuntime == Cap(t) && t'.virtualRuntime == t.virtualRuntime + Cap(t) && t'.currentRuntime == 0
  {
    YieldPreempts(s, p);
  }

  lemma TurnCharged(s: State, p: nat, turn: seq<Action>)
    requires WinOk(s) && FullTurn(s, p, turn)
    ensures var t, t' := s.tasks[p], AfterTurn(s, p, turn).tasks[p];
      && Charges(turn, p) == Cap(t) && t'.virtualRuntime == t.virtualRuntime + Cap(t) && t'.currentRuntime == 0
  {
    var s1 := Do(s, Sched(0, Dispatch));
    DispatchedFresh(s, p);
    RunningCharges(s1, turn, p);
    PreemptedSpent(After(s1, turn), p);
  }

  /** Every turn in a window is charged exactly the slice, or the minimum granularity if that is longer: so many traps
      are charged between the dispatch of p and the yield that preempts it, and its virtual runtime grows by just
      that. */
  lemma TurnChargedExactly(s: State, run: seq<Action>, p: nat, turn: seq<Action>)
    requires Opens(s) && Possible(s, run) && InWindow(s, run) && FullTurn(After(s, run), p, turn)
    ensures var t, t' := After(s, run).tasks[p], AfterTurn(After(s, run), p, turn).tasks[p];
      && Charges(turn, p) == Cap(t) && t'.virtualRuntime == t.virtualRuntime + Cap(t) && t'.currentRuntime == 0
  {
    WindowSound(s, run);
    TurnCharged(After(s, run), p, turn);
  }

  // ----- how long slices can be -----

  function Larger(a: int, b: int): (r: int)
    ensures r >= a && r >= b && (r == a || r == b)
  {
    if a < b then b else a
  }

  /** The longest slice of a window that opens with run queue q: the period is stretched at most to the minimum
      granularity for each process. */
  ghost function LongestSlice(q: RunQueue): nat {
    Larger(MIN_GRANULARITY, Larger(q.period, MIN_GRANULARITY * |q.entries|))
  }

  /** It is never longer than the longest slice the process table allows. */
  lemma LongestSliceBounded(s: State)
    requires Opens(s)
    ensures LongestSlice(s.rq) <= MaxPeriod(|s.tasks|)
  {
    ReachableSound(s);
    Pigeonhole(s.rq.entries, s.rq.nproc);
  }

  /** No slice given or to be given in the window is longer than m. */
  ghost predicate Slices(s: State, m: nat)
    requires |s.cpus| == 1
  {
    && MIN_GRANULARITY <= m && s.rq.period <= m && (Abstract(s).out != NoOne ==> Abstract(s).out.cap <= m)
    && MIN_GRANULARITY * (|s.rq.entries| + (if Abstract(s).out == NoOne then 0 else 1)) <= m
  }

  lemma SlicesSound(s: State, m: nat)
    requires WinOk(s) && Slices(s, m)
    ensures WinSound(Abstract(s), m)
  {
  }

  /** A window changes neither the number of its processes nor, beyond m, the period. */
  lemma SlicesKept(s: State, a: Action, m: nat)
    requires WinOk(s) && Can(s, a) && WindowAction(s, a) && Slices(s, m)
    ensures WinOk(Do(s, a)) && Slices(Do(s, a), m)
  {
    WinOkKept(s, a);
    Refines(s, a);
    PeriodMoves(s, a);
    if EventOf(s, a).Picks? {
      DequeueSound(s.rq);
    }
  }

  lemma {:induction false} SlicesOverRun(s: State, run: seq<Action>, m: nat)
    requires WinOk(s) && Possible(s, run) && InWindow(s, run) && Slices(s, m)
    ensures WinOk(After(s, run)) && Slices(After(s, run), m)
    decreases |run|
  {
    if run != [] {
      SlicesKept(s, run[0], m);
      SlicesOverRun(Do(s, run[0]), run[1..], m);
    }
  }

  lemma OpeningSlices(s: State, m: nat)
    requires Opens(s) && LongestSlice(s.rq) <= m
    ensures WinOk(s) && Slices(s, m)
  {
    ReachableSound(s);
  }

  /** In a window no process is ever given a slice longer than the window's longest. */
  lemma SlicesBounded(s: State, run: seq<Action>)
    requires Opens(s) && Possible(s, run) && InWindow(s, run)
    ensures var s' := After(s, run);
      s'.cpus[0].sched.Hand? ==>
        && s'.cpus[0].sched.p < |s'.tasks|
        && s'.tasks[s'.cpus[0].sched.p].maxExecutionTime <= LongestSlice(s.rq)
  {
    OpeningSlices(s, LongestSlice(s.rq));
    SlicesOverRun(s, run, LongestSlice(s.rq));
    if After(s, run).cpus[0].sched.Hand? { CoreSteps.HandRunnable(After(s, run), 0); }
  }

  lemma WindowStep(s: State, a: Action, g: nat, p: nat, r: nat)
    requires WinOk(s) && Can(s, a) && WindowAction(s, a)
    requires Spread(Abstract(s), g) && Slices(s, g) && Inside(Abstract(s), p) && Inside(Abstract(s), r)
    ensures WinOk(Do(s, a)) && Spread(Abstract(Do(s, a)), g) && Slices(Do(s, a), g)
    ensures Inside(Abstract(Do(s, a)), p) && Inside(Abstract(Do(s, a)), r)
  {
    SlicesKept(s, a, g);
    Refines(s, a);
    var w, e, w' := Abstract(s), EventOf(s, a), Abstract(Do(s, a));
    SlicesSound(s, g);
    SpreadKept(w, e, w', g, g);
    InsideKept(w, e, w', p);
    InsideKept(w, e, w', r);
  }

  lemma {:induction false} WindowKeeps(s: State, run: seq<Action>, g: nat, p: nat, r: nat)
    requires WinOk(s) && Possible(s, run) && InWindow(s, run)
    requires Spread(Abstract(s), g) && Slices(s, g) && Inside(Abstract(s), p) && Inside(Abstract(s), r)
    ensures WinOk(After(s, run)) && Spread(Abstract(After(s, run)), g) && Slices(After(s, run), g)
    ensures Inside(Abstract(After(s, run)), p) && Inside(Abstract(After(s, run)), r)
    decreases |run|
  {
    if run != [] {
      var s1 := Do(s, run[0]);
      WindowStep(s, run[0], g, p, r);
      WindowKeeps(s1, run[1..], g, p, r);
    }
  }

  /** The runtime of a queued process is its key; the other processes of the window are Chosen or Current. */
  lemma RuntimeInside(s: State, p: nat)
    requires WinOk(s) && Inside(Abstract(s), p)
    ensures p < |s.tasks|
    ensures Queued(s.rq.entries, p) ==> Waits(s.rq.entries, p, Runtime(s.tasks[p]))
    ensures !Queued(s.rq.entries, p) ==> match Abstract(s).out
      case NoOne => false
      case Chosen(q, vr, _) => q == p && Runtime(s.tasks[p]) == vr
      case Current(q, vr, cr, _) => q == p && Runtime(s.tasks[p]) == vr + cr
  {
    if Queued(s.rq.entries, p) {
      var i :| 0 <= i < |s.rq.entries| && s.rq.entries[i].id == p;
      assert PlaceOk(s, p) && TimeOk(s.tasks[p], |s.tasks|);
      assert s.tasks[s.rq.entries[i].id].virtualRuntime == s.rq.entries[i].key;
    } else if s.cpus[0].sched.Hand? {
      CoreSteps.HandRunnable(s, 0);
      assert TimeOk(s.tasks[p], |s.tasks|);
    }
  }

  lemma GapInside(s: State, g: nat, p: nat, r: nat)
    requires WinOk(s) && Spread(Abstract(s), g) && Slices(s, g)
    requires Inside(Abstract(s), p) && Inside(Abstract(s), r)
    ensures p < |s.tasks| && r < |s.tasks| && Runtime(s.tasks[p]) - Runtime(s.tasks[r]) <= g
  {
    RuntimeInside(s, p);
    RuntimeInside(s, r);
  }

  /** Fairness: however long the window lasts, the runtimes of any two of its processes differ by no more than the
      largest initial gap or the longest slice of the window, whichever is greater. */
  lemma FairSpread(s: State, run: seq<Action>, gap: nat, p: nat, r: nat)
    requires Opens(s) && Possible(s, run) && InWindow(s, run)
    requires Gaps(s.rq.entries, gap)
    requires Queued(s.rq.entries, p) && Queued(s.rq.entries, r)
    ensures p < |s.tasks| && r < |s.tasks|
    ensures Runtime(After(s, run).tasks[p]) - Runtime(After(s, run).tasks[r])
            <= Larger(gap, LongestSlice(s.rq))
  {
    var g := Larger(gap, LongestSlice(s.rq));
    OpeningSlices(s, g);
    WindowKeeps(s, run, g, p, r);
    GapInside(After(s, run), g, p, r);
  }

  predicate IsCharge(a: Action) {
    a.Run? && a.run == Charge
  }

  function TotalCharges(run: seq<Action>): nat {
    if run == [] then 0 else (if IsCharge(run[0]) then 1 else 0) + TotalCharges(run[1..])
  }

  lemma QueuedWaits(s: State, q: nat)
    requires Inv(s) && Queued(s.rq.entries, q)
    ensures q < |s.tasks| && Waits(s.rq.entries, q, s.tasks[q].virtualRuntime)
  {
    var i :| 0 <= i < |s.rq.entries| && s.rq.entries[i].id == q;
    assert s.tasks[s.rq.entries[i].id].virtualRuntime == s.rq.entries[i].key;
  }

  /** One step of the window while q waits. */
  lemma WaitingStep(s: State, a: Action, q: nat)
    requires WinOk(s) && Can(s, a) && WindowAction(s, a) && Queued(s.rq.entries, q)
    ensures WinOk(Do(s, a)) && WinStep(Abstract(s), EventOf(s, a), Abstract(Do(s, a)))
    ensures q < |s.tasks| && Waits(Abstract(s).q, q, s.tasks[q].virtualRuntime)
    ensures Do(s, a).tasks[q].virtualRuntime == s.tasks[q].virtualRuntime
  {
    QueuedWaits(s, q);
    Refines(s, a);
    WinOkKept(s, a);
    assert PlaceOk(s, q);
    LedgerKept(s, a, q);
  }

  lemma SlackStep(s: State, a: Action, q: nat, m: nat)
    requires WinOk(s) && Can(s, a) && WindowAction(s, a) && Slices(s, m)
    requires Queued(s.rq.entries, q) && Queued(Do(s, a).rq.entries, q)
    ensures WinOk(Do(s, a)) && Slices(Do(s, a), m)
    ensures q < |s.tasks| && Do(s, a).tasks[q].virtualRuntime == s.tasks[q].virtualRuntime
    ensures var v := s.tasks[q].virtualRuntime;
      TotalSlack(Abstract(Do(s, a)), q, v, m) + (if IsCharge(a) then 1 else 0) <= TotalSlack(Abstract(s), q, v, m)
  {
    WaitingStep(s, a, q);
    QueuedWaits(Do(s, a), q);
    SlicesKept(s, a, m);
    SlicesSound(s, m);
    SlackFalls(Abstract(s), EventOf(s, a), Abstract(Do(s, a)), q, s.tasks[q].virtualRuntime, m);
  }

  lemma {:induction false} SlackOverRun(s: State, run: seq<Action>, q: nat, v: int, m: nat)
    requires WinOk(s) && Possible(s, run) && InWindow(s, run) && StaysQueued(s, run, q) && Slices(s, m)
    requires q < |s.tasks| && s.tasks[q].virtualRuntime == v
    ensures TotalCharges(run) <= TotalSlack(Abstract(s), q, v, m)
    decreases |run|
  {
    QueuedWaits(s, q);
    if run == [] {
      SlicesSound(s, m);
      SlackFalls(Abstract(s), Quiet, Abstract(s), q, v, m);
    } else {
      var s1 := Do(s, run[0]);
      SlackStep(s, run[0], q, m);
      SlackOverRun(s1, run[1..], q, v, m);
    }
  }

  /** Bounded waiting: before a queued process q with virtual runtime v has its turn, all processes together are
      charged at most the sum, over the other queued processes that are not behind v, of what each lacks to v plus
      one longest slice. */
  lemma BoundedWait(s: State, run: seq<Action>, q: nat)
    requires Opens(s) && Possible(s, run) && InWindow(s, run) && StaysQueued(s, run, q)
    ensures q < |s.tasks|
    ensures TotalCharges(run) <= QueueSlack(s.rq.entries, q, s.tasks[q].virtualRuntime, LongestSlice(s.rq))
  {
    OpeningSlices(s, LongestSlice(s.rq));
    QueuedWaits(s, q);
    SlackOverRun(s, run, q, s.tasks[q].virtualRuntime, LongestSlice(s.rq));
  }

  predicate IsDispatch(s: State, a: Action, p: nat) {
    a.Sched? && a.sched == Dispatch && a.c < |s.cpus| && s.cpus[a.c].sched == Hand(p)
  }

  lemma GoesIsDispatch(s: State, a: Action, p: nat)
    requires WinOk(s) && Can(s, a) && WindowAction(s, a)
    ensures IsDispatch(s, a, p) <==> EventOf(s, a) == Goes && Abstract(s).out.p == p
  {
    if EventOf(s, a) == Goes {
      CoreSteps.HandRunnable(s, 0);
    }
    if IsDispatch(s, a, p) {
      CoreSteps.HandRunnable(s, 0);
    }
  }

  /** How often p is dispatched in the run. */
  ghost function Dispatches(s: State, run: seq<Action>, p: nat): nat
    requires Possible(s, run)
    decreases |run|
  {
    if run == [] then 0 else
      (if IsDispatch(s, run[0], p) then 1 else 0) + Dispatches(Do(s, run[0]), run[1..], p)
  }

  lemma {:induction false} TurnsOverRun(s: State, run: seq<Action>, q: nat, v: int, p: nat, n: nat)
    requires WinOk(s) && Possible(s, run) && InWindow(s, run) && StaysQueued(s, run, q)
    requires q < |s.tasks| && s.tasks[q].virtualRuntime == v && TurnsLeft(Abstract(s), p, v, n)
    ensures Dispatches(s, run, p) <= n
    decreases |run|
  {
    if run != [] {
      var s1 := Do(s, run[0]);
      WaitingStep(s, run[0], q);
      TurnsFall(Abstract(s), EventOf(s, run[0]), Abstract(s1), q, p, v, MaxPeriod(|s.tasks|), n);
      GoesIsDispatch(s, run[0], p);
      TurnsOverRun(s1, run[1..], q, v, p, if IsDispatch(s, run[0], p) then n - 1 else n);
    }
  }

  /** Before a queued process q has its turn, another queued process p is dispatched at most
      (v - vr) / 2 + 1 times if its virtual runtime vr is at most q's v, and never otherwise. */
  lemma BoundedTurns(s: State, run: seq<Action>, q: nat, p: nat)
    requires Opens(s) && Possible(s, run) && InWindow(s, run) && StaysQueued(s, run, q) && Queued(s.rq.entries, p)
    ensures q < |s.tasks| && p < |s.tasks|
    ensures Dispatches(s, run, p) <= Turns(s.tasks[p].virtualRuntime, s.tasks[q].virtualRuntime)
  {
    ReachableSound(s);
    QueuedWaits(s, q);
    QueuedWaits(s, p);
    var v, n := s.tasks[q].virtualRuntime, Turns(s.tasks[p].virtualRuntime, s.tasks[q].virtualRuntime);
    TurnsOverRun(s, run, q, v, p, n);
  }
}
