/** The multi-CPU scheduler as a state machine. Each action is one atomic step of the kernel: the code from
    taking a spinlock to releasing it, or from one context switch to the next. The run queue is the one that
    RBTrees.RBTree implements. */
module Machine {
  import opened Procs
  import opened Queue
  import opened Weights

  /** What a process sleeps on. */
  datatype Chan = Nothing | Children(p: nat) | Ticks | Other(n: nat)

  /** What sleep() returns to: the loop of wait(), the loop of sys_sleep(), or some other caller.
      `seen` is the tick count at the last test of the sys_sleep loop. */
  datatype Cont = WaitLoop | TickLoop(n: nat, ticks0: nat, seen: nat) | Elsewhere(n: nat)

  /** How far the kernel thread of a process has got. */
  datatype Op =
    | User                               // in user code, or in kernel code that holds no lock
    | ForkAllocated(np: nat)             // fork: np is USED
    | ForkParented(np: nat)              // fork: np has its parent
    | ForkPending(np: nat)               // fork: np is RUNNABLE, insertProcess not yet called
    | WaitScan(i: nat, kids: bool)       // wait: wait_lock held, slots below i inspected
    | TickCheck(n: nat, ticks0: nat)     // sys_sleep: tickslock held, at the loop test
    | SleepHeld(cont: Cont)              // sleep: own lock and the caller's lock held
    | SleepReady(cont: Cont)             // sleep: own lock held, the caller's lock released
    | Asleep(cont: Cont)                 // sleep: switched away
    | Reacquire(cont: Cont)              // sleep: awake again, about to take the caller's lock
    | ExitReparent(j: nat)               // exit: wait_lock held, slots below j inspected
    | ExitWakeInit(j: nat, k: nat)       // exit: slot j given to init, wakeup(init) has passed slots below k
    | ExitWakeParent(k: nat)             // exit: wakeup(parent) has passed slots below k
    | ExitZombie                         // exit: ZOMBIE, own lock and wait_lock held
    | ExitDone                           // exit: wait_lock released, switching away for good

  datatype Stage =
    | Suspended                          // its context is saved
    | Resumed                            // switched to, still under the lock the scheduler took
    | Live                               // running
    | MustYield                          // charged for a trap, about to call yield
    | Yielding                           // in yield: back in the tree, still on its own stack, own lock held

  /** History: who keeps a process that is not running. No step depends on it. */
  datatype Place = Nowhere | InTree | InHand(c: nat) | Pending(r: nat) | Embryo(r: nat)

  datatype Task = Task(
    state: ProcState,
    chan: Chan,
    killed: bool,
    parent: Ptr,
    lock: Ptr,               // the CPU that holds p->lock, or NULL
    virtualRuntime: int,
    currentRuntime: int,
    maxExecutionTime: int,
    niceVal: int,
    weightVal: int,
    stage: Stage,
    cpu: nat,                // the CPU it runs on, unless Suspended
    op: Op,
    place: Place,            // history
    charges: nat,            // history: user traps charged since allocproc
    exits: nat,              // history
    reaps: nat)              // history

  /** Where the scheduler loop of a CPU is. */
  datatype Sched =
    | Picking                // about to call retrieveProcess
    | Hand(p: nat)           // p retrieved, p->lock not yet taken
    | Away(p: nat)           // switched to p
    | Back(p: nat)           // p has switched back, p->lock held

  datatype Cpu = Cpu(sched: Sched, proc: Ptr)

  datatype Holder = Free | ByTask(p: nat) | ByClock

  datatype Clock = ClockIdle | ClockWake(k: nat)

  datatype State = State(
    tasks: seq<Task>,
    cpus: seq<Cpu>,
    rq: RunQueue,
    waitLock: Holder,
    ticksLock: Holder,
    clock: Clock,
    ticks: nat,              // ticks since boot; the kernel's 32-bit counter is this modulo 2^32
    initproc: nat)

  datatype SchedStep = Retrieve | Dispatch | Finish

  /** A yield carries the outcome of checkPreemption, which reads the cached minimum without the lock of the tree. */
  datatype RunStep = Release | Charge | Yield(preempt: bool) | YieldSwtch | SetNice(nice: int)

  datatype ForkStep = ForkAlloc(np: nat) | ForkParent | ForkReady | ForkInsert

  datatype SleepStep =
    WaitStart | WaitLook(copyFails: bool) | WaitEnd | SleepRelease | SleepSwtch | Reacquired | SleepElsewhere(chan: nat)

  datatype ExitStep = ExitStart | ExitScan | ExitWake | ExitMark | ExitRelease | ExitSwtch

  datatype TickStep = TickStart(arg: int) | TickTest

  datatype OtherStep = Kill(q: nat) | WakeElsewhere(q: nat) | ClockTick | ClockStep | ClockEnd

  /** One atomic step: of the scheduler loop of CPU c, of process p, or of an interrupt handler or driver. */
  datatype Action =
    | Sched(c: nat, sched: SchedStep)
    | Run(p: nat, run: RunStep)
    | Fork(p: nat, fork: ForkStep)
    | Sleep(p: nat, sleep: SleepStep)
    | Exit(p: nat, exit: ExitStep)
    | Tick(p: nat, tick: TickStep)
    | Outside(other: OtherStep)

  // ----- pieces of the steps -----

  const UINT: nat := 0x1_0000_0000

  /** ticks - ticks0 in 32-bit unsigned arithmetic. */
  function Elapsed(ticks: nat, ticks0: nat): nat {
    (ticks % UINT - ticks0 % UINT) % UINT
  }

  function ChanOf(cont: Cont, p: nat): Chan {
    match cont
    case WaitLoop => Children(p)
    case TickLoop(_, _, _) => Ticks
    case Elsewhere(n) => Other(n)
  }

  /** Places where a timer interrupt can make a process yield: it holds no lock there. */
  predicate Interruptible(op: Op) {
    op.User? || op.ForkAllocated? || op.ForkParented? || op.ForkPending? || op.Reacquire?
  }

  function WithTask(s: State, p: nat, t: Task): State
    requires p < |s.tasks|
  {
    s.(tasks := s.tasks[p := t])
  }

  /** Marks p RUNNABLE, adds its current runtime to its virtual runtime and inserts it. */
  function Requeued(s: State, p: nat): State
    requires p < |s.tasks|
  {
    var t := s.tasks[p];
    var vr, w := t.virtualRuntime + t.currentRuntime, Weight(t.niceVal);
    WithTask(s, p, t.(state := RUNNABLE, virtualRuntime := vr, currentRuntime := 0, weightVal := w, place := InTree))
      .(rq := Enqueue(s.rq, Entry(p, vr, w)))
  }

  /** One round of the loop in wakeup(chan), for slot q. */
  function Woken(s: State, q: nat, chan: Chan): State
    requires q < |s.tasks|
  {
    if s.tasks[q].state == SLEEPING && s.tasks[q].chan == chan then Requeued(s, q) else s
  }

  function WithOp(s: State, p: nat, op: Op): State
    requires p < |s.tasks|
  {
    WithTask(s, p, s.tasks[p].(op := op))
  }

  predicate SliceSpent(t: Task) {
    t.currentRuntime >= t.maxExecutionTime && t.currentRuntime >= MIN_GRANULARITY
  }

  /** What checkPreemption can return for a process, whatever it reads of the minimum: a process that has spent its
      slice is preempted, and one that has run for less than the minimum granularity is not. */
  predicate MayReturn(t: Task, preempt: bool) {
    && (SliceSpent(t) ==> preempt)
    && (preempt ==> t.currentRuntime == 0 || t.currentRuntime >= MIN_GRANULARITY)
  }

  /** checkPreemption(p, procTree->minvRuntime), if the minimum is read as it is. */
  predicate CheckPreemption(s: State, p: nat)
    requires p < |s.tasks| && (s.rq.entries != [] ==> s.rq.entries[0].id < |s.tasks|)
  {
    var current := s.tasks[p];
    var runtime := current.currentRuntime;
    if SliceSpent(current) then true
    else if s.rq.entries != [] then
      var min := s.tasks[s.rq.entries[0].id];
      min.state == RUNNABLE && current.virtualRuntime > min.virtualRuntime
      && (if runtime != 0 && runtime >= MIN_GRANULARITY then true else runtime == 0)
    else false
  }

  /** Every index the steps follow is inside its table. */
  predicate WellIndexed(s: State) {
    && s.rq.nproc == |s.tasks|
    && s.initproc < |s.tasks|
    && (s.rq.entries != [] ==> s.rq.entries[0].id < |s.tasks| && s.rq.treeWeight != 0)
    && forall p :: 0 <= p < |s.tasks| ==> s.tasks[p].stage != Suspended ==> s.tasks[p].cpu < |s.cpus|
  }

  predicate Running(s: State, p: nat, stage: Stage) {
    p < |s.tasks| && s.tasks[p].stage == stage
  }

  predicate Unlocked(s: State, p: nat) {
    p < |s.tasks| && s.tasks[p].lock == NULL
  }

  /** The lock a sleeper's caller had passed to sleep is free. */
  predicate CallerLockFree(s: State, cont: Cont) {
    match cont
    case WaitLoop => s.waitLock == Free
    case TickLoop(_, _, _) => s.ticksLock == Free
    case Elsewhere(_) => true
  }

  /** The context switch out of process p, to the scheduler of its CPU. */
  function SwitchedOut(s: State, p: nat, t: Task): State
    requires p < |s.tasks| && t.cpu < |s.cpus|
  {
    WithTask(s, p, t.(stage := Suspended)).(cpus := s.cpus[t.cpu := Cpu(Back(p), p)])
  }

  /** freeproc. */
  function Freed(t: Task): Task {
    t.(state := UNUSED, chan := Nothing, killed := false, parent := NULL, reaps := t.reaps + 1, op := User)
  }

  /** sleep takes the sleeper's own lock. */
  function BeginSleep(s: State, p: nat, op: Op): State
    requires p < |s.tasks|
  {
    WithTask(s, p, s.tasks[p].(lock := s.tasks[p].cpu, op := op))
  }

  function CallerLockReleased(s: State, cont: Cont): State {
    match cont
    case WaitLoop => s.(waitLock := Free)
    case TickLoop(_, _, _) => s.(ticksLock := Free)
    case Elsewhere(_) => s
  }

  /** wait found the zombie child i: it is freed unless its status could not be copied out. */
  function WaitReturn(s: State, p: nat, i: nat, copyFails: bool): State
    requires p < |s.tasks| && i < |s.tasks|
  {
    WithOp(if copyFails then s else WithTask(s, i, Freed(s.tasks[i])), p, User).(waitLock := Free)
  }

  /** reparent gives child j of p to init, and wakeup(initproc) begins. */
  function Reparented(s: State, p: nat, j: nat): State
    requires p < |s.tasks| && j < |s.tasks|
  {
    WithOp(WithTask(s, j, s.tasks[j].(parent := s.initproc)), p, ExitWakeInit(j, 0))
  }

  /** One round of wakeup(target) called by p: its loop goes on as op, and slot k is woken if it waits for
      children of target. The caller itself is skipped, and nobody sleeps on a null channel. */
  function WakeRound(s: State, p: nat, op: Op, k: nat, target: Ptr): State
    requires p < |s.tasks| && k < |s.tasks|
  {
    if k == p || target < 0 then WithOp(s, p, op) else Woken(WithOp(s, p, op), k, Children(target))
  }

  // ----- the steps: when each can happen, and what it does -----

  predicate CanRetrieve(s: State, c: nat) {
    c < |s.cpus| && s.cpus[c].sched == Picking
  }

  /** retrieveProcess as called by scheduler: an empty tree, or a head that is not RUNNABLE, yields nothing. */
  function DoRetrieve(s: State, c: nat): State
    requires WellIndexed(s) && CanRetrieve(s, c)
  {
    if s.rq.entries == [] then s
    else
      var p := s.rq.entries[0].id;
      if s.tasks[p].state != RUNNABLE then s.(rq := s.rq.(period := Stretched(s.rq)))
      else
        WithTask(s, p, s.tasks[p].(maxExecutionTime := Slice(s.rq), place := InHand(c)))
          .(rq := Dequeue(s.rq), cpus := s.cpus[c := Cpu(Hand(p), NULL)])
  }

  predicate CanDispatch(s: State, c: nat) {
    c < |s.cpus| && s.cpus[c].sched.Hand? && Unlocked(s, s.cpus[c].sched.p)
  }

  /** scheduler takes p->lock, marks p RUNNING and switches to it. */
  function DoDispatch(s: State, c: nat): State
    requires WellIndexed(s) && CanDispatch(s, c)
  {
    var p := s.cpus[c].sched.p;
    if s.tasks[p].state != RUNNABLE then s.(cpus := s.cpus[c := Cpu(Picking, NULL)])
    else
      WithTask(s, p, s.tasks[p].(state := RUNNING, lock := c, stage := Resumed, cpu := c, place := Nowhere))
        .(cpus := s.cpus[c := Cpu(Away(p), p)])
  }

  predicate CanFinish(s: State, c: nat) {
    c < |s.cpus| && s.cpus[c].sched.Back? && s.cpus[c].sched.p < |s.tasks|
  }

  /** scheduler clears c->proc and releases p->lock. */
  function DoFinish(s: State, c: nat): State
    requires WellIndexed(s) && CanFinish(s, c)
  {
    var p := s.cpus[c].sched.p;
    WithTask(s, p, s.tasks[p].(lock := NULL)).(cpus := s.cpus[c := Cpu(Picking, NULL)])
  }

  predicate CanRelease(s: State, p: nat) {
    Running(s, p, Resumed)
  }

  /** Back from swtch, in forkret, yield or sleep: releases p->lock. */
  function DoRelease(s: State, p: nat): State
    requires WellIndexed(s) && CanRelease(s, p)
  {
    var t := s.tasks[p];
    if t.op.Asleep? then WithTask(s, p, t.(lock := NULL, stage := Live, chan := Nothing, op := Reacquire(t.op.cont)))
    else WithTask(s, p, t.(lock := NULL, stage := Live))
  }

  predicate CanCharge(s: State, p: nat) {
    Running(s, p, Live) && s.tasks[p].op == User && s.tasks[p].state == RUNNING
  }

  /** usertrap charges the process for the trap. */
  function DoCharge(s: State, p: nat): State
    requires WellIndexed(s) && CanCharge(s, p)
  {
    var t := s.tasks[p];
    WithTask(s, p, t.(currentRuntime := t.currentRuntime + 1, charges := t.charges + 1, stage := MustYield))
  }

  predicate CanYield(s: State, p: nat) {
    && (Running(s, p, MustYield) || (Running(s, p, Live) && Interruptible(s.tasks[p].op)))
    && Unlocked(s, p)
  }

  /** yield, up to the context switch. */
  function DoYield(s: State, p: nat, preempt: bool): State
    requires WellIndexed(s) && CanYield(s, p)
  {
    var t := s.tasks[p];
    if preempt then Requeued(WithTask(s, p, t.(lock := t.cpu, stage := Yielding)), p)
    else WithTask(s, p, t.(stage := Live))
  }

  predicate CanYieldSwtch(s: State, p: nat) {
    Running(s, p, Yielding)
  }

  function DoYieldSwtch(s: State, p: nat): State
    requires WellIndexed(s) && CanYieldSwtch(s, p)
  {
    SwitchedOut(s, p, s.tasks[p])
  }

  predicate CanSetNice(s: State, p: nat) {
    Running(s, p, Live) && s.tasks[p].op == User
  }

  function DoSetNice(s: State, p: nat, nice: int): State
    requires WellIndexed(s) && CanSetNice(s, p)
  {
    if nice < 0 || nice > 39 then s else WithTask(s, p, s.tasks[p].(niceVal := nice))
  }

  predicate CanForkAlloc(s: State, p: nat, np: nat) {
    Running(s, p, Live) && s.tasks[p].op == User && Unlocked(s, np) && s.tasks[np].state == UNUSED
  }

  /** fork: allocproc and the copying done under np->lock. */
  function DoForkAlloc(s: State, p: nat, np: nat): State
    requires WellIndexed(s) && CanForkAlloc(s, p, np)
  {
    var t := s.tasks[np].(state := USED, virtualRuntime := 0, currentRuntime := 0, maxExecutionTime := 0,
                          niceVal := 0, charges := 0, op := User, place := Embryo(p));
    WithOp(WithTask(s, np, t), p, ForkAllocated(np))
  }

  predicate CanForkParent(s: State, p: nat) {
    Running(s, p, Live) && s.tasks[p].op.ForkAllocated? && s.tasks[p].op.np < |s.tasks| && s.waitLock == Free
  }

  function DoForkParent(s: State, p: nat): State
    requires WellIndexed(s) && CanForkParent(s, p)
  {
    var np := s.tasks[p].op.np;
    WithOp(WithTask(s, np, s.tasks[np].(parent := p)), p, ForkParented(np))
  }

  predicate CanForkReady(s: State, p: nat) {
    Running(s, p, Live) && s.tasks[p].op.ForkParented? && Unlocked(s, s.tasks[p].op.np)
  }

  function DoForkReady(s: State, p: nat): State
    requires WellIndexed(s) && CanForkReady(s, p)
  {
    var np := s.tasks[p].op.np;
    WithOp(WithTask(s, np, s.tasks[np].(state := RUNNABLE, place := Pending(p))), p, ForkPending(np))
  }

  predicate CanForkInsert(s: State, p: nat) {
    Running(s, p, Live) && s.tasks[p].op.ForkPending? && s.tasks[p].op.np < |s.tasks|
  }

  function DoForkInsert(s: State, p: nat): State
    requires WellIndexed(s) && CanForkInsert(s, p)
  {
    var np := s.tasks[p].op.np;
    var t := s.tasks[np];
    var w := Weight(t.niceVal);
    var s1 := WithTask(s, np, t.(weightVal := w, place := InTree));
    WithOp(s1.(rq := Enqueue(s.rq, Entry(np, t.virtualRuntime, w))), p, User)
  }

  predicate CanWaitStart(s: State, p: nat) {
    Running(s, p, Live) && s.tasks[p].op == User && s.waitLock == Free
  }

  function DoWaitStart(s: State, p: nat): State
    requires WellIndexed(s) && CanWaitStart(s, p)
  {
    WithOp(s, p, WaitScan(0, false)).(waitLock := ByTask(p))
  }

  predicate CanWaitLook(s: State, p: nat) {
    && Running(s, p, Live) && s.tasks[p].op.WaitScan? && s.tasks[p].op.i < |s.tasks|
    && (s.tasks[s.tasks[p].op.i].parent == p ==> Unlocked(s, s.tasks[p].op.i))
  }

  /** One round of the scan in wait; copyFails says whether copying out the exit status would fail. */
  function DoWaitLook(s: State, p: nat, copyFails: bool): State
    requires WellIndexed(s) && CanWaitLook(s, p)
  {
    var i := s.tasks[p].op.i;
    if s.tasks[i].parent != p then WithOp(s, p, WaitScan(i + 1, s.tasks[p].op.kids))
    else if s.tasks[i].state != ZOMBIE then WithOp(s, p, WaitScan(i + 1, true))
    else WaitReturn(s, p, i, copyFails)
  }

  predicate CanWaitEnd(s: State, p: nat) {
    Running(s, p, Live) && s.tasks[p].op.WaitScan? && s.tasks[p].op.i >= |s.tasks| && Unlocked(s, p)
  }

  /** The scan in wait found nothing to reap. */
  function DoWaitEnd(s: State, p: nat): State
    requires WellIndexed(s) && CanWaitEnd(s, p)
  {
    if !s.tasks[p].op.kids || s.tasks[p].killed then WithOp(s, p, User).(waitLock := Free)
    else BeginSleep(s, p, SleepHeld(WaitLoop))
  }

  predicate CanSleepRelease(s: State, p: nat) {
    Running(s, p, Live) && s.tasks[p].op.SleepHeld?
  }

  function DoSleepRelease(s: State, p: nat): State
    requires WellIndexed(s) && CanSleepRelease(s, p)
  {
    CallerLockReleased(WithOp(s, p, SleepReady(s.tasks[p].op.cont)), s.tasks[p].op.cont)
  }

  predicate CanSleepSwtch(s: State, p: nat) {
    Running(s, p, Live) && s.tasks[p].op.SleepReady?
  }

  function DoSleepSwtch(s: State, p: nat): State
    requires WellIndexed(s) && CanSleepSwtch(s, p)
  {
    var t := s.tasks[p];
    SwitchedOut(s, p, t.(state := SLEEPING, chan := ChanOf(t.op.cont, p), op := Asleep(t.op.cont)))
  }

  predicate CanReacquired(s: State, p: nat) {
    Running(s, p, Live) && s.tasks[p].op.Reacquire? && CallerLockFree(s, s.tasks[p].op.cont)
  }

  /** sleep takes its caller's lock again and returns. */
  function DoReacquired(s: State, p: nat): State
    requires WellIndexed(s) && CanReacquired(s, p)
  {
    match s.tasks[p].op.cont
    case WaitLoop => WithOp(s, p, WaitScan(0, false)).(waitLock := ByTask(p))
    case TickLoop(n, ticks0, _) => WithOp(s, p, TickCheck(n, ticks0)).(ticksLock := ByTask(p))
    case Elsewhere(_) => WithOp(s, p, User)
  }

  predicate CanSleepElsewhere(s: State, p: nat) {
    Running(s, p, Live) && s.tasks[p].op == User && Unlocked(s, p)
  }

  /** sleep called from a driver, a pipe or the file system. */
  function DoSleepElsewhere(s: State, p: nat, n: nat): State
    requires WellIndexed(s) && CanSleepElsewhere(s, p)
  {
    BeginSleep(s, p, SleepReady(Elsewhere(n)))
  }

  predicate CanExitStart(s: State, p: nat) {
    Running(s, p, Live) && s.tasks[p].op == User && s.waitLock == Free && p != s.initproc
  }

  function DoExitStart(s: State, p: nat): State
    requires WellIndexed(s) && CanExitStart(s, p)
  {
    WithOp(s, p, ExitReparent(0)).(waitLock := ByTask(p))
  }

  predicate CanExitScan(s: State, p: nat) {
    Running(s, p, Live) && s.tasks[p].op.ExitReparent?
  }

  /** One round of reparent, or its end. */
  function DoExitScan(s: State, p: nat): State
    requires WellIndexed(s) && CanExitScan(s, p)
  {
    var j := s.tasks[p].op.j;
    if j >= |s.tasks| then WithOp(s, p, ExitWakeParent(0))
    else if s.tasks[j].parent == p then
      Reparented(s, p, j)
    else WithOp(s, p, ExitReparent(j + 1))
  }

  predicate CanExitWake(s: State, p: nat) {
    && Running(s, p, Live)
    && (match s.tasks[p].op
        case ExitWakeInit(_, k) => k < |s.tasks| ==> k == p || Unlocked(s, k)
        case ExitWakeParent(k) => k < |s.tasks| && (k == p || Unlocked(s, k))
        case _ => false)
  }

  /** One round of wakeup(initproc) or of wakeup(p->parent), or the end of the former. */
  function DoExitWake(s: State, p: nat): State
    requires WellIndexed(s) && CanExitWake(s, p)
  {
    match s.tasks[p].op
    case ExitWakeInit(j, k) =>
      if k >= |s.tasks| then WithOp(s, p, ExitReparent(j + 1))
      else WakeRound(s, p, ExitWakeInit(j, k + 1), k, s.initproc)
    case ExitWakeParent(k) => WakeRound(s, p, ExitWakeParent(k + 1), k, s.tasks[p].parent)
    case _ => s
  }

  predicate CanExitMark(s: State, p: nat) {
    Running(s, p, Live) && s.tasks[p].op.ExitWakeParent? && s.tasks[p].op.k >= |s.tasks| && Unlocked(s, p)
  }

  function DoExitMark(s: State, p: nat): State
    requires WellIndexed(s) && CanExitMark(s, p)
  {
    var t := s.tasks[p];
    WithTask(s, p, t.(lock := t.cpu, state := ZOMBIE, op := ExitZombie, exits := t.exits + 1))
  }

  predicate CanExitRelease(s: State, p: nat) {
    Running(s, p, Live) && s.tasks[p].op == ExitZombie
  }

  function DoExitRelease(s: State, p: nat): State
    requires WellIndexed(s) && CanExitRelease(s, p)
  {
    WithOp(s, p, ExitDone).(waitLock := Free)
  }

  predicate CanExitSwtch(s: State, p: nat) {
    Running(s, p, Live) && s.tasks[p].op == ExitDone
  }

  function DoExitSwtch(s: State, p: nat): State
    requires WellIndexed(s) && CanExitSwtch(s, p)
  {
    SwitchedOut(s, p, s.tasks[p])
  }

  predicate CanKill(s: State, q: nat) {
    Unlocked(s, q)
  }

  /** kill, at the slot whose pid matches. */
  function DoKill(s: State, q: nat): State
    requires WellIndexed(s) && CanKill(s, q)
  {
    var s1 := WithTask(s, q, s.tasks[q].(killed := true));
    if s.tasks[q].state == SLEEPING then Requeued(s1, q) else s1
  }

  predicate CanWakeElsewhere(s: State, q: nat) {
    Unlocked(s, q) && s.tasks[q].chan.Other?
  }

  /** wakeup called from a driver, a pipe or the file system. */
  function DoWakeElsewhere(s: State, q: nat): State
    requires WellIndexed(s) && CanWakeElsewhere(s, q)
  {
    Woken(s, q, s.tasks[q].chan)
  }

  predicate CanTickStart(s: State, p: nat) {
    Running(s, p, Live) && s.tasks[p].op == User && s.ticksLock == Free
  }

  function DoTickStart(s: State, p: nat, arg: int): State
    requires WellIndexed(s) && CanTickStart(s, p)
  {
    WithOp(s, p, TickCheck(if arg < 0 then 0 else arg, s.ticks)).(ticksLock := ByTask(p))
  }

  predicate CanTickTest(s: State, p: nat) {
    Running(s, p, Live) && s.tasks[p].op.TickCheck? && Unlocked(s, p)
  }

  /** The loop test of sys_sleep. */
  function DoTickTest(s: State, p: nat): State
    requires WellIndexed(s) && CanTickTest(s, p)
  {
    var n, ticks0 := s.tasks[p].op.n, s.tasks[p].op.ticks0;
    if Elapsed(s.ticks, ticks0) < n then
      if s.tasks[p].killed then WithOp(s, p, User).(ticksLock := Free)
      else BeginSleep(s, p, SleepHeld(TickLoop(n, ticks0, s.ticks)))
    else WithOp(s, p, User).(ticksLock := Free)
  }

  predicate CanClockTick(s: State) {
    s.ticksLock == Free && s.clock == ClockIdle
  }

  function DoClockTick(s: State): State
    requires WellIndexed(s) && CanClockTick(s)
  {
    s.(ticks := s.ticks + 1, ticksLock := ByClock, clock := ClockWake(0))
  }

  predicate CanClockStep(s: State) {
    s.clock.ClockWake? && Unlocked(s, s.clock.k)
  }

  function DoClockStep(s: State): State
    requires WellIndexed(s) && CanClockStep(s)
  {
    Woken(s, s.clock.k, Ticks).(clock := ClockWake(s.clock.k + 1))
  }

  predicate CanClockEnd(s: State) {
    s.clock.ClockWake? && s.clock.k >= |s.tasks|
  }

  function DoClockEnd(s: State): State
    requires WellIndexed(s) && CanClockEnd(s)
  {
    s.(ticksLock := Free, clock := ClockIdle)
  }

  predicate CanSched(s: State, c: nat, a: SchedStep) {
    match a
    case Retrieve => CanRetrieve(s, c)
    case Dispatch => CanDispatch(s, c)
    case Finish => CanFinish(s, c)
  }

  function DoSched(s: State, c: nat, a: SchedStep): (r: State)
    requires WellIndexed(s) && CanSched(s, c, a)
    ensures |r.tasks| == |s.tasks| && |r.cpus| == |s.cpus| && r.initproc == s.initproc
  {
    match a
    case Retrieve => DoRetrieve(s, c)
    case Dispatch => DoDispatch(s, c)
    case Finish => DoFinish(s, c)
  }

  predicate CanRun(s: State, p: nat, a: RunStep) {
    match a
    case Release => CanRelease(s, p)
    case Charge => CanCharge(s, p)
    case Yield(preempt) => CanYield(s, p) && MayReturn(s.tasks[p], preempt)
    case YieldSwtch => CanYieldSwtch(s, p)
    case SetNice(_) => CanSetNice(s, p)
  }

  function DoRun(s: State, p: nat, a: RunStep): (r: State)
    requires WellIndexed(s) && CanRun(s, p, a)
    ensures |r.tasks| == |s.tasks| && |r.cpus| == |s.cpus| && r.initproc == s.initproc
  {
    match a
    case Release => DoRelease(s, p)
    case Charge => DoCharge(s, p)
    case Yield(preempt) => DoYield(s, p, preempt)
    case YieldSwtch => DoYieldSwtch(s, p)
    case SetNice(nice) => DoSetNice(s, p, nice)
  }

  predicate CanFork(s: State, p: nat, a: ForkStep) {
    match a
    case ForkAlloc(np) => CanForkAlloc(s, p, np)
    case ForkParent => CanForkParent(s, p)
    case ForkReady => CanForkReady(s, p)
    case ForkInsert => CanForkInsert(s, p)
  }

  function DoFork(s: State, p: nat, a: ForkStep): (r: State)
    requires WellIndexed(s) && CanFork(s, p, a)
    ensures |r.tasks| == |s.tasks| && |r.cpus| == |s.cpus| && r.initproc == s.initproc
  {
    match a
    case ForkAlloc(np) => DoForkAlloc(s, p, np)
    case ForkParent => DoForkParent(s, p)
    case ForkReady => DoForkReady(s, p)
    case ForkInsert => DoForkInsert(s, p)
  }

  predicate CanSleep(s: State, p: nat, a: SleepStep) {
    match a
    case WaitStart => CanWaitStart(s, p)
    case WaitLook(_) => CanWaitLook(s, p)
    case WaitEnd => CanWaitEnd(s, p)
    case SleepRelease => CanSleepRelease(s, p)
    case SleepSwtch => CanSleepSwtch(s, p)
    case Reacquired => CanReacquired(s, p)
    case SleepElsewhere(_) => CanSleepElsewhere(s, p)
  }

  function DoSleep(s: State, p: nat, a: SleepStep): (r: State)
    requires WellIndexed(s) && CanSleep(s, p, a)
    ensures |r.tasks| == |s.tasks| && |r.cpus| == |s.cpus| && r.initproc == s.initproc
  {
    match a
    case WaitStart => DoWaitStart(s, p)
    case WaitLook(copyFails) => DoWaitLook(s, p, copyFails)
    case WaitEnd => DoWaitEnd(s, p)
    case SleepRelease => DoSleepRelease(s, p)
    case SleepSwtch => DoSleepSwtch(s, p)
    case Reacquired => DoReacquired(s, p)
    case SleepElsewhere(n) => DoSleepElsewhere(s, p, n)
  }

  predicate CanExit(s: State, p: nat, a: ExitStep) {
    match a
    case ExitStart => CanExitStart(s, p)
    case ExitScan => CanExitScan(s, p)
    case ExitWake => CanExitWake(s, p)
    case ExitMark => CanExitMark(s, p)
    case ExitRelease => CanExitRelease(s, p)
    case ExitSwtch => CanExitSwtch(s, p)
  }

  function DoExit(s: State, p: nat, a: ExitStep): (r: State)
    requires WellIndexed(s) && CanExit(s, p, a)
    ensures |r.tasks| == |s.tasks| && |r.cpus| == |s.cpus| && r.initproc == s.initproc
  {
    match a
    case ExitStart => DoExitStart(s, p)
    case ExitScan => DoExitScan(s, p)
    case ExitWake => DoExitWake(s, p)
    case ExitMark => DoExitMark(s, p)
    case ExitRelease => DoExitRelease(s, p)
    case ExitSwtch => DoExitSwtch(s, p)
  }

  predicate CanTick(s: State, p: nat, a: TickStep) {
    match a
    case TickStart(_) => CanTickStart(s, p)
    case TickTest => CanTickTest(s, p)
  }

  function DoTick(s: State, p: nat, a: TickStep): (r: State)
    requires WellIndexed(s) && CanTick(s, p, a)
    ensures |r.tasks| == |s.tasks| && |r.cpus| == |s.cpus| && r.initproc == s.initproc
  {
    match a
    case TickStart(arg) => DoTickStart(s, p, arg)
    case TickTest => DoTickTest(s, p)
  }

  predicate CanOutside(s: State, a: OtherStep) {
    match a
    case Kill(q) => CanKill(s, q)
    case WakeElsewhere(q) => CanWakeElsewhere(s, q)
    case ClockTick => CanClockTick(s)
    case ClockStep => CanClockStep(s)
    case ClockEnd => CanClockEnd(s)
  }

  function DoOutside(s: State, a: OtherStep): (r: State)
    requires WellIndexed(s) && CanOutside(s, a)
    ensures |r.tasks| == |s.tasks| && |r.cpus| == |s.cpus| && r.initproc == s.initproc
  {
    match a
    case Kill(q) => DoKill(s, q)
    case WakeElsewhere(q) => DoWakeElsewhere(s, q)
    case ClockTick => DoClockTick(s)
    case ClockStep => DoClockStep(s)
    case ClockEnd => DoClockEnd(s)
  }

  predicate Can(s: State, a: Action) {
    WellIndexed(s)
    && match a
       case Sched(c, b) => CanSched(s, c, b)
       case Run(p, b) => CanRun(s, p, b)
       case Fork(p, b) => CanFork(s, p, b)
       case Sleep(p, b) => CanSleep(s, p, b)
       case Exit(p, b) => CanExit(s, p, b)
       case Tick(p, b) => CanTick(s, p, b)
       case Outside(b) => CanOutside(s, b)
  }

  function Do(s: State, a: Action): (r: State)
    requires Can(s, a)
    ensures |r.tasks| == |s.tasks| && |r.cpus| == |s.cpus| && r.initproc == s.initproc
  {
    match a
    case Sched(c, b) => DoSched(s, c, b)
    case Run(p, b) => DoRun(s, p, b)
    case Fork(p, b) => DoFork(s, p, b)
    case Sleep(p, b) => DoSleep(s, p, b)
    case Exit(p, b) => DoExit(s, p, b)
    case Tick(p, b) => DoTick(s, p, b)
    case Outside(b) => DoOutside(s, b)
  }
}
