/** Every step of the machine keeps the family invariants. */
module WaitSteps {
  import opened Procs
  import opened Machine
  import opened CoreInvariant
  import opened WaitInvariant
  import opened CoreSteps

  /** What the proofs below need of the core: running processes are RUNNING. */
  ghost predicate Runner(s: State, p: nat) {
    Running(s, p, Live) && s.tasks[p].state == RUNNING && !s.tasks[p].op.Asleep?
  }

  // ----- taking and releasing wait_lock -----

  lemma AcquireKeeps(s: State, p: nat, op: Op)
    requires Families(s) && Runner(s, p) && s.waitLock == Free && FamilyOp(s.tasks[p].op) == User
    requires op == WaitScan(0, false) || (op == ExitReparent(0) && p != s.initproc)
    ensures Families(WithOp(s, p, op).(waitLock := ByTask(p)))
  {
    var s' := WithOp(s, p, op).(waitLock := ByTask(p));
    forall q: nat | q < |s.tasks| ensures ParentOk(s', q) && FamilyOk(s', q) {
      assert ParentOk(s, q) && FamilyOk(s, q);
    }
    forall q: nat, z: nat | q < |s.tasks| && z < |s.tasks| ensures NotLost(s', q, z) {
      assert NotLost(s, q, z);
    }
  }

  /** wait_lock is released on the way out of wait, into sleep, or at the end of exit. */
  lemma ReleaseMembers(s: State, p: nat, op: Op)
    requires Families(s) && Running(s, p, Live) && s.waitLock == ByTask(p)
    requires || (s.tasks[p].op.WaitScan? && op == User)
             || (s.tasks[p].op == SleepHeld(WaitLoop) && op == SleepReady(WaitLoop))
             || (s.tasks[p].op == ExitZombie && op == ExitDone)
    requires s.tasks[p].state != SLEEPING
    ensures Members(WithOp(s, p, op).(waitLock := Free))
  {
    var s' := WithOp(s, p, op).(waitLock := Free);
    assert FamilyOk(s, p);
    forall q: nat | q < |s.tasks| ensures ParentOk(s', q) {
      assert ParentOk(s, q);
    }
    forall q: nat | q < |s.tasks| ensures FamilyOk(s', q) {
      assert FamilyOk(s, q);
    }
  }

  lemma ReleaseNoneLost(s: State, p: nat, op: Op)
    requires Families(s) && Running(s, p, Live) && s.waitLock == ByTask(p)
    requires || (s.tasks[p].op.WaitScan? && op == User)
             || (s.tasks[p].op == SleepHeld(WaitLoop) && op == SleepReady(WaitLoop))
             || (s.tasks[p].op == ExitZombie && op == ExitDone)
    requires s.tasks[p].state != SLEEPING
    ensures NoneLost(WithOp(s, p, op).(waitLock := Free))
  {
    var s' := WithOp(s, p, op).(waitLock := Free);
    assert FamilyOk(s, p);
    forall q: nat, z: nat | q < |s.tasks| && z < |s.tasks| ensures NotLost(s', q, z) {
      assert NotLost(s, q, z);
    }
  }

  // ----- wait -----

  /** wait goes on to the next slot, or to sleep. */
  ghost predicate ScansOn(s: State, p: nat, t: Task)
    requires p < |s.tasks|
  {
    && s.tasks[p].op.WaitScan? && t == s.tasks[p].(op := t.op, lock := t.lock)
    && (|| (t.op.WaitScan? && NoZombieBelow(s, p, t.op.i) && (NoChildBelow(s, p, t.op.i) <==> !t.op.kids))
        || (t.op == SleepHeld(WaitLoop) && NoZombieBelow(s, p, |s.tasks|)))
  }

  /** A step that changes neither parents nor states leaves every scan where it is. */
  lemma ScansStand(s: State, p: nat, t: Task, q: nat, n: nat)
    requires p < |s.tasks| && t.parent == s.tasks[p].parent && t.state == s.tasks[p].state
    ensures NoChildBelow(WithTask(s, p, t), q, n) <==> NoChildBelow(s, q, n)
    ensures NoZombieBelow(WithTask(s, p, t), q, n) <==> NoZombieBelow(s, q, n)
  {
    var s' := WithTask(s, p, t);
    forall z: nat | z < |s.tasks|
      ensures s'.tasks[z].parent == s.tasks[z].parent && s'.tasks[z].state == s.tasks[z].state
    {
    }
  }

  lemma ScanProgress(s: State, p: nat, t: Task)
    requires Progress(s) && Runner(s, p) && ScansOn(s, p, t)
    ensures Progress(WithTask(s, p, t))
  {
    var s' := WithTask(s, p, t);
    assert FamilyOk(s, p);
    forall q: nat | q < |s.tasks| ensures FamilyOk(s', q) {
      assert FamilyOk(s, q);
      forall n: nat
        ensures NoChildBelow(s', q, n) <==> NoChildBelow(s, q, n)
        ensures NoZombieBelow(s', q, n) <==> NoZombieBelow(s, q, n)
      {
        ScansStand(s, p, t, q, n);
      }
    }
  }

  lemma ScanKeeps(s: State, p: nat, t: Task)
    requires Families(s) && Runner(s, p) && ScansOn(s, p, t)
    ensures Families(WithTask(s, p, t))
  {
    var s' := WithTask(s, p, t);
    ScanProgress(s, p, t);
    forall q: nat | q < |s.tasks| ensures ParentOk(s', q) {
      assert ParentOk(s, q);
    }
    forall q: nat, z: nat | q < |s.tasks| && z < |s.tasks| ensures NotLost(s', q, z) {
      assert NotLost(s, q, z);
    }
  }

  lemma ReapMembers(s: State, i: nat)
    requires Families(s) && s.waitLock == Free
    requires i < |s.tasks| && s.tasks[i].state == ZOMBIE && s.tasks[i].op == ExitDone
    requires forall q: nat :: q < |s.tasks| ==> !(HasChild(s.tasks[q].op) && s.tasks[q].op.np == i)
    ensures Members(WithTask(s, i, Freed(s.tasks[i])))
  {
    var s' := WithTask(s, i, Freed(s.tasks[i]));
    assert FamilyOk(s, i) && ParentOk(s, i);
    forall q: nat | q < |s.tasks| ensures ParentOk(s', q) && FamilyOk(s', q) {
      assert ParentOk(s, q) && FamilyOk(s, q);
    }
  }

  lemma ReapNoneLost(s: State, i: nat)
    requires Families(s) && s.waitLock == Free
    requires i < |s.tasks| && s.tasks[i].state == ZOMBIE && s.tasks[i].op == ExitDone
    requires forall q: nat :: q < |s.tasks| ==> !(HasChild(s.tasks[q].op) && s.tasks[q].op.np == i)
    ensures NoneLost(WithTask(s, i, Freed(s.tasks[i])))
  {
    var s' := WithTask(s, i, Freed(s.tasks[i]));
    assert FamilyOk(s, i) && ParentOk(s, i);
    forall q: nat, z: nat | q < |s.tasks| && z < |s.tasks| ensures NotLost(s', q, z) {
      assert NotLost(s, q, z);
    }
  }

  // ----- exit -----

  /** Where exit may go on to from reparent: as far as p has no children left. */
  ghost predicate ExitGoesOn(s: State, p: nat, op: Op) {
    || (op.ExitReparent? && NoChildBelow(s, p, op.j))
    || (op == ExitWakeParent(0) && NoChildBelow(s, p, |s.tasks|))
  }

  /** A step of exit between reparent and marking itself that changes no other process. */
  lemma ExitOpMembers(s: State, p: nat, op: Op)
    requires Families(s) && Runner(s, p) && (s.tasks[p].op.ExitReparent? || s.tasks[p].op.ExitWakeInit?)
    requires s.tasks[p].op.ExitWakeInit? ==> s.tasks[p].op.k > s.initproc
    requires ExitGoesOn(s, p, op)
    ensures Members(WithOp(s, p, op))
  {
    var s' := WithOp(s, p, op);
    assert FamilyOk(s, p);
    forall q: nat | q < |s.tasks| ensures ParentOk(s', q) && FamilyOk(s', q) {
      assert ParentOk(s, q) && FamilyOk(s, q);
    }
  }

  lemma ExitOpNoneLost(s: State, p: nat, op: Op)
    requires Families(s) && Runner(s, p) && (s.tasks[p].op.ExitReparent? || s.tasks[p].op.ExitWakeInit?)
    requires s.tasks[p].op.ExitWakeInit? ==> s.tasks[p].op.k > s.initproc
    requires ExitGoesOn(s, p, op)
    ensures NoneLost(WithOp(s, p, op))
  {
    var s' := WithOp(s, p, op);
    assert FamilyOk(s, p);
    forall q: nat, z: nat | q < |s.tasks| && z < |s.tasks| ensures NotLost(s', q, z) {
      assert NotLost(s, q, z);
    }
  }

  lemma ReparentedParents(s: State, p: nat, j: nat)
    requires Parents(s) && Runner(s, p) && s.tasks[p].op == ExitReparent(j) && p != s.initproc < |s.tasks|
    requires j < |s.tasks| && s.tasks[j].parent == p
    ensures Parents(Reparented(s, p, j))
  {
    var s' := Reparented(s, p, j);
    assert ParentOk(s, p) && ParentOk(s, j) && ParentOk(s, s.initproc);
    forall q: nat | q < |s.tasks| ensures ParentOk(s', q) {
      assert ParentOk(s, q);
    }
  }

  /** Only slot j changes its parent, and not to q: nothing new to check among q's children. */
  lemma GivenAway(s: State, s': State, j: nat, q: nat)
    requires |s'.tasks| == |s.tasks| && j < |s.tasks| && s'.tasks[j].parent != q
    requires forall z: nat :: z < |s.tasks| ==>
      s'.tasks[z].state == s.tasks[z].state && (z != j ==> s'.tasks[z].parent == s.tasks[z].parent)
    ensures forall n: nat :: NoChildBelow(s, q, n) ==> NoChildBelow(s', q, n)
    ensures forall n: nat :: NoZombieBelow(s, q, n) ==> NoZombieBelow(s', q, n)
    ensures NoChildBelow(s, q, j) ==> NoChildBelow(s', q, j + 1)
  {
  }

  lemma ReparentedProgress(s: State, p: nat, j: nat)
    requires Families(s) && Runner(s, p) && s.tasks[p].op == ExitReparent(j) && s.initproc < |s.tasks|
    requires j < |s.tasks| && s.tasks[j].parent == p
    ensures Progress(Reparented(s, p, j))
  {
    var s' := Reparented(s, p, j);
    assert FamilyOk(s, p) && ParentOk(s, p) && ParentOk(s, j) && ParentOk(s, s.initproc);
    forall q: nat | q < |s.tasks| ensures FamilyOk(s', q) {
      assert FamilyOk(s, q);
      if q != s.initproc {
        GivenAway(s, s', j, q);
      }
    }
  }

  lemma ReparentedNoneLost(s: State, p: nat, j: nat)
    requires Families(s) && Runner(s, p) && s.tasks[p].op == ExitReparent(j) && s.initproc < |s.tasks|
    requires j < |s.tasks| && s.tasks[j].parent == p
    ensures NoneLost(Reparented(s, p, j))
  {
    var s' := Reparented(s, p, j);
    assert FamilyOk(s, p) && ParentOk(s, p) && ParentOk(s, j) && ParentOk(s, s.initproc);
    forall q: nat, z: nat | q < |s.tasks| && z < |s.tasks| ensures NotLost(s', q, z) {
      assert NotLost(s, q, z);
    }
  }

  /** Waking a slot never adds a sleeper, whatever it sleeps on. */
  lemma WokenKeepsFamilies(s: State, q: nat, chan: Chan)
    requires Families(s) && q < |s.tasks|
    ensures Families(Woken(s, q, chan))
  {
    FamiliesSame(s, Woken(s, q, chan));
  }

  /** After its round of the wakeup loop, an unlocked process no longer waits for its children. */
  lemma WakesWaiter(s: State, q: nat)
    requires q < |s.tasks| && StateOk(s.tasks[q], q) && LockOk(s, q) && s.tasks[q].lock == NULL
    ensures !WaitAsleep(Woken(s, q, Children(q)).tasks[q])
  {
  }

  lemma AdvanceMembers(s: State, p: nat, op: Op, k: nat, target: nat)
    requires Families(s) && Runner(s, p) && Advance(s.tasks[p].op, op, k) && p != target
    requires target < |s.tasks| && target == if op.ExitWakeInit? then s.initproc else s.tasks[p].parent
    requires k == target ==> !WaitAsleep(s.tasks[k])
    ensures Members(WithOp(s, p, op))
  {
    var s' := WithOp(s, p, op);
    assert FamilyOk(s, p);
    forall q: nat | q < |s.tasks| ensures ParentOk(s', q) && FamilyOk(s', q) {
      assert ParentOk(s, q) && FamilyOk(s, q);
    }
  }

  lemma AdvanceNoneLost(s: State, p: nat, op: Op, k: nat, target: nat)
    requires Families(s) && Runner(s, p) && Advance(s.tasks[p].op, op, k) && p != target
    requires target < |s.tasks| && target == if op.ExitWakeInit? then s.initproc else s.tasks[p].parent
    requires k == target ==> !WaitAsleep(s.tasks[k])
    ensures NoneLost(WithOp(s, p, op))
  {
    var s' := WithOp(s, p, op);
    assert FamilyOk(s, p);
    forall q: nat, z: nat | q < |s.tasks| && z < |s.tasks| ensures NotLost(s', q, z) {
      assert NotLost(s, q, z);
    }
  }

  lemma ExitMarkKeepsFamilies(s: State, p: nat, t: Task)
    requires Families(s) && Runner(s, p) && s.tasks[p].op.ExitWakeParent? && s.tasks[p].op.k >= |s.tasks|
    requires t == s.tasks[p].(lock := t.lock, state := ZOMBIE, op := ExitZombie, exits := t.exits)
    ensures Families(WithTask(s, p, t))
  {
    var s' := WithTask(s, p, t);
    assert FamilyOk(s, p) && ParentOk(s, p);
    forall q: nat | q < |s.tasks| ensures ParentOk(s', q) && FamilyOk(s', q) {
      assert ParentOk(s, q) && FamilyOk(s, q);
    }
    forall q: nat, z: nat | q < |s.tasks| && z < |s.tasks| ensures NotLost(s', q, z) {
      assert NotLost(s, q, z);
    }
  }

  // ----- fork -----

  /** A step of fork by p: it touches its new slot np and its own progress only. */
  ghost predicate ForkMove(s: State, s': State, p: nat, np: nat)
    requires p < |s.tasks|
  {
    && np < |s.tasks| && np != p && np != s.initproc
    && s'.waitLock == s.waitLock && s'.initproc == s.initproc && |s'.tasks| == |s.tasks|
    && (forall q: nat {:trigger s'.tasks[q]} :: q < |s.tasks| && q != p && q != np ==> s'.tasks[q] == s.tasks[q])
    && s'.tasks[p] == s.tasks[p].(op := s'.tasks[p].op) && !WaitAsleep(s'.tasks[p])
    && !HoldsWait(s.tasks[p].op) && !HoldsWait(s'.tasks[p].op) && !Exiting(s'.tasks[p].op)
    && FamilyOp(s.tasks[np].op) == FamilyOp(s'.tasks[np].op) == User && !WaitAsleep(s'.tasks[np])
    && (s.tasks[np].state == UNUSED || s.tasks[np].state == USED || s.tasks[np].state == s'.tasks[np].state)
    && (s'.tasks[np].state == USED || (s'.tasks[np].state == RUNNABLE && s'.tasks[np].parent == p))
    && (s'.tasks[np].parent == s.tasks[np].parent || (s.waitLock == Free && s'.tasks[np].parent == p))
    && (HasChild(s'.tasks[p].op) ==> s'.tasks[p].op.np == np && s'.tasks[np].parent == p)
  }

  lemma ForkStepParents(s: State, s': State, p: nat, np: nat)
    requires Families(s) && Runner(s, p) && ForkMove(s, s', p, np)
    requires forall q: nat :: q < |s.tasks| && q != p ==> !(HasChild(s.tasks[q].op) && s.tasks[q].op.np == np)
    ensures Parents(s')
  {
    assert ParentOk(s, p) && ParentOk(s, np) && FamilyOk(s, p);
    forall q: nat | q < |s.tasks| ensures ParentOk(s', q) {
      assert ParentOk(s, q);
    }
  }

  /** Only p gains a child, and nobody gains a zombie. */
  lemma ForkStepBelow(s: State, s': State, p: nat, np: nat, q: nat, n: nat)
    requires p < |s.tasks| && ForkMove(s, s', p, np)
    ensures q != p && NoChildBelow(s, q, n) ==> NoChildBelow(s', q, n)
    ensures s.waitLock != Free ==> (NoChildBelow(s, q, n) <==> NoChildBelow(s', q, n))
    ensures NoZombieBelow(s, q, n) ==> NoZombieBelow(s', q, n)
  {
    if s.waitLock != Free {
      assert forall z: nat {:trigger s.tasks[z]} {:trigger s'.tasks[z]} :: z < |s.tasks| ==>
          s'.tasks[z].parent == s.tasks[z].parent;
    }
  }

  lemma ForkStepProgress(s: State, s': State, p: nat, np: nat)
    requires Progress(s) && p < |s.tasks| && ForkMove(s, s', p, np)
    ensures Progress(s')
  {
    assert FamilyOk(s, p) && FamilyOk(s, np);
    forall q: nat | q < |s.tasks| ensures FamilyOk(s', q) {
      assert FamilyOk(s, q);
      forall n: nat
        ensures q != p && NoChildBelow(s, q, n) ==> NoChildBelow(s', q, n)
        ensures s.waitLock != Free ==> (NoChildBelow(s, q, n) <==> NoChildBelow(s', q, n))
        ensures NoZombieBelow(s, q, n) ==> NoZombieBelow(s', q, n)
      {
        ForkStepBelow(s, s', p, np, q, n);
      }
    }
  }

  lemma ForkStepNoneLost(s: State, s': State, p: nat, np: nat)
    requires Families(s) && Runner(s, p) && ForkMove(s, s', p, np)
    ensures NoneLost(s')
  {
    assert FamilyOk(s, p) && FamilyOk(s, np);
    forall q: nat, z: nat | q < |s.tasks| && z < |s.tasks| ensures NotLost(s', q, z) {
      assert NotLost(s, q, z);
    }
  }

  // ----- the steps -----

  /** Only p changed, and nothing about its family. */
  lemma OneSame(s: State, s': State, p: nat)
    requires Families(s) && |s'.tasks| == |s.tasks| && p < |s.tasks|
    requires s'.waitLock == s.waitLock && s'.initproc == s.initproc
    requires forall q: nat :: q < |s.tasks| && q != p ==> s'.tasks[q] == s.tasks[q]
    requires SameFamily(s.tasks[p], s'.tasks[p])
    ensures Families(s')
  {
    FamiliesSame(s, s');
  }

  lemma UnrelatedKeeps(s: State, ticksLock: Holder, clock: Clock, ticks: nat)
    requires Families(s)
    ensures Families(s.(ticksLock := ticksLock, clock := clock, ticks := ticks))
  {
    FamiliesSame(s, s.(ticksLock := ticksLock, clock := clock, ticks := ticks));
  }

  lemma SchedKeepsFamilies(s: State, c: nat, a: SchedStep)
    requires Families(s) && WellIndexed(s) && CanSched(s, c, a)
    ensures Families(DoSched(s, c, a))
  {
    match a
    case Retrieve =>
      if s.rq.entries != [] { OneSame(s, DoRetrieve(s, c), s.rq.entries[0].id); }
    case Dispatch => OneSame(s, DoDispatch(s, c), s.cpus[c].sched.p);
    case Finish => OneSame(s, DoFinish(s, c), s.cpus[c].sched.p);
  }

  lemma YieldKeepsFamilies(s: State, p: nat, preempt: bool)
    requires Families(s) && WellIndexed(s) && CanYield(s, p) && s.tasks[p].state == RUNNING
    ensures Families(DoYield(s, p, preempt))
  {
    OneSame(s, DoYield(s, p, preempt), p);
  }

  /** Release, charge and nice changes. */
  lemma PlainRunKeepsFamilies(s: State, p: nat, a: RunStep)
    requires Families(s) && WellIndexed(s) && CanRun(s, p, a) && (a.Release? || a.Charge? || a.SetNice?)
    ensures Families(DoRun(s, p, a))
  {
    OneSame(s, DoRun(s, p, a), p);
  }

  lemma RunKeepsFamilies(s: State, p: nat, a: RunStep)
    requires Core(s) && Families(s) && WellIndexed(s) && CanRun(s, p, a)
    ensures Families(DoRun(s, p, a))
  {
    match a
    case Yield(preempt) =>
      assert StateOk(s.tasks[p], p);
      YieldKeepsFamilies(s, p, preempt);
    case YieldSwtch => OneSame(s, DoYieldSwtch(s, p), p);
    case _ => PlainRunKeepsFamilies(s, p, a);
  }

  lemma TickStartKeepsFamilies(s: State, p: nat, arg: int)
    requires Families(s) && WellIndexed(s) && CanTickStart(s, p)
    ensures Families(DoTickStart(s, p, arg))
  {
    OneSame(s, DoTickStart(s, p, arg), p);
  }

  lemma TickTestKeepsFamilies(s: State, p: nat)
    requires Families(s) && WellIndexed(s) && CanTickTest(s, p)
    ensures Families(DoTickTest(s, p))
  {
    OneSame(s, DoTickTest(s, p), p);
  }

  lemma TickKeepsFamilies(s: State, p: nat, a: TickStep)
    requires Families(s) && WellIndexed(s) && CanTick(s, p, a)
    ensures Families(DoTick(s, p, a))
  {
    match a
    case TickStart(arg) => TickStartKeepsFamilies(s, p, arg);
    case TickTest => TickTestKeepsFamilies(s, p);
  }

  lemma KillKeepsFamilies(s: State, q: nat)
    requires Families(s) && WellIndexed(s) && CanKill(s, q)
    ensures Families(DoKill(s, q))
  {
    OneSame(s, DoKill(s, q), q);
  }

  lemma OutsideKeepsFamilies(s: State, a: OtherStep)
    requires Families(s) && WellIndexed(s) && CanOutside(s, a)
    ensures Families(DoOutside(s, a))
  {
    match a
    case Kill(q) => KillKeepsFamilies(s, q);
    case WakeElsewhere(q) => WokenKeepsFamilies(s, q, s.tasks[q].chan);
    case ClockTick => UnrelatedKeeps(s, ByClock, ClockWake(0), s.ticks + 1);
    case ClockStep =>
      var s1 := Woken(s, s.clock.k, Ticks);
      WokenKeepsFamilies(s, s.clock.k, Ticks);
      UnrelatedKeeps(s1, s1.ticksLock, ClockWake(s.clock.k + 1), s1.ticks);
    case ClockEnd => UnrelatedKeeps(s, Free, ClockIdle, s.ticks);
  }

  /** The slot a forker names: free, then USED; and no other forker names it. */
  lemma ForkFacts(s: State, p: nat, np: nat)
    requires Core(s) && Running(s, p, Live) && np < |s.tasks|
    requires || (s.tasks[p].op == User && s.tasks[np].state == UNUSED)
             || (Forking(s.tasks[p].op) && s.tasks[p].op.np == np)
    ensures Runner(s, p) && np != p && s.tasks[np].op == User
    ensures forall q: nat :: q < |s.tasks| && q != p ==> !(HasChild(s.tasks[q].op) && s.tasks[q].op.np == np)
    ensures s.tasks[p].op.ForkAllocated? || s.tasks[p].op.ForkParented? ==> s.tasks[np].state == USED
  {
    assert StateOk(s.tasks[p], p) && StateOk(s.tasks[np], np) && PlaceOk(s, p) && PlaceOk(s, np);
    forall q: nat | q < |s.tasks| && q != p ensures !(HasChild(s.tasks[q].op) && s.tasks[q].op.np == np) {
      assert PlaceOk(s, q);
    }
  }

  lemma InitAlive(s: State)
    requires Families(s) && s.initproc < |s.tasks|
    ensures Alive(s.tasks[s.initproc]) && s.tasks[s.initproc].parent == NULL
  {
    assert ParentOk(s, s.initproc);
  }

  lemma ForkAllocKeepsFamilies(s: State, p: nat, np: nat)
    requires Core(s) && Families(s) && WellIndexed(s) && CanForkAlloc(s, p, np)
    ensures Families(DoForkAlloc(s, p, np))
  {
    var s' := DoForkAlloc(s, p, np);
    ForkFacts(s, p, np);
    InitAlive(s);
    ForkStepParents(s, s', p, np);
    ForkStepProgress(s, s', p, np);
    ForkStepNoneLost(s, s', p, np);
  }

  lemma ForkParentKeepsFamilies(s: State, p: nat)
    requires Core(s) && Families(s) && WellIndexed(s) && CanForkParent(s, p)
    ensures Families(DoForkParent(s, p))
  {
    var np, s' := s.tasks[p].op.np, DoForkParent(s, p);
    ForkFacts(s, p, np);
    InitAlive(s);
    ForkStepParents(s, s', p, np);
    ForkStepProgress(s, s', p, np);
    ForkStepNoneLost(s, s', p, np);
  }

  lemma ForkReadyKeepsFamilies(s: State, p: nat)
    requires Core(s) && Families(s) && WellIndexed(s) && CanForkReady(s, p)
    ensures Families(DoForkReady(s, p))
  {
    var np, s' := s.tasks[p].op.np, DoForkReady(s, p);
    ForkFacts(s, p, np);
    InitAlive(s);
    assert ParentOk(s, p);
    ForkStepParents(s, s', p, np);
    ForkStepProgress(s, s', p, np);
    ForkStepNoneLost(s, s', p, np);
  }

  lemma ForkInsertKeepsFamilies(s: State, p: nat)
    requires Core(s) && Families(s) && WellIndexed(s) && CanForkInsert(s, p)
    ensures Families(DoForkInsert(s, p))
  {
    var np, s' := s.tasks[p].op.np, DoForkInsert(s, p);
    ForkFacts(s, p, np);
    InitAlive(s);
    CoreSteps.ForkedSlot(s, p);
    assert ParentOk(s, p);
    ForkStepParents(s, s', p, np);
    ForkStepProgress(s, s', p, np);
    ForkStepNoneLost(s, s', p, np);
  }

  lemma ForkKeepsFamilies(s: State, p: nat, a: ForkStep)
    requires Core(s) && Families(s) && WellIndexed(s) && CanFork(s, p, a)
    ensures Families(DoFork(s, p, a))
  {
    match a
    case ForkAlloc(np) => ForkAllocKeepsFamilies(s, p, np);
    case ForkParent => ForkParentKeepsFamilies(s, p);
    case ForkReady => ForkReadyKeepsFamilies(s, p);
    case ForkInsert => ForkInsertKeepsFamilies(s, p);
  }

  lemma ZombieFacts(s: State, i: nat)
    requires Core(s) && i < |s.tasks| && s.tasks[i].state == ZOMBIE && s.tasks[i].lock == NULL
    ensures s.tasks[i].op == ExitDone
    ensures forall q: nat :: q < |s.tasks| ==> !(HasChild(s.tasks[q].op) && s.tasks[q].op.np == i)
  {
    assert StateOk(s.tasks[i], i) && LockOk(s, i) && PlaceOk(s, i);
    forall q: nat | q < |s.tasks| ensures !(HasChild(s.tasks[q].op) && s.tasks[q].op.np == i) {
      assert PlaceOk(s, q);
    }
  }

  lemma WaitReturnKeepsFamilies(s: State, p: nat, i: nat, copyFails: bool, s': State)
    requires Families(s) && Runner(s, p) && s.tasks[p].op.WaitScan?
    requires i < |s.tasks| && s.tasks[i].state == ZOMBIE && s.tasks[i].op == ExitDone
    requires forall q: nat :: q < |s.tasks| ==> !(HasChild(s.tasks[q].op) && s.tasks[q].op.np == i)
    requires s' == WaitReturn(s, p, i, copyFails)
    ensures Families(s')
  {
    var s1 := WithOp(s, p, User).(waitLock := Free);
    assert FamilyOk(s, p);
    ReleaseMembers(s, p, User);
    ReleaseNoneLost(s, p, User);
    if !copyFails {
      ReapMembers(s1, i);
      ReapNoneLost(s1, i);
      ReapCommutes(s, p, i);
    }
  }

  /** Releasing wait_lock first and freeing the child afterwards comes to the same. */
  lemma ReapCommutes(s: State, p: nat, i: nat)
    requires p < |s.tasks| && i < |s.tasks| && i != p
    ensures WaitReturn(s, p, i, false) == WithTask(WithOp(s, p, User).(waitLock := Free), i, Freed(s.tasks[i]))
  {
    var t := Freed(s.tasks[i]);
    assert s.tasks[i := t][p := s.tasks[p].(op := User)] == s.tasks[p := s.tasks[p].(op := User)][i := t];
  }

  lemma WaitPassKeepsFamilies(s: State, p: nat, i: nat, s': State)
    requires Families(s) && Runner(s, p) && s.tasks[p].op.WaitScan? && s.tasks[p].op.i == i < |s.tasks|
    requires s.tasks[i].parent == p ==> s.tasks[i].state != ZOMBIE
    requires s' == WithOp(s, p, WaitScan(i + 1, s.tasks[p].op.kids || s.tasks[i].parent == p))
    ensures Families(s')
  {
    LookedSoFar(s, p);
    ScanKeeps(s, p, s.tasks[p].(op := WaitScan(i + 1, s.tasks[p].op.kids || s.tasks[i].parent == p)));
  }

  /** What the scan in wait knows about the slots it has passed. */
  lemma LookedSoFar(s: State, p: nat)
    requires Progress(s) && p < |s.tasks| && s.tasks[p].op.WaitScan?
    ensures NoZombieBelow(s, p, s.tasks[p].op.i) && (NoChildBelow(s, p, s.tasks[p].op.i) <==> !s.tasks[p].op.kids)
  {
    assert FamilyOk(s, p);
  }

  lemma WaitLookKeepsFamilies(s: State, p: nat, copyFails: bool)
    requires Core(s) && Families(s) && WellIndexed(s) && CanWaitLook(s, p) && Runner(s, p)
    ensures Families(DoWaitLook(s, p, copyFails))
  {
    WaitLookForm(s, p, copyFails);
    var i := s.tasks[p].op.i;
    if s.tasks[i].parent == p && s.tasks[i].state == ZOMBIE {
      ZombieFacts(s, i);
      WaitReturnKeepsFamilies(s, p, i, copyFails, DoWaitLook(s, p, copyFails));
    } else {
      WaitPassKeepsFamilies(s, p, i, DoWaitLook(s, p, copyFails));
    }
  }

  lemma WaitEndKeepsFamilies(s: State, p: nat)
    requires Families(s) && WellIndexed(s) && CanWaitEnd(s, p) && Runner(s, p)
    ensures Families(DoWaitEnd(s, p))
  {
    assert FamilyOk(s, p);
    if !s.tasks[p].op.kids || s.tasks[p].killed {
      ReleaseMembers(s, p, User);
      ReleaseNoneLost(s, p, User);
    } else {
      ScanKeeps(s, p, s.tasks[p].(lock := s.tasks[p].cpu, op := SleepHeld(WaitLoop)));
    }
  }

  lemma SleepReleaseKeepsFamilies(s: State, p: nat)
    requires Families(s) && WellIndexed(s) && CanSleepRelease(s, p) && Runner(s, p)
    ensures Families(DoSleepRelease(s, p))
  {
    if s.tasks[p].op.cont == WaitLoop {
      assert FamilyOk(s, p);
      ReleaseMembers(s, p, SleepReady(WaitLoop));
      ReleaseNoneLost(s, p, SleepReady(WaitLoop));
    } else {
      OneSame(s, DoSleepRelease(s, p), p);
    }
  }

  lemma ReacquiredKeepsFamilies(s: State, p: nat)
    requires Families(s) && WellIndexed(s) && CanReacquired(s, p) && Runner(s, p)
    ensures Families(DoReacquired(s, p))
  {
    if s.tasks[p].op.cont == WaitLoop {
      AcquireKeeps(s, p, WaitScan(0, false));
    } else {
      OneSame(s, DoReacquired(s, p), p);
    }
  }

  lemma SleepSwtchKeepsFamilies(s: State, p: nat)
    requires Families(s) && WellIndexed(s) && CanSleepSwtch(s, p) && Runner(s, p)
    ensures Families(DoSleepSwtch(s, p))
  {
    OneSame(s, DoSleepSwtch(s, p), p);
  }

  lemma SleepElsewhereKeepsFamilies(s: State, p: nat, n: nat)
    requires Families(s) && WellIndexed(s) && CanSleepElsewhere(s, p)
    ensures Families(DoSleepElsewhere(s, p, n))
  {
    OneSame(s, DoSleepElsewhere(s, p, n), p);
  }

  lemma SleepKeepsFamilies(s: State, p: nat, a: SleepStep)
    requires Core(s) && Families(s) && WellIndexed(s) && CanSleep(s, p, a)
    ensures Families(DoSleep(s, p, a))
  {
    LiveState(s, p);
    match a
    case WaitStart => AcquireKeeps(s, p, WaitScan(0, false));
    case WaitLook(copyFails) => WaitLookKeepsFamilies(s, p, copyFails);
    case WaitEnd => WaitEndKeepsFamilies(s, p);
    case SleepRelease => SleepReleaseKeepsFamilies(s, p);
    case SleepSwtch => SleepSwtchKeepsFamilies(s, p);
    case Reacquired => ReacquiredKeepsFamilies(s, p);
    case SleepElsewhere(n) => SleepElsewhereKeepsFamilies(s, p, n);
  }

  lemma NeverInit(s: State, p: nat)
    requires Progress(s) && p < |s.tasks| && Exiting(s.tasks[p].op)
    ensures p != s.initproc
  {
    assert FamilyOk(s, p);
  }

  lemma ReparentedKeepsFamilies(s: State, p: nat, j: nat, s': State)
    requires Families(s) && Runner(s, p) && s.tasks[p].op == ExitReparent(j) && s.initproc < |s.tasks|
    requires j < |s.tasks| && s.tasks[j].parent == p && s' == Reparented(s, p, j)
    ensures Families(s')
  {
    NeverInit(s, p);
    ReparentedParents(s, p, j);
    ReparentedProgress(s, p, j);
    ReparentedNoneLost(s, p, j);
  }

  lemma ExitOpKeepsFamilies(s: State, p: nat, op: Op, s': State)
    requires Families(s) && Runner(s, p) && s.tasks[p].op.ExitReparent? && s' == WithOp(s, p, op)
    requires ExitGoesOn(s, p, op)
    ensures Families(s')
  {
    ExitOpMembers(s, p, op);
    ExitOpNoneLost(s, p, op);
  }

  /** The scan of reparent has left no child of p among the slots it has passed. */
  lemma ScannedSoFar(s: State, p: nat)
    requires Progress(s) && p < |s.tasks| && s.tasks[p].op.ExitReparent?
    ensures NoChildBelow(s, p, s.tasks[p].op.j)
  {
    assert FamilyOk(s, p);
  }

  lemma ExitPassKeepsFamilies(s: State, p: nat, j: nat, s': State)
    requires Families(s) && Runner(s, p) && s.tasks[p].op == ExitReparent(j)
    requires j < |s.tasks| ==> s.tasks[j].parent != p
    requires s' == WithOp(s, p, if j < |s.tasks| then ExitReparent(j + 1) else ExitWakeParent(0))
    ensures Families(s')
  {
    ScannedSoFar(s, p);
    ExitOpKeepsFamilies(s, p, if j < |s.tasks| then ExitReparent(j + 1) else ExitWakeParent(0), s');
  }

  lemma ExitScanKeepsFamilies(s: State, p: nat, s': State)
    requires Families(s) && Runner(s, p) && s.tasks[p].op.ExitReparent? && s.initproc < |s.tasks|
    requires var j := s.tasks[p].op.j;
      s' == if j < |s.tasks| && s.tasks[j].parent == p then Reparented(s, p, j)
            else WithOp(s, p, if j < |s.tasks| then ExitReparent(j + 1) else ExitWakeParent(0))
    ensures Families(s')
  {
    var j := s.tasks[p].op.j;
    if j < |s.tasks| && s.tasks[j].parent == p {
      ReparentedKeepsFamilies(s, p, j, s');
    } else {
      ExitPassKeepsFamilies(s, p, j, s');
    }
  }

  /** One round of a wakeup loop in exit. */
  lemma WakeRoundKeepsFamilies(s: State, p: nat, op: Op, k: nat, target: Ptr, s': State)
    requires Families(s) && Runner(s, p) && Advance(s.tasks[p].op, op, k) && k < |s.tasks| && s.initproc < |s.tasks|
    requires target == if op.ExitWakeInit? then s.initproc else s.tasks[p].parent
    requires k != p ==> StateOk(s.tasks[k], k) && LockOk(s, k) && s.tasks[k].lock == NULL
    requires s' == WakeRound(s, p, op, k, target)
    ensures Families(s')
  {
    assert FamilyOk(s, p) && ParentOk(s, p);
    assert target >= 0;
    if k == p {
      AdvanceMembers(s, p, op, k, target);
      AdvanceNoneLost(s, p, op, k, target);
    } else {
      // waking first and counting afterwards comes to the same
      var s1 := Woken(s, k, Children(target));
      WokenKeepsFamilies(s, k, Children(target));
      if k == target { WakesWaiter(s, k); }
      AdvanceMembers(s1, p, op, k, target);
      AdvanceNoneLost(s1, p, op, k, target);
      WakeCommutes(s, p, op, k, Children(target));
    }
  }

  lemma WakeCommutes(s: State, p: nat, op: Op, k: nat, chan: Chan)
    requires p < |s.tasks| && k < |s.tasks| && k != p
    ensures WithOp(Woken(s, k, chan), p, op) == Woken(WithOp(s, p, op), k, chan)
  {
    var t := Requeued(s, k).tasks[k];
    assert s.tasks[k := t][p := s.tasks[p].(op := op)] == s.tasks[p := s.tasks[p].(op := op)][k := t];
  }

  lemma WakeDoneKeepsFamilies(s: State, p: nat, s': State)
    requires Families(s) && Runner(s, p) && s.initproc < |s.tasks|
    requires s.tasks[p].op.ExitWakeInit? && s.tasks[p].op.k >= |s.tasks|
    requires s' == WithOp(s, p, ExitReparent(s.tasks[p].op.j + 1))
    ensures Families(s')
  {
    var op := ExitReparent(s.tasks[p].op.j + 1);
    assert FamilyOk(s, p);
    ExitOpMembers(s, p, op);
    ExitOpNoneLost(s, p, op);
  }

  lemma ExitWakeKeepsFamilies(s: State, p: nat)
    requires Core(s) && Families(s) && WellIndexed(s) && CanExitWake(s, p) && Runner(s, p)
    ensures Families(DoExitWake(s, p))
  {
    var op := s.tasks[p].op;
    if op.k >= |s.tasks| {
      WakeDoneForm(s, p);
      WakeDoneKeepsFamilies(s, p, DoExitWake(s, p));
    } else {
      WakeRoundForm(s, p, NextRound(op), Target(s, p));
      assert StateOk(s.tasks[op.k], op.k) && LockOk(s, op.k);
      WakeRoundKeepsFamilies(s, p, NextRound(op), op.k, Target(s, p), DoExitWake(s, p));
    }
  }

  lemma ExitReleaseKeepsFamilies(s: State, p: nat)
    requires Core(s) && Families(s) && WellIndexed(s) && CanExitRelease(s, p)
    ensures Families(DoExitRelease(s, p))
  {
    LiveState(s, p);
    assert FamilyOk(s, p);
    ReleaseMembers(s, p, ExitDone);
    ReleaseNoneLost(s, p, ExitDone);
  }

  lemma ExitSwtchKeepsFamilies(s: State, p: nat)
    requires Families(s) && WellIndexed(s) && CanExitSwtch(s, p)
    ensures Families(DoExitSwtch(s, p))
  {
    OneSame(s, DoExitSwtch(s, p), p);
  }

  lemma ExitKeepsFamilies(s: State, p: nat, a: ExitStep)
    requires Core(s) && Families(s) && WellIndexed(s) && CanExit(s, p, a)
    ensures Families(DoExit(s, p, a))
  {
    LiveState(s, p);
    match a
    case ExitStart => AcquireKeeps(s, p, ExitReparent(0));
    case ExitScan =>
      ExitScanForm(s, p);
      ExitScanKeepsFamilies(s, p, DoExitScan(s, p));
    case ExitWake => ExitWakeKeepsFamilies(s, p);
    case ExitMark => ExitMarkKeepsFamilies(s, p, DoExitMark(s, p).tasks[p]);
    case ExitRelease => ExitReleaseKeepsFamilies(s, p);
    case ExitSwtch => ExitSwtchKeepsFamilies(s, p);
  }

  /** Every step keeps the family invariants. */
  lemma FamiliesKept(s: State, a: Action)
    requires Core(s) && Families(s) && Can(s, a)
    ensures Families(Do(s, a))
  {
    match a
    case Sched(c, b) => SchedKeepsFamilies(s, c, b);
    case Run(p, b) => RunKeepsFamilies(s, p, b);
    case Fork(p, b) => ForkKeepsFamilies(s, p, b);
    case Sleep(p, b) => SleepKeepsFamilies(s, p, b);
    case Exit(p, b) => ExitKeepsFamilies(s, p, b);
    case Tick(p, b) => TickKeepsFamilies(s, p, b);
    case Outside(b) => OutsideKeepsFamilies(s, b);
  }
}
