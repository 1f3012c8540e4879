/** Every step of the machine keeps the core invariants. */
module CoreSteps {
  import opened Procs
  import opened Queue
  import opened Weights
  import opened Machine
  import opened CoreInvariant

  // ----- insertions -----

  lemma QueuedAfterInsert(q: seq<Entry>, e: Entry, p: nat)
    ensures Queued(StableInsert(q, e), p) <==> Queued(q, p) || p == e.id
  {
    InsertMembers(q, e);
    var r := StableInsert(q, e);
    if Queued(q, p) {
      var i :| 0 <= i < |q| && q[i].id == p;
      assert q[i] in r;
      var j :| 0 <= j < |r| && r[j] == q[i];
    }
    if p == e.id {
      assert e in r;
      var j :| 0 <= j < |r| && r[j] == e;
    }
    if Queued(r, p) {
      var i :| 0 <= i < |r| && r[i].id == p;
      assert r[i] in r;
      if r[i] != e {
        var j :| 0 <= j < |q| && q[j] == r[i];
      }
    }
  }

  /** Inserting an unqueued process whose task agrees with the entry takes effect and keeps the queue right. */
  lemma InsertKeepsQueue(s: State, s': State, e: Entry)
    requires QueueOk(s) && SameSize(s, s') && e.id < |s.tasks| && e.weight >= 1 && !Queued(s.rq.entries, e.id)
    requires s'.rq == Enqueue(s.rq, e) && SameKeys(s, s', e.id)
    requires s'.tasks[e.id].virtualRuntime == e.key && s'.tasks[e.id].weightVal == e.weight
    ensures QueueOk(s') && s.rq.count < s.rq.nproc && s'.rq.entries == StableInsert(s.rq.entries, e)
  {
    EnqueueSound(s.rq, e);
    InsertMembers(s.rq.entries, e);
    forall i | 0 <= i < |s'.rq.entries|
      ensures s'.tasks[s'.rq.entries[i].id].virtualRuntime == s'.rq.entries[i].key
      ensures s'.tasks[s'.rq.entries[i].id].weightVal == s'.rq.entries[i].weight
    {
      var x := s'.rq.entries[i];
      assert x in s'.rq.entries;
      if x != e {
        var j :| 0 <= j < |s.rq.entries| && s.rq.entries[j] == x;
        assert Queued(s.rq.entries, x.id);
      }
    }
  }

  ghost predicate SameKeys(s: State, s': State, p: nat)
    requires SameSize(s, s')
  {
    forall q: nat :: q < |s.tasks| && q != p ==> SameKey(s.tasks[q], s'.tasks[q])
  }

  /** p, which nobody kept, is now kept by the tree. */
  lemma InsertKeepsPlaces(s: State, s': State, p: nat, e: Entry)
    requires Places(s) && SameSize(s, s') && p < |s.tasks| && e.id == p && s'.cpus == s.cpus
    requires s'.rq.entries == StableInsert(s.rq.entries, e)
    requires s.tasks[p].place == Nowhere && s'.tasks[p].place == InTree && s'.tasks[p].state == RUNNABLE
    requires s'.tasks[p].op == s.tasks[p].op
    requires forall q: nat :: q < |s.tasks| && q != p ==> SamePlace(s.tasks[q], s'.tasks[q])
    ensures Places(s')
  {
    assert PlaceOk(s, p);
    forall q: nat | q < |s.tasks| ensures PlaceOk(s', q) {
      assert PlaceOk(s, q);
      QueuedAfterInsert(s.rq.entries, e, q);
    }
  }

  /** A process that nobody keeps, and that is stopped at a proper place, is marked and inserted. */
  lemma RequeuedKeeps(s: State, p: nat)
    requires s.initproc < |s.tasks| && QueueOk(s) && Locks(s) && Places(s) && p < |s.tasks|
    requires forall q: nat :: q < |s.tasks| && q != p ==> StateOk(s.tasks[q], q) && TimeOk(s.tasks[q], |s.tasks|)
    requires s.tasks[p].place == Nowhere && Account(s.tasks[p], |s.tasks|) && s.tasks[p].state != ZOMBIE
    requires !s.tasks[p].op.Asleep? ==> s.tasks[p].chan == Nothing
    requires (s.tasks[p].stage == Yielding && Interruptible(s.tasks[p].op))
             || (s.tasks[p].stage == Suspended && s.tasks[p].op.Asleep?)
    ensures Core(Requeued(s, p))
    ensures s.rq.count < s.rq.nproc && Queued(Requeued(s, p).rq.entries, p)
  {
    var s', t := Requeued(s, p), s.tasks[p];
    var e := Entry(p, t.virtualRuntime + t.currentRuntime, Weight(t.niceVal));
    WeightRange(t.niceVal);
    assert PlaceOk(s, p);
    InsertKeepsQueue(s, s', e);
    QueuedAfterInsert(s.rq.entries, e, p);
    LocksSame(s, s');
    InsertKeepsPlaces(s, s', p, e);
    StatesAt(s, s', p);
  }

  lemma StatesAt(s: State, s': State, p: nat)
    requires |s'.tasks| == |s.tasks| && p < |s.tasks|
    requires forall q: nat :: q < |s.tasks| && q != p ==> StateOk(s.tasks[q], q) && TimeOk(s.tasks[q], |s.tasks|)
    requires forall q: nat :: q < |s.tasks| && q != p ==> s'.tasks[q] == s.tasks[q]
    requires StateOk(s'.tasks[p], p) && TimeOk(s'.tasks[p], |s.tasks|)
    ensures States(s')
  {
  }

  lemma StateParts(s: State)
    requires Core(s)
    ensures forall q: nat :: q < |s.tasks| ==> StateOk(s.tasks[q], q) && TimeOk(s.tasks[q], |s.tasks|)
  {
  }

  lemma SleeperRequeued(s: State, q: nat)
    requires Core(s) && q < |s.tasks| && s.tasks[q].state == SLEEPING
    ensures Core(Requeued(s, q)) && s.rq.count < s.rq.nproc && Queued(Requeued(s, q).rq.entries, q)
  {
    StateParts(s);
    assert PlaceOk(s, q);
    RequeuedKeeps(s, q);
  }

  lemma WokenKeeps(s: State, q: nat, chan: Chan)
    requires Core(s) && q < |s.tasks|
    ensures Core(Woken(s, q, chan))
  {
    if s.tasks[q].state == SLEEPING && s.tasks[q].chan == chan {
      SleeperRequeued(s, q);
    }
  }

  // ----- scheduler steps -----

  lemma QueuedAfterRemoval(q: seq<Entry>, p: nat)
    requires q != [] && Distinct(q)
    ensures Queued(q[1..], p) <==> Queued(q, p) && p != q[0].id
  {
    if Queued(q[1..], p) {
      var i :| 0 <= i < |q[1..]| && q[1..][i].id == p;
      assert q[i + 1].id == p;
    }
    if Queued(q, p) && p != q[0].id {
      var i :| 0 <= i < |q| && q[i].id == p;
      assert q[1..][i - 1].id == p;
    }
  }

  /** The head of the queue is RUNNABLE, so retrieveProcess never refuses it. */
  lemma HeadRunnable(s: State)
    requires Core(s) && s.rq.entries != []
    ensures var p := s.rq.entries[0].id; p < |s.tasks| && s.tasks[p].state == RUNNABLE && s.tasks[p].place == InTree
  {
    var p := s.rq.entries[0].id;
    assert Queued(s.rq.entries, p);
    assert PlaceOk(s, p);
  }

  lemma RetrieveKeeps(s: State, c: nat)
    requires Core(s) && WellIndexed(s) && CanRetrieve(s, c)
    ensures Core(DoRetrieve(s, c))
  {
    if s.rq.entries != [] {
      HeadRunnable(s);
      DequeueSound(s.rq);
      StateParts(s);
      var s', p := DoRetrieve(s, c), s.rq.entries[0].id;
      RetrieveLocks(s, s', c, p);
      RetrievePlaces(s, s', c, p);
      StatesAt(s, s', p);
      forall i | 0 <= i < |s'.rq.entries|
        ensures s'.tasks[s'.rq.entries[i].id].virtualRuntime == s'.rq.entries[i].key
        ensures s'.tasks[s'.rq.entries[i].id].weightVal == s'.rq.entries[i].weight
      {
        assert s'.rq.entries[i] == s.rq.entries[i + 1];
      }
    }
  }

  lemma RetrieveLocks(s: State, s': State, c: nat, p: nat)
    requires Locks(s) && SameSize(s, s') && c < |s.cpus| && s.cpus[c].sched == Picking && p < |s.tasks|
    requires s'.cpus == s.cpus[c := Cpu(Hand(p), NULL)]
    requires s.tasks[p].place == InTree && s'.tasks == s.tasks[p := s'.tasks[p]]
    requires s'.tasks[p] == s.tasks[p].(maxExecutionTime := s'.tasks[p].maxExecutionTime, place := InHand(c))
    ensures Locks(s')
  {
    forall q: nat | q < |s.tasks| ensures LockOk(s', q) {
      assert LockOk(s, q);
    }
    forall d: nat | d < |s.cpus| ensures CpuOk(s', d) {
      assert CpuOk(s, d);
    }
  }

  lemma RetrievePlaces(s: State, s': State, c: nat, p: nat)
    requires Places(s) && SameSize(s, s') && c < |s.cpus| && s.cpus[c].sched == Picking && p < |s.tasks|
    requires Distinct(s.rq.entries) && s.rq.entries != [] && s.rq.entries[0].id == p
    requires s'.rq.entries == s.rq.entries[1..]
    requires s'.cpus == s.cpus[c := Cpu(Hand(p), NULL)]
    requires s.tasks[p].place == InTree && s'.tasks == s.tasks[p := s'.tasks[p]]
    requires s'.tasks[p] == s.tasks[p].(maxExecutionTime := s'.tasks[p].maxExecutionTime, place := InHand(c))
    ensures Places(s')
  {
    forall q: nat | q < |s.tasks| ensures PlaceOk(s', q) {
      assert PlaceOk(s, q) && PlaceOk(s, p);
      QueuedAfterRemoval(s.rq.entries, q);
    }
  }

  /** A process in a dispatcher's hand is RUNNABLE, so the scheduler never finds it in another state. */
  lemma HandRunnable(s: State, c: nat)
    requires Core(s) && c < |s.cpus| && s.cpus[c].sched.Hand?
    ensures var p := s.cpus[c].sched.p; p < |s.tasks| && s.tasks[p].state == RUNNABLE && s.tasks[p].place == InHand(c)
  {
    assert CpuOk(s, c);
    assert PlaceOk(s, s.cpus[c].sched.p);
  }

  lemma DispatchKeeps(s: State, c: nat)
    requires Core(s) && WellIndexed(s) && CanDispatch(s, c)
    ensures Core(DoDispatch(s, c))
  {
    HandRunnable(s, c);
    StateParts(s);
    var s', p := DoDispatch(s, c), s.cpus[c].sched.p;
    DispatchLocks(s, c);
    forall q: nat | q < |s.tasks| ensures PlaceOk(s', q) {
      assert PlaceOk(s, q) && PlaceOk(s, p);
    }
    QueueSame(s, s');
    StatesAt(s, s', p);
  }

  lemma DispatchLocks(s: State, c: nat)
    requires Core(s) && WellIndexed(s) && CanDispatch(s, c)
    ensures Locks(DoDispatch(s, c))
  {
    HandRunnable(s, c);
    var s', p := DoDispatch(s, c), s.cpus[c].sched.p;
    assert LockOk(s, p) && CpuOk(s, c) && StateOk(s.tasks[p], p);
    forall q: nat | q < |s.tasks| ensures LockOk(s', q) {
      assert LockOk(s, q);
    }
    forall d: nat | d < |s.cpus| ensures CpuOk(s', d) {
      assert CpuOk(s, d);
    }
  }

  lemma FinishKeeps(s: State, c: nat)
    requires Core(s) && WellIndexed(s) && CanFinish(s, c)
    ensures Core(DoFinish(s, c))
  {
    var s', p := DoFinish(s, c), s.cpus[c].sched.p;
    FinishLocks(s, c);
    PlacesSame(s, s');
    QueueSame(s, s');
    StateParts(s);
    StatesAt(s, s', p);
  }

  lemma FinishLocks(s: State, c: nat)
    requires Core(s) && WellIndexed(s) && CanFinish(s, c)
    ensures Locks(DoFinish(s, c))
  {
    var s', p := DoFinish(s, c), s.cpus[c].sched.p;
    assert CpuOk(s, c) && LockOk(s, p);
    forall q: nat | q < |s.tasks| ensures LockOk(s', q) {
      assert LockOk(s, q);
    }
    forall d: nat | d < |s.cpus| ensures CpuOk(s', d) {
      assert CpuOk(s, d);
    }
  }

  lemma SchedKeeps(s: State, c: nat, a: SchedStep)
    requires Core(s) && WellIndexed(s) && CanSched(s, c, a)
    ensures Core(DoSched(s, c, a))
  {
    match a
    case Retrieve => RetrieveKeeps(s, c);
    case Dispatch => DispatchKeeps(s, c);
    case Finish => FinishKeeps(s, c);
  }

  // ----- steps of a running process -----

  /** A switch to the scheduler, with the process in a state that may be left. */
  lemma SwitchKeeps(s: State, p: nat, t: Task)
    requires Core(s) && p < |s.tasks| && s.tasks[p].stage != Suspended && HoldsOwn(s.tasks[p]) && t.cpu < |s.cpus|
    requires t == s.tasks[p].(state := t.state, chan := t.chan, op := t.op)
    requires SamePlace(s.tasks[p], t) && StateOk(t.(stage := Suspended), p)
    requires (t.state == ZOMBIE <==> s.tasks[p].state == ZOMBIE) && t.state != RUNNING
    ensures Core(SwitchedOut(s, p, t))
  {
    var s' := SwitchedOut(s, p, t);
    LocksSwitch(s, p, t);
    assert LockOk(s, p);
    assert PlaceOk(s, p);
    PlacesSame(s, s');
    QueueSame(s, s');
    StateParts(s);
    StatesAt(s, s', p);
  }

  lemma ReleaseKeeps(s: State, p: nat)
    requires Core(s) && WellIndexed(s) && CanRelease(s, p)
    ensures Core(DoRelease(s, p))
  {
    var s' := DoRelease(s, p);
    StateParts(s);
    LocksTurn(s, s', p);
    assert PlaceOk(s, p);
    PlacesSame(s, s');
    QueueSame(s, s');
    StatesAt(s, s', p);
  }

  lemma ChargeKeeps(s: State, p: nat)
    requires Core(s) && WellIndexed(s) && CanCharge(s, p)
    ensures Core(DoCharge(s, p))
  {
    var s' := DoCharge(s, p);
    StateParts(s);
    FreeLock(s, p);
    LocksTurn(s, s', p);
    assert PlaceOk(s, p);
    PlacesSame(s, s');
    QueueSame(s, s');
    StatesAt(s, s', p);
  }

  /** Some process in the tree has a smaller virtual runtime than p. */
  ghost predicate SomeoneBehind(s: State, p: nat)
    requires p < |s.tasks|
  {
    exists q: nat :: q < |s.tasks| && Queued(s.rq.entries, q) && s.tasks[q].virtualRuntime < s.tasks[p].virtualRuntime
  }

  lemma HeadIsLeast(s: State, p: nat)
    requires Core(s) && p < |s.tasks|
    ensures SomeoneBehind(s, p) <==> s.rq.entries != [] && s.rq.entries[0].key < s.tasks[p].virtualRuntime
  {
    var es := s.rq.entries;
    if q: nat :| q < |s.tasks| && Queued(es, q) && s.tasks[q].virtualRuntime < s.tasks[p].virtualRuntime {
      var i :| 0 <= i < |es| && es[i].id == q;
      assert s.tasks[es[i].id].virtualRuntime == es[i].key && es[0].key <= es[i].key;
    }
    if es != [] && es[0].key < s.tasks[p].virtualRuntime {
      assert Queued(es, es[0].id) && s.tasks[es[0].id].virtualRuntime == es[0].key;
    }
  }

  /** With the minimum read as it is, checkPreemption compares p with everyone in the tree: it preempts exactly if p has
      used up its slice and the minimum granularity, or if somebody is behind p in virtual runtime and p has run for
      the minimum granularity or has just been picked. */
  lemma PreemptionRule(s: State, p: nat)
    requires Core(s) && WellIndexed(s) && p < |s.tasks|
    ensures CheckPreemption(s, p) <==>
      var t := s.tasks[p];
      || (t.currentRuntime >= t.maxExecutionTime && t.currentRuntime >= 2)
      || (SomeoneBehind(s, p) && (t.currentRuntime == 0 || t.currentRuntime >= 2))
  {
    HeadIsLeast(s, p);
    if s.rq.entries != [] {
      HeadRunnable(s);
      assert s.tasks[s.rq.entries[0].id].virtualRuntime == s.rq.entries[0].key;
    }
  }

  lemma YieldKeeps(s: State, p: nat, preempt: bool)
    requires Core(s) && WellIndexed(s) && CanYield(s, p) && MayReturn(s.tasks[p], preempt)
    ensures Core(DoYield(s, p, preempt))
    ensures preempt ==> s.rq.count < s.rq.nproc && Queued(DoYield(s, p, preempt).rq.entries, p)
  {
    var t := s.tasks[p];
    StateParts(s);
    assert LockOk(s, p) && PlaceOk(s, p);
    if preempt {
      var s1 := WithTask(s, p, t.(lock := t.cpu, stage := Yielding));
      LocksTurn(s, s1, p);
      PlacesSame(s, s1);
      QueueSame(s, s1);
      RequeuedKeeps(s1, p);
    } else {
      var s1 := WithTask(s, p, t.(stage := Live));
      LocksTurn(s, s1, p);
      PlacesSame(s, s1);
      QueueSame(s, s1);
      StatesAt(s, s1, p);
    }
  }

  lemma RunKeeps(s: State, p: nat, a: RunStep)
    requires Core(s) && WellIndexed(s) && CanRun(s, p, a)
    ensures Core(DoRun(s, p, a))
  {
    match a
    case Release => ReleaseKeeps(s, p);
    case Charge => ChargeKeeps(s, p);
    case Yield(preempt) => YieldKeeps(s, p, preempt);
    case YieldSwtch =>
      StateParts(s);
      SwitchKeeps(s, p, s.tasks[p]);
    case SetNice(nice) =>
      assert PlaceOk(s, p) && StateOk(s.tasks[p], p);
      FieldsKeep(s, p, s.tasks[p].(niceVal := nice));
  }

  // ----- fork -----

  /** The slot a forker names is kept by it, off the CPUs, and not the forker itself. */
  lemma ForkedSlot(s: State, p: nat)
    requires Core(s) && Running(s, p, Live) && Forking(s.tasks[p].op)
    ensures var np := s.tasks[p].op.np;
      && np < |s.tasks| && np != p && s.tasks[np].stage == Suspended
      && if s.tasks[p].op.ForkPending? then s.tasks[np].state == RUNNABLE && s.tasks[np].place == Pending(p)
         else s.tasks[np].state == USED && s.tasks[np].place == Embryo(p)
  {
    LiveState(s, p);
    assert PlaceOk(s, p);
    var np := s.tasks[p].op.np;
    assert PlaceOk(s, np) && StateOk(s.tasks[np], np);
  }

  lemma StatesTwo(s: State, s': State, p: nat, q: nat)
    requires States(s) && |s'.tasks| == |s.tasks| && p < |s.tasks| && q < |s.tasks|
    requires forall r: nat :: r < |s.tasks| && r != p && r != q ==> s'.tasks[r] == s.tasks[r]
    requires StateOk(s'.tasks[p], p) && TimeOk(s'.tasks[p], |s.tasks|)
    requires StateOk(s'.tasks[q], q) && TimeOk(s'.tasks[q], |s.tasks|)
    ensures States(s')
  {
  }

  lemma ForkAllocKeeps(s: State, p: nat, np: nat)
    requires Core(s) && WellIndexed(s) && CanForkAlloc(s, p, np)
    ensures Core(DoForkAlloc(s, p, np))
  {
    var s' := DoForkAlloc(s, p, np);
    LiveState(s, p);
    StateParts(s);
    assert PlaceOk(s, np);
    LocksSame(s, s');
    QueueSame(s, s');
    StatesTwo(s, s', p, np);
    ForkPlaces(s, s', p, np);
  }

  /** A forker p and its slot np move on together; every other process stays where it is. */
  lemma ForkPlaces(s: State, s': State, p: nat, np: nat)
    requires Places(s) && SameSize(s, s') && p < |s.tasks| && np < |s.tasks| && p != np
    requires s'.cpus == s.cpus && forall q: nat :: q < |s.tasks| && q != p && q != np ==> s'.tasks[q] == s.tasks[q]
    requires forall q: nat :: q < |s.tasks| && q != np ==> (Queued(s'.rq.entries, q) <==> Queued(s.rq.entries, q))
    requires Queued(s'.rq.entries, np) <==> s'.tasks[np].place == InTree
    requires Kept(s.tasks[np], s.tasks[p].op, p, np) && Kept(s'.tasks[np], s'.tasks[p].op, p, np)
    requires s'.tasks[p] == s.tasks[p].(op := s'.tasks[p].op) && s.tasks[p].place == Nowhere
    ensures Places(s')
  {
    forall q: nat | q < |s.tasks| ensures PlaceOk(s', q) {
      assert PlaceOk(s, q) && PlaceOk(s, p) && PlaceOk(s, np);
    }
  }

  /** How a forker's progress and the place of its slot go together. */
  ghost predicate Kept(t: Task, op: Op, p: nat, np: nat) {
    && t.op == User
    && match t.place
       case Nowhere => t.state != USED && t.state != RUNNABLE && op == User
       case Embryo(r) => t.state == USED && r == p && (op == ForkAllocated(np) || op == ForkParented(np))
       case Pending(r) => t.state == RUNNABLE && r == p && op == ForkPending(np) && t.stage == Suspended
       case InTree => t.state == RUNNABLE && op == User
       case InHand(_) => false
  }

  lemma ForkParentKeeps(s: State, p: nat)
    requires Core(s) && WellIndexed(s) && CanForkParent(s, p)
    ensures Core(DoForkParent(s, p))
  {
    ForkedSlot(s, p);
    LiveState(s, p);
    StateParts(s);
    var np, s' := s.tasks[p].op.np, DoForkParent(s, p);
    LocksSame(s, s');
    QueueSame(s, s');
    StatesTwo(s, s', p, np);
    assert PlaceOk(s, np);
    ForkPlaces(s, s', p, np);
  }

  lemma ForkReadyKeeps(s: State, p: nat)
    requires Core(s) && WellIndexed(s) && CanForkReady(s, p)
    ensures Core(DoForkReady(s, p))
  {
    ForkedSlot(s, p);
    LiveState(s, p);
    StateParts(s);
    var np, s' := s.tasks[p].op.np, DoForkReady(s, p);
    LocksSame(s, s');
    QueueSame(s, s');
    StatesTwo(s, s', p, np);
    assert PlaceOk(s, np);
    ForkPlaces(s, s', p, np);
  }

  lemma ForkInsertKeeps(s: State, p: nat)
    requires Core(s) && WellIndexed(s) && CanForkInsert(s, p)
    ensures Core(DoForkInsert(s, p))
    ensures s.rq.count < s.rq.nproc && Queued(DoForkInsert(s, p).rq.entries, s.tasks[p].op.np)
  {
    ForkedSlot(s, p);
    LiveState(s, p);
    StateParts(s);
    var np, s' := s.tasks[p].op.np, DoForkInsert(s, p);
    var e := Entry(np, s.tasks[np].virtualRuntime, Weight(s.tasks[np].niceVal));
    assert PlaceOk(s, np);
    WeightRange(s.tasks[np].niceVal);
    InsertKeepsQueue(s, s', e);
    LocksSame(s, s');
    StatesTwo(s, s', p, np);
    forall q: nat ensures Queued(s'.rq.entries, q) <==> Queued(s.rq.entries, q) || q == np {
      QueuedAfterInsert(s.rq.entries, e, q);
    }
    ForkPlaces(s, s', p, np);
  }

  lemma ForkKeeps(s: State, p: nat, a: ForkStep)
    requires Core(s) && WellIndexed(s) && CanFork(s, p, a)
    ensures Core(DoFork(s, p, a))
  {
    match a
    case ForkAlloc(np) => ForkAllocKeeps(s, p, np);
    case ForkParent => ForkParentKeeps(s, p);
    case ForkReady => ForkReadyKeeps(s, p);
    case ForkInsert => ForkInsertKeeps(s, p);
  }

  // ----- wait, sleep, exit -----

  /** The locks of wait and sys_sleep and the clock are not part of the core. */
  lemma OtherLocksKeep(s: State, waitLock: Holder, ticksLock: Holder, clock: Clock, ticks: nat)
    requires Core(s)
    ensures Core(s.(waitLock := waitLock, ticksLock := ticksLock, clock := clock, ticks := ticks))
  {
    var s' := s.(waitLock := waitLock, ticksLock := ticksLock, clock := clock, ticks := ticks);
    LocksSame(s, s');
    PlacesSame(s, s');
  }

  lemma ReapKeeps(s: State, i: nat)
    requires Core(s) && i < |s.tasks| && s.tasks[i].state == ZOMBIE && s.tasks[i].lock == NULL
    ensures Core(WithTask(s, i, Freed(s.tasks[i]))) && s.tasks[i].stage == Suspended
  {
    var s' := WithTask(s, i, Freed(s.tasks[i]));
    StateParts(s);
    assert LockOk(s, i);
    LocksSame(s, s');
    assert PlaceOk(s, i);
    PlacesSame(s, s');
    QueueSame(s, s');
    StatesOne(s, s', i);
  }

  /** The two outcomes of a look at slot i in wait. */
  lemma WaitLookForm(s: State, p: nat, copyFails: bool)
    requires WellIndexed(s) && CanWaitLook(s, p)
    ensures var i := s.tasks[p].op.i;
      DoWaitLook(s, p, copyFails) ==
        if s.tasks[i].parent == p && s.tasks[i].state == ZOMBIE then WaitReturn(s, p, i, copyFails)
        else WithOp(s, p, WaitScan(i + 1, s.tasks[p].op.kids || s.tasks[i].parent == p))
  {
  }

  lemma WaitLookKeeps(s: State, p: nat, copyFails: bool)
    requires Core(s) && WellIndexed(s) && CanWaitLook(s, p)
    ensures Core(DoWaitLook(s, p, copyFails))
  {
    LiveState(s, p);
    WaitLookForm(s, p, copyFails);
    var i := s.tasks[p].op.i;
    if s.tasks[i].parent == p && s.tasks[i].state == ZOMBIE {
      WaitReturnKeeps(s, p, i, copyFails, DoWaitLook(s, p, copyFails));
    } else {
      OpKeepsTo(s, p, WaitScan(i + 1, s.tasks[p].op.kids || s.tasks[i].parent == p), DoWaitLook(s, p, copyFails));
    }
  }

  lemma OpKeepsTo(s: State, p: nat, op: Op, s': State)
    requires Core(s) && Running(s, p, Live) && s.tasks[p].state == RUNNING && s' == WithOp(s, p, op)
    requires !Forking(op) && !Forking(s.tasks[p].op)
    requires !op.Asleep? && op != ExitZombie && op != ExitDone
    requires HoldsOwn(s.tasks[p].(op := op)) == HoldsOwn(s.tasks[p])
    ensures Core(s')
  {
    OpKeeps(s, p, op);
  }

  lemma WaitReturnKeeps(s: State, p: nat, i: nat, copyFails: bool, s': State)
    requires Core(s) && Running(s, p, Live) && s.tasks[p].op.WaitScan?
    requires i < |s.tasks| && s.tasks[i].state == ZOMBIE && s.tasks[i].lock == NULL
    requires s' == WaitReturn(s, p, i, copyFails)
    ensures Core(s')
  {
    LiveState(s, p);
    var s1 := if copyFails then s else WithTask(s, i, Freed(s.tasks[i]));
    ReapKeeps(s, i);
    OpKeeps(s1, p, User);
    OtherLocksKeep(WithOp(s1, p, User), Free, s1.ticksLock, s1.clock, s1.ticks);
  }

  lemma WaitEndKeeps(s: State, p: nat)
    requires Core(s) && WellIndexed(s) && CanWaitEnd(s, p)
    ensures Core(DoWaitEnd(s, p))
  {
    LiveState(s, p);
    if !s.tasks[p].op.kids || s.tasks[p].killed {
      OpKeeps(s, p, User);
      OtherLocksKeep(WithOp(s, p, User), Free, s.ticksLock, s.clock, s.ticks);
    } else {
      BeginSleepKeeps(s, p, SleepHeld(WaitLoop));
    }
  }

  lemma ReacquiredKeeps(s: State, p: nat)
    requires Core(s) && WellIndexed(s) && CanReacquired(s, p)
    ensures Core(DoReacquired(s, p))
  {
    LiveState(s, p);
    var s1 := DoReacquired(s, p);
    var op := s1.tasks[p].op;
    OpKeeps(s, p, op);
    OtherLocksKeep(WithOp(s, p, op), s1.waitLock, s1.ticksLock, s.clock, s.ticks);
  }

  lemma SleepReleaseKeeps(s: State, p: nat)
    requires Core(s) && WellIndexed(s) && CanSleepRelease(s, p)
    ensures Core(DoSleepRelease(s, p))
  {
    LiveState(s, p);
    var s1 := WithOp(s, p, SleepReady(s.tasks[p].op.cont));
    OpKeeps(s, p, SleepReady(s.tasks[p].op.cont));
    OtherLocksKeep(s1, DoSleepRelease(s, p).waitLock, DoSleepRelease(s, p).ticksLock, s.clock, s.ticks);
  }

  lemma SleepSwtchKeeps(s: State, p: nat)
    requires Core(s) && WellIndexed(s) && CanSleepSwtch(s, p)
    ensures Core(DoSleepSwtch(s, p))
  {
    LiveState(s, p);
    var t := s.tasks[p];
    SwitchKeeps(s, p, t.(state := SLEEPING, chan := ChanOf(t.op.cont, p), op := Asleep(t.op.cont)));
  }

  lemma SleepKeeps(s: State, p: nat, a: SleepStep)
    requires Core(s) && WellIndexed(s) && CanSleep(s, p, a)
    ensures Core(DoSleep(s, p, a))
  {
    LiveState(s, p);
    match a
    case WaitStart =>
      OpKeeps(s, p, WaitScan(0, false));
      OtherLocksKeep(WithOp(s, p, WaitScan(0, false)), ByTask(p), s.ticksLock, s.clock, s.ticks);
    case WaitLook(copyFails) => WaitLookKeeps(s, p, copyFails);
    case WaitEnd => WaitEndKeeps(s, p);
    case SleepRelease => SleepReleaseKeeps(s, p);
    case SleepSwtch => SleepSwtchKeeps(s, p);
    case Reacquired => ReacquiredKeeps(s, p);
    case SleepElsewhere(n) => BeginSleepKeeps(s, p, SleepReady(Elsewhere(n)));
  }

  lemma ReparentKeeps(s: State, p: nat, j: nat, s': State)
    requires Core(s) && Running(s, p, Live) && s.tasks[p].op.ExitReparent? && j < |s.tasks| && s' == Reparented(s, p, j)
    ensures Core(s')
  {
    LiveState(s, p);
    FieldsKeep(s, j, s.tasks[j].(parent := s.initproc));
    OpKeeps(WithTask(s, j, s.tasks[j].(parent := s.initproc)), p, ExitWakeInit(j, 0));
  }

  lemma ExitScanForm(s: State, p: nat)
    requires WellIndexed(s) && CanExitScan(s, p)
    ensures var j := s.tasks[p].op.j;
      DoExitScan(s, p) ==
        if j < |s.tasks| && s.tasks[j].parent == p then Reparented(s, p, j)
        else WithOp(s, p, if j < |s.tasks| then ExitReparent(j + 1) else ExitWakeParent(0))
  {
  }

  lemma ExitScanKeeps(s: State, p: nat)
    requires Core(s) && WellIndexed(s) && CanExitScan(s, p)
    ensures Core(DoExitScan(s, p))
  {
    LiveState(s, p);
    ExitScanForm(s, p);
    var j := s.tasks[p].op.j;
    if j < |s.tasks| && s.tasks[j].parent == p {
      ReparentKeeps(s, p, j, DoExitScan(s, p));
    } else {
      OpKeepsTo(s, p, if j < |s.tasks| then ExitReparent(j + 1) else ExitWakeParent(0), DoExitScan(s, p));
    }
  }

  /** The loop counters of the two wakeup loops of exit. */
  ghost predicate Advance(op: Op, op': Op, k: nat) {
    || (op.ExitWakeInit? && op.k == k && op' == ExitWakeInit(op.j, k + 1))
    || (op == ExitWakeParent(k) && op' == ExitWakeParent(k + 1))
  }

  /** What a round of exit's wakeups is, and that its slot can be inspected. */
  lemma WakeRoundForm(s: State, p: nat, op: Op, target: Ptr)
    requires WellIndexed(s) && CanExitWake(s, p)
    requires s.tasks[p].op.k < |s.tasks| && Advance(s.tasks[p].op, op, s.tasks[p].op.k)
    requires target == if op.ExitWakeInit? then s.initproc else s.tasks[p].parent
    ensures s.tasks[p].op.k != p ==> Unlocked(s, s.tasks[p].op.k)
    ensures DoExitWake(s, p) == WakeRound(s, p, op, s.tasks[p].op.k, target)
  {
  }

  lemma WakeDoneForm(s: State, p: nat)
    requires WellIndexed(s) && CanExitWake(s, p) && s.tasks[p].op.k >= |s.tasks|
    ensures s.tasks[p].op.ExitWakeInit? && DoExitWake(s, p) == WithOp(s, p, ExitReparent(s.tasks[p].op.j + 1))
  {
  }

  /** The progress of exit after a round of its wakeups, and whom the round is meant to wake. */
  ghost function NextRound(op: Op): Op
    requires op.ExitWakeInit? || op.ExitWakeParent?
  {
    if op.ExitWakeInit? then ExitWakeInit(op.j, op.k + 1) else ExitWakeParent(op.k + 1)
  }

  ghost function Target(s: State, p: nat): Ptr
    requires p < |s.tasks|
  {
    if s.tasks[p].op.ExitWakeInit? then s.initproc else s.tasks[p].parent
  }

  lemma WakeRoundKeeps(s: State, p: nat, op: Op, k: nat, target: Ptr, s': State)
    requires Core(s) && Running(s, p, Live) && (s.tasks[p].op.ExitWakeInit? || s.tasks[p].op.ExitWakeParent?)
    requires k < |s.tasks| && (op.ExitWakeInit? || op.ExitWakeParent?) && s' == WakeRound(s, p, op, k, target)
    ensures Core(s')
  {
    LiveState(s, p);
    OpKeeps(s, p, op);
    if target >= 0 {
      WokenKeeps(WithOp(s, p, op), k, Children(target));
    }
  }

  lemma ExitWakeKeeps(s: State, p: nat)
    requires Core(s) && WellIndexed(s) && CanExitWake(s, p)
    ensures Core(DoExitWake(s, p))
  {
    LiveState(s, p);
    var op := s.tasks[p].op;
    if op.k >= |s.tasks| {
      WakeDoneForm(s, p);
      OpKeepsTo(s, p, ExitReparent(op.j + 1), DoExitWake(s, p));
    } else {
      WakeRoundForm(s, p, NextRound(op), Target(s, p));
      WakeRoundKeeps(s, p, NextRound(op), op.k, Target(s, p), DoExitWake(s, p));
    }
  }

  lemma ExitMarkKeeps(s: State, p: nat)
    requires Core(s) && WellIndexed(s) && CanExitMark(s, p)
    ensures Core(DoExitMark(s, p))
  {
    LiveState(s, p);
    StateParts(s);
    var s' := DoExitMark(s, p);
    LocksTurn(s, s', p);
    PlacesSame(s, s');
    QueueSame(s, s');
    StatesOne(s, s', p);
  }

  lemma ExitReleaseKeeps(s: State, p: nat)
    requires Core(s) && WellIndexed(s) && CanExitRelease(s, p)
    ensures Core(DoExitRelease(s, p))
  {
    LiveState(s, p);
    StateParts(s);
    var s' := DoExitRelease(s, p);
    LocksSame(s, s');
    PlacesSame(s, s');
    QueueSame(s, s');
    StatesOne(s, s', p);
  }

  lemma ExitKeeps(s: State, p: nat, a: ExitStep)
    requires Core(s) && WellIndexed(s) && CanExit(s, p, a)
    ensures Core(DoExit(s, p, a))
  {
    LiveState(s, p);
    match a
    case ExitStart =>
      OpKeeps(s, p, ExitReparent(0));
      OtherLocksKeep(WithOp(s, p, ExitReparent(0)), ByTask(p), s.ticksLock, s.clock, s.ticks);
    case ExitScan => ExitScanKeeps(s, p);
    case ExitWake => ExitWakeKeeps(s, p);
    case ExitMark => ExitMarkKeeps(s, p);
    case ExitRelease => ExitReleaseKeeps(s, p);
    case ExitSwtch =>
      StateParts(s);
      SwitchKeeps(s, p, s.tasks[p]);
  }

  // ----- sys_sleep, kill and the clock -----

  lemma TickTestKeeps(s: State, p: nat)
    requires Core(s) && WellIndexed(s) && CanTickTest(s, p)
    ensures Core(DoTickTest(s, p))
  {
    LiveState(s, p);
    var n, ticks0 := s.tasks[p].op.n, s.tasks[p].op.ticks0;
    if Elapsed(s.ticks, ticks0) < n && !s.tasks[p].killed {
      BeginSleepKeeps(s, p, SleepHeld(TickLoop(n, ticks0, s.ticks)));
    } else {
      OpKeeps(s, p, User);
      OtherLocksKeep(WithOp(s, p, User), s.waitLock, Free, s.clock, s.ticks);
    }
  }

  lemma TickKeeps(s: State, p: nat, a: TickStep)
    requires Core(s) && WellIndexed(s) && CanTick(s, p, a)
    ensures Core(DoTick(s, p, a))
  {
    LiveState(s, p);
    match a
    case TickStart(arg) =>
      var op := TickCheck(if arg < 0 then 0 else arg, s.ticks);
      OpKeeps(s, p, op);
      OtherLocksKeep(WithOp(s, p, op), s.waitLock, ByTask(p), s.clock, s.ticks);
    case TickTest => TickTestKeeps(s, p);
  }

  lemma KillKeeps(s: State, q: nat)
    requires Core(s) && WellIndexed(s) && CanKill(s, q)
    ensures Core(DoKill(s, q))
  {
    FieldsKeep(s, q, s.tasks[q].(killed := true));
    if s.tasks[q].state == SLEEPING {
      SleeperRequeued(WithTask(s, q, s.tasks[q].(killed := true)), q);
    }
  }

  lemma OutsideKeeps(s: State, a: OtherStep)
    requires Core(s) && WellIndexed(s) && CanOutside(s, a)
    ensures Core(DoOutside(s, a))
  {
    match a
    case Kill(q) => KillKeeps(s, q);
    case WakeElsewhere(q) => WokenKeeps(s, q, s.tasks[q].chan);
    case ClockTick => OtherLocksKeep(s, s.waitLock, ByClock, ClockWake(0), s.ticks + 1);
    case ClockStep =>
      WokenKeeps(s, s.clock.k, Ticks);
      var s1 := Woken(s, s.clock.k, Ticks);
      OtherLocksKeep(s1, s1.waitLock, s1.ticksLock, ClockWake(s.clock.k + 1), s1.ticks);
    case ClockEnd => OtherLocksKeep(s, s.waitLock, Free, ClockIdle, s.ticks);
  }

  /** Every step keeps the core invariants. */
  lemma CoreKept(s: State, a: Action)
    requires Core(s) && Can(s, a)
    ensures Core(Do(s, a))
  {
    match a
    case Sched(c, b) => SchedKeeps(s, c, b);
    case Run(p, b) => RunKeeps(s, p, b);
    case Fork(p, b) => ForkKeeps(s, p, b);
    case Sleep(p, b) => SleepKeeps(s, p, b);
    case Exit(p, b) => ExitKeeps(s, p, b);
    case Tick(p, b) => TickKeeps(s, p, b);
    case Outside(b) => OutsideKeeps(s, b);
  }
}
