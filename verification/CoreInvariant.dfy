/** What every step keeps: lock discipline, the states of processes, who keeps which process, and time accounts. */
module CoreInvariant {
  import opened Procs
  import opened Queue
  import opened Machine

  /** In these situations a process on a CPU holds its own p->lock. */
  ghost predicate HoldsOwn(t: Task) {
    || t.stage == Resumed || t.stage == Yielding
    || (t.stage == Live && (t.op.SleepHeld? || t.op.SleepReady? || t.op == ExitZombie || t.op == ExitDone))
  }

  ghost predicate LockOk(s: State, p: nat)
    requires p < |s.tasks|
  {
    var t := s.tasks[p];
    && (t.stage != Suspended ==> t.cpu < |s.cpus| && s.cpus[t.cpu].sched == Away(p))
    && (HoldsOwn(t) ==> t.lock == t.cpu)
    && (t.lock != NULL ==> 0 <= t.lock < |s.cpus| && (HoldsOwn(t) || s.cpus[t.lock].sched == Back(p)))
  }

  ghost predicate CpuOk(s: State, c: nat)
    requires c < |s.cpus|
  {
    match s.cpus[c].sched
    case Picking => s.cpus[c].proc == NULL
    case Hand(p) => p < |s.tasks| && s.cpus[c].proc == NULL && s.tasks[p].place == InHand(c)
    case Away(p) => p < |s.tasks| && s.cpus[c].proc == p && s.tasks[p].stage != Suspended && s.tasks[p].cpu == c
    case Back(p) => p < |s.tasks| && s.cpus[c].proc == p && s.tasks[p].stage == Suspended && s.tasks[p].lock == c
  }

  /** How state, stage and progress of one process fit together. */
  ghost predicate StateOk(t: Task, p: nat) {
    (!t.op.Asleep? ==> t.chan == Nothing)
    && match t.state
    case UNUSED => t.stage == Suspended && t.op == User && t.lock == NULL
    case USED => t.stage == Suspended && t.op == User && t.lock == NULL
    case SLEEPING => t.stage == Suspended && t.op.Asleep? && t.chan == ChanOf(t.op.cont, p)
    case RUNNABLE =>
      || (t.stage == Yielding && Interruptible(t.op))
      || (t.stage == Suspended && (Interruptible(t.op) || t.op.Asleep?))
    case RUNNING =>
      || (t.stage == Resumed && (Interruptible(t.op) || t.op.Asleep?))
      || (t.stage == Live && !t.op.Asleep? && t.op != ExitZombie && t.op != ExitDone)
      || (t.stage == MustYield && t.op == User)
    case ZOMBIE =>
      || (t.stage == Live && (t.op == ExitZombie || t.op == ExitDone))
      || (t.stage == Suspended && t.op == ExitDone)
  }

  /** Who keeps a process that is RUNNABLE but not running, or newly allocated. */
  ghost predicate PlaceOk(s: State, p: nat)
    requires p < |s.tasks|
  {
    var t := s.tasks[p];
    && (t.state == RUNNABLE <==> t.place.InTree? || t.place.InHand? || t.place.Pending?)
    && (t.state == USED <==> t.place.Embryo?)
    && (t.place == InTree <==> Queued(s.rq.entries, p))
    && (t.place.InHand? ==> t.place.c < |s.cpus| && s.cpus[t.place.c].sched == Hand(p))
    && (t.place.Pending? ==> t.stage == Suspended && t.op == User)
    && (t.place.Pending? ==> t.place.r < |s.tasks| && s.tasks[t.place.r].op == ForkPending(p))
    && (t.place.Embryo? ==> t.place.r < |s.tasks|
                            && (s.tasks[t.place.r].op == ForkAllocated(p) || s.tasks[t.place.r].op == ForkParented(p)))
    && (t.op.ForkPending? ==> t.op.np < |s.tasks| && s.tasks[t.op.np].place == Pending(p))
    && (t.op.ForkAllocated? || t.op.ForkParented? ==> t.op.np < |s.tasks| && s.tasks[t.op.np].place == Embryo(p))
  }

  ghost function Cap(t: Task): int {
    if t.maxExecutionTime < MIN_GRANULARITY then MIN_GRANULARITY else t.maxExecutionTime
  }

  /** The time account of one process: nothing that was charged is lost, and no slice is overrun. */
  ghost predicate Account(t: Task, nproc: nat) {
    && 0 <= t.virtualRuntime && 0 <= t.currentRuntime <= Cap(t) && 0 <= t.maxExecutionTime <= MaxPeriod(nproc)
    && t.virtualRuntime + t.currentRuntime == t.charges
    && t.exits == t.reaps + (if t.state == ZOMBIE then 1 else 0)
  }

  ghost predicate TimeOk(t: Task, nproc: nat) {
    && Account(t, nproc)
    && (t.state == RUNNABLE || t.state == USED ==> t.currentRuntime == 0)
    && (t.place.Embryo? || t.place.Pending? ==> t.virtualRuntime == 0 && t.niceVal == 0)
    && (t.state == RUNNING && t.stage != MustYield ==> t.currentRuntime < Cap(t))
  }

  /** The keys and weights in the tree are those of the processes. */
  ghost predicate QueueOk(s: State) {
    && Sound(s.rq) && s.rq.nproc == |s.tasks|
    && forall i :: 0 <= i < |s.rq.entries| ==>
        var e := s.rq.entries[i];
        s.tasks[e.id].virtualRuntime == e.key && s.tasks[e.id].weightVal == e.weight
  }

  ghost predicate Locks(s: State) {
    && (forall p: nat :: p < |s.tasks| ==> LockOk(s, p))
    && (forall c: nat :: c < |s.cpus| ==> CpuOk(s, c))
  }

  ghost predicate States(s: State) {
    forall p: nat :: p < |s.tasks| ==> StateOk(s.tasks[p], p) && TimeOk(s.tasks[p], |s.tasks|)
  }

  ghost predicate Places(s: State) {
    forall p: nat :: p < |s.tasks| ==> PlaceOk(s, p)
  }

  ghost predicate Core(s: State) {
    s.initproc < |s.tasks| && QueueOk(s) && Locks(s) && States(s) && Places(s)
  }

  lemma CoreIndexed(s: State)
    requires Core(s)
    ensures WellIndexed(s)
  {
    if s.rq.entries != [] {
      DequeueSound(s.rq);
    }
    forall p: nat | p < |s.tasks| ensures s.tasks[p].stage != Suspended ==> s.tasks[p].cpu < |s.cpus| {
      assert LockOk(s, p);
    }
  }

  // ----- frames: what an invariant does not look at may change -----

  ghost predicate SameSize(s: State, s': State) {
    |s'.tasks| == |s.tasks| && |s'.cpus| == |s.cpus|
  }

  ghost predicate SameLock(t: Task, t': Task) {
    && t'.stage == t.stage && t'.cpu == t.cpu && t'.lock == t.lock && HoldsOwn(t') == HoldsOwn(t)
    && (t.place.InHand? || t'.place.InHand? ==> t'.place == t.place)
  }

  lemma LocksSame(s: State, s': State)
    requires Locks(s) && SameSize(s, s') && s'.cpus == s.cpus
    requires forall q: nat :: q < |s.tasks| ==> SameLock(s.tasks[q], s'.tasks[q])
    ensures Locks(s')
  {
    forall q: nat | q < |s.tasks| ensures LockOk(s', q) {
      assert LockOk(s, q) && SameLock(s.tasks[q], s'.tasks[q]);
    }
    forall d: nat | d < |s.cpus| ensures CpuOk(s', d) {
      assert CpuOk(s, d);
      if s.cpus[d].sched != Picking {
        assert SameLock(s.tasks[s.cpus[d].sched.p], s'.tasks[s.cpus[d].sched.p]);
      }
    }
  }

  /** A process on a CPU takes or releases its own lock. */
  lemma LocksTurn(s: State, s': State, p: nat)
    requires Locks(s) && SameSize(s, s') && s'.cpus == s.cpus && p < |s.tasks|
    requires forall q: nat :: q < |s.tasks| && q != p ==> SameLock(s.tasks[q], s'.tasks[q])
    requires s.tasks[p].stage != Suspended && s'.tasks[p].stage != Suspended && s'.tasks[p].cpu == s.tasks[p].cpu
    requires s'.tasks[p].lock == if HoldsOwn(s'.tasks[p]) then s.tasks[p].cpu else NULL
    requires s.tasks[p].place.InHand? || s'.tasks[p].place.InHand? ==> s'.tasks[p].place == s.tasks[p].place
    ensures Locks(s')
  {
    assert LockOk(s, p);
    forall q: nat | q < |s.tasks| ensures LockOk(s', q) {
      assert LockOk(s, q);
    }
    forall d: nat | d < |s.cpus| ensures CpuOk(s', d) {
      assert CpuOk(s, d) && CpuOk(s, s.tasks[p].cpu);
      if s.cpus[d].sched != Picking {
        assert LockOk(s, s.cpus[d].sched.p);
      }
    }
  }

  /** p switches out: its CPU is left to the scheduler with p->lock held. */
  lemma LocksSwitch(s: State, p: nat, t: Task)
    requires Locks(s) && p < |s.tasks| && s.tasks[p].stage != Suspended && HoldsOwn(s.tasks[p])
    requires t.cpu == s.tasks[p].cpu < |s.cpus| && t.lock == s.tasks[p].lock && t.place == s.tasks[p].place
    ensures Locks(SwitchedOut(s, p, t))
  {
    var s' := SwitchedOut(s, p, t);
    assert LockOk(s, p);
    forall q: nat | q < |s.tasks| ensures LockOk(s', q) {
      assert LockOk(s, q);
    }
    forall d: nat | d < |s.cpus| ensures CpuOk(s', d) {
      assert CpuOk(s, d);
      if s.cpus[d].sched != Picking {
        assert LockOk(s, s.cpus[d].sched.p);
      }
    }
  }

  ghost predicate SamePlace(t: Task, t': Task) {
    && t'.place == t.place && (t.place.Pending? ==> t'.stage == t.stage && t'.op == t.op)
    && (t'.state == RUNNABLE <==> t.state == RUNNABLE) && (t'.state == USED <==> t.state == USED)
    && (t'.op == t.op || (!Forking(t.op) && !Forking(t'.op)))
  }

  ghost predicate Forking(op: Op) {
    op.ForkAllocated? || op.ForkParented? || op.ForkPending?
  }

  lemma PlacesSame(s: State, s': State)
    requires Places(s) && SameSize(s, s') && s'.rq.entries == s.rq.entries
    requires forall d: nat :: d < |s.cpus| ==> s.cpus[d].sched.Hand? ==> s'.cpus[d].sched == s.cpus[d].sched
    requires forall q: nat :: q < |s.tasks| ==> SamePlace(s.tasks[q], s'.tasks[q])
    ensures Places(s')
  {
    forall q: nat | q < |s.tasks| ensures PlaceOk(s', q) {
      assert PlaceOk(s, q) && SamePlace(s.tasks[q], s'.tasks[q]);
      var t := s.tasks[q];
      if t.place.Pending? || t.place.Embryo? {
        assert SamePlace(s.tasks[t.place.r], s'.tasks[t.place.r]);
      }
      if Forking(t.op) {
        assert SamePlace(s.tasks[t.op.np], s'.tasks[t.op.np]);
      }
    }
  }

  ghost predicate SameKey(t: Task, t': Task) {
    t'.virtualRuntime == t.virtualRuntime && t'.weightVal == t.weightVal
  }

  lemma QueueSame(s: State, s': State)
    requires QueueOk(s) && SameSize(s, s') && s'.rq == s.rq
    requires forall q: nat :: q < |s.tasks| && Queued(s.rq.entries, q) ==> SameKey(s.tasks[q], s'.tasks[q])
    ensures QueueOk(s')
  {
    forall i | 0 <= i < |s.rq.entries|
      ensures s'.tasks[s.rq.entries[i].id].virtualRuntime == s.rq.entries[i].key
      ensures s'.tasks[s.rq.entries[i].id].weightVal == s.rq.entries[i].weight
    {
      assert Queued(s.rq.entries, s.rq.entries[i].id);
      assert SameKey(s.tasks[s.rq.entries[i].id], s'.tasks[s.rq.entries[i].id]);
    }
  }

  lemma StatesOne(s: State, s': State, p: nat)
    requires States(s) && |s'.tasks| == |s.tasks| && p < |s.tasks|
    requires forall q: nat :: q < |s.tasks| && q != p ==> s'.tasks[q] == s.tasks[q]
    requires StateOk(s'.tasks[p], p) && TimeOk(s'.tasks[p], |s.tasks|)
    ensures States(s')
  {
  }

  // ----- steps of one process that keep it where it is -----

  /** Fields that no core invariant looks at. */
  ghost predicate Irrelevant(t: Task, t': Task) {
    t' == t.(killed := t'.killed, parent := t'.parent, niceVal := t'.niceVal)
  }

  lemma FieldsKeep(s: State, p: nat, t': Task)
    requires Core(s) && p < |s.tasks| && Irrelevant(s.tasks[p], t')
    requires s.tasks[p].place.Embryo? || s.tasks[p].place.Pending? ==> t'.niceVal == s.tasks[p].niceVal
    ensures Core(WithTask(s, p, t'))
  {
    var s' := WithTask(s, p, t');
    LocksSame(s, s');
    PlacesSame(s, s');
    QueueSame(s, s');
    assert StateOk(s.tasks[p], p) && TimeOk(s.tasks[p], |s.tasks|);
    StatesOne(s, s', p);
  }

  /** A running process goes on to op without touching its own lock. */
  lemma OpKeeps(s: State, p: nat, op: Op)
    requires Core(s) && Running(s, p, Live) && s.tasks[p].state == RUNNING
    requires !Forking(op) && !Forking(s.tasks[p].op)
    requires !op.Asleep? && op != ExitZombie && op != ExitDone
    requires HoldsOwn(s.tasks[p].(op := op)) == HoldsOwn(s.tasks[p])
    ensures Core(WithOp(s, p, op))
  {
    var s' := WithOp(s, p, op);
    LocksSame(s, s');
    assert PlaceOk(s, p);
    PlacesSame(s, s');
    QueueSame(s, s');
    assert StateOk(s.tasks[p], p) && TimeOk(s.tasks[p], |s.tasks|);
    StatesOne(s, s', p);
  }

  /** A running process takes its own lock on the way to sleep. */
  lemma BeginSleepKeeps(s: State, p: nat, op: Op)
    requires Core(s) && Running(s, p, Live) && s.tasks[p].state == RUNNING
    requires !Forking(s.tasks[p].op) && (op.SleepHeld? || op.SleepReady?)
    ensures Core(BeginSleep(s, p, op))
  {
    var s' := BeginSleep(s, p, op);
    LocksTurn(s, s', p);
    assert PlaceOk(s, p);
    PlacesSame(s, s');
    QueueSame(s, s');
    assert StateOk(s.tasks[p], p) && TimeOk(s.tasks[p], |s.tasks|);
    StatesOne(s, s', p);
  }

  /** Live processes are RUNNING, or ZOMBIE at the end of exit. */
  lemma LiveState(s: State, p: nat)
    requires Core(s) && Running(s, p, Live)
    ensures s.tasks[p].op != ExitZombie && s.tasks[p].op != ExitDone ==> s.tasks[p].state == RUNNING
    ensures s.tasks[p].op == ExitZombie || s.tasks[p].op == ExitDone ==> s.tasks[p].state == ZOMBIE
    ensures s.tasks[p].place == Nowhere && s.tasks[p].cpu < |s.cpus| && !s.tasks[p].op.Asleep?
  {
    assert StateOk(s.tasks[p], p) && PlaceOk(s, p) && LockOk(s, p);
  }

  lemma FreeLock(s: State, p: nat)
    requires Locks(s) && p < |s.tasks| && s.tasks[p].stage != Suspended && !HoldsOwn(s.tasks[p])
    ensures s.tasks[p].lock == NULL && s.tasks[p].cpu < |s.cpus|
  {
    assert LockOk(s, p);
    assert s.tasks[p].lock == NULL || CpuOk(s, s.tasks[p].lock);
  }
}
