/** Runs from boot that show what the policy does not do. */
module Witnesses {
  import opened Procs
  import opened Queue
  import opened Weights
  import opened Machine
  import opened CoreInvariant
  import opened Safety
  import opened Window
  import opened Shares
  import opened Preemption

  ghost predicate Reaches(boot: State, run: seq<Action>, s: State) {
    Possible(boot, run) && After(boot, run) == s
  }

  lemma Extend(boot: State, run: seq<Action>, s: State, a: Action)
    requires Reaches(boot, run, s) && Can(s, a)
    ensures Reaches(boot, run + [a], Do(s, a))
  {
    OneStep(s, a);
    Compose(boot, run, s, [a]);
  }

  /** How long init may run when it is first dispatched. */
  function FirstSlice(nproc: nat): nat {
    if Latency(nproc) < MIN_GRANULARITY then MIN_GRANULARITY else Latency(nproc)
  }

  /** init runs alone in user code, or is as far as `op` in forking process 1, which is in state `child`. */
  ghost predicate Early(s: State, op: Op, nice: int, child: ProcState) {
    && Inv(s) && s.cpus == [Cpu(Away(0), 0)] && |s.tasks| >= 2 && s.waitLock == Free && s.rq.entries == []
    && (var t := s.tasks[0];
        && t.state == RUNNING && t.stage == Live && t.op == op && t.lock == NULL && t.cpu == 0
        && t.virtualRuntime == 0 && t.currentRuntime == 0 && t.niceVal == nice && Cap(t) == FirstSlice(|s.tasks|))
    && (var t := s.tasks[1];
        t.state == child && t.lock == NULL && t.op == User && t.virtualRuntime == 0 && t.niceVal == 0)
  }

  lemma InitAlone(boot: State) returns (run: seq<Action>, s: State)
    requires Boot(boot) && |boot.cpus| == 1 && |boot.tasks| >= 2
    ensures Reaches(boot, run, s) && Early(s, User, 0, UNUSED)
  {
    InitRuns(boot);
    BootQueue(boot);
    BootSound(boot);
    run := [Sched(0, Retrieve), Sched(0, Dispatch), Run(0, Release)];
    s := After(boot, run);
    InvAlways(boot, run);
    assert run[1..] == [Sched(0, Dispatch), Run(0, Release)];
    assert run[1..][1..] == [Run(0, Release)];
    assert run[1..][1..][1..] == [];
  }

  lemma NiceStep(s: State)
    requires Early(s, User, 0, UNUSED)
    ensures Can(s, Run(0, SetNice(30))) && Early(Do(s, Run(0, SetNice(30))), User, 30, UNUSED)
    ensures Do(s, Run(0, SetNice(30))).tasks[1] == s.tasks[1]
  {
    CoreIndexed(s);
    InvKept(s, Run(0, SetNice(30)));
  }

  lemma AllocStep(s: State)
    requires Early(s, User, 30, UNUSED)
    ensures Can(s, Fork(0, ForkAlloc(1))) && Early(Do(s, Fork(0, ForkAlloc(1))), ForkAllocated(1), 30, USED)
    ensures Do(s, Fork(0, ForkAlloc(1))).tasks[1].killed == s.tasks[1].killed
  {
    CoreIndexed(s);
    InvKept(s, Fork(0, ForkAlloc(1)));
  }

  lemma ParentStep(s: State)
    requires Early(s, ForkAllocated(1), 30, USED)
    ensures Can(s, Fork(0, ForkParent)) && Early(Do(s, Fork(0, ForkParent)), ForkParented(1), 30, USED)
  {
    CoreIndexed(s);
    InvKept(s, Fork(0, ForkParent));
  }

  lemma ReadyStep(s: State)
    requires Early(s, ForkParented(1), 30, USED)
    ensures Can(s, Fork(0, ForkReady)) && Early(Do(s, Fork(0, ForkReady)), ForkPending(1), 30, RUNNABLE)
  {
    CoreIndexed(s);
    InvKept(s, Fork(0, ForkReady));
  }

  /** init, with the highest effective nice value, runs beside a queued child with the lowest. */
  ghost predicate BesideChild(s: State) {
    && Going(s, 0, Live) && |s.tasks| >= 2 && s.rq.entries == [Entry(1, 0, Weight(0))]
    && s.tasks[0].virtualRuntime == 0 && s.tasks[0].currentRuntime == 0 && s.tasks[0].niceVal == 30
    && Cap(s.tasks[0]) == FirstSlice(|s.tasks|)
  }

  lemma InsertStep(s: State)
    requires Early(s, ForkPending(1), 30, RUNNABLE)
    ensures Can(s, Fork(0, ForkInsert)) && BesideChild(Do(s, Fork(0, ForkInsert)))
  {
    CoreIndexed(s);
    InvKept(s, Fork(0, ForkInsert));
    var s' := Do(s, Fork(0, ForkInsert));
    assert TimeOk(s'.tasks[0], |s'.tasks|);
    assert s'.rq.entries == [Entry(1, 0, Weight(0))];
    assert !Queued(s'.rq.entries, 0);
  }

  lemma ChildBeside(boot: State) returns (run: seq<Action>, s: State)
    requires Boot(boot) && |boot.cpus| == 1 && |boot.tasks| >= 2
    ensures Reaches(boot, run, s) && BesideChild(s)
  {
    run, s := InitAlone(boot);
    NiceStep(s);
    Extend(boot, run, s, Run(0, SetNice(30)));
    run, s := run + [Run(0, SetNice(30))], Do(s, Run(0, SetNice(30)));
    AllocStep(s);
    Extend(boot, run, s, Fork(0, ForkAlloc(1)));
    run, s := run + [Fork(0, ForkAlloc(1))], Do(s, Fork(0, ForkAlloc(1)));
    ParentStep(s);
    Extend(boot, run, s, Fork(0, ForkParent));
    run, s := run + [Fork(0, ForkParent)], Do(s, Fork(0, ForkParent));
    ReadyStep(s);
    Extend(boot, run, s, Fork(0, ForkReady));
    run, s := run + [Fork(0, ForkReady)], Do(s, Fork(0, ForkReady));
    InsertStep(s);
    Extend(boot, run, s, Fork(0, ForkInsert));
    run, s := run + [Fork(0, ForkInsert)], Do(s, Fork(0, ForkInsert));
  }

  lemma MarkStep(s: State)
    requires Early(s, User, 0, UNUSED)
    ensures Can(s, Outside(Kill(1))) && Early(Do(s, Outside(Kill(1))), User, 0, UNUSED)
    ensures Do(s, Outside(Kill(1))).tasks[1].killed
  {
    CoreIndexed(s);
    InvKept(s, Outside(Kill(1)));
  }

  /** A process can be born killed: from every boot with one CPU and two slots, kill can hit the slot before fork
      takes it. */
  lemma BornKilled(boot: State) returns (run: seq<Action>, s: State)
    requires Boot(boot) && |boot.cpus| == 1 && |boot.tasks| >= 2
    ensures Reaches(boot, run, s) && |s.tasks| >= 2 && s.tasks[1].state == USED && s.tasks[1].killed
  {
    run, s := InitAlone(boot);
    MarkStep(s);
    Extend(boot, run, s, Outside(Kill(1)));
    run, s := run + [Outside(Kill(1))], Do(s, Outside(Kill(1)));
    NiceStep(s);
    Extend(boot, run, s, Run(0, SetNice(30)));
    run, s := run + [Run(0, SetNice(30))], Do(s, Run(0, SetNice(30)));
    AllocStep(s);
    Extend(boot, run, s, Fork(0, ForkAlloc(1)));
    run, s := run + [Fork(0, ForkAlloc(1))], Do(s, Fork(0, ForkAlloc(1)));
  }

  /** From every boot with one CPU and two slots, and for every k below the first slice, a yield is reached at which
      the runtime of the running process exceeds the smallest virtual runtime in the tree by k, and which does not
      preempt. */
  lemma AheadByAnything(boot: State, k: nat) returns (run: seq<Action>, s: State)
    requires Boot(boot) && |boot.cpus| == 1 && |boot.tasks| >= 2 && 0 < k < FirstSlice(|boot.tasks|)
    ensures Reaches(boot, run, s) && Can(s, Run(0, Yield(false))) && !CheckPreemption(s, 0)
    ensures s.rq.entries != [] && Runtime(s.tasks[0]) == s.rq.entries[0].key + k
  {
    var before, s1 := ChildBeside(boot);
    var turn;
    turn, s := SpinTo(s1, 0, k);
    YieldEnabled(s, 0);
    Compose(boot, before, s1, turn);
    run := before + turn;
  }

  /** From every boot with one CPU and two slots a window is reached with a process of the smallest weight and one of
      the largest, and their runtimes do not stay in the ratio of their weights. */
  lemma UnequalWeightsReached(boot: State) returns (run: seq<Action>, s: State)
    requires Boot(boot) && |boot.cpus| == 1 && |boot.tasks| >= 2
    ensures Reaches(boot, run, s)
    ensures Opens(s) && AtUser(s) && Queued(s.rq.entries, 0) && Queued(s.rq.entries, 1) && |s.tasks| >= 2
    ensures s.tasks[0].weightVal == 1 && s.tasks[1].weightVal == 819
    ensures forall b: nat :: !StaysInRatio(s, 1, 0, b)
  {
    var before, s1 := ChildBeside(boot);
    var turn;
    turn, s := FinishTurn(s1, 0);
    Compose(boot, before, s1, turn);
    run := before + turn;
    var e := Spent(s1.tasks[0], 0);
    SmallestWeight();
    LargestWeight();
    BothQueued(s, Entry(1, 0, 819), e);
    SharesFollowWeightsExactly(s, 1, 0);
  }

  lemma BothQueued(s: State, a: Entry, b: Entry)
    requires QueueOk(s) && s.rq.entries == StableInsert([a], b)
    ensures Queued(s.rq.entries, a.id) && a.id < |s.tasks| && s.tasks[a.id].weightVal == a.weight
    ensures Queued(s.rq.entries, b.id) && b.id < |s.tasks| && s.tasks[b.id].weightVal == b.weight
  {
    var i := if b.key < a.key then 1 else 0;
    assert s.rq.entries[i] == a && s.rq.entries[1 - i] == b;
  }
}
