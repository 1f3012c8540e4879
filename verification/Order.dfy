/** The order of dispatch over whole runs of the machine: every CPU that picks gets the process that is due, by the
    independent definition of who that is. */
module Order {
  import opened Queue
  import opened Weights
  import opened Machine
  import opened CoreInvariant
  import CoreSteps
  import opened Safety
  import opened Fifo

  /** What is inserted for process q by a step that leads to s. */
  ghost function EntryOf(s: State, q: nat): Entry
    requires q < |s.tasks|
  {
    Entry(q, s.tasks[q].virtualRuntime, s.tasks[q].weightVal)
  }

  /** The process a step inserts, if it inserts one. */
  ghost predicate InsertsAny(s: State, a: Action)
    requires Can(s, a)
  {
    exists q: nat :: q < |s.tasks| && Inserts(s, a, q)
  }

  ghost predicate IsPick(s: State, a: Action) {
    a.Sched? && a.sched == SchedStep.Retrieve && s.rq.entries != []
  }

  /** The call on the run queue that a step makes: one or none. */
  ghost function Call(s: State, a: Action): seq<Fifo.Op>
    requires Can(s, a)
  {
    if InsertsAny(s, a) then
      var q: nat :| q < |s.tasks| && Inserts(s, a, q);
      [Fifo.Insert(EntryOf(Do(s, a), q))]
    else if IsPick(s, a) then [Fifo.Retrieve]
    else []
  }

  /** The calls of a run, in their order. */
  ghost function Calls(s: State, run: seq<Action>): seq<Fifo.Op>
    requires Possible(s, run)
    decreases |run|
  {
    if run == [] then [] else Call(s, run[0]) + Calls(Do(s, run[0]), run[1..])
  }

  /** The processes that the CPUs pick in a run, in that order. */
  ghost function Picked(s: State, run: seq<Action>): seq<nat>
    requires Possible(s, run)
    decreases |run|
  {
    if run == [] then []
    else (if IsPick(s, run[0]) then [s.rq.entries[0].id] else []) + Picked(Do(s, run[0]), run[1..])
  }

  ghost function Ids(q: seq<Entry>): seq<nat> {
    seq(|q|, i requires 0 <= i < |q| => q[i].id)
  }

  // ----- one step -----

  lemma RunCall(s: State, p: nat, b: RunStep)
    requires WellIndexed(s) && CanRun(s, p, b)
    ensures var s' := DoRun(s, p, b);
      if b == Yield(true) then s'.rq == Enqueue(s.rq, EntryOf(s', p)) else s'.rq == s.rq
  {
  }

  lemma ForkCall(s: State, p: nat, b: ForkStep)
    requires WellIndexed(s) && CanFork(s, p, b) && (b == ForkInsert ==> s.tasks[p].op.np != p)
    ensures var s' := DoFork(s, p, b);
      if b == ForkInsert then s'.rq == Enqueue(s.rq, EntryOf(s', s.tasks[p].op.np)) else s'.rq == s.rq
  {
  }

  lemma ExitCall(s: State, p: nat, b: ExitStep)
    requires WellIndexed(s) && CanExit(s, p, b)
    ensures var s' := DoExit(s, p, b);
      if b == ExitWake && s.tasks[p].op.k < |s.tasks| && Inserts(s, Exit(p, b), s.tasks[p].op.k) then
        s'.rq == Enqueue(s.rq, EntryOf(s', s.tasks[p].op.k))
      else s'.rq == s.rq
  {
    if b == ExitWake {
      if s.tasks[p].op.k >= |s.tasks| {
        CoreSteps.WakeDoneForm(s, p);
      } else {
        CoreSteps.WakeRoundForm(s, p, CoreSteps.NextRound(s.tasks[p].op), CoreSteps.Target(s, p));
      }
    }
  }

  lemma OutsideCall(s: State, b: OtherStep)
    requires WellIndexed(s) && CanOutside(s, b)
    ensures var s' := DoOutside(s, b);
      var q := match b
               case Kill(k) => k
               case WakeElsewhere(k) => k
               case ClockStep => s.clock.k
               case _ => |s.tasks|;
      if q < |s.tasks| && Inserts(s, Outside(b), q) then s'.rq == Enqueue(s.rq, EntryOf(s', q)) else s'.rq == s.rq
  {
  }

  /** A step that inserts q puts q, with its new key and weight, into the run queue. */
  lemma InsertCall(s: State, a: Action, q: nat)
    requires Core(s) && Can(s, a) && q < |s.tasks| && Inserts(s, a, q)
    ensures Do(s, a).rq == Enqueue(s.rq, EntryOf(Do(s, a), q))
  {
    match a
    case Run(p, b) => RunCall(s, p, b);
    case Fork(p, b) =>
      CoreSteps.ForkedSlot(s, p);
      ForkCall(s, p, b);
    case Exit(p, b) => ExitCall(s, p, b);
    case Outside(b) => OutsideCall(s, b);
    case _ =>
  }

  lemma PickCall(s: State, a: Action)
    requires Core(s) && Can(s, a) && IsPick(s, a)
    ensures !InsertsAny(s, a) && Do(s, a).rq == Dequeue(s.rq)
  {
    CoreSteps.HeadRunnable(s);
  }

  lemma CallsListed(s: State, a: Action)
    requires Core(s) && Can(s, a)
    ensures a.Run? && a.run == Yield(true) ==> InsertsAny(s, a)
    ensures a.Fork? && a.fork == ForkInsert ==> InsertsAny(s, a)
  {
    if a.Run? && a.run == Yield(true) {
      assert Inserts(s, a, a.p);
    }
    if a.Fork? && a.fork == ForkInsert {
      CoreSteps.ForkedSlot(s, a.p);
      assert Inserts(s, a, s.tasks[a.p].op.np);
    }
  }

  /** Other steps leave the run queue alone. */
  lemma NoCall(s: State, a: Action)
    requires Core(s) && Can(s, a) && !InsertsAny(s, a) && !IsPick(s, a)
    ensures Do(s, a).rq == s.rq
  {
    CallsListed(s, a);
    match a
    case Sched(c, b) =>
    case Run(p, b) => RunCall(s, p, b);
    case Fork(p, b) => ForkCall(s, p, b);
    case Sleep(p, b) => SleepInsertsNobody(s, p, b);
    case Exit(p, b) => ExitCall(s, p, b);
    case Tick(p, b) =>
    case Outside(b) => OutsideCall(s, b);
  }

  lemma InsertWeighs(s: State, a: Action, q: nat)
    requires Inv(s) && Can(s, a) && q < |s.tasks| && Inserts(s, a, q)
    ensures Do(s, a).tasks[q].weightVal >= 1
  {
    InsertedFits(s, a, q);
    InvKept(s, a);
    var s' := Do(s, a);
    var i :| 0 <= i < |s'.rq.entries| && s'.rq.entries[i].id == q;
    assert s'.tasks[s'.rq.entries[i].id].weightVal == s'.rq.entries[i].weight;
  }

  /** The call of a step is legal, does to the run queue what the step does, and serves whom the step picks. */
  lemma CallFaithful(s: State, a: Action)
    requires Inv(s) && Can(s, a)
    ensures var c := Call(s, a);
      && |c| <= 1 && Legal(s.rq, c) && Final(s.rq, c) == Do(s, a).rq
      && Ids(Served(s.rq, c)) == if IsPick(s, a) then [s.rq.entries[0].id] else []
  {
    if InsertsAny(s, a) {
      var q: nat :| q < |s.tasks| && Inserts(s, a, q) && Call(s, a) == [Fifo.Insert(EntryOf(Do(s, a), q))];
      InsertCall(s, a, q);
      InsertedFits(s, a, q);
      InsertWeighs(s, a, q);
    } else if IsPick(s, a) {
      PickCall(s, a);
    } else {
      NoCall(s, a);
    }
  }

  // ----- whole runs -----

  lemma OneOp(q: RunQueue, op: Fifo.Op)
    ensures Final(q, [op]) == Next(q, op)
    ensures Served(q, [op]) == if op.Retrieve? && q.entries != [] then [q.entries[0]] else []
  {
    assert [op][1..] == [];
    assert Served(Next(q, op), []) == [];
  }

  lemma OpFirst(q: RunQueue, op: Fifo.Op, rest: seq<Fifo.Op>)
    requires Legal(q, [op]) && Legal(Next(q, op), rest)
    ensures Legal(q, [op] + rest) && Final(q, [op] + rest) == Final(Next(q, op), rest)
    ensures Served(q, [op] + rest) == Served(q, [op]) + Served(Next(q, op), rest)
  {
    OneOp(q, op);
    assert ([op] + rest)[0] == op && ([op] + rest)[1..] == rest;
  }

  lemma CallFirst(q: RunQueue, c: seq<Fifo.Op>, rest: seq<Fifo.Op>)
    requires |c| <= 1 && Legal(q, c) && Legal(Final(q, c), rest)
    ensures Legal(q, c + rest) && Final(q, c + rest) == Final(Final(q, c), rest)
    ensures Served(q, c + rest) == Served(q, c) + Served(Final(q, c), rest)
  {
    if c == [] {
      assert c + rest == rest;
    } else {
      assert c == [c[0]];
      OneOp(q, c[0]);
      OpFirst(q, c[0], rest);
    }
  }

  lemma IdsAdd(a: seq<Entry>, b: seq<Entry>)
    ensures Ids(a + b) == Ids(a) + Ids(b)
  {
  }

  /** The calls of a run are legal, take the run queue where the run takes it, and serve whom the CPUs pick. */
  lemma {:induction false} CallsFaithful(s: State, run: seq<Action>)
    requires Inv(s) && Possible(s, run)
    ensures Legal(s.rq, Calls(s, run)) && Final(s.rq, Calls(s, run)) == After(s, run).rq
    ensures Ids(Served(s.rq, Calls(s, run))) == Picked(s, run)
    decreases |run|
  {
    if run == [] {
    } else {
      var c, s1 := Call(s, run[0]), Do(s, run[0]);
      InvKept(s, run[0]);
      CallFaithful(s, run[0]);
      CallsFaithful(s1, run[1..]);
      CallFirst(s.rq, c, Calls(s1, run[1..]));
      IdsAdd(Served(s.rq, c), Served(s1.rq, Calls(s1, run[1..])));
    }
  }

  /** Over every run, on any number of CPUs, the processes picked are those that are due: of all that are in the tree,
      the one with the smallest virtual runtime, and among equals the one inserted first. */
  lemma PickedInOrder(s: State, run: seq<Action>, a: Arrivals)
    requires Inv(s) && Possible(s, run) && s.rq.entries == Ordered(a)
    ensures Picked(s, run) == Ids(Due(a, Calls(s, run)))
  {
    CallsFaithful(s, run);
    ServesWhoIsDue(s.rq, a, Calls(s, run));
  }

  lemma PickedInOrderFromBoot(s: State, run: seq<Action>)
    requires Boot(s) && Possible(s, run)
    ensures Picked(s, run) == Ids(Due([Entry(0, 0, Weight(0))], Calls(s, run)))
  {
    BootSound(s);
    BootQueue(s);
    OrderedArrival([], Entry(0, 0, Weight(0)));
    assert [] + [Entry(0, 0, Weight(0))] == [Entry(0, 0, Weight(0))];
    PickedInOrder(s, run, [Entry(0, 0, Weight(0))]);
  }
}
