/** The run queue against an independent definition of what it is for: of the processes present, the one with the
    smallest virtual runtime goes first, and among equals the one that came first. */
module Fifo {
  import opened Queue

  /** The processes present, in the order of their arrival, and nothing else about them. */
  type Arrivals = seq<Entry>

  /** The earliest arrival among those with the smallest key. */
  function Earliest(a: Arrivals): (r: nat)
    requires a != []
    ensures r < |a|
    ensures forall j :: 0 <= j < |a| ==> a[r].key <= a[j].key && (j < r ==> a[r].key < a[j].key)
  {
    var n := |a| - 1;
    if n == 0 then 0 else
      var i := Earliest(a[..n]);
      assert forall j :: 0 <= j < n ==> a[..n][j] == a[j];
      if a[n].key < a[i].key then n else i
  }

  function Without(a: Arrivals, i: nat): Arrivals
    requires i < |a|
  {
    a[..i] + a[i + 1..]
  }

  /** What the list in the run queue is, given who arrived when. */
  ghost function Ordered(a: Arrivals): (r: seq<Entry>)
    ensures |r| == |a|
  {
    if a == [] then [] else StableInsert(Ordered(a[..|a| - 1]), a[|a| - 1])
  }

  lemma OrderedArrival(a: Arrivals, e: Entry)
    ensures Ordered(a + [e]) == StableInsert(Ordered(a), e)
  {
    assert (a + [e])[..|a|] == a;
  }

  lemma EarliestArrival(a: Arrivals, e: Entry)
    requires a != []
    ensures Earliest(a + [e]) == if e.key < a[Earliest(a)].key then |a| else Earliest(a)
  {
    assert (a + [e])[..|a|] == a;
  }

  lemma WithoutArrival(a: Arrivals, e: Entry, i: nat)
    requires i <= |a|
    ensures Without(a + [e], i) == if i == |a| then a else Without(a, i) + [e]
  {
  }

  lemma InsertBehindHead(q: seq<Entry>, e: Entry)
    requires q != []
    ensures StableInsert(q, e)[0] == if e.key < q[0].key then e else q[0]
    ensures StableInsert(q, e)[1..] == if e.key < q[0].key then q else StableInsert(q[1..], e)
  {
  }

  lemma HeadAfterArrival(a: Arrivals, e: Entry, i: nat)
    requires a != [] && i == Earliest(a) && Ordered(a)[0] == a[i] && Ordered(a)[1..] == Ordered(Without(a, i))
    ensures Ordered(a + [e])[0] == (a + [e])[Earliest(a + [e])]
    ensures Ordered(a + [e])[1..] == Ordered(Without(a + [e], Earliest(a + [e])))
  {
    OrderedArrival(a, e);
    EarliestArrival(a, e);
    InsertBehindHead(Ordered(a), e);
    WithoutArrival(a, e, Earliest(a + [e]));
    OrderedArrival(Without(a, i), e);
  }

  /** The head of the list is the earliest of the smallest, and the tail is the list of the others. */
  lemma {:induction false} HeadIsEarliest(a: Arrivals)
    requires a != []
    ensures Ordered(a)[0] == a[Earliest(a)]
    ensures Ordered(a)[1..] == Ordered(Without(a, Earliest(a)))
    decreases |a|
  {
    var f, e := a[..|a| - 1], a[|a| - 1];
    assert a == f + [e];
    if f == [] {
      OrderedArrival([], e);
      assert Ordered([]) == [];
    } else {
      HeadIsEarliest(f);
      HeadAfterArrival(f, e, Earliest(f));
    }
  }

  datatype Op = Insert(e: Entry) | Retrieve

  /** Every insertion is one the kernel makes: of a process of the table that is not in the tree. */
  ghost predicate Legal(q: RunQueue, ops: seq<Op>)
    decreases |ops|
  {
    ops != [] ==>
      && (ops[0].Insert? ==> ops[0].e.id < q.nproc && ops[0].e.weight >= 1 && !Queued(q.entries, ops[0].e.id))
      && Legal(Next(q, ops[0]), ops[1..])
  }

  function Next(q: RunQueue, op: Op): RunQueue {
    match op
    case Insert(e) => Enqueue(q, e)
    case Retrieve => if q.entries == [] then q else Dequeue(q)
  }

  /** The processes that a sequence of calls retrieves, as the run queue hands them out. */
  function Served(q: RunQueue, ops: seq<Op>): seq<Entry>
    decreases |ops|
  {
    if ops == [] then []
    else (if ops[0].Retrieve? && q.entries != [] then [q.entries[0]] else []) + Served(Next(q, ops[0]), ops[1..])
  }

  /** The same, by definition of the order: the earliest arrival with the smallest key each time. */
  function Due(a: Arrivals, ops: seq<Op>): seq<Entry>
    decreases |ops|
  {
    if ops == [] then []
    else match ops[0]
      case Insert(e) => Due(a + [e], ops[1..])
      case Retrieve =>
        if a == [] then Due(a, ops[1..])
        else [a[Earliest(a)]] + Due(Without(a, Earliest(a)), ops[1..])
  }

  ghost function Final(q: RunQueue, ops: seq<Op>): RunQueue
    decreases |ops|
  {
    if ops == [] then q else Final(Next(q, ops[0]), ops[1..])
  }

  /** Over any sequence of insertions and retrievals the run queue hands out exactly the processes that are due, in
      that order, and all its cached values stay right. */
  lemma {:induction false} ServesWhoIsDue(q: RunQueue, a: Arrivals, ops: seq<Op>)
    requires Sound(q) && q.entries == Ordered(a) && Legal(q, ops)
    ensures Served(q, ops) == Due(a, ops) && Sound(Final(q, ops))
    decreases |ops|
  {
    if ops != [] {
      var q1 := Next(q, ops[0]);
      match ops[0] {
        case Insert(e) =>
          EnqueueSound(q, e);
          OrderedArrival(a, e);
          ServesWhoIsDue(q1, a + [e], ops[1..]);
        case Retrieve =>
          if a == [] {
            ServesWhoIsDue(q1, a, ops[1..]);
          } else {
            DequeueSound(q);
            HeadIsEarliest(a);
            ServesWhoIsDue(q1, Without(a, Earliest(a)), ops[1..]);
          }
      }
    }
  }

  /** Nobody overtakes: whatever else is inserted and retrieved, a process is served only after everyone who came
      before it with a key that is no larger. In particular, processes with equal keys are served in turn. */
  lemma {:induction false} NobodyOvertakes(a: Arrivals, i: nat, j: nat, ops: seq<Op>)
    requires i < j < |a| && a[i].key <= a[j].key
    requires forall k :: 0 <= k < |a| && k != j ==> a[k].id != a[j].id
    requires forall k :: 0 <= k < |ops| && ops[k].Insert? ==> ops[k].e.id != a[j].id
    requires a[j] in Due(a, ops)
    ensures exists x, y :: 0 <= x < y < |Due(a, ops)| && Due(a, ops)[x] == a[i] && Due(a, ops)[y] == a[j]
    decreases |ops|
  {
    match ops[0] {
      case Insert(e) => NobodyOvertakes(a + [e], i, j, ops[1..]);
      case Retrieve =>
        var r := Earliest(a);
        var rest := Due(Without(a, r), ops[1..]);
        assert Due(a, ops) == [a[r]] + rest;
        if r == i {
          var y :| 0 <= y < |rest| && rest[y] == a[j];
          assert Due(a, ops)[0] == a[i] && Due(a, ops)[y + 1] == a[j];
        } else {
          NobodyOvertakes(Without(a, r), if r < i then i - 1 else i, if r < j then j - 1 else j, ops[1..]);
          var x, y :| 0 <= x < y < |rest| && rest[x] == a[i] && rest[y] == a[j];
          assert Due(a, ops)[x + 1] == a[i] && Due(a, ops)[y + 1] == a[j];
        }
    }
  }
}
