/** The run queue as its callers see it: the processes in the order they will be dispatched. */
module Queue {
  import opened Numbers

  /** One queued process: who it is, its frozen virtual runtime, and the weight cached at insertion. */
  datatype Entry = Entry(id: nat, key: int, weight: int)

  ghost predicate Sorted(q: seq<Entry>) {
    forall i, j :: 0 <= i < j < |q| ==> q[i].key <= q[j].key
  }

  ghost predicate AllAtMost(q: seq<Entry>, key: int) {
    forall i :: 0 <= i < |q| ==> q[i].key <= key
  }

  /** Puts e in front of the first entry with a strictly larger key. */
  function StableInsert(q: seq<Entry>, e: Entry): (r: seq<Entry>)
    ensures |r| == |q| + 1
  {
    if q == [] then [e]
    else if e.key < q[0].key then [e] + q
    else [q[0]] + StableInsert(q[1..], e)
  }

  lemma {:induction false} InsertSkips(a: seq<Entry>, b: seq<Entry>, e: Entry)
    requires AllAtMost(a, e.key)
    ensures StableInsert(a + b, e) == a + StableInsert(b, e)
  {
    if a == [] {
      assert a + b == b;
    } else {
      assert (a + b)[1..] == a[1..] + b;
      InsertSkips(a[1..], b, e);
    }
  }

  lemma {:induction false} InsertStops(a: seq<Entry>, b: seq<Entry>, e: Entry)
    requires b != [] && e.key < b[0].key
    ensures StableInsert(a + b, e) == StableInsert(a, e) + b
  {
    if a == [] {
      assert a + b == b;
    } else {
      assert (a + b)[1..] == a[1..] + b;
      InsertStops(a[1..], b, e);
      if e.key >= a[0].key {
        assert [a[0]] + (StableInsert(a[1..], e) + b) == ([a[0]] + StableInsert(a[1..], e)) + b;
      } else {
        assert [e] + (a + b) == ([e] + a) + b;
      }
    }
  }

  // ----- the run queue with its aggregates -----

  const MIN_GRANULARITY := 2

  function Latency(nproc: nat): nat {
    nproc / 2
  }

  /** The list, and the cached values struct RBTree keeps beside it. */
  datatype RunQueue = RunQueue(nproc: nat, entries: seq<Entry>, count: int, treeWeight: int, period: int)

  function TotalWeight(q: seq<Entry>): int {
    if q == [] then 0 else q[0].weight + TotalWeight(q[1..])
  }

  ghost predicate Distinct(q: seq<Entry>) {
    forall i, j :: 0 <= i < j < |q| ==> q[i].id != q[j].id
  }

  ghost predicate Queued(q: seq<Entry>, p: nat) {
    exists i :: 0 <= i < |q| && q[i].id == p
  }

  function MaxPeriod(nproc: nat): nat {
    if Latency(nproc) < nproc * MIN_GRANULARITY then nproc * MIN_GRANULARITY else Latency(nproc)
  }

  /** insertProcess: nothing happens at capacity. */
  function Enqueue(q: RunQueue, e: Entry): RunQueue {
    if q.count == q.nproc then q
    else q.(entries := StableInsert(q.entries, e), count := q.count + 1, treeWeight := q.treeWeight + e.weight)
  }

  /** The period retrieveProcess works with: stretched when there are many processes, never reset. */
  function Stretched(q: RunQueue): int {
    if q.count > Latency(q.nproc) / MIN_GRANULARITY then q.count * MIN_GRANULARITY else q.period
  }

  /** retrieveProcess on a non-empty queue whose head is runnable. */
  function Dequeue(q: RunQueue): RunQueue
    requires q.entries != []
  {
    q.(entries := q.entries[1..], count := q.count - 1, treeWeight := q.treeWeight - q.entries[0].weight,
       period := Stretched(q))
  }

  /** The time slice of the process that Dequeue takes out. */
  function Slice(q: RunQueue): int
    requires q.entries != [] && q.treeWeight != 0
  {
    Stretched(q) * q.entries[0].weight / q.treeWeight
  }

  /** What every run queue satisfies at all times. */
  ghost predicate Sound(q: RunQueue) {
    && Sorted(q.entries) && Distinct(q.entries)
    && (forall i :: 0 <= i < |q.entries| ==> q.entries[i].id < q.nproc && q.entries[i].weight >= 1)
    && q.count == |q.entries| && q.treeWeight == TotalWeight(q.entries)
    && Latency(q.nproc) <= q.period <= MaxPeriod(q.nproc)
  }

  lemma {:induction false} InsertSplits(q: seq<Entry>, e: Entry) returns (i: nat)
    ensures i <= |q| && StableInsert(q, e) == q[..i] + [e] + q[i..]
    ensures AllAtMost(q[..i], e.key) && (i < |q| ==> e.key < q[i].key)
  {
    if q == [] || e.key < q[0].key {
      i := 0;
    } else {
      var j := InsertSplits(q[1..], e);
      i := j + 1;
      assert q[..i] == [q[0]] + q[1..][..j];
      assert q[1..][j..] == q[i..];
    }
  }

  lemma {:induction false} WeightsAdd(a: seq<Entry>, b: seq<Entry>)
    ensures TotalWeight(a + b) == TotalWeight(a) + TotalWeight(b)
  {
    if a == [] {
      assert a + b == b;
    } else {
      assert (a + b)[1..] == a[1..] + b;
      WeightsAdd(a[1..], b);
    }
  }

  lemma {:induction false} WeightAtLeastLength(q: seq<Entry>)
    requires forall i :: 0 <= i < |q| ==> q[i].weight >= 1
    ensures TotalWeight(q) >= |q|
  {
    if q != [] {
      WeightAtLeastLength(q[1..]);
    }
  }

  /** Distinct processes below n: at most n of them, and n of them only if all are queued. */
  lemma {:induction false} Pigeonhole(q: seq<Entry>, n: nat)
    requires Distinct(q) && forall i :: 0 <= i < |q| ==> q[i].id < n
    ensures |q| <= n
    ensures forall p: nat {:trigger Queued(q, p)} :: p < n && !Queued(q, p) ==> |q| < n
  {
    var ids := set i | 0 <= i < |q| :: q[i].id;
    IdsCount(q);
    CountSubset(ids, Below(n));
    forall p: nat | p < n && !Queued(q, p) ensures |q| < n {
      CountSubset(ids, Below(n) - {p});
    }
  }

  lemma {:induction false} IdsCount(q: seq<Entry>)
    requires Distinct(q)
    ensures |set i | 0 <= i < |q| :: q[i].id| == |q|
  {
    if q != [] {
      var last, front := q[|q| - 1], q[..|q| - 1];
      IdsCount(front);
      assert (set i | 0 <= i < |q| :: q[i].id) == (set i | 0 <= i < |front| :: front[i].id) + {last.id};
    }
  }

  ghost function Below(n: nat): (r: set<nat>)
    ensures |r| == n
    ensures forall p: nat :: p in r <==> p < n
  {
    if n == 0 then {} else Below(n - 1) + {n - 1}
  }

  lemma {:induction false} CountSubset(a: set<nat>, b: set<nat>)
    requires a <= b
    ensures |a| <= |b|
  {
    if a != {} {
      var x :| x in a;
      CountSubset(a - {x}, b - {x});
    }
  }

  lemma InsertSorted(q: seq<Entry>, e: Entry)
    requires Sorted(q)
    ensures Sorted(StableInsert(q, e))
  {
    var i := InsertSplits(q, e);
    var r := StableInsert(q, e);
    forall a, b | 0 <= a < b < |r| ensures r[a].key <= r[b].key {
      assert a < i ==> r[a] == q[a];
      assert a > i ==> r[a] == q[a - 1];
      assert b < i ==> r[b] == q[b];
      assert b > i ==> r[b] == q[b - 1];
    }
  }

  lemma InsertDistinct(q: seq<Entry>, e: Entry)
    requires Distinct(q) && !Queued(q, e.id)
    ensures Distinct(StableInsert(q, e))
  {
    var i := InsertSplits(q, e);
    var r := StableInsert(q, e);
    forall a, b | 0 <= a < b < |r| ensures r[a].id != r[b].id {
      assert a < i ==> r[a] == q[a];
      assert a > i ==> r[a] == q[a - 1];
      assert b < i ==> r[b] == q[b];
      assert b > i ==> r[b] == q[b - 1];
    }
  }

  /** Insertion keeps every entry and adds e. */
  lemma InsertMembers(q: seq<Entry>, e: Entry)
    ensures forall x :: x in StableInsert(q, e) <==> x == e || x in q
  {
    var i := InsertSplits(q, e);
    forall x | x in q ensures x in StableInsert(q, e) {
      assert q == q[..i] + q[i..];
    }
  }

  lemma InsertWeight(q: seq<Entry>, e: Entry)
    ensures TotalWeight(StableInsert(q, e)) == TotalWeight(q) + e.weight
  {
    var i := InsertSplits(q, e);
    assert q == q[..i] + q[i..];
    WeightsAdd(q[..i], q[i..]);
    WeightsAdd(q[..i] + [e], q[i..]);
    WeightsAdd(q[..i], [e]);
  }

  /** A process that is not queued always fits in, and inserting it keeps the queue sound. */
  lemma EnqueueSound(q: RunQueue, e: Entry)
    requires Sound(q) && e.id < q.nproc && e.weight >= 1 && !Queued(q.entries, e.id)
    ensures q.count < q.nproc && Enqueue(q, e).entries == StableInsert(q.entries, e)
    ensures Sound(Enqueue(q, e))
  {
    Pigeonhole(q.entries, q.nproc);
    InsertSorted(q.entries, e);
    InsertDistinct(q.entries, e);
    InsertMembers(q.entries, e);
    InsertWeight(q.entries, e);
    var r := StableInsert(q.entries, e);
    forall i | 0 <= i < |r| ensures r[i].id < q.nproc && r[i].weight >= 1 {
      assert r[i] in r;
    }
  }

  /** Taking the head keeps the queue sound, and its slice lies between 0 and the period. */
  lemma DequeueSound(q: RunQueue)
    requires Sound(q) && q.entries != []
    ensures Sound(Dequeue(q)) && q.treeWeight > 0
    ensures Stretched(q) >= Latency(q.nproc) && Stretched(q) >= q.count * MIN_GRANULARITY
    ensures 0 <= Slice(q) <= Stretched(q) <= MaxPeriod(q.nproc)
  {
    WeightAtLeastLength(q.entries);
    WeightAtLeastLength(q.entries[1..]);
    Pigeonhole(q.entries, q.nproc);
    ShareOfPeriod(Stretched(q), q.entries[0].weight, q.treeWeight);
  }

  /** x is the part of the period that belongs to weight w out of a total of `total`, rounded down. */
  ghost predicate IsShare(x: int, period: int, w: int, total: int) {
    x * total <= period * w < (x + 1) * total
  }

  /** The slice is the share of the head's weight in the period, out of the weight of all that are queued. */
  lemma SliceIsShare(q: RunQueue)
    requires Sound(q) && q.entries != []
    ensures q.treeWeight > 0
    ensures IsShare(Slice(q), Dequeue(q).period, q.entries[0].weight, TotalWeight(q.entries))
  {
    DequeueSound(q);
    QuotientIsShare(Stretched(q), q.entries[0].weight, q.treeWeight);
  }

  lemma QuotientIsShare(period: int, w: int, total: int)
    requires total > 0
    ensures IsShare(period * w / total, period, w, total)
  {
    var x := period * w;
    assert x / total * total <= x < (x / total + 1) * total;
  }

  ghost function Sum(xs: seq<int>): int {
    if xs == [] then 0 else xs[0] + Sum(xs[1..])
  }

  lemma {:induction false} SharesAdd(q: seq<Entry>, xs: seq<int>, period: int, total: int)
    requires |xs| == |q| && total > 0
    requires forall i :: 0 <= i < |q| ==> IsShare(xs[i], period, q[i].weight, total)
    ensures Sum(xs) * total <= period * TotalWeight(q) <= (Sum(xs) + |q|) * total
    ensures q != [] ==> period * TotalWeight(q) < (Sum(xs) + |q|) * total
  {
    if q != [] {
      assert IsShare(xs[0], period, q[0].weight, total);
      forall i | 0 <= i < |q[1..]| ensures IsShare(xs[1..][i], period, q[1..][i].weight, total) {
        assert IsShare(xs[i + 1], period, q[i + 1].weight, total);
      }
      SharesAdd(q[1..], xs[1..], period, total);
      AddShares(xs[0], Sum(xs[1..]), |q[1..]|, period, q[0].weight, TotalWeight(q[1..]), total);
    }
  }

  lemma AddShares(x: int, y: int, n: nat, period: int, w: int, v: int, total: int)
    requires x * total <= period * w < (x + 1) * total && y * total <= period * v <= (y + n) * total
    ensures (x + y) * total <= period * (w + v) < (x + y + n + 1) * total
  {
    assert (x + y) * total == x * total + y * total;
    assert period * (w + v) == period * w + period * v;
    assert (x + y + n + 1) * total == (x + 1) * total + (y + n) * total;
  }

  /** An epoch: the shares of all queued processes in one period fill it, but for less than one tick each. */
  lemma EpochFills(q: seq<Entry>, xs: seq<int>, period: int)
    requires q != [] && |xs| == |q| && TotalWeight(q) > 0
    requires forall i :: 0 <= i < |q| ==> IsShare(xs[i], period, q[i].weight, TotalWeight(q))
    ensures period - |q| < Sum(xs) <= period
  {
    SharesAdd(q, xs, period, TotalWeight(q));
    Cancel(period, Sum(xs) + |q|, TotalWeight(q));
    CancelAtMost(Sum(xs), period, TotalWeight(q));
  }

  lemma ShareOfPeriod(period: int, w: int, total: int)
    requires period >= 0 && 0 <= w <= total && total > 0
    ensures 0 <= period * w / total <= period
  {
    assert 0 <= period * w <= period * total;
    QuotientBetween(period * w, total, 0, period);
  }

  /** A process with at least the average weight gets at least the minimum granularity. */
  lemma AverageShare(q: RunQueue)
    requires Sound(q) && q.entries != [] && q.entries[0].weight * q.count >= q.treeWeight
    ensures q.treeWeight > 0 && Slice(q) >= MIN_GRANULARITY
  {
    DequeueSound(q);
    HeavyShare(Stretched(q), q.count, q.entries[0].weight, q.treeWeight);
  }

  lemma HeavyShare(period: int, count: int, w: int, total: int)
    requires total > 0 && w >= 1 && count >= 0 && w * count >= total && period >= count * 2
    ensures period * w / total >= 2
  {
    assert period * w >= (count * 2) * w;
    assert (count * 2) * w == 2 * (w * count);
    assert period * w >= 0;
    assert period * w <= (period * w) * total;
    QuotientBetween(period * w, total, 2, period * w);
  }

  /** Stretching the period once is as good as stretching it twice. */
  lemma StretchSound(q: RunQueue)
    requires Sound(q) && q.entries != []
    ensures Sound(q.(period := Stretched(q)))
    ensures Dequeue(q.(period := Stretched(q))) == Dequeue(q) && q.treeWeight > 0
    ensures Slice(q.(period := Stretched(q))) == Slice(q)
  {
    DequeueSound(q);
  }

  /** The period can fall: with four slots and three processes queued a retrieval stretches it to 6, and the next one,
      from two, sets it to 4. */
  lemma PeriodFalls()
    ensures var q := RunQueue(4, [Entry(0, 0, 819), Entry(1, 0, 819), Entry(2, 0, 819)], 3, 2457, 2);
      Sound(q) && Dequeue(q).period == 6 && Dequeue(Dequeue(q)).period == 4
  {
    var c := [Entry(2, 0, 819)];
    var b := [Entry(1, 0, 819)] + c;
    var a := [Entry(0, 0, 819)] + b;
    assert TotalWeight([]) == 0 && c[1..] == [] && b[1..] == c && a[1..] == b;
    assert a == [Entry(0, 0, 819), Entry(1, 0, 819), Entry(2, 0, 819)];
    assert TotalWeight(c) == 819 && TotalWeight(b) == 1638 && TotalWeight(a) == 2457;
  }
}
