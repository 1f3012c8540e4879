/** Whether CPU shares follow weights. In a window they do so if and only if the weights are equal: windows can be made
    as long as one likes, and all runtimes grow alike. */
module Shares {
  import opened Numbers
  import opened Queue
  import opened Machine
  import opened CoreInvariant
  import opened Safety
  import opened Window
  import CoreSteps
  import Weights

  // ----- runs of a window in which no nice value is set -----

  ghost predicate NoNice(run: seq<Action>) {
    forall i :: 0 <= i < |run| ==> !SetsNice(run[i])
  }

  /** The run is a window that leads from s to s', and weights stay what they are. */
  ghost predicate Leads(s: State, run: seq<Action>, s': State) {
    Possible(s, run) && InWindow(s, run) && NoNice(run) && After(s, run) == s'
  }

  lemma Prepend(s: State, a: Action, run: seq<Action>, s': State)
    requires Can(s, a) && WindowAction(s, a) && !SetsNice(a) && Leads(Do(s, a), run, s')
    ensures Leads(s, [a] + run, s')
  {
    Then(s, a, run);
    assert ([a] + run)[1..] == run;
  }

  lemma {:induction false} Chain(s: State, a: seq<Action>, m: State, b: seq<Action>, s': State)
    requires Leads(s, a, m) && Leads(m, b, s')
    ensures Leads(s, a + b, s')
    decreases |a|
  {
    if a == [] {
      assert a + b == b;
    } else {
      assert NoNice(a[1..]) && !SetsNice(a[0]);
      Chain(Do(s, a[0]), a[1..], m, b, s');
      Prepend(s, a[0], a[1..] + b, s');
      assert a + b == [a[0]] + (a[1..] + b);
    }
  }

  lemma Single(s: State, a: Action)
    requires Can(s, a) && WindowAction(s, a) && !SetsNice(a)
    ensures Leads(s, [a], Do(s, a))
  {
    OneStep(s, a);
    assert [a][1..] == [];
  }

  // ----- one turn of a process in user code -----

  ghost predicate AtUser(s: State) {
    forall q: nat {:trigger Queued(s.rq.entries, q)} ::
      q < |s.tasks| && Queued(s.rq.entries, q) ==> s.tasks[q].op == User
  }

  /** The scheduler is about to pick from a tree of processes in user code. */
  ghost predicate Ready(s: State) {
    WinOk(s) && AtUser(s) && s.cpus[0].sched == Picking && s.rq.entries != []
  }

  /** The CPU is switched to process p, which is in user code. */
  ghost predicate OnCpu(s: State, p: nat, stage: Stage) {
    && WinOk(s) && p < |s.tasks|
    && s.cpus[0].sched == Away(p) && s.tasks[p].stage == stage && s.tasks[p].op == User
  }

  /** So are all processes in the tree. */
  ghost predicate Going(s: State, p: nat, stage: Stage) {
    OnCpu(s, p, stage) && AtUser(s)
  }

  ghost predicate SameTimes(t: Task, t': Task) {
    && t'.virtualRuntime == t.virtualRuntime && t'.currentRuntime == t.currentRuntime
    && t'.maxExecutionTime == t.maxExecutionTime && t'.niceVal == t.niceVal
  }

  lemma PickStep(s: State, p: nat) returns (run: seq<Action>, s': State)
    requires Ready(s) && p == s.rq.entries[0].id
    ensures Leads(s, run, s')
    ensures WinOk(s') && AtUser(s') && p < |s'.tasks| && s'.cpus[0].sched == Hand(p) && s'.tasks[p].op == User
    ensures s'.tasks[p].virtualRuntime == s.rq.entries[0].key && s'.rq.entries == s.rq.entries[1..]
  {
    CoreIndexed(s);
    CoreSteps.HeadRunnable(s);
    assert Queued(s.rq.entries, p);
    WinOkKept(s, Sched(0, Retrieve));
    run, s' := [Sched(0, Retrieve)], Do(s, Sched(0, Retrieve));
    Single(s, Sched(0, Retrieve));
    forall q: nat | q < |s.tasks| && Queued(s'.rq.entries, q) ensures s'.tasks[q].op == User {
      CoreSteps.QueuedAfterRemoval(s.rq.entries, q);
    }
  }

  lemma DispatchStep(s: State, p: nat) returns (run: seq<Action>, s': State)
    requires WinOk(s) && AtUser(s) && p < |s.tasks| && s.cpus[0].sched == Hand(p) && s.tasks[p].op == User
    ensures Leads(s, run, s')
    ensures Going(s', p, Resumed) && s'.rq == s.rq && SameTimes(s.tasks[p], s'.tasks[p])
  {
    CoreIndexed(s);
    CoreSteps.HandRunnable(s, 0);
    assert StateOk(s.tasks[p], p) && LockOk(s, p);
    WinOkKept(s, Sched(0, Dispatch));
    run, s' := [Sched(0, Dispatch)], Do(s, Sched(0, Dispatch));
    Single(s, Sched(0, Dispatch));
    OthersStay(s, s', p);
  }

  /** A step of p that leaves the tree alone. */
  lemma OthersStay(s: State, s': State, p: nat)
    requires |s'.tasks| == |s.tasks| && s'.rq == s.rq && p < |s.tasks| && s'.tasks[p].op == User
    requires forall q: nat :: q < |s.tasks| && q != p ==> s'.tasks[q] == s.tasks[q]
    ensures AtUser(s) ==> AtUser(s')
  {
    forall q: nat | AtUser(s) && q < |s.tasks| && Queued(s'.rq.entries, q) ensures s'.tasks[q].op == User {
      assert Queued(s.rq.entries, q);
    }
  }

  lemma ReleaseStep(s: State, p: nat) returns (run: seq<Action>, s': State)
    requires Going(s, p, Resumed)
    ensures Leads(s, run, s')
    ensures Going(s', p, Live) && s'.rq == s.rq && SameTimes(s.tasks[p], s'.tasks[p])
  {
    CoreIndexed(s);
    WinOkKept(s, Run(p, Release));
    run, s' := [Run(p, Release)], Do(s, Run(p, Release));
    Single(s, Run(p, Release));
    OthersStay(s, s', p);
  }

  lemma ChargeStep(s: State, p: nat) returns (run: seq<Action>, s': State)
    requires OnCpu(s, p, Live)
    ensures Leads(s, run, s') && |run| == 1
    ensures OnCpu(s', p, MustYield) && s'.rq == s.rq && (AtUser(s) ==> AtUser(s'))
    ensures SameTimes(s.tasks[p].(currentRuntime := s.tasks[p].currentRuntime + 1), s'.tasks[p])
  {
    CoreIndexed(s);
    RunnerFacts(s, p);
    WinOkKept(s, Run(p, Charge));
    run, s' := [Run(p, Charge)], Do(s, Run(p, Charge));
    Single(s, Run(p, Charge));
    OthersStay(s, s', p);
  }

  lemma YieldEnabled(s: State, p: nat)
    requires OnCpu(s, p, MustYield)
    ensures var preempt := s.tasks[p].currentRuntime == Cap(s.tasks[p]);
      && CheckPreemption(s, p) == preempt && Can(s, Run(p, Yield(preempt))) && WinOk(Do(s, Run(p, Yield(preempt))))
  {
    CoreIndexed(s);
    FreeLock(s, p);
    YieldPreempts(s, p);
    assert TimeOk(s.tasks[p], |s.tasks|);
    WinOkKept(s, Run(p, Yield(s.tasks[p].currentRuntime == Cap(s.tasks[p]))));
  }

  lemma PassStep(s: State, p: nat) returns (run: seq<Action>, s': State)
    requires OnCpu(s, p, MustYield) && s.tasks[p].currentRuntime < Cap(s.tasks[p])
    ensures Leads(s, run, s') && |run| == 1
    ensures OnCpu(s', p, Live) && s'.rq == s.rq && (AtUser(s) ==> AtUser(s'))
    ensures SameTimes(s.tasks[p], s'.tasks[p])
  {
    YieldEnabled(s, p);
    run, s' := [Run(p, Yield(false))], Do(s, Run(p, Yield(false)));
    Single(s, Run(p, Yield(false)));
    OthersStay(s, s', p);
  }

  ghost function Requeue(t: Task, p: nat): Entry {
    Entry(p, t.virtualRuntime + t.currentRuntime, Weights.Weight(t.niceVal))
  }

  lemma PreemptForm(s: State, p: nat)
    requires WellIndexed(s) && CanYield(s, p) && s.rq.count < s.rq.nproc
    ensures var s' := DoYield(s, p, true);
      && s'.cpus == s.cpus && s'.tasks[p].stage == Yielding && s'.tasks[p].op == s.tasks[p].op
      && s'.rq.entries == StableInsert(s.rq.entries, Requeue(s.tasks[p], p))
      && forall q: nat :: q < |s.tasks| && q != p ==> s'.tasks[q] == s.tasks[q]
  {
  }

  lemma PreemptStep(s: State, p: nat) returns (run: seq<Action>, s': State)
    requires Going(s, p, MustYield) && s.tasks[p].currentRuntime == Cap(s.tasks[p])
    ensures Leads(s, run, s')
    ensures Going(s', p, Yielding) && s'.rq.entries == StableInsert(s.rq.entries, Requeue(s.tasks[p], p))
  {
    YieldEnabled(s, p);
    RunnerFacts(s, p);
    PreemptForm(s, p);
    run, s' := [Run(p, Yield(true))], Do(s, Run(p, Yield(true)));
    Single(s, Run(p, Yield(true)));
    InsertedAtUser(s, s', p, Requeue(s.tasks[p], p));
  }

  lemma InsertedAtUser(s: State, s': State, p: nat, e: Entry)
    requires AtUser(s) && |s'.tasks| == |s.tasks| && p < |s.tasks| && e.id == p && s'.tasks[p].op == User
    requires s'.rq.entries == StableInsert(s.rq.entries, e)
    requires forall q: nat :: q < |s.tasks| && q != p ==> s'.tasks[q] == s.tasks[q]
    ensures AtUser(s')
  {
    forall q: nat | q < |s.tasks| && Queued(s'.rq.entries, q) ensures s'.tasks[q].op == User {
      CoreSteps.QueuedAfterInsert(s.rq.entries, e, q);
    }
  }

  lemma SwtchStep(s: State, p: nat) returns (run: seq<Action>, s': State)
    requires Going(s, p, Yielding)
    ensures Leads(s, run, s')
    ensures WinOk(s') && AtUser(s') && s'.cpus[0].sched == Back(p) && s'.rq == s.rq
    ensures p < |s'.tasks| && s'.tasks[p].op == User
  {
    CoreIndexed(s);
    OnlyRunner(s, p);
    WinOkKept(s, Run(p, YieldSwtch));
    run, s' := [Run(p, YieldSwtch)], Do(s, Run(p, YieldSwtch));
    Single(s, Run(p, YieldSwtch));
    OthersStay(s, s', p);
  }

  lemma FinishStep(s: State, p: nat) returns (run: seq<Action>, s': State)
    requires WinOk(s) && AtUser(s) && p < |s.tasks| && s.cpus[0].sched == Back(p) && s.tasks[p].op == User
    ensures Leads(s, run, s')
    ensures WinOk(s') && AtUser(s') && s'.cpus[0].sched == Picking && s'.rq == s.rq
  {
    CoreIndexed(s);
    WinOkKept(s, Sched(0, Finish));
    run, s' := [Sched(0, Finish)], Do(s, Sched(0, Finish));
    Single(s, Sched(0, Finish));
    OthersStay(s, s', p);
  }

  /** What is inserted when a process has spent its slice. */
  ghost function Spent(t: Task, p: nat): Entry {
    Entry(p, t.virtualRuntime + Cap(t), Weights.Weight(t.niceVal))
  }

  /** p, with `left` more traps to go, will be inserted as e. */
  ghost predicate Owes(t: Task, p: nat, left: nat, e: Entry) {
    left == Cap(t) - t.currentRuntime && e == Spent(t, p)
  }

  /** One more trap is charged, and p goes on. */
  lemma TrapPasses(s: State, p: nat, left: nat, e: Entry) returns (run: seq<Action>, s': State)
    requires Going(s, p, Live) && Owes(s.tasks[p], p, left, e) && left > 1
    ensures Leads(s, run, s')
    ensures Going(s', p, Live) && s'.rq == s.rq && Owes(s'.tasks[p], p, left - 1, e)
  {
    var first, s1 := ChargeStep(s, p);
    var second;
    second, s' := PassStep(s1, p);
    run := first + second;
    Chain(s, first, s1, second, s');
  }

  /** The last trap is charged, and p is preempted. */
  lemma TrapPreempts(s: State, p: nat, e: Entry) returns (run: seq<Action>, s': State)
    requires Going(s, p, Live) && Owes(s.tasks[p], p, 1, e)
    ensures Leads(s, run, s')
    ensures Going(s', p, Yielding) && s'.rq.entries == StableInsert(s.rq.entries, e)
  {
    var first, s1 := ChargeStep(s, p);
    assert Requeue(s1.tasks[p], p) == e;
    var second;
    second, s' := PreemptStep(s1, p);
    run := first + second;
    Chain(s, first, s1, second, s');
  }

  /** p goes on until its slice is spent, and is back in the tree. */
  lemma Spend(s: State, p: nat, left: nat, e: Entry) returns (run: seq<Action>, s': State)
    requires Going(s, p, Live) && Owes(s.tasks[p], p, left, e) && left > 0
    ensures Leads(s, run, s')
    ensures Going(s', p, Yielding) && s'.rq.entries == StableInsert(s.rq.entries, e)
    decreases left
  {
    if left == 1 {
      run, s' := TrapPreempts(s, p, e);
    } else {
      var first, s1 := TrapPasses(s, p, left, e);
      var rest;
      rest, s' := Spend(s1, p, left - 1, e);
      run := first + rest;
      Chain(s, first, s1, rest, s');
    }
  }

  /** From the start of a turn of p to the next pick. */
  lemma FinishTurn(s: State, p: nat) returns (run: seq<Action>, s': State)
    requires Going(s, p, Live)
    ensures Leads(s, run, s')
    ensures Ready(s') && s'.rq.entries == StableInsert(s.rq.entries, Spent(s.tasks[p], p))
  {
    RunnerFacts(s, p);
    var t := s.tasks[p];
    var spent, s1 := Spend(s, p, Cap(t) - t.currentRuntime, Spent(t, p));
    var swtch, s2 := SwtchStep(s1, p);
    var finish;
    finish, s' := FinishStep(s2, p);
    Chain(s1, swtch, s2, finish, s');
    Chain(s, spent, s1, swtch + finish, s');
    run := spent + (swtch + finish);
  }

  /** From a pick to the start of the turn. */
  lemma StartTurn(s: State, p: nat) returns (run: seq<Action>, s': State)
    requires Ready(s) && p == s.rq.entries[0].id
    ensures Leads(s, run, s')
    ensures Going(s', p, Live) && s'.rq.entries == s.rq.entries[1..]
    ensures s'.tasks[p].virtualRuntime == s.rq.entries[0].key
  {
    var pick, s1 := PickStep(s, p);
    var dispatch, s2 := DispatchStep(s1, p);
    var release;
    release, s' := ReleaseStep(s2, p);
    Chain(s1, dispatch, s2, release, s');
    Chain(s, pick, s1, dispatch + release, s');
    run := pick + (dispatch + release);
  }

  /** One round of the scheduler: the head of the tree has its turn and comes back with a larger key. */
  lemma Round(s: State) returns (run: seq<Action>, s': State, e: Entry)
    requires Ready(s)
    ensures Leads(s, run, s') && Ready(s')
    ensures s'.rq.entries == StableInsert(s.rq.entries[1..], e)
    ensures e.id == s.rq.entries[0].id && e.key >= s.rq.entries[0].key + MIN_GRANULARITY
  {
    var p := s.rq.entries[0].id;
    var start, s1 := StartTurn(s, p);
    e := Spent(s1.tasks[p], p);
    var finish;
    finish, s' := FinishTurn(s1, p);
    run := start + finish;
    Chain(s, start, s1, finish, s');
  }

  // ----- windows of any length -----

  /** How far the keys in the tree are below n, in all. */
  ghost function Lack(q: seq<Entry>, n: int): nat {
    if q == [] then 0 else (if q[0].key < n then n - q[0].key else 0) + Lack(q[1..], n)
  }

  lemma {:induction false} LackAdds(a: seq<Entry>, b: seq<Entry>, n: int)
    ensures Lack(a + b, n) == Lack(a, n) + Lack(b, n)
  {
    if a == [] {
      assert a + b == b;
    } else {
      assert (a + b)[1..] == a[1..] + b;
      LackAdds(a[1..], b, n);
    }
  }

  lemma LackInsert(q: seq<Entry>, e: Entry, n: int)
    ensures Lack(StableInsert(q, e), n) == Lack(q, n) + (if e.key < n then n - e.key else 0)
  {
    var i := InsertSplits(q, e);
    assert q == q[..i] + q[i..];
    LackAdds(q[..i], q[i..], n);
    LackAdds(q[..i] + [e], q[i..], n);
    LackAdds(q[..i], [e], n);
    assert Lack([e], n) == if e.key < n then n - e.key else 0;
  }

  /** A window can be continued until every virtual runtime is at least n. */
  lemma LongRun(s: State, n: int) returns (run: seq<Action>, s': State)
    requires Ready(s)
    ensures Leads(s, run, s') && Ready(s')
    ensures forall i :: 0 <= i < |s'.rq.entries| ==> s'.rq.entries[i].key >= n
    decreases Lack(s.rq.entries, n)
  {
    if s.rq.entries[0].key >= n {
      run, s' := [], s;
      assert Sorted(s.rq.entries);
    } else {
      var first, s1, e := Round(s);
      LackInsert(s.rq.entries[1..], e, n);
      var rest;
      rest, s' := LongRun(s1, n);
      Chain(s, first, s1, rest, s');
      run := first + rest;
    }
  }

  // ----- shares and weights -----

  /** The heavier process, with runtime x and weight w, lacks at least so much of its share beside y and v. */
  ghost predicate FallsShort(x: int, y: int, w: int, v: int, g: int) {
    y * w - x * v >= y * (w - v) - g * v
  }

  lemma GapFallsShort(x: int, y: int, w: int, v: int, g: int)
    requires x - y <= g && v >= 0
    ensures FallsShort(x, y, w, v, g)
  {
    assert (g - (x - y)) * v >= 0;
  }

  /** Runtimes are charged alike whatever the weights. So at every moment of every window a process p falls short of
      its share, as its weight w and the weight v of another process r measure it, by at least w - v for every tick
      that r has had, but for a constant. */
  lemma SharesIgnoreWeights(s: State, run: seq<Action>, gap: nat, p: nat, r: nat)
    requires Opens(s) && Possible(s, run) && InWindow(s, run) && Gaps(s.rq.entries, gap)
    requires Queued(s.rq.entries, p) && Queued(s.rq.entries, r)
    ensures p < |s.tasks| && r < |s.tasks|
    ensures FallsShort(Runtime(After(s, run).tasks[p]), Runtime(After(s, run).tasks[r]),
                       s.tasks[p].weightVal, s.tasks[r].weightVal, Larger(gap, LongestSlice(s.rq)))
  {
    FairSpread(s, run, gap, p, r);
    QueuedWeight(s, r);
    GapFallsShort(Runtime(After(s, run).tasks[p]), Runtime(After(s, run).tasks[r]),
                  s.tasks[p].weightVal, s.tasks[r].weightVal, Larger(gap, LongestSlice(s.rq)));
  }

  lemma QueuedWeight(s: State, q: nat)
    requires Opens(s) && Queued(s.rq.entries, q)
    ensures q < |s.tasks| && s.tasks[q].weightVal >= 1
  {
    ReachableSound(s);
    var i :| 0 <= i < |s.rq.entries| && s.rq.entries[i].id == q;
    assert s.tasks[s.rq.entries[i].id].weightVal == s.rq.entries[i].weight;
  }

  /** The runtimes x and y are in the ratio of the weights w and v, up to b. */
  ghost predicate InRatio(x: int, y: int, w: int, v: int, b: int) {
    -b <= x * v - y * w <= b
  }

  /** However the window that opens at s goes on, as long as no nice value is set, the runtimes of p and r stay in the
      ratio of their weights up to b. */
  ghost predicate StaysInRatio(s: State, p: nat, r: nat, b: int)
    requires p < |s.tasks| && r < |s.tasks|
  {
    forall run: seq<Action> :: Possible(s, run) && InWindow(s, run) && NoNice(run) ==>
      InRatio(Runtime(After(s, run).tasks[p]), Runtime(After(s, run).tasks[r]),
              s.tasks[p].weightVal, s.tasks[r].weightVal, b)
  }

  lemma EqualWeightsInRatio(x: int, y: int, v: int, g: int)
    requires -g <= x - y <= g && v >= 0
    ensures InRatio(x, y, v, v, g * v)
  {
    assert (g - (x - y)) * v >= 0 && (g + (x - y)) * v >= 0;
  }

  lemma ShortOfRatio(x: int, y: int, w: int, v: int, g: int, b: int)
    requires w > v && y >= 0 && y > b + g * v && FallsShort(x, y, w, v, g)
    ensures y * w - x * v > b
  {
    AtLeastOnce(w - v, y);
    assert (w - v) * y == y * (w - v);
  }

  lemma GapExists(q: seq<Entry>) returns (gap: nat)
    requires Sorted(q)
    ensures Gaps(q, gap)
  {
    gap := 0;
    if q != [] {
      var lo, hi := q[0].key, q[|q| - 1].key;
      gap := if lo < hi then hi - lo else 0;
      forall i | 0 <= i < |q| ensures lo <= q[i].key <= hi {
      }
    }
  }

  lemma EqualWeightsRun(s: State, run: seq<Action>, p: nat, r: nat, gap: nat, v: nat, b: nat)
    requires Opens(s) && Queued(s.rq.entries, p) && Queued(s.rq.entries, r) && Gaps(s.rq.entries, gap)
    requires p < |s.tasks| && r < |s.tasks| && Possible(s, run) && InWindow(s, run)
    requires b == Larger(gap, LongestSlice(s.rq)) * v
    ensures InRatio(Runtime(After(s, run).tasks[p]), Runtime(After(s, run).tasks[r]), v, v, b)
  {
    FairSpread(s, run, gap, p, r);
    FairSpread(s, run, gap, r, p);
    EqualWeightsInRatio(Runtime(After(s, run).tasks[p]), Runtime(After(s, run).tasks[r]), v,
                        Larger(gap, LongestSlice(s.rq)));
  }

  lemma EqualWeightsStay(s: State, p: nat, r: nat) returns (b: nat)
    requires Opens(s) && Queued(s.rq.entries, p) && Queued(s.rq.entries, r)
    requires p < |s.tasks| && r < |s.tasks| && s.tasks[p].weightVal == s.tasks[r].weightVal
    ensures StaysInRatio(s, p, r, b)
  {
    QueuedWeight(s, p);
    var gap := OpeningGap(s);
    var v := s.tasks[p].weightVal;
    b := Larger(gap, LongestSlice(s.rq)) * v;
    forall run: seq<Action> | Possible(s, run) && InWindow(s, run) && NoNice(run)
      ensures InRatio(Runtime(After(s, run).tasks[p]), Runtime(After(s, run).tasks[r]), v, v, b)
    {
      EqualWeightsRun(s, run, p, r, gap, v, b);
    }
  }

  lemma OpeningGap(s: State) returns (gap: nat)
    requires Opens(s)
    ensures Gaps(s.rq.entries, gap)
  {
    ReachableSound(s);
    gap := GapExists(s.rq.entries);
  }

  /** There are windows in which the runtimes of two processes are as large as one likes. */
  lemma RuntimesGrow(s: State, p: nat, r: nat, n: int) returns (run: seq<Action>)
    requires Opens(s) && AtUser(s) && Queued(s.rq.entries, p) && Queued(s.rq.entries, r)
    requires p < |s.tasks| && r < |s.tasks|
    ensures Possible(s, run) && InWindow(s, run) && NoNice(run)
    ensures Runtime(After(s, run).tasks[p]) >= n && Runtime(After(s, run).tasks[r]) >= n
  {
    ReachableSound(s);
    var gap := GapExists(s.rq.entries);
    var s';
    run, s' := LongRun(s, n);
    OpeningSlices(s, Larger(gap, LongestSlice(s.rq)));
    WindowKeeps(s, run, Larger(gap, LongestSlice(s.rq)), p, r);
    RuntimeInside(s', p);
    RuntimeInside(s', r);
  }

  /** p, the heavier process, is off its ratio by more than b in some window. */
  lemma HeavierFallsShort(s: State, p: nat, r: nat, b: nat) returns (run: seq<Action>)
    requires Opens(s) && AtUser(s) && Queued(s.rq.entries, p) && Queued(s.rq.entries, r)
    requires p < |s.tasks| && r < |s.tasks| && s.tasks[p].weightVal > s.tasks[r].weightVal
    ensures Possible(s, run) && InWindow(s, run) && NoNice(run)
    ensures !InRatio(Runtime(After(s, run).tasks[p]), Runtime(After(s, run).tasks[r]),
                     s.tasks[p].weightVal, s.tasks[r].weightVal, b)
  {
    var gap := OpeningGap(s);
    var g, v := Larger(gap, LongestSlice(s.rq)), s.tasks[r].weightVal;
    QueuedWeight(s, r);
    assert g * v >= 0;
    run := RuntimesGrow(s, p, r, b + g * v + 1);
    SharesIgnoreWeights(s, run, gap, p, r);
    ShortOfRatio(Runtime(After(s, run).tasks[p]), Runtime(After(s, run).tasks[r]), s.tasks[p].weightVal, v, g, b);
  }

  lemma UnequalWeightsLeave(s: State, p: nat, r: nat, b: nat)
    requires Opens(s) && AtUser(s) && Queued(s.rq.entries, p) && Queued(s.rq.entries, r)
    requires p < |s.tasks| && r < |s.tasks| && s.tasks[p].weightVal != s.tasks[r].weightVal
    ensures !StaysInRatio(s, p, r, b)
  {
    if s.tasks[p].weightVal > s.tasks[r].weightVal {
      var run := HeavierFallsShort(s, p, r, b);
    } else {
      var run := HeavierFallsShort(s, r, p, b);
    }
  }

  /** Exactly when shares follow weights: over all windows that open at s, the runtimes of p and r stay in the ratio of
      their weights, up to some bound, if and only if the weights are equal. */
  lemma SharesFollowWeightsExactly(s: State, p: nat, r: nat)
    requires Opens(s) && AtUser(s) && Queued(s.rq.entries, p) && Queued(s.rq.entries, r)
    ensures p < |s.tasks| && r < |s.tasks|
    ensures (exists b: nat :: StaysInRatio(s, p, r, b)) <==> s.tasks[p].weightVal == s.tasks[r].weightVal
  {
    QueuedWeight(s, p);
    QueuedWeight(s, r);
    if s.tasks[p].weightVal == s.tasks[r].weightVal {
      var b := EqualWeightsStay(s, p, r);
    } else {
      forall b: nat ensures !StaysInRatio(s, p, r, b) {
        UnequalWeightsLeave(s, p, r, b);
      }
    }
  }
}
