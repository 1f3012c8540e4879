/** How far ahead of the smallest virtual runtime a process can get without being preempted. */
module Preemption {
  import opened Procs
  import opened Machine
  import opened CoreInvariant
  import opened Safety
  import opened Window
  import opened Shares

  /** A window that leads from s to s', with p running throughout. */
  ghost predicate LeadsRunning(s: State, run: seq<Action>, s': State, p: nat) {
    Leads(s, run, s') && KeepsRunning(s, run, p)
  }

  lemma PrependRunning(s: State, a: Action, run: seq<Action>, s': State, p: nat)
    requires Can(s, a) && WindowAction(s, a) && !SetsNice(a) && p < |s.tasks| && s.tasks[p].state == RUNNING
    requires LeadsRunning(Do(s, a), run, s', p)
    ensures LeadsRunning(s, [a] + run, s', p)
  {
    Prepend(s, a, run, s');
    assert ([a] + run)[1..] == run;
  }

  lemma {:induction false} JoinRunning(s: State, a: seq<Action>, m: State, b: seq<Action>, s': State, p: nat)
    requires LeadsRunning(s, a, m, p) && LeadsRunning(m, b, s', p)
    ensures LeadsRunning(s, a + b, s', p)
    decreases |a|
  {
    if a == [] {
      assert a + b == b;
    } else {
      assert NoNice(a[1..]) && !SetsNice(a[0]);
      JoinRunning(Do(s, a[0]), a[1..], m, b, s', p);
      PrependRunning(s, a[0], a[1..] + b, s', p);
      assert a + b == [a[0]] + (a[1..] + b);
    }
  }

  lemma OneRunning(s: State, run: seq<Action>, s': State, p: nat)
    requires Leads(s, run, s') && |run| == 1 && p < |s.tasks| && s.tasks[p].state == RUNNING
    requires p < |s'.tasks| && s'.tasks[p].state == RUNNING
    ensures KeepsRunning(s, run, p)
  {
    var s1 := Do(s, run[0]);
    assert run[1..] == [] && After(s1, []) == s1;
    assert s' == s1;
  }

  /** One more trap is charged. */
  lemma ChargedOnce(s: State, p: nat) returns (run: seq<Action>, s': State)
    requires OnCpu(s, p, Live)
    ensures LeadsRunning(s, run, s', p) && OnCpu(s', p, MustYield) && s'.rq == s.rq
    ensures SameTimes(s.tasks[p].(currentRuntime := s.tasks[p].currentRuntime + 1), s'.tasks[p])
  {
    run, s' := ChargeStep(s, p);
    RunnerFacts(s, p);
    RunnerFacts(s', p);
    OneRunning(s, run, s', p);
  }

  /** A yield that does not preempt. */
  lemma PassedOnce(s: State, p: nat) returns (run: seq<Action>, s': State)
    requires OnCpu(s, p, MustYield) && s.tasks[p].currentRuntime < Cap(s.tasks[p])
    ensures LeadsRunning(s, run, s', p) && OnCpu(s', p, Live) && s'.rq == s.rq
    ensures SameTimes(s.tasks[p], s'.tasks[p])
  {
    run, s' := PassStep(s, p);
    RunnerFacts(s, p);
    RunnerFacts(s', p);
    OneRunning(s, run, s', p);
  }

  /** p runs on until k traps have been charged, and is about to yield. */
  lemma SpinTo(s: State, p: nat, k: nat) returns (run: seq<Action>, s': State)
    requires OnCpu(s, p, Live) && s.tasks[p].currentRuntime < k < Cap(s.tasks[p])
    ensures LeadsRunning(s, run, s', p) && OnCpu(s', p, MustYield) && s'.rq == s.rq
    ensures SameTimes(s.tasks[p].(currentRuntime := k), s'.tasks[p])
    decreases k - s.tasks[p].currentRuntime
  {
    run, s' := ChargedOnce(s, p);
    if s.tasks[p].currentRuntime + 1 < k {
      var s1 := s';
      var pass, s2 := PassedOnce(s1, p);
      JoinRunning(s, run, s1, pass, s2, p);
      run := run + pass;
      var rest;
      rest, s' := SpinTo(s2, p, k);
      JoinRunning(s, run, s2, rest, s', p);
      run := run + rest;
    }
  }

  /** p, in user code, has just begun a turn beside a tree that is not empty. */
  ghost predicate TurnBegins(s: State, p: nat) {
    && p < |s.tasks| && s.tasks[p].state == RUNNING && s.tasks[p].stage == Live && s.tasks[p].op == User
    && s.tasks[p].currentRuntime == 0 && s.rq.entries != []
  }

  /** With p running throughout, `turn` leads to a yield that does not preempt p, although its runtime exceeds the
      smallest virtual runtime in the tree by more than t. */
  ghost predicate YieldsAhead(s: State, p: nat, turn: seq<Action>, t: int) {
    && Possible(s, turn) && InWindow(s, turn) && KeepsRunning(s, turn, p)
    && var s' := After(s, turn);
    && Can(s', Run(p, Yield(false))) && !CheckPreemption(s', p)
    && s'.rq.entries != [] && Runtime(s'.tasks[p]) > s'.rq.entries[0].key + t
  }

  lemma AheadAtMost(s: State, p: nat, turn: seq<Action>, t: int)
    requires WinOk(s) && TurnBegins(s, p) && YieldsAhead(s, p, turn, t)
    ensures Cap(s.tasks[p]) - 1 - (s.rq.entries[0].key - s.tasks[p].virtualRuntime) > t
  {
    RunningCharges(s, turn, p);
    var s' := After(s, turn);
    YieldPreempts(s', p);
    assert TimeOk(s'.tasks[p], |s'.tasks|);
  }

  lemma AheadAtLeast(s: State, p: nat, t: int) returns (turn: seq<Action>)
    requires WinOk(s) && TurnBegins(s, p)
    requires Cap(s.tasks[p]) - 1 - (s.rq.entries[0].key - s.tasks[p].virtualRuntime) > t
    ensures YieldsAhead(s, p, turn, t)
  {
    OnlyRunner(s, p);
    var s';
    turn, s' := SpinTo(s, p, Cap(s.tasks[p]) - 1);
    YieldEnabled(s', p);
  }

  /** Exactly how far ahead a process can get in a window: in a turn that may last for m and begins d below the smallest
      virtual runtime in the tree, there is a yield more than t ahead that does not preempt if and only if
      m - 1 - d > t. */
  lemma AheadExactly(s: State, run: seq<Action>, p: nat, t: int)
    requires Opens(s) && Possible(s, run) && InWindow(s, run) && TurnBegins(After(s, run), p)
    ensures var s' := After(s, run);
      (exists turn :: YieldsAhead(s', p, turn, t))
      <==> Cap(s'.tasks[p]) - 1 - (s'.rq.entries[0].key - s'.tasks[p].virtualRuntime) > t
  {
    WindowSound(s, run);
    var s' := After(s, run);
    if turn :| YieldsAhead(s', p, turn, t) {
      AheadAtMost(s', p, turn, t);
    }
    if Cap(s'.tasks[p]) - 1 - (s'.rq.entries[0].key - s'.tasks[p].virtualRuntime) > t {
      var turn := AheadAtLeast(s', p, t);
    }
  }
}
