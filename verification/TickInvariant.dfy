/** sys_sleep and the clock: sleepers are woken by the tick that ends their sleep, and not let go before. */
module TickInvariant {
  import opened Procs
  import opened Machine
  import opened CoreInvariant

  ghost predicate HoldsTicks(op: Op) {
    op.TickCheck? || (op.SleepHeld? && op.cont.TickLoop?)
  }

  /** In the sleep of sys_sleep, or on the way out of it. */
  ghost predicate InTickSleep(op: Op) {
    (op.SleepHeld? || op.SleepReady? || op.Asleep? || op.Reacquire?) && op.cont.TickLoop?
  }

  /** Asleep on the tick counter, or committed to it: tickslock is released and the next step is the switch. */
  ghost predicate TickAsleep(t: Task) {
    InTickSleep(t.op) && (t.op.SleepReady? || (t.op.Asleep? && t.state == SLEEPING))
  }

  ghost predicate TickOk(s: State, p: nat)
    requires p < |s.tasks|
  {
    var t := s.tasks[p];
    && (HoldsTicks(t.op) <==> s.ticksLock == ByTask(p))
    && (t.op.TickCheck? ==> t.op.ticks0 <= s.ticks)
    && (InTickSleep(t.op) ==>
          t.op.cont.ticks0 <= t.op.cont.seen <= s.ticks && Elapsed(t.op.cont.seen, t.op.cont.ticks0) < t.op.cont.n)
    && (t.op.SleepHeld? && InTickSleep(t.op) ==> t.op.cont.seen == s.ticks)
    && (TickAsleep(t) ==> t.op.cont.seen == s.ticks || (s.clock.ClockWake? && s.clock.k <= p))
  }

  ghost predicate Clocks(s: State) {
    && (s.clock.ClockWake? <==> s.ticksLock == ByClock)
    && (s.ticksLock.ByTask? ==> s.ticksLock.p < |s.tasks|)
    && forall p: nat :: p < |s.tasks| ==> TickOk(s, p)
  }

  /** The 32-bit difference is the true one modulo 2^32. */
  lemma ElapsedIsDifference(ticks: nat, ticks0: nat)
    requires ticks0 <= ticks
    ensures Elapsed(ticks, ticks0) == (ticks - ticks0) % UINT
  {
    var a, b, d := ticks / UINT, ticks0 / UINT, ticks % UINT - ticks0 % UINT;
    assert ticks - ticks0 == UINT * (a - b) + d;
    if d >= 0 {
      ModUnique(ticks - ticks0, a - b, d);
      ModUnique(d, 0, d);
    } else {
      ModUnique(ticks - ticks0, a - b - 1, d + UINT);
      ModUnique(d, -1, d + UINT);
    }
  }

  lemma ModUnique(x: int, q: int, r: int)
    requires x == UINT * q + r && 0 <= r < UINT
    ensures x % UINT == r
  {
  }

  ghost function TickOp(op: Op): Op {
    if HoldsTicks(op) || InTickSleep(op) then op else User
  }

  ghost predicate SameTick(t: Task, t': Task) {
    && (TickOp(t'.op) == TickOp(t.op)
        || (InTickSleep(t.op) && InTickSleep(t'.op) && t'.op.cont == t.op.cont
            && !t.op.SleepHeld? && !t'.op.SleepHeld?))
    && (TickAsleep(t') ==> TickAsleep(t))
  }

  lemma ClocksSame(s: State, s': State)
    requires Clocks(s) && |s'.tasks| == |s.tasks|
    requires s'.ticksLock == s.ticksLock && s'.clock == s.clock && s'.ticks == s.ticks
    requires forall q: nat :: q < |s.tasks| ==> SameTick(s.tasks[q], s'.tasks[q])
    ensures Clocks(s')
  {
    forall q: nat | q < |s.tasks| ensures TickOk(s', q) {
      assert TickOk(s, q) && SameTick(s.tasks[q], s'.tasks[q]);
    }
  }

  /** Only p changed, and nothing about its tick sleep. */
  lemma OneSameTick(s: State, s': State, p: nat)
    requires Clocks(s) && |s'.tasks| == |s.tasks| && p < |s.tasks|
    requires s'.ticksLock == s.ticksLock && s'.clock == s.clock && s'.ticks == s.ticks
    requires forall q: nat :: q < |s.tasks| && q != p ==> s'.tasks[q] == s.tasks[q]
    requires SameTick(s.tasks[p], s'.tasks[p])
    ensures Clocks(s')
  {
    ClocksSame(s, s');
  }

  // ----- steps on tickslock -----

  lemma TickAcquireKeeps(s: State, p: nat, n: nat, ticks0: nat)
    requires Clocks(s) && p < |s.tasks| && s.ticksLock == Free && ticks0 <= s.ticks
    ensures Clocks(WithOp(s, p, TickCheck(n, ticks0)).(ticksLock := ByTask(p)))
  {
    var s' := WithOp(s, p, TickCheck(n, ticks0)).(ticksLock := ByTask(p));
    forall q: nat | q < |s.tasks| ensures TickOk(s', q) {
      assert TickOk(s, q);
    }
  }

  lemma TickReleaseKeeps(s: State, p: nat, op: Op)
    requires Clocks(s) && p < |s.tasks| && s.ticksLock == ByTask(p)
    requires op == User || (s.tasks[p].op.SleepHeld? && op == SleepReady(s.tasks[p].op.cont))
    ensures Clocks(WithOp(s, p, op).(ticksLock := Free))
  {
    var s' := WithOp(s, p, op).(ticksLock := Free);
    forall q: nat | q < |s.tasks| ensures TickOk(s', q) {
      assert TickOk(s, q) && TickOk(s, p);
    }
  }

  lemma TickTestKeepsClocks(s: State, p: nat)
    requires Clocks(s) && WellIndexed(s) && CanTickTest(s, p)
    ensures Clocks(DoTickTest(s, p))
  {
    var s', n, ticks0 := DoTickTest(s, p), s.tasks[p].op.n, s.tasks[p].op.ticks0;
    assert TickOk(s, p);
    if Elapsed(s.ticks, ticks0) < n && !s.tasks[p].killed {
      forall q: nat | q < |s.tasks| ensures TickOk(s', q) {
        assert TickOk(s, q);
      }
    } else {
      TickReleaseKeeps(s, p, User);
    }
  }

  lemma TickKeepsClocks(s: State, p: nat, a: TickStep)
    requires Clocks(s) && WellIndexed(s) && CanTick(s, p, a)
    ensures Clocks(DoTick(s, p, a))
  {
    match a
    case TickStart(arg) => TickAcquireKeeps(s, p, if arg < 0 then 0 else arg, s.ticks);
    case TickTest => TickTestKeepsClocks(s, p);
  }

  // ----- the clock interrupt -----

  lemma ClockTickKeeps(s: State)
    requires Clocks(s) && WellIndexed(s) && CanClockTick(s)
    ensures Clocks(DoClockTick(s))
  {
    var s' := DoClockTick(s);
    forall q: nat | q < |s.tasks| ensures TickOk(s', q) {
      assert TickOk(s, q);
    }
  }

  /** After its round of wakeup(&ticks), an unlocked process is no longer asleep on the tick counter. */
  lemma WakesSleeper(s: State, q: nat)
    requires q < |s.tasks| && StateOk(s.tasks[q], q) && LockOk(s, q) && s.tasks[q].lock == NULL
    ensures !TickAsleep(Woken(s, q, Ticks).tasks[q])
  {
  }

  lemma ClockStepKeeps(s: State)
    requires Clocks(s) && WellIndexed(s) && CanClockStep(s)
    requires StateOk(s.tasks[s.clock.k], s.clock.k) && LockOk(s, s.clock.k)
    ensures Clocks(DoClockStep(s))
  {
    var s', k := DoClockStep(s), s.clock.k;
    WakesSleeper(s, k);
    assert TickOk(s, k);
    forall q: nat | q < |s.tasks| ensures TickOk(s', q) {
      assert TickOk(s, q);
    }
  }

  lemma ClockEndKeeps(s: State)
    requires Clocks(s) && WellIndexed(s) && CanClockEnd(s)
    ensures Clocks(DoClockEnd(s))
  {
    var s' := DoClockEnd(s);
    forall q: nat | q < |s.tasks| ensures TickOk(s', q) {
      assert TickOk(s, q);
    }
  }

  lemma WokenKeepsClocks(s: State, q: nat, chan: Chan)
    requires Clocks(s) && q < |s.tasks|
    ensures Clocks(Woken(s, q, chan))
  {
    OneSameTick(s, Woken(s, q, chan), q);
  }

  lemma KillKeepsClocks(s: State, q: nat)
    requires Clocks(s) && WellIndexed(s) && CanKill(s, q)
    ensures Clocks(DoKill(s, q))
  {
    OneSameTick(s, DoKill(s, q), q);
  }

  lemma OutsideKeepsClocks(s: State, a: OtherStep)
    requires Core(s) && Clocks(s) && WellIndexed(s) && CanOutside(s, a)
    ensures Clocks(DoOutside(s, a))
  {
    match a
    case Kill(q) => KillKeepsClocks(s, q);
    case WakeElsewhere(q) => WokenKeepsClocks(s, q, s.tasks[q].chan);
    case ClockTick => ClockTickKeeps(s);
    case ClockStep =>
      assert StateOk(s.tasks[s.clock.k], s.clock.k) && LockOk(s, s.clock.k);
      ClockStepKeeps(s);
    case ClockEnd => ClockEndKeeps(s);
  }

  // ----- the other steps -----

  lemma SchedKeepsClocks(s: State, c: nat, a: SchedStep)
    requires Clocks(s) && WellIndexed(s) && CanSched(s, c, a)
    ensures Clocks(DoSched(s, c, a))
  {
    match a
    case Retrieve =>
      if s.rq.entries != [] { OneSameTick(s, DoRetrieve(s, c), s.rq.entries[0].id); }
    case Dispatch => OneSameTick(s, DoDispatch(s, c), s.cpus[c].sched.p);
    case Finish => OneSameTick(s, DoFinish(s, c), s.cpus[c].sched.p);
  }

  lemma ReleaseKeepsClocks(s: State, p: nat)
    requires Clocks(s) && WellIndexed(s) && CanRelease(s, p)
    ensures Clocks(DoRelease(s, p))
  {
    OneSameTick(s, DoRelease(s, p), p);
  }

  lemma YieldKeepsClocks(s: State, p: nat, preempt: bool)
    requires Clocks(s) && WellIndexed(s) && CanYield(s, p)
    ensures Clocks(DoYield(s, p, preempt))
  {
    OneSameTick(s, DoYield(s, p, preempt), p);
  }

  lemma RunKeepsClocks(s: State, p: nat, a: RunStep)
    requires Clocks(s) && WellIndexed(s) && CanRun(s, p, a)
    requires s.tasks[p].state != SLEEPING
    ensures Clocks(DoRun(s, p, a))
  {
    match a
    case Release => ReleaseKeepsClocks(s, p);
    case Charge => OneSameTick(s, DoCharge(s, p), p);
    case Yield(preempt) => YieldKeepsClocks(s, p, preempt);
    case YieldSwtch => OneSameTick(s, DoYieldSwtch(s, p), p);
    case SetNice(nice) => OneSameTick(s, DoSetNice(s, p, nice), p);
  }

  lemma ForkKeepsClocks(s: State, p: nat, a: ForkStep)
    requires Clocks(s) && WellIndexed(s) && CanFork(s, p, a)
    requires a.ForkAlloc? ==> s.tasks[a.np].op == User
    ensures Clocks(DoFork(s, p, a))
  {
    ClocksSame(s, DoFork(s, p, a));
  }

  lemma SleepReleaseKeepsClocks(s: State, p: nat)
    requires Clocks(s) && WellIndexed(s) && CanSleepRelease(s, p)
    ensures Clocks(DoSleepRelease(s, p))
  {
    assert TickOk(s, p);
    if s.tasks[p].op.cont.TickLoop? {
      TickReleaseKeeps(s, p, SleepReady(s.tasks[p].op.cont));
    } else {
      OneSameTick(s, DoSleepRelease(s, p), p);
    }
  }

  lemma ReacquiredKeepsClocks(s: State, p: nat)
    requires Clocks(s) && WellIndexed(s) && CanReacquired(s, p)
    ensures Clocks(DoReacquired(s, p))
  {
    assert TickOk(s, p);
    if s.tasks[p].op.cont.TickLoop? {
      TickAcquireKeeps(s, p, s.tasks[p].op.cont.n, s.tasks[p].op.cont.ticks0);
    } else {
      OneSameTick(s, DoReacquired(s, p), p);
    }
  }

  lemma WaitLookKeepsClocks(s: State, p: nat, copyFails: bool)
    requires Clocks(s) && WellIndexed(s) && CanWaitLook(s, p) && s.tasks[p].state == RUNNING
    requires var t := s.tasks[s.tasks[p].op.i]; t.state == ZOMBIE && t.lock == NULL ==> t.op == ExitDone
    ensures Clocks(DoWaitLook(s, p, copyFails))
  {
    ClocksSame(s, DoWaitLook(s, p, copyFails));
  }

  lemma PlainSleepKeepsClocks(s: State, p: nat, a: SleepStep)
    requires Clocks(s) && WellIndexed(s) && CanSleep(s, p, a) && s.tasks[p].state == RUNNING
    requires a.WaitStart? || a.WaitEnd? || a.SleepSwtch? || a.SleepElsewhere?
    ensures Clocks(DoSleep(s, p, a))
  {
    OneSameTick(s, DoSleep(s, p, a), p);
  }

  lemma SleepKeepsClocks(s: State, p: nat, a: SleepStep)
    requires Core(s) && Clocks(s) && WellIndexed(s) && CanSleep(s, p, a)
    ensures Clocks(DoSleep(s, p, a))
  {
    LiveState(s, p);
    match a
    case WaitLook(copyFails) =>
      assert StateOk(s.tasks[s.tasks[p].op.i], s.tasks[p].op.i) && LockOk(s, s.tasks[p].op.i);
      WaitLookKeepsClocks(s, p, copyFails);
    case SleepRelease => SleepReleaseKeepsClocks(s, p);
    case Reacquired => ReacquiredKeepsClocks(s, p);
    case _ => PlainSleepKeepsClocks(s, p, a);
  }

  lemma ExitWakeKeepsClocks(s: State, p: nat)
    requires Clocks(s) && WellIndexed(s) && CanExitWake(s, p)
    ensures Clocks(DoExitWake(s, p))
  {
    ClocksSame(s, DoExitWake(s, p));
  }

  lemma ExitScanKeepsClocks(s: State, p: nat)
    requires Clocks(s) && WellIndexed(s) && CanExitScan(s, p)
    ensures Clocks(DoExitScan(s, p))
  {
    ClocksSame(s, DoExitScan(s, p));
  }

  lemma ExitKeepsClocks(s: State, p: nat, a: ExitStep)
    requires Clocks(s) && WellIndexed(s) && CanExit(s, p, a)
    ensures Clocks(DoExit(s, p, a))
  {
    match a
    case ExitStart => OneSameTick(s, DoExitStart(s, p), p);
    case ExitScan => ExitScanKeepsClocks(s, p);
    case ExitWake => ExitWakeKeepsClocks(s, p);
    case ExitMark => OneSameTick(s, DoExitMark(s, p), p);
    case ExitRelease => OneSameTick(s, DoExitRelease(s, p), p);
    case ExitSwtch => OneSameTick(s, DoExitSwtch(s, p), p);
  }

  /** Every step keeps the clock invariants. */
  lemma ClocksKept(s: State, a: Action)
    requires Core(s) && Clocks(s) && Can(s, a)
    ensures Clocks(Do(s, a))
  {
    match a
    case Sched(c, b) => SchedKeepsClocks(s, c, b);
    case Run(p, b) =>
      assert StateOk(s.tasks[p], p);
      RunKeepsClocks(s, p, b);
    case Fork(p, b) =>
      if b.ForkAlloc? { assert StateOk(s.tasks[b.np], b.np); }
      ForkKeepsClocks(s, p, b);
    case Sleep(p, b) => SleepKeepsClocks(s, p, b);
    case Exit(p, b) => ExitKeepsClocks(s, p, b);
    case Tick(p, b) => TickKeepsClocks(s, p, b);
    case Outside(b) => OutsideKeepsClocks(s, b);
  }
}
