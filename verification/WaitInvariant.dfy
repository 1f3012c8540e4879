/** Parents, wait and exit: every process has a live parent, and no exit of a child is slept through. */
module WaitInvariant {
  import opened Procs
  import opened Machine

  /** Points at which a process holds wait_lock. */
  ghost predicate HoldsWait(op: Op) {
    || op.WaitScan? || op == SleepHeld(WaitLoop)
    || op.ExitReparent? || op.ExitWakeInit? || op.ExitWakeParent? || op == ExitZombie
  }

  ghost predicate Exiting(op: Op) {
    op.ExitReparent? || op.ExitWakeInit? || op.ExitWakeParent? || op == ExitZombie || op == ExitDone
  }

  /** In fork, after the new process got its parent. */
  ghost predicate HasChild(op: Op) {
    op.ForkParented? || op.ForkPending?
  }

  /** Asleep in wait, or committed to it: wait_lock is released and the next step is the switch. */
  ghost predicate WaitAsleep(t: Task) {
    t.op == SleepReady(WaitLoop) || (t.state == SLEEPING && t.op == Asleep(WaitLoop))
  }

  ghost predicate Alive(t: Task) {
    t.state == RUNNABLE || t.state == RUNNING || t.state == SLEEPING
  }

  ghost predicate ParentOk(s: State, z: nat)
    requires z < |s.tasks|
  {
    var t := s.tasks[z];
    && (t.parent == NULL || (0 <= t.parent < |s.tasks| && t.parent != z && Alive(s.tasks[t.parent])))
    && (z != s.initproc && (Alive(t) || t.state == ZOMBIE) ==> t.parent != NULL)
    && (z == s.initproc || t.state == UNUSED ==> t.parent == NULL)
    && (z == s.initproc ==> Alive(t))
    && (HasChild(t.op) ==> t.op.np < |s.tasks| && s.tasks[t.op.np].parent == z)
  }

  /** How far exit and wait have got with the children of p. */
  ghost predicate FamilyOk(s: State, p: nat)
    requires p < |s.tasks|
  {
    var t := s.tasks[p];
    && (HoldsWait(t.op) <==> s.waitLock == ByTask(p))
    && (Exiting(t.op) ==> p != s.initproc)
    && (t.op.ExitReparent? ==> NoChildBelow(s, p, t.op.j))
    && (t.op.ExitWakeInit? ==> t.op.j < |s.tasks| && NoChildBelow(s, p, t.op.j + 1))
    && (t.op.ExitWakeParent? || t.op == ExitZombie || t.op == ExitDone ==> NoChildBelow(s, p, |s.tasks|))
    && (t.op.ExitWakeParent? && 0 <= t.parent < |s.tasks| && t.parent < t.op.k ==> !WaitAsleep(s.tasks[t.parent]))
    && (t.op.WaitScan? ==> NoZombieBelow(s, p, t.op.i) && (NoChildBelow(s, p, t.op.i) <==> !t.op.kids))
    && (t.op == SleepHeld(WaitLoop) ==> NoZombieBelow(s, p, |s.tasks|))
  }

  ghost predicate NoChildBelow(s: State, p: nat, n: nat) {
    forall z: nat {:trigger s.tasks[z]} :: z < n && z < |s.tasks| ==> s.tasks[z].parent != p
  }

  ghost predicate NoZombieBelow(s: State, p: nat, n: nat) {
    forall z: nat {:trigger s.tasks[z]} :: z < n && z < |s.tasks| ==>
      s.tasks[z].parent == p ==> s.tasks[z].state != ZOMBIE
  }

  /** Between giving a zombie to init and waking init, init may be asleep with a zombie child. */
  ghost predicate InitBeingWoken(s: State) {
    && s.waitLock.ByTask? && s.waitLock.p < |s.tasks|
    && s.tasks[s.waitLock.p].op.ExitWakeInit? && s.tasks[s.waitLock.p].op.k <= s.initproc
  }

  ghost predicate NotLost(s: State, p: nat, z: nat)
    requires p < |s.tasks| && z < |s.tasks|
  {
    WaitAsleep(s.tasks[p]) && s.tasks[z].parent == p && s.tasks[z].state == ZOMBIE ==>
      p == s.initproc && InitBeingWoken(s)
  }

  ghost predicate Parents(s: State) {
    forall p: nat :: p < |s.tasks| ==> ParentOk(s, p)
  }

  ghost predicate Progress(s: State) {
    && s.waitLock != ByClock && (s.waitLock.ByTask? ==> s.waitLock.p < |s.tasks|)
    && (forall p: nat :: p < |s.tasks| ==> FamilyOk(s, p))
  }

  ghost predicate Members(s: State) {
    Parents(s) && Progress(s)
  }

  ghost predicate NoneLost(s: State) {
    forall p: nat, z: nat :: p < |s.tasks| && z < |s.tasks| ==> NotLost(s, p, z)
  }

  ghost predicate Families(s: State) {
    Members(s) && NoneLost(s)
  }

  // ----- steps that do not concern families -----

  /** The part of a process's progress that matters here. */
  ghost function FamilyOp(op: Op): Op {
    if HoldsWait(op) || Exiting(op) || HasChild(op) then op else User
  }

  ghost predicate SameFamily(t: Task, t': Task) {
    && t'.parent == t.parent && FamilyOp(t'.op) == FamilyOp(t.op)
    && (t'.state == ZOMBIE <==> t.state == ZOMBIE) && (t'.state == UNUSED <==> t.state == UNUSED)
    && (Alive(t') <==> Alive(t)) && (WaitAsleep(t') ==> WaitAsleep(t))
  }

  lemma FamiliesSame(s: State, s': State)
    requires Families(s) && |s'.tasks| == |s.tasks| && s'.waitLock == s.waitLock && s'.initproc == s.initproc
    requires forall q: nat :: q < |s.tasks| ==> SameFamily(s.tasks[q], s'.tasks[q])
    ensures Families(s')
  {
    forall p: nat | p < |s.tasks| ensures ParentOk(s', p) && FamilyOk(s', p) {
      assert ParentOk(s, p) && FamilyOk(s, p) && SameFamily(s.tasks[p], s'.tasks[p]);
      var t := s.tasks[p];
      if 0 <= t.parent < |s.tasks| {
        assert SameFamily(s.tasks[t.parent], s'.tasks[t.parent]);
      }
      if HasChild(t.op) {
        assert SameFamily(s.tasks[t.op.np], s'.tasks[t.op.np]);
      }
      SameBelow(s, s', p);
    }
    forall p: nat, z: nat | p < |s.tasks| && z < |s.tasks| ensures NotLost(s', p, z) {
      assert NotLost(s, p, z);
      assert SameFamily(s.tasks[p], s'.tasks[p]) && SameFamily(s.tasks[z], s'.tasks[z]);
      if s.waitLock.ByTask? {
        assert SameFamily(s.tasks[s.waitLock.p], s'.tasks[s.waitLock.p]);
      }
    }
  }

  lemma SameBelow(s: State, s': State, p: nat)
    requires |s'.tasks| == |s.tasks| && forall q: nat :: q < |s.tasks| ==> SameFamily(s.tasks[q], s'.tasks[q])
    ensures forall n: nat :: NoChildBelow(s, p, n) <==> NoChildBelow(s', p, n)
    ensures forall n: nat :: NoZombieBelow(s, p, n) ==> NoZombieBelow(s', p, n)
  {
    forall n: nat ensures NoChildBelow(s, p, n) <==> NoChildBelow(s', p, n) {
      forall z: nat | z < n && z < |s.tasks| ensures s'.tasks[z].parent == s.tasks[z].parent {
        assert SameFamily(s.tasks[z], s'.tasks[z]);
      }
    }
    forall n: nat | NoZombieBelow(s, p, n) ensures NoZombieBelow(s', p, n) {
      forall z: nat | z < n && z < |s.tasks| ensures s'.tasks[z].parent == p ==> s'.tasks[z].state != ZOMBIE {
        assert SameFamily(s.tasks[z], s'.tasks[z]);
      }
    }
  }
}
