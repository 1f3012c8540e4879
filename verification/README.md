# The CFS scheduler of xv6, verified

This project models the process scheduler that replaces the round-robin scheduler of xv6: the red-black tree of
runnable processes in `src/proc.c`, the scheduling, sleep/wakeup, fork, wait and exit protocols around it, and the
time accounting in `src/trap.c` and `src/sysproc.c`. It proves that the tree code is a correct and balanced stable
priority queue, that the multi-CPU protocols neither lose nor duplicate a process in any interleaving, and what the
scheduling policy guarantees to processes that only compute.

`dafny verify dfyconfig.toml` checks everything.

## Organisation

| file | contents |
|---|---|
| `Numbers.dfy` | powers and a little nonlinear arithmetic |
| `Proc.dfy` | the scheduling fields of `struct proc`; a link to a process is its index in the process table, or `NULL` |
| `Queue.dfy` | the run queue as its callers see it: a list sorted by virtual runtime with `count`, `treeWeight` and `period`, and what one insertion or retrieval makes of it |
| `Fifo.dfy` | an independent definition of who is due next, and the proof that the run queue serves exactly that process over any sequence of calls |
| `Weight.dfy` | `calculateWight` |
| `Shape.dfy`, `RedBlack.dfy` | trees, positions in trees, and what every case of the two repairs does to them |
| `Layout.dfy` | when the links in the process table spell out a tree, and how single writes change that |
| `RBTree.dfy` | the tree operations themselves, as imperative code over the process table |
| `Machine.dfy` | the kernel as a state machine: every action is one atomic step of one CPU, one process or one interrupt handler |
| `CoreInvariant.dfy`, `CoreSteps.dfy` | locks, process states, who keeps which process, time accounts; every step keeps them |
| `WaitInvariant.dfy`, `WaitSteps.dfy` | parents, `wait` and `exit`; every step keeps them |
| `TickInvariant.dfy` | `sys_sleep` and the clock interrupt; every step keeps them |
| `Safety.dfy` | what follows for every state of every run from boot |
| `Calls.dfy` | what the callers of `wait`, `sys_sleep`, `kill`, `fork` and `sys_setNice` get over whole runs, who becomes whose child, and who waits for whom |
| `Kernel.dfy` | every step of the machine carried out on the tree of `RBTree.dfy`, and that the two always agree |
| `Order.dfy` | the order in which processes are picked over whole runs of the machine |
| `Window.dfy` | preemption, fairness and bounded waiting on one CPU |
| `Shares.dfy` | when CPU shares follow weights |
| `Preemption.dfy` | how far ahead of the smallest virtual runtime a process can get |
| `Witnesses.dfy` | runs from boot that show what the policy does not do |

The tree code is modelled in its own form: class `RBTree` has the fields of `struct RBTree`, the methods overwrite
`left`, `right`, `pParent` and `color` in the process table in the order of the original, the insertion repair is the
same mutual recursion through five cases, and the deletion repair is the same loop with only its left half. A ghost
tree says which shape the links spell out, and `RBTree.View` gives the abstract run queue. `Valid` says that the links
form a red-black tree with consistent parent links, that `minvRuntime` is its leftmost process, that `count` and
`treeWeight` are exact, and that no process outside the tree has children.

The state machine uses the same functions `Enqueue` and `Dequeue` on the run queue that the methods of `RBTree` are
proved to implement, and `Kernel.dfy` joins the two: `Glued` says that a tree is valid, holds the run queue of a
machine state and lives in a process table that agrees with it field by field, `Kernel.Boot` builds such a tree, and
`Kernel.Step` carries out any step of the machine on it. The actions of the machine are cut where a spinlock is taken or released, or control is switched, so that the
three windows of the original are visible: a process retrieved from the tree but not yet locked (`Hand`), a child
that is RUNNABLE but not yet inserted (`ForkPending`), and a process that is back in the tree but still on its own
stack (`Yielding`). The number of CPUs and processes is arbitrary (`NPROC` is symbolic; latency is `NPROC / 2`,
the minimum granularity 2). Fields marked as history record events and influence no step.

Where the steps of the state machine come from:

- `DoRetrieve`, `DoDispatch`, `DoFinish`: the loop of `scheduler` (src/proc.c:1037-1067), with `retrieveProcess`.
- `DoRelease`: the return from `swtch` in `forkret` (src/proc.c:1215), `yield` (src/proc.c:1205) and `sleep`
  (src/proc.c:1254-1258).
- `DoCharge`, `DoYield`, `DoYieldSwtch`: the end of `usertrap` and `kerneltrap` (src/trap.c:316-323, 394-395), `yield`
  (src/proc.c:1193-1206) and `checkPreemption` (src/proc.c:545-579).
- `DoForkAlloc`, `DoForkParent`, `DoForkReady`, `DoForkInsert`: `fork` with `allocproc` (src/proc.c:661-717, 849-899).
- `DoWaitStart`, `DoWaitLook`, `DoWaitEnd`: `wait` with `freeproc` (src/proc.c:721-739, 965-1015).
- `DoSleepRelease`, `DoSleepSwtch`, `DoReacquired`, `DoSleepElsewhere`: `sleep` (src/proc.c:1234-1260).
- `DoExitStart`, `DoExitScan`, `DoExitWake`, `DoExitMark`, `DoExitRelease`, `DoExitSwtch`: `exit` with `reparent` and
  `wakeup` (src/proc.c:903-961, 1264-1283).
- `DoTickStart`, `DoTickTest`: `sys_sleep` (src/sysproc.c:58-77); `DoSetNice`: `sys_setNice` (src/sysproc.c:102-114).
- `DoClockTick`, `DoClockStep`, `DoClockEnd`: `clockintr` (src/trap.c:404-410); `DoKill`: `kill` (src/proc.c:1288-1314);
  `DoWakeElsewhere`: one slot of a `wakeup` called by a driver, a pipe or the file system.

Interrupt handlers and drivers act as parties of their own, whichever process they interrupt; that allows at least the
interleavings the kernel has.

## Main results

1. Tree. `RBTree.InsertProcess` and `RBTree.RetrieveProcess` keep `Valid` and act on the run queue exactly like
   `Enqueue` and `Dequeue`, on every valid tree. The proofs contain the two shortcuts of the original: the one-sided
   deletion repair is enough because the short subtree stays on the left edge (`Short`), its sibling exists
   (`SiblingExists`) and the work left falls in every round (`OneRound`); and `minvRuntime` need only be refreshed when
   it has gained a left child, because the insertion repair never lifts a new minimum above the old one (`SpineRises`,
   `RefreshMin`). `DescentsBounded` is the balance bound.
2. Queue. `Fifo.ServesWhoIsDue` and `Fifo.NobodyOvertakes`: over any sequence of calls the smallest virtual runtime is
   served first, and equal ones in the order of insertion. `Order.PickedInOrder` carries this to whole runs of the
   machine on any number of CPUs. `Queue.SliceIsShare` and `Queue.EpochFills`: every slice is its weight's share of the
   period rounded down, and one slice for each queued process fills the period but for less than one tick each.
3. Protocols, for every state that any run from boot reaches (`Safety.Reachable`): `RunnableConserved`, `NeverRefused`,
   `MutualExclusion`, `ResumedOnlyWhenAway`, `SchedNeverPanics`, `InsertionFits`, `InsertsComplete`, `FrozenWhileQueued`,
   `ChargesConserved`, `SliceBounds`, `PeriodMoves`, `PreemptsExactlyWhen`, `NeverOverrun`, `NoLostExit`, `ParentsLive`,
   `ReapedOnce`, `NobodyOversleeps`. And what the calls promise over runs (`Calls.dfy`): `SleepLastsExactly` counts the
   clock interrupts between a call of `sys_sleep` and its end, `WaitGivesUpExactly` and `WaitReapsExactly` say when
   `wait` returns, `KillEndsCalls` what a killed process can no longer do, `NiceTakesEffect` and `ForkDelivers` what the
   next insertion uses, `ParentChanges` and `NoChildrenLeft` where children go, and `NeverStuck` that a party waits only
   for a lock of somebody else who can go on.
4. Both halves together: `Kernel.Step` and `Kernel.Execute`. Every step of every run can be carried out on the tree in
   the process table, with all conditions of the tree code met, and tree and machine agree afterwards.
5. Policy, on one CPU while nobody blocks, wakes, is created or ends: `Window.PreemptsExactly`,
   `Preemption.AheadExactly`, `Window.TurnChargedExactly`, `Window.FairSpread`, `Window.BoundedWait`,
   `Window.BoundedTurns`, and `Shares.SharesFollowWeightsExactly`: CPU shares follow weights if and only if the weights
   are equal.

## Where code and documentation disagree

The model follows the code, except in the first and the last point, where it follows what the code was meant to do.

- The loop of `calculateWight` never advances its counter (src/proc.c:75-78). `CalculateWight` models the loop with the
  counter advancing, and the state machine uses the weights that this gives. `UnadvancedLoopStops` says exactly when the
  loop as written ends: for nice values that are not positive.
- The repository's README.md:82-83 gives the weight as 1024 / 1.25^nice. The code starts from 1.25 and so computes
  1024 / 1.25^(nice + 1); `DocumentedExactly` says for which nice values rounding makes the two equal.
- The repository's README.md:85 promises CPU shares in proportion to weights. Virtual runtime is charged without regard
  to weight (src/proc.c:1200). `SharesFollowWeightsExactly` says when shares follow weights nevertheless: in the windows
  that open at a given state, if and only if the weights are equal. `SharesIgnoreWeights` bounds the shortfall of the
  heavier process from below at every moment, and `UnequalWeightsReached` gives a run from boot to a window in which two
  processes of weight 1 and 819 leave their ratio by any amount.
- The repository's README.md:58 and README.md:88 describe preemption when the virtual runtime of the running process
  exceeds the smallest one "by a threshold". The comparison leaves out the current runtime (src/proc.c:559), and in a
  window it never fires: `PreemptsExactly`. So there is no such threshold but the slice itself: `AheadExactly` says that
  a turn that may last for m and begins d below the smallest virtual runtime has a yield more than T ahead that does not
  preempt if and only if m - 1 - d > T, and `AheadByAnything` reaches from boot, for every k below the first slice (the
  latency, or 2 if that is more), a yield that does not preempt a process that is k ahead.
- The repository's README.md:124 limits nice values to 0..30; `sys_setNice` accepts 0..39 (src/sysproc.c:108), and
  weights clamp at 30.
- `kill` marks whatever slot has the given pid (src/proc.c:1294-1297), also a free one, whose pid is 0, and `allocproc` does not
  clear the mark (src/proc.c:661-717). So a process can be born killed: `Witnesses.BornKilled` is a run from boot, and
  `BornKilledExactly` says that it happens if and only if `kill` hit the slot while it was free.
- The period is stretched to two ticks for each queued process and is meant to cover them (src/proc.c:503-506), but it
  is set, not raised: as long as more than a quarter of the slots are queued, it follows their number down as well as up,
  and afterwards it stays where it is. `PeriodFalls` is an instance, and `PeriodFallsExactly` the condition;
  `StretchedForGood` says that it never comes back to the latency.
- A comment speaks of clock ticks (src/trap.c:314), but every trap from user mode is charged (src/trap.c:316-318).
- The system call table registers `sys_setnice`, which does nothing (src/sysproc.c:25-28). The step `SetNice` models the
  body of `sys_setNice`, which no table entry reaches. `StubKeepsWeights` says what holds with the registered one: in
  every run without that step all nice values stay 0, all weights in the tree are 819, and the loop of `calculateWight`
  as written always ends.

## Model

| member | source | states |
|---|---|---|
| `Queue.InsertSplits` | src/proc.c:239-248 | an insertion goes after all entries with a key that is not larger, and before all others |
| `Queue.InsertSorted` | src/proc.c:227-251 | an insertion keeps the list sorted by virtual runtime |
| `Queue.InsertMembers` | src/proc.c:227-251 | an insertion keeps every entry, and adds only the new one |
| `Queue.Pigeonhole` | src/proc.c:100-110 | distinct processes never outnumber the slots, and fill them only if every process is queued |
| `Queue.EnqueueSound` | src/proc.c:345-371 | inserting a process that is not in the tree is never refused, and keeps order, distinctness, `count`, `treeWeight` and the bounds of `period` |
| `Queue.DequeueSound` | src/proc.c:495-531 | taking the head keeps all that; the total weight is positive, the period is at least the latency and at least two ticks a process, and the slice lies between 0 and the period |
| `Queue.SliceIsShare` | src/proc.c:528 | with slice x, new period P, weight w of the head and total weight W of the queue, x * W <= P * w < (x + 1) * W |
| `Queue.EpochFills` | src/proc.c:528 | if each of n queued processes gets such a share of one period, the slices together are at most the period and more than the period less n |
| `Queue.PeriodFalls` | src/proc.c:503-506 | with four slots and three queued processes the period is 6 at one retrieval and 4 at the next |
| `Queue.AverageShare` | src/proc.c:503-528 | a process with at least the average weight gets at least the minimum granularity |
| `Queue.StretchSound` | src/proc.c:503-506 | stretching the period is idempotent: a refused retrieval changes neither the next slice nor the next queue |
| `Fifo.HeadIsEarliest` | src/proc.c:239-248 | the head of the queue is the earliest arrival among the smallest keys, and the rest is the queue without it |
| `Fifo.ServesWhoIsDue` | src/proc.c:345-538 | over any sequence of insertions and retrievals the processes handed out are those the arrival-order definition gives, one by one, and all cached values stay exact |
| `Fifo.NobodyOvertakes` | src/proc.c:239-248 | whatever is inserted and retrieved meanwhile, a process is served only after everyone who came earlier with a key that is not larger |
| `Weights.CalculateWight` | src/proc.c:62-82 | with the counter advancing, the loop in exact rationals computes 1024 * 4^(n+1) / 5^(n+1), rounded down, for the clamped nice value n |
| `Weights.WeightRange` | src/proc.c:62-82 | every weight lies between 1 and 819 |
| `Weights.WeightFalls` | src/proc.c:62-82 | a higher nice value never gives a higher weight |
| `Weights.DocumentedExactly` | src/proc.c:73-80 | the weight is the documented 1024 / 1.25^nice exactly for clamped nice values 25, 28, 29 and 30 |
| `Safety.StubKeepsWeights` | src/sysproc.c:24-28 | in every run from boot in which no nice value is set, all nice values stay 0, all weights in the tree are 819, and the loop of `calculateWight` as written ends |
| `Weights.UnadvancedLoopStops` | src/proc.c:73-78 | as written, the loop is left if and only if the nice value is not positive |
| `Shape.RotateLeftKeeps` | src/proc.c:148-173 | a left rotation keeps the in-order sequence and the set of processes |
| `Shape.RotateRightKeeps` | src/proc.c:179-204 | a right rotation keeps the in-order sequence and the set of processes |
| `RedBlack.Balanced` | src/proc.c:211-251 | two to the height of a red-black tree is at most (n + 1) squared |
| `RedBlack.GrownInOrder` | src/proc.c:227-251 | the recursive descent is a stable insertion into the in-order sequence |
| `RedBlack.ReadyToRepair` | src/proc.c:351-363 | the new red leaf is in a repairable position, on the left edge if its key is the new minimum |
| `RedBlack.RepaintedSound` | src/proc.c:285-291 | case 3 moves the only possible violation two levels up and changes no order |
| `RedBlack.StraightenedSound` | src/proc.c:305-314 | case 4 turns an inner grandchild into an outer one, still repairable, with the same order |
| `RedBlack.LiftedSound` | src/proc.c:322-333 | case 5 ends with a black root, equal black heights and the same order |
| `RedBlack.SpineRises` | src/proc.c:365-369 | no case of the insertion repair lifts a new minimum above the old one or gives it a right child |
| `RedBlack.SmallestGoesLeft` | src/proc.c:239-248 | a strictly new minimum is hung at the end of the left edge |
| `RedBlack.SiblingExists` | src/proc.c:440-449 | the sibling of a short subtree is never null, and a red sibling has black children of which the near one exists |
| `RedBlack.BelowRedSound` | src/proc.c:442-448 | rotating a red sibling away leaves a black sibling, the same shortage and the same order |
| `RedBlack.PushedUpSound` | src/proc.c:449-455 | a black sibling with black children passes the shortage to the parent, which is again on the left edge |
| `RedBlack.FarRedSound` | src/proc.c:458-468 | a red near child of the sibling becomes a red far child, with the same shortage and order |
| `RedBlack.SettledSound` | src/proc.c:470-474 | the last rotation removes the shortage from the whole tree |
| `RedBlack.MinShapes` | src/proc.c:392-423 | the leftmost process has at most one red leaf as a right child, so cutting it out leaves at most one black process missing |
| `RedBlack.HeirSound` | src/proc.c:395-423 | unless a black process without children below the root goes, the tree needs no repair |
| `RedBlack.DropMin` | src/proc.c:389-410 | replacing the leftmost process by its right subtree drops exactly the head of the sequence |
| `Layout.LeftTurnAt` | src/proc.c:148-173 | the six writes of a left rotation turn the links of a tree into the links of the rotated tree, wherever in the tree it stands |
| `Layout.RightTurnAt` | src/proc.c:179-204 | the same for a right rotation |
| `Layout.SecondHasLeft` | src/proc.c:368 | if a childless process is the new minimum, the old minimum is its parent and has a left child: the test of the cache sees it |
| `RBTrees.RBTree.constructor` | src/proc.c:49-59 | `rbinit` makes a valid, empty run queue whose period is the latency |
| `RBTrees.RBTree.Kin` | src/proc.c:114-142 | `getGrandparentProc` and `getUncleProc` return the grandparent and the uncle of any process of the tree, and null where there is none |
| `RBTrees.RBTree.RotateLeft` | src/proc.c:148-173 | the links spell out the rotated tree, and nothing but links inside the tree has changed |
| `RBTrees.RBTree.RotateRight` | src/proc.c:179-204 | the links spell out the rotated tree, and nothing but links inside the tree has changed |
| `RBTrees.RBTree.SetMinimumVRuntimeproc` | src/proc.c:210-225 | the result is the leftmost process, null for an empty tree |
| `RBTrees.RBTree.InsertProc` | src/proc.c:227-251 | the detached process hangs as a red leaf after all processes with a virtual runtime that is not larger; nothing else changes |
| `RBTrees.RBTree.InsertionCases` | src/proc.c:263-343 | from any repairable position the dispatch restores all red-black rules, keeps the in-order sequence and the left edge, and ends (depth, then case number falls) |
| `RBTrees.RBTree.InsertionCase1` | src/proc.c:270-275 | as above, from case 1 |
| `RBTrees.RBTree.InsertionCase2` | src/proc.c:277-280 | as above, from case 2; below a black parent nothing is left to do |
| `RBTrees.RBTree.InsertionCase3` | src/proc.c:282-300 | as above, from case 3; the grandparent is never null |
| `RBTrees.RBTree.InsertionCase4` | src/proc.c:302-317 | as above, from case 4, for both mirror images |
| `RBTrees.RBTree.InsertionCase5` | src/proc.c:319-337 | as above, from case 5, for both mirror images |
| `RBTrees.RBTree.RefreshMin` | src/proc.c:365-369 | after the conditional refresh `minvRuntime` is the leftmost process |
| `RBTrees.RBTree.InsertProcess` | src/proc.c:345-372 | a valid tree stays valid, the run queue changes as `Enqueue` says, and no field outside the tree's own changes in any process |
| `RBTrees.RBTree.Unhook` | src/proc.c:391-423 | the four branches replace the leftmost process by its right child, coloured black, and a repair is needed exactly when a black childless process below the root has gone |
| `RBTrees.RBTree.OneRound` | src/proc.c:438-476 | one round of the loop keeps order and shortage, stays on the left edge and has less work left |
| `RBTrees.RBTree.RetrievingCase2` | src/proc.c:432-481 | the one-sided loop ends with a red-black tree of the same sequence, after at most as many rounds as the subtree is deep |
| `RBTrees.RBTree.RetrievingCase1` | src/proc.c:389-430 | from any red-black tree, exactly the leftmost process is removed, its links are cleared, and the rest is a red-black tree |
| `RBTrees.RBTree.RetrieveProcess` | src/proc.c:489-538 | empty tree: null and no change; head not RUNNABLE: null and only the period stretched; otherwise the head is returned, the run queue changes as `Dequeue` says, and the slice is the head's share by weight of the new period; the period is twice the number of processes if more than a quarter of the slots were queued, and otherwise as before; the tree stays valid; the repair takes at most as many rounds as the tree is high |
| `RBTrees.RBTree.DescentsBounded` | src/proc.c:211-251 | in every valid tree two to the height is at most (count + 1) squared, and no descent is longer than the height |
| `RBTrees.RBTree.AllocProc` | src/proc.c:682-714 | resetting the fields and links of an unused slot leaves the tree valid and the run queue unchanged |
| `CoreSteps.RetrieveKeeps` | src/proc.c:1038-1066 | a retrieval before `p->lock` is taken keeps the core invariants |
| `CoreSteps.DispatchKeeps` | src/proc.c:1041-1053 | a dispatch keeps the core invariants |
| `CoreSteps.YieldKeeps` | src/proc.c:1193-1206 | a yield keeps the core invariants whatever `checkPreemption` has read of the minimum, and if it preempts, the insertion takes effect |
| `CoreSteps.ForkInsertKeeps` | src/proc.c:892-896 | the delayed insertion of a child keeps the core invariants and takes effect |
| `CoreSteps.ForkedSlot` | src/proc.c:856-896 | the slot a forker works on is kept by it alone: USED until marked, then RUNNABLE and pending, and on no CPU |
| `CoreSteps.RequeuedKeeps` | src/proc.c:1273-1279 | marking and inserting a stopped process keeps the core invariants and takes effect |
| `CoreSteps.WaitReturnKeeps` | src/proc.c:985-999 | freeing a zombie child keeps the core invariants |
| `CoreSteps.KillKeeps` | src/proc.c:1294-1310 | `kill` of any process in any state keeps the core invariants |
| `CoreSteps.CoreKept` | src/proc.c:849-1314 | every step keeps the lock discipline, the process states, who keeps which process, the time accounts and the run queue |
| `WaitSteps.ReparentedKeepsFamilies` | src/proc.c:903-915 | giving a child to init keeps the family invariants |
| `WaitSteps.WakeRoundKeepsFamilies` | src/proc.c:1264-1283 | one round of a wakeup in `exit` keeps the family invariants |
| `WaitSteps.ExitMarkKeepsFamilies` | src/proc.c:951-956 | becoming a ZOMBIE after the parent was woken leaves no parent asleep with a zombie child |
| `WaitSteps.FamiliesKept` | src/proc.c:849-1314 | every step keeps parents alive, the progress of `wait` and `exit` truthful, and no exit slept through |
| `TickInvariant.ElapsedIsDifference` | src/sysproc.c:68 | the unsigned 32-bit difference of two tick counts is the true difference modulo 2^32, across a wrap of the counter |
| `TickInvariant.ClocksKept` | src/sysproc.c:57-77 | every step keeps what `sys_sleep` and the clock interrupt rely on |
| `Safety.BootSound` | src/proc.c:599-822 | the state after `procinit` and `userinit` satisfies all invariants |
| `Safety.InvKept` | src/proc.c:849-1314 | every step of every CPU, process and interrupt handler keeps all invariants |
| `Safety.ReachableSound` | src/proc.c:799-1314 | every state that any interleaving reaches from boot satisfies all invariants |
| `Safety.InitRuns` | src/proc.c:1037-1053 | from boot, a CPU can retrieve init, with the whole period as its slice, dispatch it and run it |
| `Safety.RunnableConserved` | src/proc.c:892-896 | a RUNNABLE process is kept exactly once, by the tree, by one dispatcher or by one forker; any other process is not kept at all |
| `Safety.NeverRefused` | src/proc.c:512-516 | the tests of `p->state` against RUNNABLE in `retrieveProcess` and `scheduler` never fail |
| `Safety.MutualExclusion` | src/proc.c:1041-1065 | no process is current on two CPUs |
| `Safety.ResumedOnlyWhenAway` | src/proc.c:1193-1206 | a process can be resumed only when no CPU is on its stack any more, although it is in the tree before it has switched out |
| `Safety.SchedNeverPanics` | src/proc.c:1173-1190 | whoever calls `sched` holds its own lock and no other, and is not RUNNING |
| `Safety.LedgerKept` | src/proc.c:1196-1202 | no step changes key, weight or nice value of a queued process; no virtual runtime falls, and only a charge counts as one |
| `Safety.FrozenWhileQueued` | src/proc.c:354-360 | over any run from any state that satisfies the invariants, key and weight of a process that stays in the tree are frozen, and order and aggregates of the tree stay exact |
| `Safety.ChargesConserved` | src/trap.c:316-318 | over any stretch of a process's life, virtual plus current runtime grows by exactly the number of its charges, and the virtual runtime never falls |
| `Safety.SliceBounds` | src/proc.c:503-531 | at every retrieval of every run: the slice is the share of the new period that the weight of the process has in the weights of all queued processes, rounded down; the total weight is positive, the period at least the latency and two ticks a process and at most max(latency, 2 * NPROC), and the slice at least two ticks for a process of average weight |
| `Safety.PeriodMoves` | src/proc.c:503-506 | of all steps only a retrieval moves the period, and only when more than a quarter of the slots are queued: then to twice the number of processes queued before it |
| `Safety.PeriodFallsExactly` | src/proc.c:503-506 | the period falls at a step if and only if it is such a retrieval with fewer processes than half the period |
| `Safety.StretchedForGood` | src/proc.c:503-506 | over any run, a period above the latency stays above it |
| `Safety.PreemptsExactlyWhen` | src/proc.c:545-579 | in every reachable state, a yield that reads the minimum as it is preempts if and only if slice and granularity are used up, or some queued process has a smaller virtual runtime and the current runtime is 0 or at least 2 |
| `Safety.NeverOverrun` | src/proc.c:545-579 | the current runtime never exceeds the slice or the minimum granularity, whichever is longer, and is 0 for every process in the tree |
| `Safety.InsertionFits` | src/proc.c:345-371 | whenever any step inserts a process, it is not in the tree, the tree is not full, and the insertion takes effect |
| `Safety.InsertsComplete` | src/proc.c:892-896 | whatever step puts a process into the tree is a listed insertion: a preempting yield, the end of a fork, or the waking of a sleeper |
| `Safety.NoLostExit` | src/proc.c:949-956 | while `wait_lock` is free, nobody who sleeps in `wait` or is committed to it has a zombie child |
| `Safety.WaitFailsOnlyWithoutChildren` | src/proc.c:1005-1010 | unless killed, `wait` gives up only if no process has the caller as its parent |
| `Calls.WaitGivesUpExactly` | src/proc.c:1005-1013 | a scan that found no zombie ends the call, with `wait_lock` free, if and only if the caller is killed or no process has it as its parent; otherwise the caller goes to sleep on its children and leaves `wait_lock` free |
| `Calls.WaitReapsExactly` | src/proc.c:979-1001 | a look at a slot ends the call if and only if a zombie child is there; unless its status cannot be copied out, the child is then UNUSED, unmarked, without parent and counted as reaped once more; no other process changes |
| `Calls.WaitEndsAtScan` | src/proc.c:965-1015 | no other step of any party ends a call of `wait` |
| `Safety.ParentsLive` | src/proc.c:903-915 | every process but init has a parent that can still wait for it, and init never ends |
| `Calls.ForkDelivers` | src/proc.c:849-899 | at the end of every `fork` the tree holds a RUNNABLE child of the caller with virtual runtime 0 and weight 819 |
| `Calls.ParentChanges` | src/proc.c:903-915 | a process gets its forker as parent, passes to init and nobody else and only by its parent's `exit`, and loses its parent only as a zombie that is reaped |
| `Calls.NoChildrenLeft` | src/proc.c:903-915 | a zombie is nobody's parent |
| `Calls.BornKilledExactly` | src/proc.c:661-717 | a new process has nice value 0 and no runtime; it is killed if and only if `kill` hit its slot while it was free |
| `Witnesses.BornKilled` | src/proc.c:661-717 | from every boot with one CPU and two slots, `fork` can allocate a process that is already killed |
| `Safety.ReapedOnce` | src/proc.c:985-999 | every exit is reaped at most once, and the process is a zombie exactly until then |
| `Safety.SleepsLongEnough` | src/sysproc.c:57-77 | `sys_sleep(n)` returns 0 only after at least n ticks, also across a wrap of the counter, and below 2^32 ticks it returns then |
| `Safety.NobodyOversleeps` | src/trap.c:404-410 | once the clock interrupt has released `tickslock`, every sleeper in `sys_sleep` has seen the current tick and has ticks to go |
| `Calls.TicksCounted` | src/trap.c:404-410 | over any run the tick count grows by the number of clock interrupts |
| `Calls.SleepLastsExactly` | src/sysproc.c:57-77 | from the call of `sys_sleep(arg)`, counted in the run: a test of the loop ends the call of a process that is not killed only after at least arg clock interrupts, and then does end it while they are fewer than 2^32; a killed process ends there at once; otherwise it goes to sleep on the ticks |
| `Calls.SleepEndsAtTest` | src/sysproc.c:57-77 | no other step of any party ends a call of `sys_sleep` |
| `Safety.ChannelsExact` | src/proc.c:1249-1255 | a sleeping process sleeps on what its call waits for, and a running one has no channel |
| `Calls.KilledOverRun` | src/proc.c:1294-1297 | over any run in which a slot is not reaped, it is killed at the end if and only if it was at the start or `kill` hit it |
| `Calls.KillEndsCalls` | src/proc.c:1288-1314 | `kill` puts a sleeper into the tree; and until it is reaped the process stays killed, and every test at which `wait` or `sys_sleep` would go to sleep ends the call instead |
| `Calls.InsertCachesWeight` | src/proc.c:354-360 | every insertion caches the weight of the nice value the process has then |
| `Calls.NiceTakesEffect` | src/sysproc.c:102-114 | a nice value in 0..39 is the one whose weight counts at every later insertion of the caller until it sets another or is reaped; any other argument changes nothing |
| `Calls.NeverStuck` | src/proc.c:1173-1283 | in every reachable state, a process on a CPU can take its next step unless another party holds a lock it needs, and that party can go on, or waits for a slot's lock whose holder can go on: nobody waits for himself or in a circle |
| `Calls.SchedulerNeverStuck` | src/proc.c:1037-1067 | the loop of `scheduler` can go on, or has handed its CPU over, or waits for a `p->lock` that another CPU holds and that CPU can go on |
| `Calls.CallsOpen` | src/proc.c:849-1314 | in user code every call can begin as soon as the lock it begins with is free, and `fork` in any unused slot |
| `Calls.KillOpen` | src/proc.c:1288-1314 | `kill` can hit every slot whose lock is free, whatever its state |
| `Window.WinSoundKept` | src/proc.c:1038-1066 | in the abstract window machine the running process always has the smallest virtual runtime |
| `Window.Refines` | src/proc.c:1037-1206 | every step of the kernel in a window is a step of the abstract window machine |
| `Window.InterruptsAreCalm` | src/trap.c:404-410 | an interrupt that wakes nobody may happen in a window |
| `Window.WindowSound` | src/proc.c:1037-1206 | at every moment of every window the invariants hold and the running process has the smallest virtual runtime |
| `Window.PreemptsExactly` | src/proc.c:545-579 | at every moment of every window, `yield` preempts exactly when the slice, or the minimum granularity, is used up, and then adds exactly that to the virtual runtime |
| `Window.TurnChargedExactly` | src/proc.c:1196-1202 | in every window, exactly the slice, or the minimum granularity if longer, is charged between a dispatch and the yield that preempts, and the virtual runtime grows by just that |
| `Window.SlicesBounded` | src/proc.c:503-528 | in a window no slice is longer than max(2, the period at its opening, 2 for each process then queued) |
| `Window.LongestSliceBounded` | src/proc.c:503-528 | that is never longer than max(latency, 2 * NPROC) |
| `Window.FairSpread` | src/proc.c:1193-1206 | however long a window lasts, runtimes differ by at most the larger of the first gap and the longest slice of the window |
| `Window.BoundedWait` | src/proc.c:1038-1066 | before a queued process with virtual runtime v has its turn, all charges together are at most the sum, over the other queued processes whose virtual runtime is not above v, of what each lacks to v plus one longest slice of the window |
| `Window.BoundedTurns` | src/proc.c:1038-1066 | before a queued process with virtual runtime v has its turn, one with virtual runtime vr is dispatched at most (v - vr) / 2 + 1 times, and never if vr > v |
| `Shares.Round` | src/proc.c:1037-1067 | from any pick among processes in user code, a round can be run that brings the head of the tree back with a key larger by at least two |
| `Shares.LongRun` | src/proc.c:1037-1067 | a window can be continued until every virtual runtime is as large as one likes |
| `Shares.SharesIgnoreWeights` | src/proc.c:1200-1201 | at every moment of every window, with runtimes x and y and weights w and v of two processes, y * w - x * v is at least y * (w - v) less a constant |
| `Shares.EqualWeightsStay` | src/proc.c:1200-1201 | two processes of equal weight stay in that ratio up to some bound, over all windows in which no nice value is set, with no condition on the other processes |
| `Shares.SharesFollowWeightsExactly` | src/proc.c:1200-1201 | over all windows in which no nice value is set and that open at a state whose queued processes are in user code, two runtimes stay in the ratio of the weights up to some bound if and only if the weights are equal |
| `Witnesses.UnequalWeightsReached` | src/proc.c:1200-1201 | from every boot with one CPU and two slots a window with weights 1 and 819 is reached, in which the runtimes leave that ratio by any bound |
| `Preemption.AheadExactly` | src/proc.c:545-579 | in every window, a turn that may last for m and begins d below the smallest virtual runtime in the tree has a yield more than t ahead of it that does not preempt if and only if m - 1 - d > t |
| `Witnesses.AheadByAnything` | src/proc.c:545-579 | from every boot with one CPU and two slots, and for every k below max(2, latency), a yield is reached that does not preempt although the running process is k ahead of the smallest virtual runtime |
| `Order.CallsFaithful` | src/proc.c:345-538 | the insertions and retrievals of any run are legal, take the run queue where the run takes it, and serve exactly the processes the CPUs pick |
| `Order.PickedInOrder` | src/proc.c:1038-1066 | over every run on any number of CPUs, each pick is the process with the smallest virtual runtime in the tree, and among equals the one inserted first |
| `Order.PickedInOrderFromBoot` | src/proc.c:799-822 | the same for every run from boot |
| `Kernel.NotLinked` | src/proc.c:707-714 | a process is linked into the tree exactly if the machine has it queued |
| `Kernel.Write` | src/proc.c:1199-1201 | writing the scheduling fields of a process keeps the tree valid and the run queue unchanged, if a queued process keeps its key |
| `Kernel.Requeue` | src/proc.c:1199-1202 | marking, folding the runtime and `insertProcess` on the tree do what the machine's `Requeued` does |
| `Kernel.Retrieve` | src/proc.c:1038 | `retrieveProcess` on the tree does what the machine's step does |
| `Kernel.Preempts` | src/proc.c:545-579 | whatever minimum it is given, `checkPreemption` on the records preempts a process that has spent its slice, and none that has run for less than the granularity; given the cached minimum it compares as the machine's predicate does, whose meaning is `Safety.PreemptsExactlyWhen` |
| `Kernel.YieldReading` | src/proc.c:1193-1206 | `yield` on the tree, with whatever value of `minvRuntime` it has read, does what some yield step of the machine does; if the value is not out of date, it preempts if and only if slice and granularity are used up, or some queued process has a smaller virtual runtime and the current runtime is 0 or at least 2 |
| `Kernel.Step` | src/proc.c:849-1314 | every step the machine can take from a sound state can be taken on the tree, with all conditions of the tree code met, and leaves a valid tree that agrees with the new state |
| `Kernel.Execute` | src/proc.c:849-1314 | so does every run |
| `Kernel.Boot` | src/proc.c:599-822 | `procinit` and `userinit` on a table of zeros build a valid tree that agrees with the boot state |

## Left out

- Page tables, trap frames, kernel stacks, files and inodes in `fork` and `exit`, `growproc`, `either_copyout`, `either_copyin`: no scheduling behaviour.
- `swtch` registers, CSRs, the interrupt controller, interrupt enabling and the `wfi` of an idle CPU: hardware; only the transfer of control and the lock hand-off are modelled. Of the checks in `sched`, `noff` and the interrupt flag appear as "no other modelled lock is held".
- Failing allocations in `allocproc` and `fork`: the slot is freed again under the lock it was found with, so no other party sees it.
- `Calls.NeverStuck`: leaves out the two reads of `ticks` for the log, which `scheduler` makes under `p->lock` (src/proc.c:1041-1062). A CPU there waits for `tickslock`, while `clockintr` on another CPU holds `tickslock` and may wait for that very `p->lock` (src/trap.c:404-410): the code with its log is not free of deadlock. Without the log, as the model has it, it is.
- `Calls.SchedulerNeverStuck`: leaves out the same reads.
- Locks of drivers, pipes and the file system: a sleeper there takes no modelled lock again.
- Return values and exit statuses: the ends of a call are told apart by the step that ends it and by what it leaves behind.
- The `exit(-1)` of `usertrap` for killed processes (src/trap.c:289-290, 311-312): a killed process in user code may go on as well as exit. `Calls.KillEndsCalls` covers the calls that test the mark.
- Interleavings inside a critical section of `p->lock`: marking a process, updating its times and inserting it, in `yield`, `wakeup` and `kill`, is one step, and so is a `retrieveProcess` or `insertProcess` call under the lock of the tree. Nothing that other parties change is read in between.
- Data races: the increment of `currentRuntime` is taken as atomic. The read of `minvRuntime` in `yield` without the lock of the tree is not: a yield step carries any outcome that `checkPreemption` could return for any value read, and only windows, with one CPU and interrupts off in `yield`, take the value as it is.
- Integer overflow and floating-point rounding: runtimes, weights and periods are mathematical integers, and `calculateWight` is computed in exact rationals. Only the tick counter of `sys_sleep` has 32 bits.
- `Weights.CalculateWight`: models the loop with its counter advancing; the loop as written does not end for positive nice values.
- Windows: `Window.FairSpread` and its companions hold on one CPU and for a fixed set of processes that do not block, because a new child starts with virtual runtime 0 (src/proc.c:707) and a sleeper keeps its old one, so no bound holds across `fork` and `wakeup`.
- `Window.BoundedWait`: bounds the charges, not the time, that go to others; there is no liveness claim that user code traps again.
- Process table: an array of records with index-valued links, so a record is overwritten as a whole where the original assigns one field; `RBTree` holds the table it links through.
- The `default:` arms of `insertionCases` and `retrievingCases`, which no call reaches.
- Process identifiers and table scans that only search: `fork` may take any unused slot, not only the first, and `kill` may hit any slot. That allows more runs than the kernel has.
- `log_cpu_state`, `procdump`, trace output, `src/visual.c`, the benchmarks and the system call table: output, dead code or tables.
