/** The red-black tree of runnable processes, its links living in the process table. */
module RBTrees {
  import opened Procs
  import opened Queue
  import opened Shape
  import opened Layout
  import opened RedBlack
  import opened Weights
  import opened Numbers

  class RBTree {
    const proc: array<Proc>
    var count: int
    var treeWeight: int
    var root: Ptr
    var minvRuntime: Ptr
    var period: int
    ghost var shape: Tree

    ghost function View(): RunQueue
      reads this
    {
      RunQueue(proc.Length, InOrder(shape), count, treeWeight, period)
    }

    ghost predicate Valid()
      reads this, proc
    {
      && Holds(shape, Top) && RB(shape)
      && Sound(View()) && Weighted(proc[..], InOrder(shape)) && Detached(proc[..], Nodes(shape))
      && minvRuntime == First(shape)
    }

    /** rbinit, on a process table in which nothing has been linked yet. */
    constructor (proc: array<Proc>)
      requires forall p: nat :: p < proc.Length ==> proc[p].left == NULL && proc[p].right == NULL
      ensures Valid() && this.proc == proc
      ensures View() == RunQueue(proc.Length, [], 0, 0, Latency(proc.Length))
    {
      this.proc := proc;
      count := 0;
      root := NULL;
      treeWeight := 0;
      minvRuntime := NULL;
      period := Latency(proc.Length);
      shape := Leaf;
    }

    predicate IsEmpty()
      reads `count
    {
      count == 0
    }

    predicate IsFull()
      reads `count
    {
      count == proc.Length
    }

    ghost predicate Holds(t: Tree, k: Path)
      reads `root, proc
    {
      At(proc[..], root, t, k)
    }

    ghost predicate HasKin(p: Ptr)
      reads proc
    {
      p != NULL ==> 0 <= p < proc.Length && (proc[p].pParent != NULL ==> 0 <= proc[p].pParent < proc.Length)
    }

    function GetGrandparentProc(process: Ptr): Ptr
      requires HasKin(process)
      reads proc
    {
      if process != NULL && proc[process].pParent != NULL then proc[proc[process].pParent].pParent else NULL
    }

    function GetUncleProc(process: Ptr): Ptr
      requires HasKin(process)
      requires GetGrandparentProc(process) != NULL ==> 0 <= GetGrandparentProc(process) < proc.Length
      reads proc
    {
      var grandparent := GetGrandparentProc(process);
      if grandparent != NULL then
        if proc[process].pParent == proc[grandparent].left then proc[grandparent].right else proc[grandparent].left
      else NULL
    }

    /** Grandparent and uncle are what the position of the process says. */
    lemma Kin(t: Tree, k: Path)
      requires Holds(t, k) && t.Node?
      ensures HasKin(t.e.id) && proc[t.e.id].pParent == Parent(k)
      ensures GetGrandparentProc(t.e.id) == if k.Step? then Parent(k.up) else NULL
      ensures GetGrandparentProc(t.e.id) != NULL ==> 0 <= GetGrandparentProc(t.e.id) < proc.Length
      ensures GetUncleProc(t.e.id) == if k.Step? && k.up.Step? then Root(k.up.other) else NULL
      ensures k.Step? ==> proc[k.e.id].color == k.color
      ensures k.Step? && k.up.Step? && k.up.other.Node? ==>
        k.up.other.e.id < proc.Length && proc[k.up.other.e.id].color == k.up.other.color
    {
      assert Lays(proc[..], t, Parent(k)) && LaysPath(proc[..], k, t.e.id, root);
      if k.Step? {
        assert LaysPath(proc[..], k.up, k.e.id, root);
      }
    }

    method RotateLeft(positionProc: Ptr, ghost t: Tree, ghost k: Path)
      requires Holds(t, k) && t.Node? && t.right.Node? && positionProc == t.e.id
      modifies `root, proc
      ensures Holds(RotatedLeft(t), k)
      ensures Within(old(proc[..]), proc[..], Span(t, k))
    {
      LeftPivotAt(proc[..], root, t, k);
      var saveRight := proc[positionProc].right;
      proc[positionProc] := proc[positionProc].(right := proc[saveRight].left);
      if proc[saveRight].left != NULL {
        proc[proc[saveRight].left] := proc[proc[saveRight].left].(pParent := positionProc);
      }
      proc[saveRight] := proc[saveRight].(pParent := proc[positionProc].pParent);
      if proc[positionProc].pParent == NULL {
        root := saveRight;
      } else if positionProc == proc[proc[positionProc].pParent].left {
        proc[proc[positionProc].pParent] := proc[proc[positionProc].pParent].(left := saveRight);
      } else {
        proc[proc[positionProc].pParent] := proc[proc[positionProc].pParent].(right := saveRight);
      }
      proc[saveRight] := proc[saveRight].(left := positionProc);
      proc[positionProc] := proc[positionProc].(pParent := saveRight);
      assert LeftTurn(old(proc[..]), old(root), proc[..], root, positionProc);
      LeftTurnAt(old(proc[..]), old(root), proc[..], root, t, k);
      LeftTurnWithin(old(proc[..]), old(root), proc[..], root, t, k);
    }

    method RotateRight(positionProc: Ptr, ghost t: Tree, ghost k: Path)
      requires Holds(t, k) && t.Node? && t.left.Node? && positionProc == t.e.id
      modifies `root, proc
      ensures Holds(RotatedRight(t), k)
      ensures Within(old(proc[..]), proc[..], Span(t, k))
    {
      RightPivotAt(proc[..], root, t, k);
      var saveLeft := proc[positionProc].left;
      proc[positionProc] := proc[positionProc].(left := proc[saveLeft].right);
      if proc[saveLeft].right != NULL {
        proc[proc[saveLeft].right] := proc[proc[saveLeft].right].(pParent := positionProc);
      }
      proc[saveLeft] := proc[saveLeft].(pParent := proc[positionProc].pParent);
      if proc[positionProc].pParent == NULL {
        root := saveLeft;
      } else if positionProc == proc[proc[positionProc].pParent].right {
        proc[proc[positionProc].pParent] := proc[proc[positionProc].pParent].(right := saveLeft);
      } else {
        proc[proc[positionProc].pParent] := proc[proc[positionProc].pParent].(left := saveLeft);
      }
      proc[saveLeft] := proc[saveLeft].(right := positionProc);
      proc[positionProc] := proc[positionProc].(pParent := saveLeft);
      assert RightTurn(old(proc[..]), old(root), proc[..], root, positionProc);
      RightTurnAt(old(proc[..]), old(root), proc[..], root, t, k);
      RightTurnWithin(old(proc[..]), old(root), proc[..], root, t, k);
    }

    /** A colour write at the root of the subtree in view. */
    method SetColor(p: Ptr, c: Color, ghost t: Tree, ghost k: Path)
      requires Holds(t, k) && t.Node? && p == t.e.id
      modifies proc
      ensures Holds(t.(color := c), k)
      ensures Within(old(proc[..]), proc[..], Span(t, k))
      ensures proc[..] == old(proc[..])[p := old(proc[..])[p].(color := c)]
    {
      Recolor(proc[..], root, t, k, c);
      proc[p] := proc[p].(color := c);
    }

    /** The recursive descent: hangs a detached process as a red leaf below the last process it is not before. */
    method InsertProc(traversing: Ptr, inserting: Ptr, ghost t: Tree, ghost par: Ptr, ghost e: Entry) returns (r: Ptr)
      requires Lays(proc[..], t, par) && Sep(t) && traversing == Root(t)
      requires 0 <= inserting < proc.Length && inserting == e.id && inserting !in Nodes(t)
      requires proc[inserting].left == NULL && proc[inserting].right == NULL && proc[inserting].virtualRuntime == e.key
      requires t.Leaf? ==> proc[inserting].pParent == par
      modifies proc
      ensures r == Root(Grown(t, e)) && Lays(proc[..], Grown(t, e), par)
      ensures Within(old(proc[..]), proc[..], Nodes(t) + {inserting})
      decreases t
    {
      proc[inserting] := proc[inserting].(color := RED);
      if traversing == NULL {
        return inserting;
      }
      FrameTree(old(proc[..]), proc[..], t, par);
      proc[inserting] := proc[inserting].(pParent := traversing);
      FrameTree(old(proc[..]), proc[..], t, par);
      ghost var m := proc[..];
      if proc[traversing].virtualRuntime <= proc[inserting].virtualRuntime {
        var right := InsertProc(proc[traversing].right, inserting, t.right, t.e.id, e);
        ghost var m1 := proc[..];
        proc[traversing] := proc[traversing].(right := right);
        Regrown(m, m1, proc[..], t, e, par);
      } else {
        var left := InsertProc(proc[traversing].left, inserting, t.left, t.e.id, e);
        ghost var m1 := proc[..];
        proc[traversing] := proc[traversing].(left := left);
        Regrown(m, m1, proc[..], t, e, par);
      }
      return traversing;
    }

    /** The state each case of the insertion repair finds. */
    ghost predicate CaseReady(cases: int, k: Path) {
      && 1 <= cases <= 5
      && (cases >= 2 ==> k.Step?)
      && (cases >= 3 ==> k.color == RED)
      && (cases >= 4 ==> k.up.Step? && IsBlack(k.up.other))
      && (cases == 5 ==> k.side == k.up.side)
    }

    method InsertionCases(rbProcess: Ptr, cases: int, ghost t: Tree, ghost k: Path, ghost n: nat)
      returns (ghost s: Tree)
      requires Holds(t, k) && Repairable(t, k, n) && rbProcess == Root(t) && CaseReady(cases, k)
      modifies `root, proc
      ensures Holds(s, Top) && Repaired(s, t, k)
      ensures Within(old(proc[..]), proc[..], Span(t, k))
      decreases Depth(k), 6 - cases, 1
    {
      match cases {
        case 1 => s := InsertionCase1(rbProcess, t, k, n);
        case 2 => s := InsertionCase2(rbProcess, t, k, n);
        case 3 => s := InsertionCase3(rbProcess, t, k, n);
        case 4 => s := InsertionCase4(rbProcess, t, k, n);
        case _ => s := InsertionCase5(rbProcess, t, k, n);
      }
    }

    method InsertionCase1(rbProcess: Ptr, ghost t: Tree, ghost k: Path, ghost n: nat) returns (ghost s: Tree)
      requires Holds(t, k) && Repairable(t, k, n) && rbProcess == Root(t)
      modifies `root, proc
      ensures Holds(s, Top) && Repaired(s, t, k)
      ensures Within(old(proc[..]), proc[..], Span(t, k))
      decreases Depth(k), 5, 0
    {
      Kin(t, k);
      if proc[rbProcess].pParent == NULL {
        SetColor(rbProcess, BLACK, t, k);
        s := t.(color := BLACK);
        RootRepaired(t, n);
      } else {
        s := InsertionCases(rbProcess, 2, t, k, n);
      }
    }

    method InsertionCase2(rbProcess: Ptr, ghost t: Tree, ghost k: Path, ghost n: nat) returns (ghost s: Tree)
      requires Holds(t, k) && Repairable(t, k, n) && rbProcess == Root(t) && CaseReady(2, k)
      modifies `root, proc
      ensures Holds(s, Top) && Repaired(s, t, k)
      ensures Within(old(proc[..]), proc[..], Span(t, k))
      decreases Depth(k), 4, 0
    {
      Kin(t, k);
      if proc[proc[rbProcess].pParent].color == RED {
        s := InsertionCases(rbProcess, 3, t, k, n);
      } else {
        s := Plug(t, k);
        AtTop(proc[..], root, t, k);
        PlugRepaired(t, k, n);
      }
    }

    method InsertionCase3(rbProcess: Ptr, ghost t: Tree, ghost k: Path, ghost n: nat) returns (ghost s: Tree)
      requires Holds(t, k) && Repairable(t, k, n) && rbProcess == Root(t) && CaseReady(3, k)
      modifies `root, proc
      ensures Holds(s, Top) && Repaired(s, t, k)
      ensures Within(old(proc[..]), proc[..], Span(t, k))
      decreases Depth(k), 3, 0
    {
      Kin(t, k);
      RedParentHasBlackGrandparent(k, n);
      var uncle := GetUncleProc(rbProcess);
      if uncle != NULL && proc[uncle].color == RED {
        RepaintedSound(t, k, n);
        assert Depth(k.up) == 1 + Depth(k.up.up);
        var grandparent := Repaint(rbProcess, uncle, t, k, n);
        s := InsertionCases(grandparent, 1, Repainted(t, k), k.up.up, n + 1);
        RepaintedRepaired(s, t, k, n);
      } else {
        s := InsertionCases(rbProcess, 4, t, k, n);
      }
    }

    /** Case 3: parent and uncle turn black, the grandparent red. */
    method Repaint(rbProcess: Ptr, uncle: Ptr, ghost t: Tree, ghost k: Path, ghost n: nat) returns (grandparent: Ptr)
      requires Holds(t, k) && Repairable(t, k, n) && rbProcess == t.e.id
      requires k.Step? && k.color == RED && k.up.Step? && k.up.other.Node? && uncle == k.up.other.e.id
      modifies proc
      ensures Holds(Repainted(t, k), k.up.up) && grandparent == k.up.e.id
      ensures Within(old(proc[..]), proc[..], Span(t, k))
    {
      ghost var up := k.up;
      Kin(t, k);
      AtParent(proc[..], root, t, k);
      SetColor(proc[rbProcess].pParent, BLACK, Join(k.side, k.e, k.color, t, k.other), up);
      ghost var j := Join(k.side, k.e, BLACK, t, k.other);
      AtSibling(proc[..], root, j, up);
      SetColor(uncle, BLACK, up.other, Sibling(j, up));
      ghost var o := up.other.(color := BLACK);
      AtSibling(proc[..], root, o, Sibling(j, up));
      ghost var up' := up.(other := o);
      assert Sibling(o, Sibling(j, up)) == up';
      AtParent(proc[..], root, j, up');
      AtParent(proc[..], root, t, k.(color := BLACK, up := up'));
      Kin(t, k.(color := BLACK, up := up'));
      grandparent := GetGrandparentProc(rbProcess);
      SetColor(grandparent, RED, Join(up'.side, up'.e, up'.color, j, o), up'.up);
    }

    method InsertionCase4(rbProcess: Ptr, ghost t: Tree, ghost k: Path, ghost n: nat) returns (ghost s: Tree)
      requires Holds(t, k) && Repairable(t, k, n) && rbProcess == Root(t) && CaseReady(4, k)
      modifies `root, proc
      ensures Holds(s, Top) && Repaired(s, t, k)
      ensures Within(old(proc[..]), proc[..], Span(t, k))
      decreases Depth(k), 2, 0
    {
      var p := Straighten(rbProcess, t, k, n);
      ghost var t', k' := t, k;
      if k.side != k.up.side {
        StraightenedSound(t, k, n);
        t', k' := OuterTree(t, k), OuterPath(t, k);
      }
      s := InsertionCases(p, 5, t', k', n);
      if k.side != k.up.side { StraightenedRepaired(s, t, k, n); }
    }

    /** Case 4: an inner grandchild and its parent change places, so that the red pair lies on one side. */
    method Straighten(rbProcess: Ptr, ghost t: Tree, ghost k: Path, ghost n: nat) returns (p: Ptr)
      requires Holds(t, k) && Repairable(t, k, n) && rbProcess == Root(t) && CaseReady(4, k)
      modifies `root, proc
      ensures k.side == k.up.side ==> Holds(t, k) && p == Root(t)
      ensures k.side != k.up.side ==> Holds(OuterTree(t, k), OuterPath(t, k)) && p == Root(OuterTree(t, k))
      ensures Within(old(proc[..]), proc[..], Span(t, k))
    {
      Kin(t, k);
      Kids(t, k);
      var grandparent := GetGrandparentProc(rbProcess);
      p := rbProcess;
      ghost var j := Join(k.side, k.e, k.color, t, k.other);
      AtParent(proc[..], root, t, k);
      if rbProcess == proc[proc[rbProcess].pParent].right && proc[rbProcess].pParent == proc[grandparent].left {
        RotateLeft(proc[rbProcess].pParent, j, k.up);
        AtParent(proc[..], root, OuterTree(t, k), OuterPath(t, k));
        p := proc[p].left;
      } else if rbProcess == proc[proc[rbProcess].pParent].left && proc[rbProcess].pParent == proc[grandparent].right {
        RotateRight(proc[rbProcess].pParent, j, k.up);
        AtParent(proc[..], root, OuterTree(t, k), OuterPath(t, k));
        p := proc[p].right;
      }
    }

    method InsertionCase5(rbProcess: Ptr, ghost t: Tree, ghost k: Path, ghost n: nat) returns (ghost s: Tree)
      requires Holds(t, k) && Repairable(t, k, n) && rbProcess == Root(t) && CaseReady(5, k)
      modifies `root, proc
      ensures Holds(s, Top) && Repaired(s, t, k)
      ensures Within(old(proc[..]), proc[..], Span(t, k))
      decreases Depth(k), 1, 0
    {
      Kin(t, k);
      var grandparent := GetGrandparentProc(rbProcess);
      if grandparent != NULL {
        Arm(rbProcess, grandparent, t, k, n);
        Lift(rbProcess, grandparent, t, k);
      }
      s := Plug(Lifted(t, k), k.up.up);
      AtTop(proc[..], root, Lifted(t, k), k.up.up);
      LiftedRepaired(t, k, n);
    }

    method Arm(rbProcess: Ptr, grandparent: Ptr, ghost t: Tree, ghost k: Path, ghost n: nat)
      requires Holds(t, k) && Repairable(t, k, n) && rbProcess == Root(t) && CaseReady(5, k) && grandparent == k.up.e.id
      modifies proc
      ensures Holds(Armed(t, k), k.up.up)
      ensures Within(old(proc[..]), proc[..], Span(t, k))
    {
      ghost var j := Join(k.side, k.e, k.color, t, k.other);
      AtParent(proc[..], root, t, k);
      AtParent(proc[..], root, j, k.up);
      SetColor(grandparent, RED, Join(k.up.side, k.up.e, k.up.color, j, k.up.other), k.up.up);
      ghost var up := k.up.(color := RED);
      AtParent(proc[..], root, j, up);
      AtParent(proc[..], root, t, k.(up := up));
      Kin(t, k.(up := up));
      SetColor(proc[rbProcess].pParent, BLACK, j, up);
      AtParent(proc[..], root, j.(color := BLACK), up);
    }

    method Lift(rbProcess: Ptr, grandparent: Ptr, ghost t: Tree, ghost k: Path)
      requires t.Node? && rbProcess == t.e.id && CaseReady(5, k) && grandparent == k.up.e.id
      requires Holds(Armed(t, k), k.up.up)
      modifies `root, proc
      ensures Holds(Lifted(t, k), k.up.up)
      ensures Within(old(proc[..]), proc[..], Span(t, k))
    {
      ghost var j, up := Join(k.side, k.e, BLACK, t, k.other), k.up.(color := RED);
      AtParent(proc[..], root, j, up);
      AtParent(proc[..], root, t, k.(color := BLACK, up := up));
      Kin(t, k.(color := BLACK, up := up));
      Kids(t, k.(color := BLACK, up := up));
      JoinSpan(t, k, BLACK);
      JoinSpan(j, k.up, RED);
      if rbProcess == proc[proc[rbProcess].pParent].left && proc[rbProcess].pParent == proc[grandparent].left {
        RotateRight(grandparent, Armed(t, k), k.up.up);
      } else if rbProcess == proc[proc[rbProcess].pParent].right && proc[rbProcess].pParent == proc[grandparent].right {
        RotateLeft(grandparent, Armed(t, k), k.up.up);
      }
    }

    /** Which child a process is, read off the pointers of its parent and grandparent. */
    lemma Kids(t: Tree, k: Path)
      requires Holds(t, k) && t.Node? && k.Step? && k.up.Step?
      ensures k.e.id < proc.Length && k.up.e.id < proc.Length
      ensures proc[k.e.id].left == t.e.id <==> k.side == LEFT
      ensures proc[k.e.id].right == t.e.id <==> k.side == RIGHT
      ensures proc[k.up.e.id].left == k.e.id <==> k.up.side == LEFT
      ensures proc[k.up.e.id].right == k.e.id <==> k.up.side == RIGHT
    {
      assert LaysPath(proc[..], k, t.e.id, root) && LaysPath(proc[..], k.up, k.e.id, root);
      assert SepPath(k) && SepPath(k.up);
      assert k.other.Node? ==> k.other.e.id in PathNodes(k);
    }

    // ----- deletion of the leftmost process -----

    /** The pointers around a sibling, and the colours of its children. */
    lemma SiblingKin(t: Tree, k: Path)
      requires Holds(t, k) && k.Step? && k.side == LEFT && k.other.Node?
      ensures k.e.id < proc.Length && k.other.e.id < proc.Length
      ensures proc[k.e.id].left == Root(t) && proc[k.e.id].right == k.other.e.id
      ensures proc[k.e.id].color == k.color && proc[k.e.id].pParent == Parent(k.up)
      ensures proc[k.other.e.id].color == k.other.color
      ensures proc[k.other.e.id].left == Root(k.other.left) && proc[k.other.e.id].right == Root(k.other.right)
      ensures var l := k.other.left; l.Node? ==> l.e.id < proc.Length && proc[l.e.id].color == l.color
      ensures var r := k.other.right; r.Node? ==> r.e.id < proc.Length && proc[r.e.id].color == r.color
    {
      assert Lays(proc[..], k.other, k.e.id);
      assert Lays(proc[..], k.other.left, k.other.e.id) && Lays(proc[..], k.other.right, k.other.e.id);
    }

    /** First step of a round: a red sibling is rotated away. */
    method LowerRed(parentProc: Ptr, sibling: Ptr, ghost t: Tree, ghost k: Path, ghost n: nat)
      requires Holds(t, k) && Short(t, k, n) && k.Step? && k.other.Node? && k.other.color == RED
      requires parentProc == k.e.id && sibling == k.other.e.id
      modifies `root, proc
      ensures Holds(t, BelowRed(k))
      ensures Within(old(proc[..]), proc[..], Span(t, k))
    {
      ghost var o, up := k.other.(color := BLACK), k.up;
      SiblingExists(t, k, n);
      AtSibling(proc[..], root, t, k);
      SetColor(sibling, BLACK, k.other, Sibling(t, k));
      AtSibling(proc[..], root, o, Sibling(t, k));
      AtParent(proc[..], root, t, k.(other := o));
      SetColor(parentProc, RED, Node(t, k.e, k.color, o), up);
      JoinSpan(t, k.(other := o), RED);
      RotateLeft(parentProc, Node(t, k.e, RED, o), up);
      AtParent(proc[..], root, Node(t, k.e, RED, o.left), BelowRed(k).up);
      AtParent(proc[..], root, t, BelowRed(k));
    }

    /** A round that ends by moving the shortage to the parent. */
    method PushUp(parentProc: Ptr, sibling: Ptr, ghost t: Tree, ghost k: Path, ghost n: nat)
      requires Holds(t, k) && Short(t, k, n) && k.Step? && k.other.Node? && sibling == k.other.e.id
      modifies proc
      ensures Holds(PushedUp(t, k), k.up)
      ensures Within(old(proc[..]), proc[..], Span(t, k))
    {
      AtSibling(proc[..], root, t, k);
      SetColor(sibling, RED, k.other, Sibling(t, k));
      AtSibling(proc[..], root, k.other.(color := RED), Sibling(t, k));
      AtParent(proc[..], root, t, k.(other := k.other.(color := RED)));
    }

    /** A red near child of the sibling is rotated to the far side. */
    method TurnSibling(sibling: Ptr, ghost t: Tree, ghost k: Path, ghost n: nat)
      requires Holds(t, k) && Short(t, k, n) && k.Step? && k.other.Node? && sibling == k.other.e.id
      requires k.other.color == BLACK && k.other.left.Node? && IsBlack(k.other.right)
      modifies `root, proc
      ensures Holds(t, FarRed(k))
      ensures Within(old(proc[..]), proc[..], Span(t, k))
    {
      ghost var s, o := Sibling(t, k), k.other;
      SiblingKin(t, k);
      AtSibling(proc[..], root, t, k);
      if proc[sibling].left != NULL {
        ghost var near := Step(LEFT, o.e, o.color, o.right, s);
        AtParent(proc[..], root, o.left, near);
        SetColor(proc[sibling].left, BLACK, o.left, near);
        AtParent(proc[..], root, o.left.(color := BLACK), near);
        JoinSpan(o.left.(color := BLACK), near, o.color);
      }
      SetColor(sibling, RED, Node(o.left.(color := BLACK), o.e, o.color, o.right), s);
      RotateRight(sibling, Node(o.left.(color := BLACK), o.e, RED, o.right), s);
      AtSibling(proc[..], root, FarRed(k).other, s);
    }

    /** A round that ends the repair: the sibling, with a red far child, takes the parent's place. */
    method Settle(parentProc: Ptr, sibling: Ptr, ghost t: Tree, ghost k: Path, ghost n: nat)
      requires Holds(t, k) && Short(t, k, n) && k.Step? && k.other.Node? && k.other.color == BLACK
      requires parentProc == k.e.id && sibling == k.other.e.id && !IsBlack(k.other.right)
      modifies `root, proc
      ensures Holds(Settled(t, k), k.up)
      ensures Within(old(proc[..]), proc[..], Span(t, k))
    {
      ghost var up := k.up;
      SiblingKin(t, k);
      AtSibling(proc[..], root, t, k);
      SetColor(sibling, proc[parentProc].color, k.other, Sibling(t, k));
      ghost var o := k.other.(color := k.color);
      AtSibling(proc[..], root, o, Sibling(t, k));
      AtParent(proc[..], root, t, k.(other := o));
      SetColor(parentProc, BLACK, Node(t, k.e, k.color, o), up);
      ghost var k' := k.(color := BLACK, other := o);
      AtParent(proc[..], root, t, k');
      BlackenFar(sibling, t, k');
      ghost var o' := Node(o.left, o.e, o.color, Blackened(o.right));
      AtParent(proc[..], root, t, k'.(other := o'));
      JoinSpan(t, k, BLACK);
      RotateLeft(parentProc, Node(t, k.e, BLACK, o'), up);
    }

    method BlackenFar(sibling: Ptr, ghost t: Tree, ghost k: Path)
      requires Holds(t, k) && k.Step? && k.side == LEFT
      requires k.other.Node? && k.other.right.Node? && sibling == k.other.e.id
      modifies proc
      ensures Holds(t, k.(other := Node(k.other.left, k.other.e, k.other.color, Blackened(k.other.right))))
      ensures Within(old(proc[..]), proc[..], Span(t, k))
    {
      ghost var s, o := Sibling(t, k), k.other;
      SiblingKin(t, k);
      AtSibling(proc[..], root, t, k);
      ghost var far := Step(RIGHT, o.e, o.color, o.left, s);
      AtParent(proc[..], root, o.right, far);
      SetColor(proc[sibling].right, BLACK, o.right, far);
      AtParent(proc[..], root, Blackened(o.right), far);
      AtSibling(proc[..], root, Node(o.left, o.e, o.color, Blackened(o.right)), s);
    }

    /** What one round of the deletion repair leaves behind. */
    ghost predicate Round(t: Tree, k: Path, t': Tree, k': Path, n': nat, process: Ptr, parentProc: Ptr)
      reads `root, proc
    {
      && Holds(t', k') && Short(t', k', n') && process == Root(t')
      && (k'.Step? ==> parentProc == k'.e.id)
      && InOrder(Plug(t', k')) == InOrder(Plug(t, k)) && Span(t', k') == Span(t, k)
    }

    /** The second half of a round when the black sibling has a red child. */
    method RotateUp(parentProc: Ptr, siblingProc: Ptr, ghost t: Tree, ghost k: Path, ghost n: nat)
      returns (process: Ptr, ghost t': Tree, ghost n': nat)
      requires Holds(t, k) && Short(t, k, n) && IsBlack(t) && k.Step? && k.other.Node? && k.other.color == BLACK
      requires !IsBlack(k.other.left) || !IsBlack(k.other.right)
      requires parentProc == k.e.id && siblingProc == k.other.e.id
      modifies `root, proc
      ensures Round(t, k, t', Top, n', process, parentProc)
      ensures Within(old(proc[..]), proc[..], Span(t, k))
    {
      var sibling := siblingProc;
      ghost var k1 := k;
      SiblingKin(t, k);
      if proc[sibling].right == NULL || proc[proc[sibling].right].color == BLACK {
        FarRedSound(t, k, n);
        TurnSibling(sibling, t, k, n);
        k1 := FarRed(k);
        SiblingKin(t, k1);
        sibling := proc[parentProc].right;
      }
      process, t', n' := SettleAll(parentProc, sibling, t, k1, n);
    }

    /** The last rotation ends the repair at the root. */
    method SettleAll(parentProc: Ptr, sibling: Ptr, ghost t: Tree, ghost k: Path, ghost n: nat)
      returns (process: Ptr, ghost t': Tree, ghost n': nat)
      requires Holds(t, k) && Short(t, k, n) && k.Step? && k.other.Node? && k.other.color == BLACK
      requires parentProc == k.e.id && sibling == k.other.e.id && IsBlack(t) && !IsBlack(k.other.right)
      modifies `root, proc
      ensures Round(t, k, t', Top, n', process, parentProc)
      ensures Within(old(proc[..]), proc[..], Span(t, k))
    {
      n' := SettledSound(t, k, n);
      Settle(parentProc, sibling, t, k, n);
      AtTop(proc[..], root, Settled(t, k), k.up);
      t' := Plug(Settled(t, k), k.up);
      process := root;
    }

    /** The second half of a round, once the sibling is black. */
    method BlackSibling(parentProc: Ptr, sibling: Ptr, ghost t: Tree, ghost k: Path, ghost n: nat)
      returns (process: Ptr, parent: Ptr, ghost t': Tree, ghost k': Path, ghost n': nat)
      requires Holds(t, k) && Short(t, k, n) && IsBlack(t) && k.Step? && k.other.Node? && k.other.color == BLACK
      requires parentProc == k.e.id && sibling == k.other.e.id
      modifies `root, proc
      ensures Round(t, k, t', k', n', process, parent)
      ensures k'.Top? || (t' == PushedUp(t, k) && k' == k.up)
      ensures Within(old(proc[..]), proc[..], Span(t, k))
    {
      SiblingKin(t, k);
      if (proc[sibling].left == NULL || proc[proc[sibling].left].color == BLACK)
         && (proc[sibling].right == NULL || proc[proc[sibling].right].color == BLACK) {
        PushUp(parentProc, sibling, t, k, n);
        n' := PushedUpSound(t, k, n);
        t', k' := PushedUp(t, k), k.up;
        ParentLink(t', k');
        process := parentProc;
        parent := proc[parentProc].pParent;
      } else {
        parent, k' := parentProc, Top;
        process, t', n' := RotateUp(parentProc, sibling, t, k, n);
      }
    }

    method RetrievingCase2(parentProc: Ptr, process: Ptr, ghost t: Tree, ghost k: Path, ghost n: nat)
      returns (ghost s: Tree, ghost rounds: nat)
      requires Holds(t, k) && Short(t, k, n) && process == Root(t) && (k.Step? ==> parentProc == k.e.id)
      modifies `root, proc
      ensures Holds(s, Top) && RB(s) && InOrder(s) == InOrder(Plug(t, k))
      ensures Within(old(proc[..]), proc[..], Span(t, k))
      ensures rounds <= Depth(k)
    {
      var process, parentProc := process, parentProc;
      ghost var t', k', n' := t, k, n;
      rounds := 0;
      RootIsTop(proc[..], root, t', k');
      OwnColor(t', k');
      while process != root && (process == NULL || proc[process].color == BLACK)
        invariant Round(t, k, t', k', n', process, parentProc)
        invariant Within(old(proc[..]), proc[..], Span(t, k))
        invariant process == root <==> k'.Top?
        invariant process != NULL ==> 0 <= process < proc.Length && t'.Node? && proc[process].color == t'.color
        invariant rounds + Work(t', k') <= Depth(k)
        decreases Work(t', k')
      {
        LeftLink(t', k', n');
        if process == proc[parentProc].left {
          process, parentProc, t', k', n' := OneRound(parentProc, t', k', n');
          RootIsTop(proc[..], root, t', k');
          OwnColor(t', k');
          rounds := rounds + 1;
        }
      }
      if process != NULL {
        ShortBlackened(t', k', n');
        SetColor(process, BLACK, t', k');
      }
      s := Plug(Blackened(t'), k');
      AtTop(proc[..], root, Blackened(t'), k');
    }

    lemma OwnColor(t: Tree, k: Path)
      requires Holds(t, k)
      ensures t.Node? ==> t.e.id < proc.Length && proc[t.e.id].color == t.color
    {
    }

    lemma LeftLink(t: Tree, k: Path, n: nat)
      requires Holds(t, k) && Short(t, k, n) && k.Step?
      ensures k.e.id < proc.Length && proc[k.e.id].left == Root(t)
    {
    }

    /** One round of the repair loop. */
    method OneRound(parentProc: Ptr, ghost t: Tree, ghost k: Path, ghost n: nat)
      returns (process: Ptr, parent: Ptr, ghost t': Tree, ghost k': Path, ghost n': nat)
      requires Holds(t, k) && Short(t, k, n) && IsBlack(t) && k.Step? && parentProc == k.e.id
      modifies `root, proc
      ensures Round(t, k, t', k', n', process, parent)
      ensures Work(t', k') < Work(t, k)
      ensures Within(old(proc[..]), proc[..], Span(t, k))
    {
      SiblingExists(t, k, n);
      SiblingKin(t, k);
      var siblingProc := proc[parentProc].right;
      ghost var k1 := k;
      if siblingProc != NULL && proc[siblingProc].color == RED {
        BelowRedSound(t, k, n);
        LowerRed(parentProc, siblingProc, t, k, n);
        k1 := BelowRed(k);
        SiblingKin(t, k1);
        siblingProc := proc[parentProc].right;
      }
      process, parent, t', k', n' := BlackSibling(parentProc, siblingProc, t, k1, n);
    }

    lemma ParentLink(t: Tree, k: Path)
      requires Holds(t, k) && t.Node?
      ensures t.e.id < proc.Length && proc[t.e.id].pParent == Parent(k)
    {
    }

    /** Everything the deletion needs to know about the leftmost position. */
    lemma MinFacts(t: Tree) returns (n: nat)
      requires Holds(t, Top) && RB(t) && t.Node?
      ensures Holds(MinTree(t), MinPath(t, Top)) && Span(MinTree(t), MinPath(t, Top)) == Nodes(t)
      ensures Sub(MinTree(t), n) && AllLeft(MinPath(t, Top)) && Depth(MinPath(t, Top)) <= Height(t)
      ensures (MinPath(t, Top).Top? || MinTree(t).right.Node? || MinTree(t).color == RED ==>
                 RB(Plug(Heir(MinTree(t)), MinPath(t, Top))))
      ensures MinTree(t).color == BLACK && MinTree(t).right.Leaf? ==> Short(Leaf, MinPath(t, Top), 0)
      ensures InOrder(t) != [] && InOrder(Plug(Heir(MinTree(t)), MinPath(t, Top))) == InOrder(t)[1..]
      ensures First(t) !in Span(Heir(MinTree(t)), MinPath(t, Top))
      ensures Span(Heir(MinTree(t)), MinPath(t, Top)) <= Nodes(t)
    {
      n := MinSound(t, Top, BlackHeight(t));
      MinAt(proc[..], root, t, Top);
      MinPlugs(t, Top);
      DepthBound(MinTree(t), MinPath(t, Top));
      HeirSound(MinTree(t), MinPath(t, Top), n);
      HeirInOrder(t);
    }

    /** The deletion proper: cuts the leftmost process out and repairs the colours. */
    method CutOut(parentProc: Ptr, process: Ptr, ghost t: Tree) returns (ghost s: Tree, ghost rounds: nat)
      requires Holds(t, Top) && RB(t) && t.Node? && process == First(t)
      requires process < proc.Length && parentProc == proc[process].pParent
      modifies `root, proc
      ensures Holds(s, Top) && RB(s) && InOrder(t) != [] && InOrder(s) == InOrder(t)[1..]
      ensures Within(old(proc[..]), proc[..], Nodes(t)) && process !in Nodes(s)
      ensures rounds <= Height(t)
    {
      ghost var d, k := MinTree(t), MinPath(t, Top);
      ghost var n := MinFacts(t);
      ParentLink(d, k);
      var needsRepair := Unhook(parentProc, process, d, k, n);
      rounds := 0;
      s := Plug(Heir(d), k);
      if needsRepair {
        s, rounds := RetrievingCase2(parentProc, proc[process].right, Leaf, k, 0);
      } else {
        AtTop(proc[..], root, Heir(d), k);
      }
      SameNodes(s, Plug(Heir(d), k));
      PlugNodes(Heir(d), k);
    }

    /** Takes the leftmost process out of the tree and clears its links. */
    method RetrievingCase1(parentProc: Ptr, process: Ptr, ghost t: Tree) returns (ghost s: Tree, ghost rounds: nat)
      requires Holds(t, Top) && RB(t) && t.Node? && process == First(t)
      requires process < proc.Length && parentProc == proc[process].pParent
      modifies `root, proc
      ensures Holds(s, Top) && RB(s) && InOrder(t) != [] && InOrder(s) == InOrder(t)[1..]
      ensures Within(old(proc[..]), proc[..], Nodes(t))
      ensures proc[process].left == NULL && proc[process].right == NULL && proc[process].pParent == NULL
      ensures rounds <= Height(t)
    {
      FirstIn(t);
      s, rounds := CutOut(parentProc, process, t);
      ghost var m := proc[..];
      proc[process] := proc[process].(pParent := NULL, left := NULL, right := NULL);
      OutsideAt(m, root, proc[..], s, Top, process);
    }

    /** Replaces the leftmost process by its right child; tells whether the colours need repair. */
    method Unhook(parentProc: Ptr, process: Ptr, ghost d: Tree, ghost k: Path, ghost n: nat) returns (needsRepair: bool)
      requires Holds(d, k) && AllLeft(k) && d.Node? && d.left.Leaf? && Sub(d, n)
      requires process == d.e.id && parentProc == Parent(k)
      modifies `root, proc
      ensures Holds(Heir(d), k)
      ensures Within(old(proc[..]), proc[..], Span(d, k))
      ensures process < proc.Length && proc[process].right == Root(d.right)
      ensures needsRepair <==> k.Step? && d.color == BLACK && d.right.Leaf?
    {
      ghost var m, r := proc[..], root;
      InTable(m, root, d, k);
      RootIsTop(m, root, d, k);
      MinShapes(d, n);
      RightLink(d, k);
      needsRepair := false;
      var childProcess := proc[process].right;
      if process == root {
        root := childProcess;
        if childProcess != NULL {
          proc[childProcess] := proc[childProcess].(pParent := NULL);
          proc[childProcess] := proc[childProcess].(color := BLACK);
        }
      } else if childProcess != NULL && proc[process].color != proc[childProcess].color {
        proc[childProcess] := proc[childProcess].(pParent := parentProc);
        proc[parentProc] := proc[parentProc].(left := childProcess);
        proc[childProcess] := proc[childProcess].(color := BLACK);
      } else if proc[process].color == RED {
        proc[parentProc] := proc[parentProc].(left := childProcess);
      } else {
        if childProcess != NULL {
          assert false; // a black process without a left child has no black right child to relink
        }
        proc[parentProc] := proc[parentProc].(left := childProcess);
        needsRepair := true;
      }
      UnhookedAt(m, r, proc[..], root, d, k, BLACK);
    }

    lemma RightLink(d: Tree, k: Path)
      requires Holds(d, k) && d.Node?
      ensures d.e.id < proc.Length && proc[d.e.id].color == d.color && proc[d.e.id].right == Root(d.right)
      ensures d.right.Node? ==> d.right.e.id < proc.Length && proc[d.right.e.id].color == d.right.color
    {
      assert Lays(proc[..], d.right, d.e.id);
    }

    // ----- the leftmost process -----

    /** Follows left links down to the process with the smallest virtual runtime. */
    function SetMinimumVRuntimeproc(traversing: Ptr, ghost t: Tree, ghost par: Ptr): (r: Ptr)
      requires Lays(proc[..], t, par) && traversing == Root(t)
      reads proc
      ensures r == First(t)
      decreases t
    {
      if traversing != NULL then
        assert 0 <= traversing < proc.Length && proc[..][traversing] == proc[traversing];
        if proc[traversing].left != NULL then SetMinimumVRuntimeproc(proc[traversing].left, t.left, t.e.id)
        else traversing
      else NULL
    }

    /** The cached minimum after an insertion: recomputed only if there was none, or if it has gained a left child. */
    method RefreshMin(ghost s: seq<Entry>, ghost e: Entry, ghost t: Tree)
      requires Holds(t, Top) && InOrder(t) == StableInsert(s, e)
      requires minvRuntime == if s == [] then NULL else s[0].id
      requires s == [] || e.key < s[0].key ==> SpineLeaf(t)
      modifies `minvRuntime
      ensures minvRuntime == First(t)
    {
      MinIsFirst(t);
      MinAt(proc[..], root, t, Top);
      if s != [] {
        if e.key < s[0].key {
          SecondHasLeft(proc[..], t, NULL);
        } else {
          FirstHasNoLeft(t);
        }
      }
      if minvRuntime == NULL || proc[minvRuntime].left != NULL {
        minvRuntime := SetMinimumVRuntimeproc(root, t, NULL);
      }
    }

    lemma FirstHasNoLeft(t: Tree)
      requires Holds(t, Top) && t.Node?
      ensures 0 <= First(t) < proc.Length && proc[First(t)].left == NULL
    {
      MinAt(proc[..], root, t, Top);
    }

    // ----- insertProcess -----

    /** Hangs p into the tree as a red leaf. */
    method Hang(p: Ptr, ghost e: Entry)
      requires Holds(shape, Top) && (count == 0 <==> shape.Leaf?)
      requires 0 <= p < proc.Length && p !in Nodes(shape) && Detached(proc[..], Nodes(shape))
      requires e.id == p && e.key == proc[p].virtualRuntime
      modifies `root, proc
      ensures Holds(Grown(shape, e), Top)
      ensures Within(old(proc[..]), proc[..], Nodes(shape) + {p})
    {
      ghost var par := if shape.Leaf? then proc[p].pParent else NULL;
      GrownNodes(shape, e);
      root := InsertProc(root, p, shape, par, e);
      if count == 0 {
        ghost var m := proc[..];
        proc[root] := proc[root].(pParent := NULL);
        Relink(m, proc[..], Grown(shape, e), par, NULL, RED);
      }
    }

    /** Caches the weight of p and adds it to the total. */
    method Weigh(p: Ptr, ghost t: Tree)
      requires Holds(t, Top) && 0 <= p < proc.Length
      modifies `treeWeight, proc
      ensures Holds(t, Top)
      ensures treeWeight == old(treeWeight) + Weight(proc[p].niceVal)
      ensures proc[..] == old(proc[..])[p := old(proc[..])[p].(weightVal := Weight(proc[p].niceVal))]
    {
      var w := CalculateWight(proc[p].niceVal);
      ghost var m := proc[..];
      proc[p] := proc[p].(weightVal := w);
      treeWeight := treeWeight + w;
      FrameTree(m, proc[..], t, NULL);
    }

    /** Runs the insertion repair from the freshly hung leaf. */
    method Repair(p: Ptr, ghost t: Tree, ghost e: Entry) returns (ghost s: Tree)
      requires RB(t) && Sorted(InOrder(t)) && Holds(Grown(t, e), Top) && p == e.id
      modifies `root, proc
      ensures Holds(s, Top) && RB(s) && InOrder(s) == StableInsert(InOrder(t), e)
      ensures InOrder(t) == [] || e.key < InOrder(t)[0].key ==> SpineLeaf(s)
      ensures Within(old(proc[..]), proc[..], Nodes(t) + {p})
    {
      WayAt(proc[..], root, t, e, Top);
      GrownNodes(t, e);
      ReadyToRepair(t, e);
      s := InsertionCases(p, 1, Node(Leaf, e, RED, Leaf), Way(t, e, Top), 0);
    }

    /** Hangs p in, counts and weighs it, and repairs the colours. */
    method LinkIn(p: Ptr, ghost e: Entry) returns (ghost s: Tree)
      requires Holds(shape, Top) && RB(shape) && Sorted(InOrder(shape)) && (count == 0 <==> shape.Leaf?)
      requires 0 <= p < proc.Length && p !in Nodes(shape) && Detached(proc[..], Nodes(shape))
      requires e == Entry(p, proc[p].virtualRuntime, Weight(proc[p].niceVal))
      modifies `root, `count, `treeWeight, proc
      ensures Holds(s, Top) && RB(s) && InOrder(s) == StableInsert(InOrder(shape), e)
      ensures InOrder(shape) == [] || e.key < InOrder(shape)[0].key ==> SpineLeaf(s)
      ensures count == old(count) + 1 && treeWeight == old(treeWeight) + e.weight
      ensures OnlyTree(old(proc[..]), proc[..], Nodes(shape) + {p}, p) && proc[p].weightVal == e.weight
    {
      ghost var m := proc[..];
      Hang(p, e);
      count := count + 1;
      ghost var m1 := proc[..];
      Weigh(p, Grown(shape, e));
      ghost var m2 := proc[..];
      s := Repair(p, shape, e);
      OnlyTreeSteps(m, m1, m2, proc[..], Nodes(shape) + {p}, p, e.weight);
    }

    method InsertProcess(p: Ptr)
      requires Valid() && 0 <= p < proc.Length
      requires IsFull() || p !in Nodes(shape)
      modifies this, proc
      ensures Valid()
      ensures View() == Enqueue(old(View()), Entry(p, old(proc[p].virtualRuntime), Weight(old(proc[p].niceVal))))
      ensures OnlyTree(old(proc[..]), proc[..], Nodes(shape), p)
      ensures !old(IsFull()) ==> proc[p].weightVal == Weight(old(proc[p].niceVal))
    {
      if !IsFull() {
        ghost var e := Entry(p, proc[p].virtualRuntime, Weight(proc[p].niceVal));
        ghost var m, t := proc[..], shape;
        InsertionFits(e);
        ghost var s := LinkIn(p, e);
        RefreshMin(InOrder(t), e, s);
        shape := s;
        InsertedNodes(t, s, e);
        InsertedKeeps(m, proc[..], InOrder(t), Nodes(t), e);
      }
    }

    /** The spec side of an insertion: it is never refused, and the run queue stays sound. */
    lemma InsertionFits(e: Entry)
      requires Valid() && e.id < proc.Length && e.id !in Nodes(shape) && e.weight == Weight(proc[e.id].niceVal)
      ensures !IsFull() && Sound(Enqueue(View(), e)) && !Queued(InOrder(shape), e.id)
      ensures Enqueue(View(), e).entries == StableInsert(InOrder(shape), e)
      ensures minvRuntime == if InOrder(shape) == [] then NULL else InOrder(shape)[0].id
      ensures count == 0 <==> shape.Leaf?
    {
      MinIsFirst(shape);
      NodesAreOrdered(shape, e.id);
      WeightRange(proc[e.id].niceVal);
      EnqueueSound(View(), e);
    }

    // ----- retrieveProcess -----

    /** Takes out the process with the smallest virtual runtime and gives it its time slice. */
    method RetrieveProcess() returns (foundProcess: Ptr, ghost rounds: nat)
      requires Valid()
      modifies this, proc
      ensures Valid()
      ensures old(View()).entries == [] ==>
        foundProcess == NULL && View() == old(View()) && proc[..] == old(proc[..])
      ensures old(View()).entries != [] && old(proc[View().entries[0].id].state) != RUNNABLE ==>
        && foundProcess == NULL && proc[..] == old(proc[..])
        && View() == old(View()).(period := Stretched(old(View())))
      ensures old(View()).entries != [] && old(proc[View().entries[0].id].state) == RUNNABLE ==>
        && foundProcess == old(View()).entries[0].id && old(View()).treeWeight > 0
        && View() == Dequeue(old(View()))
        && proc[foundProcess].left == NULL && proc[foundProcess].right == NULL
        && OnlyPicked(old(proc[..]), proc[..], old(Nodes(shape)), foundProcess, Slice(old(View())))
        && IsShare(proc[foundProcess].maxExecutionTime, period, old(View()).entries[0].weight,
                   TotalWeight(old(View()).entries))
      ensures period == if old(View()).entries != [] && old(count) > proc.Length / 2 / 2 then 2 * old(count)
                        else old(period)
      ensures rounds <= Height(old(shape))
    {
      rounds := 0;
      HeadFacts();
      if IsEmpty() {
        return NULL, 0;
      }
      StretchSound(View());
      if count > Latency(proc.Length) / MIN_GRANULARITY {
        period := count * MIN_GRANULARITY;
      }
      foundProcess := minvRuntime;
      if proc[foundProcess].state != RUNNABLE {
        return NULL, 0;
      }
      rounds := TakeMin();
    }

    /** The second half of retrieveProcess, once the head is known to be runnable. */
    method TakeMin() returns (ghost rounds: nat)
      requires Valid() && count != 0 && period == Stretched(View())
      modifies this, proc
      ensures Valid() && old(View()).entries != [] && old(View()).treeWeight > 0
      ensures View() == Dequeue(old(View()))
      ensures var p := old(View()).entries[0].id;
        && p < proc.Length && proc[p].left == NULL && proc[p].right == NULL
        && OnlyPicked(old(proc[..]), proc[..], old(Nodes(shape)), p, Slice(old(View())))
        && IsShare(proc[p].maxExecutionTime, period, old(View()).entries[0].weight, TotalWeight(old(View()).entries))
      ensures rounds <= Height(old(shape))
    {
      HeadFacts();
      ghost var q, m, t := View(), proc[..], shape;
      var foundProcess := minvRuntime;
      FirstIn(t);
      SliceIsShare(q);
      DequeueSound(q);
      rounds := RemoveMin();
      ghost var m1 := proc[..];
      GiveSlice(foundProcess);
      PickedKeeps(m, m1, proc[..], InOrder(t), Nodes(t), Slice(q));
    }

    /** Computes the slice of a process that has left the tree, and takes its weight off the total. */
    method GiveSlice(foundProcess: Ptr)
      requires Holds(shape, Top) && 0 <= foundProcess < proc.Length && foundProcess !in Nodes(shape) && treeWeight != 0
      modifies `treeWeight, proc
      ensures Holds(shape, Top) && treeWeight == old(treeWeight) - proc[foundProcess].weightVal
      ensures var slice := period * old(proc[foundProcess].weightVal) / old(treeWeight);
        proc[..] == old(proc[..])[foundProcess := old(proc[..])[foundProcess].(maxExecutionTime := slice)]
    {
      ghost var m := proc[..];
      var slice := period * proc[foundProcess].weightVal / treeWeight;
      proc[foundProcess] := proc[foundProcess].(maxExecutionTime := slice);
      treeWeight := treeWeight - proc[foundProcess].weightVal;
      OutsideAt(m, root, proc[..], shape, Top, foundProcess);
    }

    /** Takes the leftmost process out, counts it off and finds the new minimum. */
    method RemoveMin() returns (ghost rounds: nat)
      requires Holds(shape, Top) && RB(shape) && shape.Node? && minvRuntime == First(shape)
      requires 0 <= minvRuntime < proc.Length && Distinct(InOrder(shape))
      modifies `root, `count, `minvRuntime, `shape, proc
      ensures Holds(shape, Top) && RB(shape) && minvRuntime == First(shape) && count == old(count) - 1
      ensures old(InOrder(shape)) != [] && InOrder(shape) == old(InOrder(shape))[1..]
      ensures Nodes(shape) == old(Nodes(shape)) - {old(InOrder(shape))[0].id}
      ensures Within(old(proc[..]), proc[..], old(Nodes(shape)))
      ensures var p := old(minvRuntime); proc[p].left == NULL && proc[p].right == NULL
      ensures rounds <= Height(old(shape))
    {
      ghost var s, t := Leaf, shape;
      s, rounds := RetrievingCase1(proc[minvRuntime].pParent, minvRuntime, t);
      count := count - 1;
      minvRuntime := SetMinimumVRuntimeproc(root, s, NULL);
      shape := s;
      RemovedNodes(t, s);
    }

    lemma HeadFacts()
      requires Valid()
      ensures count == 0 <==> InOrder(shape) == []
      ensures count != 0 ==>
        && shape.Node? && minvRuntime == First(shape) == InOrder(shape)[0].id && 0 <= minvRuntime < proc.Length
        && proc[minvRuntime].weightVal == InOrder(shape)[0].weight
    {
      MinIsFirst(shape);
    }

    // ----- how deep the recursions go -----

    /** The tree is balanced: two to its height is at most (count + 1) squared. No descent of insertProc or
        setMinimumVRuntimeproc, and no deletion repair, is longer than the height. */
    lemma DescentsBounded(e: Entry)
      requires Valid()
      ensures Pow(2, Height(shape)) <= (count + 1) * (count + 1)
      ensures Depth(Way(shape, e, Top)) <= Height(shape)
      ensures shape.Node? ==> Depth(MinPath(shape, Top)) < Height(shape)
    {
      Balanced(shape);
      SizeIsLength(shape);
      WayDepth(shape, e, Top);
      if shape.Node? {
        MinPlugs(shape, Top);
        DepthBound(MinTree(shape), MinPath(shape, Top));
      }
    }

    // ----- allocproc -----

    /** What allocproc does to a slot it has found unused. Such a slot is not in the tree, so its links can be
        reset without touching the tree. */
    method AllocProc(p: Ptr)
      requires Valid() && 0 <= p < proc.Length && p !in Nodes(shape)
      modifies proc
      ensures Valid() && View() == old(View())
      ensures proc[..] == old(proc[..])[p := old(proc[..])[p].(
        state := USED, virtualRuntime := 0, currentRuntime := 0, maxExecutionTime := 0, niceVal := 0,
        left := NULL, right := NULL, pParent := NULL)]
    {
      ghost var m := proc[..];
      proc[p] := proc[p].(state := USED);
      proc[p] := proc[p].(virtualRuntime := 0, currentRuntime := 0, maxExecutionTime := 0, niceVal := 0);
      proc[p] := proc[p].(left := NULL, right := NULL, pParent := NULL);
      OutsideAt(m, root, proc[..], shape, Top, p);
      forall i | 0 <= i < |InOrder(shape)| ensures proc[InOrder(shape)[i].id] == m[InOrder(shape)[i].id] {
        NodesAreOrdered(shape, InOrder(shape)[i].id);
      }
    }
  }
}
