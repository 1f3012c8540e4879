/** The red-black rules, and what the repairs do to them, on shapes alone. */
module RedBlack {
  import opened Procs
  import opened Queue
  import opened Shape
  import opened Numbers

  ghost predicate IsBlack(t: Tree) {
    t.Leaf? || t.color == BLACK
  }

  /** t obeys the red-black rules below its root and has n black processes on every way down. */
  ghost predicate Sub(t: Tree, n: nat) {
    if t.Leaf? then n == 0
    else if t.color == RED then
      IsBlack(t.left) && IsBlack(t.right) && Sub(t.left, n) && Sub(t.right, n)
    else
      n > 0 && Sub(t.left, n - 1) && Sub(t.right, n - 1)
  }

  ghost function BlackHeight(t: Tree): nat {
    if t.Leaf? then 0 else BlackHeight(t.left) + (if t.color == BLACK then 1 else 0)
  }

  ghost predicate RB(t: Tree) {
    IsBlack(t) && Sub(t, BlackHeight(t))
  }

  /** Every tree with a black root and black height n completes k to a red-black tree. */
  ghost predicate Around(k: Path, n: nat) {
    k.Step? ==>
      && Sub(k.other, n)
      && (k.color == RED ==> IsBlack(k.other) && k.up.Step? && k.up.color == BLACK)
      && Around(k.up, if k.color == BLACK then n + 1 else n)
  }

  lemma {:induction false} SubHeight(t: Tree, n: nat)
    requires Sub(t, n)
    ensures BlackHeight(t) == n
  {
    if t.Node? {
      SubHeight(t.left, if t.color == RED then n else n - 1);
    }
  }

  lemma {:induction false} PlugRB(t: Tree, k: Path, n: nat)
    requires Sub(t, n) && Around(k, n)
    requires IsBlack(t) || (k.Step? && k.color == BLACK)
    ensures RB(Plug(t, k))
    decreases k
  {
    if k.Top? {
      SubHeight(t, n);
    } else {
      PlugRB(Join(k.side, k.e, k.color, t, k.other), k.up, if k.color == BLACK then n + 1 else n);
    }
  }

  // ----- balance -----

  lemma {:induction false} BlackHeightBoundsSize(t: Tree, n: nat)
    requires Sub(t, n)
    ensures Pow(2, n) <= Size(t) + 1
  {
    if t.Node? {
      var b := if t.color == RED then n else n - 1;
      BlackHeightBoundsSize(t.left, b);
      BlackHeightBoundsSize(t.right, b);
    }
  }

  lemma {:induction false} HeightBound(t: Tree, n: nat)
    requires Sub(t, n)
    ensures Height(t) <= 2 * n + (if IsBlack(t) then 0 else 1)
  {
    if t.Node? {
      var b := if t.color == RED then n else n - 1;
      HeightBound(t.left, b);
      HeightBound(t.right, b);
    }
  }

  lemma SquaredPower(h: nat, n: nat, size: nat)
    requires h <= 2 * n && Pow(2, n) <= size
    ensures Pow(2, h) <= size * size
  {
    calc {
      Pow(2, h);
    <= { PowGrows(2, h, n + n); }
      Pow(2, n + n);
    == { PowAdds(2, n, n); }
      Pow(2, n) * Pow(2, n);
    <= { SquareGrows(Pow(2, n), size); }
      size * size;
    }
  }

  /** The height is at most 2 log2(n + 1): two to the height is at most (n + 1) squared. */
  lemma Balanced(t: Tree)
    requires RB(t)
    ensures Pow(2, Height(t)) <= (Size(t) + 1) * (Size(t) + 1)
  {
    HeightBound(t, BlackHeight(t));
    BlackHeightBoundsSize(t, BlackHeight(t));
    SquaredPower(Height(t), BlackHeight(t), Size(t) + 1);
  }

  lemma {:induction false} DepthBound(t: Tree, k: Path)
    ensures Height(t) + Depth(k) <= Height(Plug(t, k))
    decreases k
  {
    if k.Step? {
      DepthBound(Join(k.side, k.e, k.color, t, k.other), k.up);
    }
  }

  // ----- insertion: where the new process goes -----

  /** The tree after the recursive descent of insertProc: e is a red leaf. */
  ghost function Grown(t: Tree, e: Entry): Tree {
    if t.Leaf? then Node(Leaf, e, RED, Leaf)
    else if t.e.key <= e.key then t.(right := Grown(t.right, e))
    else t.(left := Grown(t.left, e))
  }

  /** The way from the new leaf up to the root of t and on along up. */
  ghost function Way(t: Tree, e: Entry, up: Path): Path
    decreases t
  {
    if t.Leaf? then up
    else if t.e.key <= e.key then Way(t.right, e, Step(RIGHT, t.e, t.color, t.left, up))
    else Way(t.left, e, Step(LEFT, t.e, t.color, t.right, up))
  }

  lemma {:induction false} WayPlugs(t: Tree, e: Entry, up: Path)
    ensures Plug(Node(Leaf, e, RED, Leaf), Way(t, e, up)) == Plug(Grown(t, e), up)
    decreases t
  {
    if t.Leaf? {
    } else if t.e.key <= e.key {
      WayPlugs(t.right, e, Step(RIGHT, t.e, t.color, t.left, up));
    } else {
      WayPlugs(t.left, e, Step(LEFT, t.e, t.color, t.right, up));
    }
  }

  lemma {:induction false} WayDepth(t: Tree, e: Entry, up: Path)
    ensures Depth(Way(t, e, up)) <= Height(t) + Depth(up)
    decreases t
  {
    if t.Leaf? {
    } else if t.e.key <= e.key {
      WayDepth(t.right, e, Step(RIGHT, t.e, t.color, t.left, up));
    } else {
      WayDepth(t.left, e, Step(LEFT, t.e, t.color, t.right, up));
    }
  }

  lemma {:induction false} WayAround(t: Tree, e: Entry, up: Path, n: nat)
    requires Sub(t, n) && Around(up, n)
    requires IsBlack(t) || (up.Step? && up.color == BLACK)
    ensures Around(Way(t, e, up), 0)
    decreases t
  {
    if t.Leaf? {
    } else {
      var b := if t.color == RED then n else n - 1;
      if t.e.key <= e.key {
        WayAround(t.right, e, Step(RIGHT, t.e, t.color, t.left, up), b);
      } else {
        WayAround(t.left, e, Step(LEFT, t.e, t.color, t.right, up), b);
      }
    }
  }

  lemma {:induction false} GrownNodes(t: Tree, e: Entry)
    ensures Nodes(Grown(t, e)) == Nodes(t) + {e.id}
    ensures Sep(t) && e.id !in Nodes(t) ==> Sep(Grown(t, e))
  {
    if t.Node? {
      if t.e.key <= e.key {
        GrownNodes(t.right, e);
      } else {
        GrownNodes(t.left, e);
      }
    }
  }

  ghost predicate SortedAround(l: seq<Entry>, e: Entry, r: seq<Entry>) {
    Sorted(l) && Sorted(r) && AllAtMost(l, e.key)
  }

  lemma SortedParts(l: seq<Entry>, e: Entry, r: seq<Entry>)
    requires Sorted(l + [e] + r)
    ensures SortedAround(l, e, r)
  {
    var s := l + [e] + r;
    forall i, j | 0 <= i < j < |r| ensures r[i].key <= r[j].key {
      assert s[|l| + 1 + i].key <= s[|l| + 1 + j].key;
    }
    forall i, j | 0 <= i < j < |l| ensures l[i].key <= l[j].key {
      assert s[i].key <= s[j].key;
    }
    forall i | 0 <= i < |l| ensures l[i].key <= e.key {
      assert s[i].key <= s[|l|].key;
    }
  }

  /** The descent is a stable insertion into the sorted list. */
  lemma {:induction false} GrownInOrder(t: Tree, e: Entry)
    requires Sorted(InOrder(t))
    ensures InOrder(Grown(t, e)) == StableInsert(InOrder(t), e)
  {
    if t.Node? {
      var l, r := InOrder(t.left), InOrder(t.right);
      SortedParts(l, t.e, r);
      if t.e.key <= e.key {
        GrownInOrder(t.right, e);
        InsertSkips(l + [t.e], r, e);
      } else {
        GrownInOrder(t.left, e);
        InsertStops(l, [t.e] + r, e);
        assert l + ([t.e] + r) == l + [t.e] + r;
        assert StableInsert(l, e) + ([t.e] + r) == StableInsert(l, e) + [t.e] + r;
      }
    }
  }

  ghost predicate AllLeft(k: Path) {
    k.Step? ==> k.side == LEFT && AllLeft(k.up)
  }

  /** The leftmost process has no right child either. */
  ghost predicate SpineLeaf(t: Tree) {
    t.Node? && if t.left.Leaf? then t.right.Leaf? else SpineLeaf(t.left)
  }

  // ----- insertion: the repair -----

  /** The state insertionCases works on: a red process over a sound subtree, in sound surroundings.
      Only its parent may be red too. */
  ghost predicate Repairable(t: Tree, k: Path, n: nat) {
    t.Node? && t.color == RED && Sub(t, n) && Around(k, n)
  }

  ghost function Blackened(t: Tree): Tree {
    if t.Leaf? then t else t.(color := BLACK)
  }

  /** Case 3: parent and uncle black, grandparent red; the result stands in the grandparent's place. */
  ghost function Repainted(t: Tree, k: Path): Tree
    requires k.Step? && k.up.Step?
  {
    Join(k.up.side, k.up.e, RED, Join(k.side, k.e, BLACK, t, k.other), Blackened(k.up.other))
  }

  /** Case 5, before its rotation: parent black, grandparent red. */
  ghost function Armed(t: Tree, k: Path): Tree
    requires k.Step? && k.up.Step?
  {
    Join(k.up.side, k.up.e, RED, Join(k.side, k.e, BLACK, t, k.other), k.up.other)
  }

  /** Case 5: the parent stands in the grandparent's place. */
  ghost function Lifted(t: Tree, k: Path): Tree
    requires k.Step? && k.up.Step? && k.side == k.up.side
  {
    if k.side == LEFT then RotatedRight(Armed(t, k)) else RotatedLeft(Armed(t, k))
  }

  lemma RedParentHasBlackGrandparent(k: Path, n: nat)
    requires Around(k, n) && k.Step? && k.color == RED
    ensures k.up.Step? && k.up.color == BLACK && IsBlack(k.other)
    ensures Sub(k.up.other, n) && Around(k.up, n) && Around(k.up.up, n + 1)
  {
  }

  lemma RepaintedSound(t: Tree, k: Path, n: nat)
    requires Repairable(t, k, n) && k.Step? && k.color == RED && !IsBlack(k.up.other)
    ensures Repairable(Repainted(t, k), k.up.up, n + 1)
    ensures InOrder(Plug(Repainted(t, k), k.up.up)) == InOrder(Plug(t, k))
    ensures Span(Repainted(t, k), k.up.up) == Span(t, k)
  {
    RedParentHasBlackGrandparent(k, n);
    var j := Join(k.side, k.e, RED, t, k.other);
    assert InOrder(j) == InOrder(Join(k.side, k.e, BLACK, t, k.other));
    JoinSpan(t, k, BLACK);
    JoinSpan(Join(k.side, k.e, BLACK, t, k.other), k.up.(other := Blackened(k.up.other)), RED);
    assert Nodes(Blackened(k.up.other)) == Nodes(k.up.other);
    PlugInOrder(Repainted(t, k), Join(k.up.side, k.up.e, BLACK, j, k.up.other), k.up.up);
  }

  lemma LiftedSound(t: Tree, k: Path, n: nat)
    requires Repairable(t, k, n) && k.Step? && k.color == RED
    requires IsBlack(k.up.other) && k.side == k.up.side
    ensures IsBlack(Lifted(t, k)) && Sub(Lifted(t, k), n + 1) && Around(k.up.up, n + 1)
    ensures InOrder(Plug(Lifted(t, k), k.up.up)) == InOrder(Plug(t, k))
    ensures Span(Lifted(t, k), k.up.up) == Span(t, k)
  {
    RedParentHasBlackGrandparent(k, n);
    var j := Join(k.side, k.e, RED, t, k.other);
    var g := Join(k.up.side, k.up.e, BLACK, j, k.up.other);
    assert InOrder(j) == InOrder(Join(k.side, k.e, BLACK, t, k.other));
    assert InOrder(Armed(t, k)) == InOrder(g);
    JoinSpan(t, k, BLACK);
    JoinSpan(Join(k.side, k.e, BLACK, t, k.other), k.up, RED);
    if k.side == LEFT {
      RotateRightKeeps(Armed(t, k));
    } else {
      RotateLeftKeeps(Armed(t, k));
    }
    PlugInOrder(Lifted(t, k), g, k.up.up);
  }

  /** Case 4: t is an inner grandchild; after rotating at its parent, the old parent is the outer one. */
  ghost function OuterTree(t: Tree, k: Path): Tree
    requires t.Node? && k.Step?
  {
    if k.side == RIGHT then Node(k.other, k.e, k.color, t.left) else Node(t.right, k.e, k.color, k.other)
  }

  ghost function OuterPath(t: Tree, k: Path): Path
    requires t.Node? && k.Step?
  {
    if k.side == RIGHT then Step(LEFT, t.e, t.color, t.right, k.up) else Step(RIGHT, t.e, t.color, t.left, k.up)
  }

  lemma StraightenedSound(t: Tree, k: Path, n: nat)
    requires Repairable(t, k, n) && k.Step? && k.color == RED
    ensures Repairable(OuterTree(t, k), OuterPath(t, k), n)
    ensures InOrder(Plug(OuterTree(t, k), OuterPath(t, k))) == InOrder(Plug(t, k))
    ensures Span(OuterTree(t, k), OuterPath(t, k)) == Span(t, k)
  {
    var j := Join(k.side, k.e, k.color, t, k.other);
    JoinSpan(t, k, k.color);
    JoinSpan(OuterTree(t, k), OuterPath(t, k), t.color);
    if k.side == RIGHT {
      RotateLeftKeeps(j);
      PlugInOrder(RotatedLeft(j), j, k.up);
    } else {
      RotateRightKeeps(j);
      PlugInOrder(RotatedRight(j), j, k.up);
    }
  }

  // ----- the leftmost process -----

  lemma {:induction false} PlugSpine(t: Tree, k: Path)
    requires SpineLeaf(t) && AllLeft(k)
    ensures SpineLeaf(Plug(t, k))
    decreases k
  {
    if k.Step? {
      PlugSpine(Join(k.side, k.e, k.color, t, k.other), k.up);
    }
  }

  lemma {:induction false} SmallestGoesLeft(t: Tree, e: Entry, up: Path)
    requires forall i :: 0 <= i < |InOrder(t)| ==> e.key < InOrder(t)[i].key
    requires AllLeft(up)
    ensures AllLeft(Way(t, e, up))
    decreases t
  {
    if t.Node? {
      var s := InOrder(t);
      assert s == InOrder(t.left) + [t.e] + InOrder(t.right) && s[|InOrder(t.left)|] == t.e;
      assert forall i :: 0 <= i < |InOrder(t.left)| ==> InOrder(t.left)[i] == s[i];
      SmallestGoesLeft(t.left, e, Step(LEFT, t.e, t.color, t.right, up));
    }
  }

  /** Position and subtree of the leftmost process. */
  ghost function MinPath(t: Tree, up: Path): Path
    requires t.Node?
    decreases t
  {
    if t.left.Leaf? then up else MinPath(t.left, Step(LEFT, t.e, t.color, t.right, up))
  }

  ghost function MinTree(t: Tree): (r: Tree)
    requires t.Node?
    ensures r.Node? && r.left.Leaf?
    decreases t
  {
    if t.left.Leaf? then t else MinTree(t.left)
  }

  ghost function First(t: Tree): Ptr {
    if t.Leaf? then NULL else MinTree(t).e.id
  }

  lemma {:induction false} MinPlugs(t: Tree, up: Path)
    requires t.Node?
    ensures Plug(MinTree(t), MinPath(t, up)) == Plug(t, up)
    ensures AllLeft(up) ==> AllLeft(MinPath(t, up))
    decreases t
  {
    if t.left.Node? {
      MinPlugs(t.left, Step(LEFT, t.e, t.color, t.right, up));
    }
  }

  lemma {:induction false} MinSound(t: Tree, up: Path, n: nat) returns (b: nat)
    requires t.Node? && Sub(t, n) && Around(up, n)
    requires IsBlack(t) || (up.Step? && up.color == BLACK)
    ensures Sub(MinTree(t), b) && Around(MinPath(t, up), b)
    ensures IsBlack(MinTree(t)) || (MinPath(t, up).Step? && MinPath(t, up).color == BLACK)
    decreases t
  {
    if t.left.Leaf? {
      b := n;
    } else {
      b := MinSound(t.left, Step(LEFT, t.e, t.color, t.right, up), if t.color == RED then n else n - 1);
    }
  }

  lemma {:induction false} MinIsFirst(t: Tree)
    ensures t.Node? <==> InOrder(t) != []
    ensures t.Node? ==> InOrder(t)[0] == MinTree(t).e
  {
    if t.Node? {
      assert InOrder(t) == InOrder(t.left) + [t.e] + InOrder(t.right);
      MinIsFirst(t.left);
    }
  }

  lemma {:induction false} FirstIn(t: Tree)
    requires t.Node?
    ensures First(t) in Nodes(t)
  {
    if t.left.Node? {
      FirstIn(t.left);
    }
  }

  /** Replacing the leftmost process by its right subtree drops the head of the list. */
  lemma {:induction false} DropMin(t: Tree, up: Path)
    requires t.Node? && AllLeft(up)
    ensures InOrder(Plug(t, up)) != []
    ensures InOrder(Plug(MinTree(t).right, MinPath(t, up))) == InOrder(Plug(t, up))[1..]
    decreases t
  {
    MinPlugs(t, up);
    PlugDropsHead(MinTree(t), MinTree(t).right, MinPath(t, up));
  }

  lemma {:induction false} PlugDropsHead(t: Tree, r: Tree, k: Path)
    requires InOrder(t) != [] && InOrder(r) == InOrder(t)[1..] && AllLeft(k)
    ensures InOrder(Plug(t, k)) != [] && InOrder(Plug(r, k)) == InOrder(Plug(t, k))[1..]
    decreases k
  {
    if k.Step? {
      var jt, jr := Join(k.side, k.e, k.color, t, k.other), Join(k.side, k.e, k.color, r, k.other);
      assert InOrder(jr) == InOrder(jt)[1..];
      PlugDropsHead(jt, jr, k.up);
    }
  }

  /** What every case of the insertion repair makes of the tree. */
  ghost predicate Repaired(s: Tree, t: Tree, k: Path) {
    && RB(s) && InOrder(s) == InOrder(Plug(t, k))
    && (AllLeft(k) && SpineLeaf(t) ==> SpineLeaf(s))
  }

  lemma PlugRepaired(t: Tree, k: Path, n: nat)
    requires Sub(t, n) && Around(k, n) && (IsBlack(t) || (k.Step? && k.color == BLACK))
    ensures Repaired(Plug(t, k), t, k)
  {
    PlugRB(t, k, n);
    if AllLeft(k) && SpineLeaf(t) { PlugSpine(t, k); }
  }

  /** Neither a repaint nor a rotation along the left edge gives the leftmost process a right child
      or takes it away from its parent. */
  lemma SpineRises(t: Tree, k: Path)
    requires AllLeft(k) && SpineLeaf(t) && k.Step? && k.up.Step?
    ensures k.side == k.up.side == LEFT && AllLeft(k.up.up)
    ensures SpineLeaf(Repainted(t, k)) && SpineLeaf(Lifted(t, k))
  {
    assert AllLeft(k.up);
    assert SpineLeaf(Join(k.side, k.e, BLACK, t, k.other));
  }

  lemma RepaintedRepaired(s: Tree, t: Tree, k: Path, n: nat)
    requires Repairable(t, k, n) && k.Step? && k.color == RED && k.up.Step? && !IsBlack(k.up.other)
    requires Repaired(s, Repainted(t, k), k.up.up)
    ensures Repaired(s, t, k)
  {
    RepaintedSound(t, k, n);
    if AllLeft(k) && SpineLeaf(t) { SpineRises(t, k); }
  }

  lemma StraightenedRepaired(s: Tree, t: Tree, k: Path, n: nat)
    requires Repairable(t, k, n) && k.Step? && k.color == RED && k.up.Step? && k.side != k.up.side
    requires Repaired(s, OuterTree(t, k), OuterPath(t, k))
    ensures Repaired(s, t, k)
  {
    StraightenedSound(t, k, n);
    assert AllLeft(k) ==> AllLeft(k.up);
  }

  lemma LiftedRepaired(t: Tree, k: Path, n: nat)
    requires Repairable(t, k, n) && k.Step? && k.color == RED && k.up.Step?
    requires IsBlack(k.up.other) && k.side == k.up.side
    ensures Repaired(Plug(Lifted(t, k), k.up.up), t, k)
    ensures Span(Lifted(t, k), k.up.up) == Span(t, k)
  {
    LiftedSound(t, k, n);
    PlugRepaired(Lifted(t, k), k.up.up, n + 1);
    if AllLeft(k) && SpineLeaf(t) { SpineRises(t, k); }
  }

  lemma RootRepaired(t: Tree, n: nat)
    requires Repairable(t, Top, n)
    ensures Repaired(t.(color := BLACK), t, Top)
  {
    SubHeight(t.left, n);
  }

  // ----- deletion: the repair -----

  /** Like Sub, except that a red root may have red children. */
  ghost predicate Weak(t: Tree, n: nat) {
    if t.Leaf? then n == 0
    else if t.color == RED then Sub(t.left, n) && Sub(t.right, n)
    else Sub(t, n)
  }

  /** The state of the repair loop: the subtree at k is one black process short, unless its root is red. */
  ghost predicate Short(t: Tree, k: Path, n: nat) {
    Weak(t, n) && Around(k, n + 1) && AllLeft(k)
  }

  lemma ShortBlackened(t: Tree, k: Path, n: nat)
    requires Short(t, k, n) && (k.Top? || !IsBlack(t))
    ensures RB(Plug(Blackened(t), k))
    ensures InOrder(Plug(Blackened(t), k)) == InOrder(Plug(t, k))
  {
    PlugInOrder(Blackened(t), t, k);
    if IsBlack(t) {
      PlugRB(t, k, n);
    } else {
      PlugRB(Blackened(t), k, n + 1);
    }
  }

  /** The sibling of a short subtree is never missing. */
  lemma SiblingExists(t: Tree, k: Path, n: nat)
    requires Short(t, k, n) && k.Step?
    ensures k.other.Node?
    ensures k.other.color == RED ==> k.color == BLACK && k.other.left.Node?
    ensures k.other.color == RED ==> IsBlack(k.other.left) && IsBlack(k.other.right)
    ensures k.other.color == BLACK ==> Sub(k.other.left, n) && Sub(k.other.right, n)
  {
    assert Sub(k.other, n + 1);
    assert k.other.color == RED ==> Sub(k.other.left, n + 1);
  }

  /** How much work the repair loop has left. */
  ghost function Work(t: Tree, k: Path): nat {
    if IsBlack(t) then Depth(k) else 0
  }

  /** A red sibling is rotated above the parent; the short subtree now has a black sibling. */
  ghost function BelowRed(k: Path): Path
    requires k.Step? && k.other.Node?
  {
    Step(LEFT, k.e, RED, k.other.left, Step(LEFT, k.other.e, BLACK, k.other.right, k.up))
  }

  lemma BelowRedSound(t: Tree, k: Path, n: nat)
    requires Short(t, k, n) && k.Step? && k.other.Node? && k.other.color == RED
    ensures Short(t, BelowRed(k), n) && BelowRed(k).other.Node? && BelowRed(k).other.color == BLACK
    ensures InOrder(Plug(t, BelowRed(k))) == InOrder(Plug(t, k))
    ensures Span(t, BelowRed(k)) == Span(t, k)
  {
    SiblingExists(t, k, n);
    var j := Node(t, k.e, RED, k.other.(color := BLACK));
    RotateLeftKeeps(j);
    PlugInOrder(RotatedLeft(j), Join(k.side, k.e, k.color, t, k.other), k.up);
    JoinSpan(t, k, RED);
    JoinSpan(t, BelowRed(k), RED);
    JoinSpan(Node(t, k.e, RED, k.other.left), BelowRed(k).up, BLACK);
  }

  /** A black sibling with black children turns red, and the shortage moves up to the parent. */
  ghost function PushedUp(t: Tree, k: Path): Tree
    requires k.Step? && k.other.Node?
  {
    Node(t, k.e, k.color, k.other.(color := RED))
  }

  lemma PushedUpSound(t: Tree, k: Path, n: nat) returns (b: nat)
    requires Short(t, k, n) && IsBlack(t) && k.Step? && k.other.Node? && k.other.color == BLACK
    requires IsBlack(k.other.left) && IsBlack(k.other.right)
    ensures Short(PushedUp(t, k), k.up, b)
    ensures InOrder(Plug(PushedUp(t, k), k.up)) == InOrder(Plug(t, k))
    ensures Span(PushedUp(t, k), k.up) == Span(t, k)
  {
    b := if k.color == BLACK then n + 1 else n;
    PlugInOrder(PushedUp(t, k), Join(k.side, k.e, k.color, t, k.other), k.up);
    JoinSpan(t, k.(other := k.other.(color := RED)), k.color);
  }

  /** A red child on the near side of the sibling is rotated to the far side. */
  ghost function FarRed(k: Path): Path
    requires k.Step? && k.other.Node? && k.other.left.Node?
  {
    k.(other := RotatedRight(Node(k.other.left.(color := BLACK), k.other.e, RED, k.other.right)))
  }

  lemma FarRedSound(t: Tree, k: Path, n: nat)
    requires Short(t, k, n) && k.Step? && k.other.Node? && k.other.color == BLACK
    requires !IsBlack(k.other.left) && IsBlack(k.other.right)
    ensures Short(t, FarRed(k), n)
    ensures InOrder(Plug(t, FarRed(k))) == InOrder(Plug(t, k))
    ensures Span(t, FarRed(k)) == Span(t, k)
  {
    SiblingExists(t, k, n);
    var o := Node(k.other.left.(color := BLACK), k.other.e, RED, k.other.right);
    assert InOrder(o.left) == InOrder(k.other.left) && Nodes(o.left) == Nodes(k.other.left);
    assert InOrder(o) == InOrder(k.other) && Nodes(o) == Nodes(k.other);
    RotateRightKeeps(o);
    PlugInOrder(Join(k.side, k.e, k.color, t, FarRed(k).other), Join(k.side, k.e, k.color, t, k.other), k.up);
  }

  /** With a red far child the sibling takes the parent's place and colour, and nothing is short any more. */
  ghost function Settled(t: Tree, k: Path): Tree
    requires k.Step? && k.other.Node?
  {
    RotatedLeft(Node(t, k.e, BLACK, Node(k.other.left, k.other.e, k.color, Blackened(k.other.right))))
  }

  lemma SettledSound(t: Tree, k: Path, n: nat) returns (b: nat)
    requires Short(t, k, n) && IsBlack(t) && k.Step? && k.other.Node? && k.other.color == BLACK
    requires !IsBlack(k.other.right)
    ensures Short(Plug(Settled(t, k), k.up), Top, b)
    ensures InOrder(Plug(Settled(t, k), k.up)) == InOrder(Plug(t, k))
    ensures Span(Settled(t, k), k.up) == Span(t, k)
  {
    var j := Node(t, k.e, BLACK, Node(k.other.left, k.other.e, k.color, Blackened(k.other.right)));
    var o := j.right;
    assert InOrder(o) == InOrder(k.other) && Nodes(o) == Nodes(k.other);
    RotateLeftKeeps(j);
    PlugInOrder(Settled(t, k), Join(k.side, k.e, k.color, t, k.other), k.up);
    JoinSpan(t, k, BLACK);
    assert Sub(t, n) && Sub(k.other.left, n) && Sub(k.other.right, n);
    assert Around(k.up, if k.color == BLACK then n + 2 else n + 1);
    assert Sub(Node(t, k.e, BLACK, k.other.left), n + 1) && Sub(Blackened(k.other.right), n + 1);
    PlugRB(Settled(t, k), k.up, if k.color == BLACK then n + 2 else n + 1);
    b := BlackHeight(Plug(Settled(t, k), k.up));
  }

  /** A freshly hung leaf is what the insertion repair starts from. */
  lemma ReadyToRepair(t: Tree, e: Entry)
    requires RB(t) && Sorted(InOrder(t))
    ensures Repairable(Node(Leaf, e, RED, Leaf), Way(t, e, Top), 0)
    ensures InOrder(Plug(Node(Leaf, e, RED, Leaf), Way(t, e, Top))) == StableInsert(InOrder(t), e)
    ensures InOrder(t) == [] || e.key < InOrder(t)[0].key ==> AllLeft(Way(t, e, Top))
  {
    WayAround(t, e, Top, BlackHeight(t));
    WayPlugs(t, e, Top);
    GrownInOrder(t, e);
    if InOrder(t) == [] || e.key < InOrder(t)[0].key {
      SmallestGoesLeft(t, e, Top);
    }
  }

  // ----- deletion: cutting out the leftmost process -----

  /** Next to its missing left child, the leftmost process can have at most one red leaf on its right. */
  lemma MinShapes(d: Tree, n: nat)
    requires d.Node? && d.left.Leaf? && Sub(d, n)
    ensures d.color == RED ==> d.right.Leaf? && n == 0
    ensures d.color == BLACK ==> n == 1
    ensures d.right.Node? ==> d.color == BLACK && d.right.color == RED && Sub(Blackened(d.right), 1)
  {
    if d.right.Node? {
      assert Sub(d.right, 0);
    }
  }

  /** What takes the place of the leftmost process. */
  ghost function Heir(d: Tree): Tree
    requires d.Node?
  {
    Blackened(d.right)
  }

  lemma HeirInOrder(t: Tree)
    requires t.Node?
    ensures InOrder(t) != [] && InOrder(Plug(Heir(MinTree(t)), MinPath(t, Top))) == InOrder(t)[1..]
  {
    DropMin(t, Top);
    PlugInOrder(Heir(MinTree(t)), MinTree(t).right, MinPath(t, Top));
  }

  /** Unless a black process without children goes, nothing is left to repair. */
  lemma HeirSound(d: Tree, k: Path, n: nat)
    requires d.Node? && d.left.Leaf? && Sub(d, n) && Around(k, n)
    ensures k.Top? || d.right.Node? || d.color == RED ==> RB(Plug(Heir(d), k))
    ensures d.color == BLACK && d.right.Leaf? && AllLeft(k) ==> Short(Leaf, k, 0)
  {
    MinShapes(d, n);
    if d.right.Node? {
      PlugRB(Heir(d), k, 1);
    } else if k.Top? || d.color == RED {
      PlugRB(Leaf, k, 0);
    }
  }
}
