/** The mathematical shape of the tree that the pointers lay out, and positions inside it. */
module Shape {
  import opened Procs
  import opened Queue

  datatype Tree = Leaf | Node(left: Tree, e: Entry, color: Color, right: Tree)

  datatype Side = LEFT | RIGHT

  /** The way from a subtree up to the root, innermost step first: the subtree hangs on `side` of e,
      and `other` hangs on the opposite side. */
  datatype Path = Top | Step(side: Side, e: Entry, color: Color, other: Tree, up: Path)

  ghost function Nodes(t: Tree): (r: set<nat>)
    ensures t.Node? ==> t.e.id in r
  {
    if t.Leaf? then {} else Nodes(t.left) + {t.e.id} + Nodes(t.right)
  }

  ghost function PathNodes(k: Path): (r: set<nat>)
    ensures k.Step? ==> k.e.id in r
  {
    if k.Top? then {} else {k.e.id} + Nodes(k.other) + PathNodes(k.up)
  }

  /** All processes of Plug(t, k). */
  ghost function Span(t: Tree, k: Path): set<nat> {
    Nodes(t) + PathNodes(k)
  }

  ghost function Root(t: Tree): Ptr {
    if t.Leaf? then NULL else t.e.id
  }

  ghost function Parent(k: Path): Ptr {
    if k.Top? then NULL else k.e.id
  }

  ghost function Join(side: Side, e: Entry, color: Color, hole: Tree, other: Tree): Tree {
    if side == LEFT then Node(hole, e, color, other) else Node(other, e, color, hole)
  }

  /** The whole tree: t put back at position k. */
  ghost function Plug(t: Tree, k: Path): Tree
    decreases k
  {
    if k.Top? then t else Plug(Join(k.side, k.e, k.color, t, k.other), k.up)
  }

  ghost function InOrder(t: Tree): seq<Entry> {
    if t.Leaf? then [] else InOrder(t.left) + [t.e] + InOrder(t.right)
  }

  ghost function Size(t: Tree): nat {
    if t.Leaf? then 0 else Size(t.left) + 1 + Size(t.right)
  }

  ghost function Height(t: Tree): nat {
    if t.Leaf? then 0
    else if Height(t.left) < Height(t.right) then 1 + Height(t.right) else 1 + Height(t.left)
  }

  ghost function Depth(k: Path): nat {
    if k.Top? then 0 else 1 + Depth(k.up)
  }

  /** No process occurs twice. */
  ghost predicate Sep(t: Tree) {
    t.Node? ==>
      && t.e.id !in Nodes(t.left) && t.e.id !in Nodes(t.right)
      && Nodes(t.left) !! Nodes(t.right)
      && Sep(t.left) && Sep(t.right)
  }

  ghost predicate SepPath(k: Path) {
    k.Step? ==>
      && k.e.id !in Nodes(k.other) && k.e.id !in PathNodes(k.up)
      && Nodes(k.other) !! PathNodes(k.up)
      && Sep(k.other) && SepPath(k.up)
  }

  ghost function RotatedLeft(t: Tree): Tree
    requires t.Node? && t.right.Node?
  {
    Node(Node(t.left, t.e, t.color, t.right.left), t.right.e, t.right.color, t.right.right)
  }

  ghost function RotatedRight(t: Tree): Tree
    requires t.Node? && t.left.Node?
  {
    Node(t.left.left, t.left.e, t.left.color, Node(t.left.right, t.e, t.color, t.right))
  }

  lemma Regroup<T>(a: seq<T>, x: T, b: seq<T>, y: T, c: seq<T>)
    ensures (a + [x] + b) + [y] + c == a + [x] + (b + [y] + c)
  {
  }

  /** A rotation moves links, but neither the order nor the set of processes. */
  lemma RotateLeftKeeps(t: Tree)
    requires t.Node? && t.right.Node?
    ensures InOrder(RotatedLeft(t)) == InOrder(t)
    ensures Nodes(RotatedLeft(t)) == Nodes(t)
    ensures Sep(t) ==> Sep(RotatedLeft(t))
  {
    Regroup(InOrder(t.left), t.e, InOrder(t.right.left), t.right.e, InOrder(t.right.right));
    if Sep(t) { RotateLeftSep(t); }
  }

  lemma RotateLeftSep(t: Tree)
    requires t.Node? && t.right.Node? && Sep(t)
    ensures Sep(RotatedLeft(t))
  {
    assert Sep(t.right);
    assert Sep(Node(t.left, t.e, t.color, t.right.left));
  }

  lemma RotateRightKeeps(t: Tree)
    requires t.Node? && t.left.Node?
    ensures InOrder(RotatedRight(t)) == InOrder(t)
    ensures Nodes(RotatedRight(t)) == Nodes(t)
    ensures Sep(t) ==> Sep(RotatedRight(t))
  {
    Regroup(InOrder(t.left.left), t.left.e, InOrder(t.left.right), t.e, InOrder(t.right));
    if Sep(t) { RotateRightSep(t); }
  }

  lemma RotateRightSep(t: Tree)
    requires t.Node? && t.left.Node? && Sep(t)
    ensures Sep(RotatedRight(t))
  {
    assert Sep(t.left);
    assert Sep(Node(t.left.right, t.e, t.color, t.right));
  }

  /** What surrounds a position does not depend on what is put there. */
  lemma {:induction false} PlugInOrder(t: Tree, t': Tree, k: Path)
    requires InOrder(t) == InOrder(t')
    ensures InOrder(Plug(t, k)) == InOrder(Plug(t', k))
    decreases k
  {
    if k.Step? {
      PlugInOrder(Join(k.side, k.e, k.color, t, k.other), Join(k.side, k.e, k.color, t', k.other), k.up);
    }
  }

  lemma {:induction false} PlugNodes(t: Tree, k: Path)
    ensures Nodes(Plug(t, k)) == Span(t, k)
    decreases k
  {
    if k.Step? {
      PlugNodes(Join(k.side, k.e, k.color, t, k.other), k.up);
    }
  }

  lemma JoinSpan(t: Tree, k: Path, c: Color)
    requires k.Step?
    ensures Span(Join(k.side, k.e, c, t, k.other), k.up) == Span(t, k)
  {
    assert Nodes(Join(k.side, k.e, c, t, k.other)) == Nodes(t) + {k.e.id} + Nodes(k.other);
  }

  lemma {:induction false} NodesAreOrdered(t: Tree, p: nat)
    ensures p in Nodes(t) <==> exists i :: 0 <= i < |InOrder(t)| && InOrder(t)[i].id == p
  {
    if t.Node? {
      NodesAreOrdered(t.left, p);
      NodesAreOrdered(t.right, p);
      var l, r, s := InOrder(t.left), InOrder(t.right), InOrder(t);
      assert s == l + [t.e] + r;
      assert s[|l|] == t.e;
      if i :| 0 <= i < |l| && l[i].id == p {
        assert s[i].id == p;
      }
      if i :| 0 <= i < |r| && r[i].id == p {
        assert s[|l| + 1 + i].id == p;
      }
    }
  }

  lemma NodesAreQueued(t: Tree, q: seq<Entry>, p: nat)
    requires q == InOrder(t)
    ensures p in Nodes(t) <==> Queued(q, p)
  {
    NodesAreOrdered(t, p);
    if i :| 0 <= i < |InOrder(t)| && InOrder(t)[i].id == p {
      assert q[i].id == p;
    }
    if Queued(q, p) {
      var i :| 0 <= i < |q| && q[i].id == p;
      assert InOrder(t)[i].id == p;
    }
  }

  lemma SameNodes(t: Tree, t': Tree)
    requires InOrder(t) == InOrder(t')
    ensures Nodes(t) == Nodes(t')
  {
    forall p: nat ensures p in Nodes(t) <==> p in Nodes(t') {
      NodesAreOrdered(t, p);
      NodesAreOrdered(t', p);
    }
  }

  lemma {:induction false} SizeIsLength(t: Tree)
    ensures |InOrder(t)| == Size(t)
  {
    if t.Node? {
      SizeIsLength(t.left);
      SizeIsLength(t.right);
    }
  }
}
