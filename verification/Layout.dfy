/** When the pointers in the process table spell out a given tree, and how single pointer writes change it. */
module Layout {
  import opened Procs
  import opened Queue
  import opened Shape
  import opened RedBlack

  ghost predicate Cell(m: Table, p: nat, left: Ptr, right: Ptr, parent: Ptr, color: Color, key: int) {
    && p < |m| && m[p].left == left && m[p].right == right && m[p].pParent == parent
    && m[p].color == color && m[p].virtualRuntime == key
  }

  /** The links of the processes in t spell out t, hanging below par. */
  ghost predicate Lays(m: Table, t: Tree, par: Ptr) {
    t.Node? ==>
      && Cell(m, t.e.id, Root(t.left), Root(t.right), par, t.color, t.e.key)
      && Lays(m, t.left, t.e.id) && Lays(m, t.right, t.e.id)
  }

  /** The links along k spell out k around a subtree with root `hole`; `root` is the top of it all. */
  ghost predicate LaysPath(m: Table, k: Path, hole: Ptr, root: Ptr) {
    if k.Top? then root == hole else
      && (if k.side == LEFT then Cell(m, k.e.id, hole, Root(k.other), Parent(k.up), k.color, k.e.key)
          else Cell(m, k.e.id, Root(k.other), hole, Parent(k.up), k.color, k.e.key))
      && Lays(m, k.other, k.e.id) && LaysPath(m, k.up, k.e.id, root)
  }

  /** The table holds exactly the tree Plug(t, k), seen from the position k of its subtree t. */
  ghost predicate At(m: Table, root: Ptr, t: Tree, k: Path) {
    && Sep(t) && SepPath(k) && Nodes(t) !! PathNodes(k)
    && Lays(m, t, Parent(k)) && LaysPath(m, k, Root(t), root)
  }

  ghost predicate SameNode(a: Proc, b: Proc) {
    && a.left == b.left && a.right == b.right && a.pParent == b.pParent
    && a.color == b.color && a.virtualRuntime == b.virtualRuntime
  }

  ghost predicate Agree(m: Table, m': Table, s: set<nat>) {
    |m| == |m'| && forall p :: p in s && p < |m| ==> SameNode(m[p], m'[p])
  }

  /** From m to m' nothing changed but tree links and colours, and those only inside s. */
  ghost predicate Within(m: Table, m': Table, s: set<nat>) {
    && |m'| == |m|
    && forall i: nat :: i < |m| ==>
        && m'[i] == m[i].(left := m'[i].left, right := m'[i].right, pParent := m'[i].pParent, color := m'[i].color)
        && (i !in s ==> m'[i] == m[i])
  }

  lemma {:induction false} FrameTree(m: Table, m': Table, t: Tree, par: Ptr)
    requires Lays(m, t, par) && Agree(m, m', Nodes(t))
    ensures Lays(m', t, par)
  {
    if t.Node? {
      FrameTree(m, m', t.left, t.e.id);
      FrameTree(m, m', t.right, t.e.id);
    }
  }

  lemma {:induction false} FramePath(m: Table, m': Table, k: Path, hole: Ptr, root: Ptr)
    requires LaysPath(m, k, hole, root) && Agree(m, m', PathNodes(k))
    ensures LaysPath(m', k, hole, root)
  {
    if k.Step? {
      FrameTree(m, m', k.other, k.e.id);
      FramePath(m, m', k.up, k.e.id, root);
    }
  }

  /** Only the root of t changes its record, to one with parent par' and colour c. */
  lemma Relink(m: Table, m': Table, t: Tree, par: Ptr, par': Ptr, c: Color)
    requires Lays(m, t, par) && Sep(t) && |m| == |m'|
    requires t.Node? ==>
      Agree(m, m', Nodes(t) - {t.e.id}) && SameNode(m'[t.e.id], m[t.e.id].(pParent := par', color := c))
    ensures Lays(m', if t.Node? then t.(color := c) else t, par')
  {
    if t.Node? {
      FrameTree(m, m', t.left, t.e.id);
      FrameTree(m, m', t.right, t.e.id);
    }
  }

  /** The subtree at k is replaced by one with root hole'. */
  lemma Regraft(m: Table, m': Table, k: Path, hole: Ptr, hole': Ptr, root: Ptr, root': Ptr)
    requires LaysPath(m, k, hole, root) && SepPath(k) && |m| == |m'|
    requires k.Top? ==> root' == hole'
    requires k.Step? ==>
      && root' == root
      && Agree(m, m', PathNodes(k) - {k.e.id})
      && SameNode(m'[k.e.id], if k.side == LEFT then m[k.e.id].(left := hole') else m[k.e.id].(right := hole'))
    ensures LaysPath(m', k, hole', root')
  {
    if k.Step? {
      FrameTree(m, m', k.other, k.e.id);
      FramePath(m, m', k.up, k.e.id, root);
    }
  }

  // ----- moving the point of view, with the table unchanged -----

  lemma AtParent(m: Table, root: Ptr, t: Tree, k: Path)
    requires k.Step?
    ensures At(m, root, t, k) <==> At(m, root, Join(k.side, k.e, k.color, t, k.other), k.up)
    ensures Span(t, k) == Span(Join(k.side, k.e, k.color, t, k.other), k.up)
  {
    var j := Join(k.side, k.e, k.color, t, k.other);
    assert Nodes(j) == Nodes(t) + {k.e.id} + Nodes(k.other);
    assert PathNodes(k) == {k.e.id} + Nodes(k.other) + PathNodes(k.up);
  }

  lemma {:induction false} AtTop(m: Table, root: Ptr, t: Tree, k: Path)
    requires At(m, root, t, k)
    ensures At(m, root, Plug(t, k), Top) && Span(Plug(t, k), Top) == Span(t, k)
    decreases k
  {
    if k.Step? {
      AtParent(m, root, t, k);
      AtTop(m, root, Join(k.side, k.e, k.color, t, k.other), k.up);
    }
  }

  ghost function Sibling(t: Tree, k: Path): Path
    requires k.Step?
  {
    Step(if k.side == LEFT then RIGHT else LEFT, k.e, k.color, t, k.up)
  }

  lemma AtSibling(m: Table, root: Ptr, t: Tree, k: Path)
    requires At(m, root, t, k) && k.Step?
    ensures At(m, root, k.other, Sibling(t, k)) && Span(k.other, Sibling(t, k)) == Span(t, k)
  {
    AtParent(m, root, t, k);
    AtParent(m, root, k.other, Sibling(t, k));
  }

  /** A position below the top is never the root, and a non-empty tree at the top always is. */
  lemma {:induction false} RootIsTop(m: Table, root: Ptr, t: Tree, k: Path)
    requires At(m, root, t, k)
    ensures Root(t) == root <==> k.Top?
    decreases k
  {
    if k.Step? {
      AtParent(m, root, t, k);
      var j := Join(k.side, k.e, k.color, t, k.other);
      RootIsTop(m, root, j, k.up);
      TopIsOnPath(m, root, t, k);
    }
  }

  lemma {:induction false} TopIsOnPath(m: Table, root: Ptr, t: Tree, k: Path)
    requires LaysPath(m, k, Root(t), root) && k.Step?
    ensures 0 <= root && root in PathNodes(k)
    decreases k
  {
    if k.up.Step? {
      TopIsOnPath(m, root, Join(k.side, k.e, k.color, t, k.other), k.up);
    }
  }

  // ----- colour changes -----

  lemma Recolor(m: Table, root: Ptr, t: Tree, k: Path, c: Color)
    requires At(m, root, t, k) && t.Node?
    ensures t.e.id < |m|
    ensures At(m[t.e.id := m[t.e.id].(color := c)], root, t.(color := c), k)
    ensures Within(m, m[t.e.id := m[t.e.id].(color := c)], Span(t, k))
  {
    var m' := m[t.e.id := m[t.e.id].(color := c)];
    Relink(m, m', t, Parent(k), Parent(k), c);
    FramePath(m, m', k, t.e.id, root);
  }

  // ----- rotations -----

  /** The slots a rotation at p writes are different slots: p, the child q that moves up,
      the inner grandchild b that changes sides, and the parent u. */
  ghost predicate Pivot(m: Table, p: Ptr, q: Ptr, b: Ptr, u: Ptr) {
    && 0 <= p < |m| && 0 <= q < |m| && q != p
    && (b == NULL || (0 <= b < |m| && b != p && b != q && b != u))
    && (u == NULL || (0 <= u < |m| && u != p && u != q && (m[u].left == p <==> m[u].right != p)))
  }

  ghost predicate LeftPivot(m: Table, p: Ptr) {
    && 0 <= p < |m| && 0 <= m[p].right < |m|
    && Pivot(m, p, m[p].right, m[m[p].right].left, m[p].pParent)
  }

  ghost predicate RightPivot(m: Table, p: Ptr) {
    && 0 <= p < |m| && 0 <= m[p].left < |m|
    && Pivot(m, p, m[p].left, m[m[p].left].right, m[p].pParent)
  }

  /** The parent u of p now points at q where it pointed at p; all slots but these four are as before. */
  ghost predicate Hoisted(m: Table, root: Ptr, m': Table, root': Ptr, p: Ptr, q: Ptr, b: Ptr, u: Ptr)
    requires Pivot(m, p, q, b, u)
  {
    && |m'| == |m|
    && (b != NULL ==> m'[b] == m[b].(pParent := p))
    && (u != NULL ==> root' == root && m'[u] == if m[u].left == p then m[u].(left := q) else m[u].(right := q))
    && (u == NULL ==> root' == q)
    && forall i :: 0 <= i < |m| && i != p && i != q && i != b && i != u ==> m'[i] == m[i]
  }

  ghost predicate LeftTurn(m: Table, root: Ptr, m': Table, root': Ptr, p: Ptr)
    requires LeftPivot(m, p)
  {
    var q := m[p].right;
    && Hoisted(m, root, m', root', p, q, m[q].left, m[p].pParent)
    && m'[p] == m[p].(right := m[q].left, pParent := q)
    && m'[q] == m[q].(left := p, pParent := m[p].pParent)
  }

  ghost predicate RightTurn(m: Table, root: Ptr, m': Table, root': Ptr, p: Ptr)
    requires RightPivot(m, p)
  {
    var q := m[p].left;
    && Hoisted(m, root, m', root', p, q, m[q].right, m[p].pParent)
    && m'[p] == m[p].(left := m[q].right, pParent := q)
    && m'[q] == m[q].(right := p, pParent := m[p].pParent)
  }

  lemma LeftPivotAt(m: Table, root: Ptr, t: Tree, k: Path)
    requires At(m, root, t, k) && t.Node? && t.right.Node?
    ensures LeftPivot(m, t.e.id)
  {
    assert Lays(m, t.right, t.e.id) && Sep(t.right);
    assert t.right.left.Node? ==> Lays(m, t.right.left, t.right.e.id);
  }

  lemma RightPivotAt(m: Table, root: Ptr, t: Tree, k: Path)
    requires At(m, root, t, k) && t.Node? && t.left.Node?
    ensures RightPivot(m, t.e.id)
  {
    assert Lays(m, t.left, t.e.id) && Sep(t.left);
    assert t.left.right.Node? ==> Lays(m, t.left.right, t.left.e.id);
  }

  lemma LeftTurnAt(m: Table, root: Ptr, m': Table, root': Ptr, t: Tree, k: Path)
    requires At(m, root, t, k) && t.Node? && t.right.Node? && LeftPivot(m, t.e.id)
    requires LeftTurn(m, root, m', root', t.e.id)
    ensures At(m', root', RotatedLeft(t), k)
  {
    var p, q, a, b, c := t.e.id, t.right.e.id, t.left, t.right.left, t.right.right;
    assert Lays(m, t.right, p) && Sep(t.right) && Nodes(t.right) == Nodes(b) + {q} + Nodes(c);
    RotateLeftKeeps(t);
    FrameTree(m, m', a, p);
    Relink(m, m', b, q, p, if b.Node? then b.color else BLACK);
    FrameTree(m, m', c, q);
    Regraft(m, m', k, p, q, root, root');
    assert Lays(m', Node(a, t.e, t.color, b), q);
  }

  lemma LeftTurnWithin(m: Table, root: Ptr, m': Table, root': Ptr, t: Tree, k: Path)
    requires At(m, root, t, k) && t.Node? && t.right.Node? && LeftPivot(m, t.e.id)
    requires LeftTurn(m, root, m', root', t.e.id)
    ensures Within(m, m', Span(t, k))
  {
    assert Lays(m, t.right, t.e.id);
    assert Nodes(t.right) == Nodes(t.right.left) + {t.right.e.id} + Nodes(t.right.right);
  }

  lemma RightTurnAt(m: Table, root: Ptr, m': Table, root': Ptr, t: Tree, k: Path)
    requires At(m, root, t, k) && t.Node? && t.left.Node? && RightPivot(m, t.e.id)
    requires RightTurn(m, root, m', root', t.e.id)
    ensures At(m', root', RotatedRight(t), k)
  {
    var p, q, a, b, c := t.e.id, t.left.e.id, t.left.left, t.left.right, t.right;
    assert Lays(m, t.left, p) && Sep(t.left) && Nodes(t.left) == Nodes(a) + {q} + Nodes(b);
    RotateRightKeeps(t);
    FrameTree(m, m', a, q);
    Relink(m, m', b, q, p, if b.Node? then b.color else BLACK);
    FrameTree(m, m', c, p);
    Regraft(m, m', k, p, q, root, root');
    assert Lays(m', Node(b, t.e, t.color, c), q);
  }

  lemma RightTurnWithin(m: Table, root: Ptr, m': Table, root': Ptr, t: Tree, k: Path)
    requires At(m, root, t, k) && t.Node? && t.left.Node? && RightPivot(m, t.e.id)
    requires RightTurn(m, root, m', root', t.e.id)
    ensures Within(m, m', Span(t, k))
  {
    assert Lays(m, t.left, t.e.id);
    assert Nodes(t.left) == Nodes(t.left.left) + {t.left.e.id} + Nodes(t.left.right);
  }

  /** The position of the new leaf, given the tree it has just been hung into. */
  lemma {:induction false} WayAt(m: Table, root: Ptr, t: Tree, e: Entry, up: Path)
    requires At(m, root, Grown(t, e), up)
    ensures At(m, root, Node(Leaf, e, RED, Leaf), Way(t, e, up))
    ensures Span(Node(Leaf, e, RED, Leaf), Way(t, e, up)) == Span(Grown(t, e), up)
    decreases t
  {
    if t.Leaf? {
    } else if t.e.key <= e.key {
      var k := Step(RIGHT, t.e, t.color, t.left, up);
      AtParent(m, root, Grown(t.right, e), k);
      WayAt(m, root, t.right, e, k);
    } else {
      var k := Step(LEFT, t.e, t.color, t.right, up);
      AtParent(m, root, Grown(t.left, e), k);
      WayAt(m, root, t.left, e, k);
    }
  }

  lemma {:induction false} MinAt(m: Table, root: Ptr, t: Tree, up: Path)
    requires t.Node? && At(m, root, t, up)
    ensures At(m, root, MinTree(t), MinPath(t, up))
    ensures Span(MinTree(t), MinPath(t, up)) == Span(t, up)
    decreases t
  {
    if t.left.Node? {
      var k := Step(LEFT, t.e, t.color, t.right, up);
      AtParent(m, root, t.left, k);
      MinAt(m, root, t.left, k);
    }
  }

  /** The subtree on one side of t has grown by e, and the root of t has been told. */
  lemma Regrown(m: Table, m1: Table, m': Table, t: Tree, e: Entry, par: Ptr)
    requires t.Node? && Lays(m, t, par) && Sep(t) && e.id !in Nodes(t)
    requires if t.e.key <= e.key then
        && Lays(m1, Grown(t.right, e), t.e.id) && Within(m, m1, Nodes(t.right) + {e.id})
        && m' == m1[t.e.id := m1[t.e.id].(right := Root(Grown(t.right, e)))]
      else
        && Lays(m1, Grown(t.left, e), t.e.id) && Within(m, m1, Nodes(t.left) + {e.id})
        && m' == m1[t.e.id := m1[t.e.id].(left := Root(Grown(t.left, e)))]
    ensures Lays(m', Grown(t, e), par) && Within(m, m', Nodes(t) + {e.id})
  {
    var grown, same := if t.e.key <= e.key then t.right else t.left, if t.e.key <= e.key then t.left else t.right;
    GrownNodes(grown, e);
    FrameTree(m, m', same, t.e.id);
    FrameTree(m1, m', Grown(grown, e), t.e.id);
  }

  /** The leftmost process t.e of a tree has been cut out: its parent, or the root pointer, points at
      its right child instead, which is now coloured c. */
  ghost predicate Unhooked(m: Table, root: Ptr, m': Table, root': Ptr, t: Tree, k: Path, c: Color)
    requires t.Node? && t.e.id < |m| && (t.right.Node? ==> t.right.e.id < |m|) && (k.Step? ==> k.e.id < |m|)
  {
    && |m'| == |m|
    && (t.right.Node? ==> m'[t.right.e.id] == m[t.right.e.id].(pParent := Parent(k), color := c))
    && (k.Step? ==> root' == root && m'[k.e.id] == m[k.e.id].(left := Root(t.right)))
    && (k.Top? ==> root' == Root(t.right))
    && forall i: nat :: i < |m| && i != Root(t.right) && i != Parent(k) ==> m'[i] == m[i]
  }

  lemma InTable(m: Table, root: Ptr, t: Tree, k: Path)
    requires At(m, root, t, k)
    ensures t.Node? ==> t.e.id < |m|
    ensures t.Node? && t.left.Node? ==> t.left.e.id < |m|
    ensures t.Node? && t.right.Node? ==> t.right.e.id < |m|
    ensures k.Step? ==> k.e.id < |m|
  {
    assert t.Node? ==> Lays(m, t.left, t.e.id) && Lays(m, t.right, t.e.id);
  }

  lemma UnhookedAt(m: Table, root: Ptr, m': Table, root': Ptr, t: Tree, k: Path, c: Color)
    requires At(m, root, t, k) && AllLeft(k)
    requires t.Node? && t.left.Leaf? && t.e.id < |m|
    requires t.right.Node? ==> t.right.e.id < |m|
    requires k.Step? ==> k.e.id < |m|
    requires Unhooked(m, root, m', root', t, k, c)
    ensures At(m', root', if t.right.Node? then t.right.(color := c) else Leaf, k)
    ensures Within(m, m', Span(t, k))
  {
    Relink(m, m', t.right, t.e.id, Parent(k), c);
    Regraft(m, m', k, t.e.id, Root(t.right), root, root');
  }

  /** A record outside the tree may change at will. */
  lemma OutsideAt(m: Table, root: Ptr, m': Table, t: Tree, k: Path, p: nat)
    requires At(m, root, t, k) && |m'| == |m| && p !in Span(t, k)
    requires forall i: nat :: i < |m| && i != p ==> m'[i] == m[i]
    ensures At(m', root, t, k)
  {
    FrameTree(m, m', t, Parent(k));
    FramePath(m, m', k, Root(t), root);
  }

  /** If the leftmost process has no children, the second one is its parent and has it on its left. */
  lemma {:induction false} SecondHasLeft(m: Table, t: Tree, par: Ptr)
    requires Lays(m, t, par) && SpineLeaf(t) && |InOrder(t)| >= 2
    ensures InOrder(t)[1].id < |m| && m[InOrder(t)[1].id].left != NULL
  {
    var l := InOrder(t.left);
    assert InOrder(t) == l + [t.e] + InOrder(t.right);
    if t.left.Node? {
      assert l == InOrder(t.left.left) + [t.left.e] + InOrder(t.left.right);
      MinIsFirst(t.left.left);
      if t.left.left.Leaf? {
        assert InOrder(t)[1] == t.e;
      } else {
        SecondHasLeft(m, t.left, t.e.id);
        assert InOrder(t)[1] == l[1];
      }
    }
  }

  // ----- what the tree operations leave alone -----

  /** The cached weights are those of the entries. */
  ghost predicate Weighted(m: Table, s: seq<Entry>) {
    forall i :: 0 <= i < |s| ==> s[i].id < |m| && m[s[i].id].weightVal == s[i].weight
  }

  /** A process outside the tree has no children. */
  ghost predicate Detached(m: Table, inside: set<nat>) {
    forall p: nat :: p < |m| && p !in inside ==> m[p].left == NULL && m[p].right == NULL
  }

  /** From m to m' only links, colours and the cached weight of p changed, and links only inside s. */
  ghost predicate OnlyTree(m: Table, m': Table, s: set<nat>, p: nat) {
    && |m'| == |m|
    && forall i: nat :: i < |m| ==>
        && m'[i] == m[i].(left := m'[i].left, right := m'[i].right, pParent := m'[i].pParent,
                          color := m'[i].color, weightVal := m'[i].weightVal)
        && (i != p ==> m'[i].weightVal == m[i].weightVal)
        && (i !in s ==> m'[i] == m[i])
  }

  lemma OnlyTreeSteps(m: Table, m1: Table, m2: Table, m3: Table, s: set<nat>, p: nat, w: int)
    requires Within(m, m1, s) && p < |m| && p in s && m2 == m1[p := m1[p].(weightVal := w)] && Within(m2, m3, s)
    ensures OnlyTree(m, m3, s, p) && m3[p].weightVal == w
  {
  }

  lemma InsertedNodes(t: Tree, s: Tree, e: Entry)
    requires InOrder(s) == StableInsert(InOrder(t), e)
    ensures Nodes(s) == Nodes(t) + {e.id}
    ensures e.id !in Nodes(t) <==> !Queued(InOrder(t), e.id)
  {
    InsertMembers(InOrder(t), e);
    forall p: nat ensures p in Nodes(s) <==> p in Nodes(t) || p == e.id {
      NodesAreOrdered(t, p);
      NodesAreOrdered(s, p);
      QueuedMember(InOrder(t), p);
      QueuedMember(InOrder(s), p);
    }
    NodesAreOrdered(t, e.id);
  }

  lemma QueuedMember(q: seq<Entry>, p: nat)
    ensures (exists x :: x in q && x.id == p) <==> exists i :: 0 <= i < |q| && q[i].id == p
  {
    if x :| x in q && x.id == p {
      var i :| 0 <= i < |q| && q[i] == x;
      assert q[i].id == p;
    }
    if i :| 0 <= i < |q| && q[i].id == p {
      assert q[i] in q;
    }
  }

  lemma InsertedKeeps(m: Table, m': Table, s: seq<Entry>, inside: set<nat>, e: Entry)
    requires Weighted(m, s) && Detached(m, inside) && !Queued(s, e.id) && e.id < |m|
    requires OnlyTree(m, m', inside + {e.id}, e.id) && m'[e.id].weightVal == e.weight
    ensures Weighted(m', StableInsert(s, e)) && Detached(m', inside + {e.id})
  {
    InsertMembers(s, e);
    var r := StableInsert(s, e);
    forall i | 0 <= i < |r| ensures r[i].id < |m| && m'[r[i].id].weightVal == r[i].weight {
      if r[i] != e {
        assert r[i] in s;
        var j :| 0 <= j < |s| && s[j] == r[i];
      }
    }
  }

  /** From m to m' only links and colours inside s changed, and the time slice of p. */
  ghost predicate OnlyPicked(m: Table, m': Table, s: set<nat>, p: nat, slice: int) {
    && |m'| == |m|
    && forall i: nat :: i < |m| ==>
        && m'[i] == m[i].(left := m'[i].left, right := m'[i].right, pParent := m'[i].pParent, color := m'[i].color,
                          maxExecutionTime := if i == p then slice else m[i].maxExecutionTime)
        && (i !in s ==> m'[i] == m[i])
  }

  lemma PickedSteps(m: Table, m1: Table, m2: Table, s: set<nat>, p: nat, slice: int)
    requires Within(m, m1, s) && p < |m| && p in s && m2 == m1[p := m1[p].(maxExecutionTime := slice)]
    ensures OnlyPicked(m, m2, s, p, slice)
  {
  }

  lemma RemovedKeeps(m: Table, m': Table, s: seq<Entry>, inside: set<nat>, slice: int)
    requires s != [] && Weighted(m, s) && Detached(m, inside)
    requires OnlyPicked(m, m', inside, s[0].id, slice)
    requires m'[s[0].id].left == NULL && m'[s[0].id].right == NULL
    ensures Weighted(m', s[1..]) && Detached(m', inside - {s[0].id})
  {
  }

  /** The head of s has been unlinked and given its slice. */
  lemma PickedKeeps(m: Table, m1: Table, m2: Table, s: seq<Entry>, inside: set<nat>, slice: int)
    requires s != [] && s[0].id < |m| && s[0].id in inside && Weighted(m, s) && Detached(m, inside)
    requires Within(m, m1, inside) && m2 == m1[s[0].id := m1[s[0].id].(maxExecutionTime := slice)]
    requires m1[s[0].id].left == NULL && m1[s[0].id].right == NULL
    ensures OnlyPicked(m, m2, inside, s[0].id, slice)
    ensures Weighted(m2, s[1..]) && Detached(m2, inside - {s[0].id})
  {
    PickedSteps(m, m1, m2, inside, s[0].id, slice);
    RemovedKeeps(m, m2, s, inside, slice);
  }

  lemma RemovedNodes(t: Tree, s: Tree)
    requires InOrder(t) != [] && InOrder(s) == InOrder(t)[1..] && Distinct(InOrder(t))
    ensures Nodes(s) == Nodes(t) - {InOrder(t)[0].id}
  {
    forall p: nat ensures p in Nodes(s) <==> p in Nodes(t) && p != InOrder(t)[0].id {
      NodesAreOrdered(t, p);
      NodesAreOrdered(s, p);
      if p in Nodes(t) && p != InOrder(t)[0].id {
        var i :| 0 <= i < |InOrder(t)| && InOrder(t)[i].id == p;
        assert InOrder(s)[i - 1].id == p;
      }
      if p in Nodes(s) {
        var i :| 0 <= i < |InOrder(s)| && InOrder(s)[i].id == p;
        assert InOrder(t)[i + 1].id == p;
      }
    }
  }
}
