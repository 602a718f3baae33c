// The treap (src/thread_lib/include/heaplayers/experimental/treap.h): a search
// tree by key that is a min-heap by priority, made of nodes with parent links.
// The nodes in memory represent a tree; a rotation, an insertion or a removal
// at a node is described by the context around it.
module Treaps {
  const NIL := 0

  datatype Node = Node(priority: nat, key: int, value: int, parent: int, left: int, right: int)

  type Nodes = map<int, Node>

  // A tree of node addresses, and a tree with a hole.
  datatype Tree = Leaf | Bin(left: Tree, at: int, right: Tree)

  datatype Ctx = Top | InLeft(at: int, right: Tree, up: Ctx) | InRight(left: Tree, at: int, up: Ctx)

  function Plug(c: Ctx, t: Tree): Tree {
    match c
    case Top => t
    case InLeft(a, r, up) => Plug(up, Bin(t, a, r))
    case InRight(l, a, up) => Plug(up, Bin(l, a, t))
  }

  function Order(t: Tree): seq<int> {
    match t
    case Leaf => []
    case Bin(l, a, r) => Order(l) + [a] + Order(r)
  }

  // What comes before and after the hole.
  function Before(c: Ctx): seq<int> {
    match c
    case Top => []
    case InLeft(_, _, up) => Before(up)
    case InRight(l, a, up) => Before(up) + Order(l) + [a]
  }

  function After(c: Ctx): seq<int> {
    match c
    case Top => []
    case InLeft(a, r, up) => [a] + Order(r) + After(up)
    case InRight(_, _, up) => After(up)
  }

  lemma Regroup(p: seq<int>, q: seq<int>, a: int, r: seq<int>, s: seq<int>)
    ensures p + (q + [a] + r) + s == p + q + ([a] + r + s)
    ensures p + (q + [a] + r) + s == p + q + [a] + r + s
    ensures p + (q + [a] + r) + s == (p + q) + [a] + (r + s)
  {
  }

  lemma {:induction false} PlugOrder(c: Ctx, t: Tree)
    ensures Order(Plug(c, t)) == Before(c) + Order(t) + After(c)
    decreases c
  {
    match c
    case Top =>
    case InLeft(a, r, up) =>
      PlugOrder(up, Bin(t, a, r));
      Regroup(Before(up), Order(t), a, Order(r), After(up));
    case InRight(l, a, up) =>
      PlugOrder(up, Bin(l, a, t));
      Regroup(Before(up), Order(l), a, Order(t), After(up));
  }

  // ---- addresses ----

  function Addrs(t: Tree): set<int> {
    match t
    case Leaf => {}
    case Bin(l, a, r) => Addrs(l) + {a} + Addrs(r)
  }

  function CtxAddrs(c: Ctx): set<int> {
    match c
    case Top => {}
    case InLeft(a, r, up) => {a} + Addrs(r) + CtxAddrs(up)
    case InRight(l, a, up) => Addrs(l) + {a} + CtxAddrs(up)
  }

  // No address occurs twice.
  predicate Distinct(t: Tree) {
    match t
    case Leaf => true
    case Bin(l, a, r) => Distinct(l) && Distinct(r) && a !in Addrs(l) && a !in Addrs(r) && Addrs(l) !! Addrs(r)
  }

  predicate CtxDistinct(c: Ctx) {
    match c
    case Top => true
    case InLeft(a, r, up) =>
      Distinct(r) && CtxDistinct(up) && a !in Addrs(r) && a !in CtxAddrs(up) && Addrs(r) !! CtxAddrs(up)
    case InRight(l, a, up) =>
      Distinct(l) && CtxDistinct(up) && a !in Addrs(l) && a !in CtxAddrs(up) && Addrs(l) !! CtxAddrs(up)
  }

  predicate AllDistinct(c: Ctx, t: Tree) {
    Distinct(t) && CtxDistinct(c) && Addrs(t) !! CtxAddrs(c)
  }

  lemma {:induction false} PlugDistinct(c: Ctx, t: Tree)
    ensures Distinct(Plug(c, t)) <==> AllDistinct(c, t)
    ensures Addrs(Plug(c, t)) == CtxAddrs(c) + Addrs(t)
    decreases c
  {
    match c
    case Top =>
    case InLeft(a, r, up) => PlugDistinct(up, Bin(t, a, r));
    case InRight(l, a, up) => PlugDistinct(up, Bin(l, a, t));
  }

  lemma {:induction false} OrderAddrs(t: Tree, a: int)
    ensures a in Order(t) <==> a in Addrs(t)
  {
    match t
    case Leaf =>
    case Bin(l, b, r) =>
      OrderAddrs(l, a);
      OrderAddrs(r, a);
  }

  // ---- the nodes represent a tree ----

  predicate Rep(ns: Nodes, p: int, parent: int, t: Tree)
    decreases t
  {
    match t
    case Leaf => p == NIL
    case Bin(l, a, r) =>
      p == a && a != NIL && a in ns && ns[a].parent == parent && Rep(ns, ns[a].left, a, l) && Rep(ns, ns[a].right, a, r)
  }

  // The node above the hole.
  function Above(c: Ctx): int {
    match c
    case Top => NIL
    case InLeft(a, _, _) => a
    case InRight(_, a, _) => a
  }

  // The nodes around a hole that p hangs in.
  predicate RepCtx(ns: Nodes, root: int, c: Ctx, p: int)
    decreases c
  {
    match c
    case Top => root == p
    case InLeft(a, r, up) =>
      a != NIL && a in ns && ns[a].parent == Above(up) && ns[a].left == p && Rep(ns, ns[a].right, a, r) &&
      RepCtx(ns, root, up, a)
    case InRight(l, a, up) =>
      a != NIL && a in ns && ns[a].parent == Above(up) && ns[a].right == p && Rep(ns, ns[a].left, a, l) &&
      RepCtx(ns, root, up, a)
  }

  // A representation with the focus at p.
  predicate Focus(ns: Nodes, root: int, c: Ctx, p: int, t: Tree) {
    RepCtx(ns, root, c, p) && Rep(ns, p, Above(c), t) && AllDistinct(c, t)
  }

  lemma {:induction false} PlugRep(ns: Nodes, root: int, c: Ctx, p: int, t: Tree)
    requires RepCtx(ns, root, c, p) && Rep(ns, p, Above(c), t)
    ensures Rep(ns, root, NIL, Plug(c, t))
    decreases c
  {
    match c
    case Top =>
    case InLeft(a, r, up) => PlugRep(ns, root, up, a, Bin(t, a, r));
    case InRight(l, a, up) => PlugRep(ns, root, up, a, Bin(l, a, t));
  }

  lemma {:induction false} SameRep(ns: Nodes, ms: Nodes, p: int, parent: int, t: Tree)
    requires Rep(ns, p, parent, t)
    requires forall a :: a in Addrs(t) && a in ns ==> a in ms && ms[a] == ns[a]
    ensures Rep(ms, p, parent, t)
    decreases t
  {
    match t
    case Leaf =>
    case Bin(l, a, r) =>
      SameRep(ns, ms, ns[a].left, a, l);
      SameRep(ns, ms, ns[a].right, a, r);
  }

  // A subtree hung under another parent.
  lemma Reparent(ns: Nodes, ms: Nodes, p: int, parent: int, parent1: int, t: Tree)
    requires Rep(ns, p, parent, t) && Distinct(t)
    requires forall a :: a in Addrs(t) && a in ns && a != p ==> a in ms && ms[a] == ns[a]
    requires p != NIL && p in ns ==> p in ms && ms[p] == ns[p].(parent := parent1)
    ensures Rep(ms, p, parent1, t)
  {
    match t
    case Leaf =>
    case Bin(l, a, r) =>
      SameRep(ns, ms, ns[a].left, a, l);
      SameRep(ns, ms, ns[a].right, a, r);
  }

  lemma {:induction false} SameCtx(ns: Nodes, ms: Nodes, root: int, c: Ctx, p: int)
    requires RepCtx(ns, root, c, p)
    requires forall a :: a in CtxAddrs(c) && a in ns ==> a in ms && ms[a] == ns[a]
    ensures RepCtx(ms, root, c, p)
    decreases c
  {
    match c
    case Top =>
    case InLeft(a, r, up) =>
      SameRep(ns, ms, ns[a].right, a, r);
      SameCtx(ns, ms, root, up, a);
    case InRight(l, a, up) =>
      SameRep(ns, ms, ns[a].left, a, l);
      SameCtx(ns, ms, root, up, a);
  }

  // ms is ns with q hung in the hole: the root, or a child link of the node
  // above.
  predicate Hangs(ns: Nodes, root: int, c: Ctx, q: int, ms: Nodes, root1: int) {
    (forall a :: a in CtxAddrs(c) && a in ns && a != Above(c) ==> a in ms && ms[a] == ns[a]) &&
    match c
    case Top => root1 == q
    case InLeft(a, _, _) => a in ns && a in ms && ms[a] == ns[a].(left := q) && root1 == root
    case InRight(_, a, _) => a in ns && a in ms && ms[a] == ns[a].(right := q) && root1 == root
  }

  lemma HangCtx(ns: Nodes, root: int, c: Ctx, p: int, q: int, ms: Nodes, root1: int)
    requires RepCtx(ns, root, c, p) && CtxDistinct(c) && Hangs(ns, root, c, q, ms, root1)
    ensures RepCtx(ms, root1, c, q)
  {
    match c
    case Top =>
    case InLeft(a, r, up) =>
      SameRep(ns, ms, ns[a].right, a, r);
      SameCtx(ns, ms, root, up, a);
    case InRight(l, a, up) =>
      SameRep(ns, ms, ns[a].left, a, l);
      SameCtx(ns, ms, root, up, a);
  }

  lemma RepRoot(ns: Nodes, p: int, parent: int, t: Tree)
    requires Rep(ns, p, parent, t)
    ensures t == Leaf <==> p == NIL
    ensures p != NIL ==> p in Addrs(t) && p in ns && ns[p].parent == parent
  {
  }

  lemma RepBin(ns: Nodes, p: int, parent: int, l: Tree, a: int, r: Tree)
    requires Rep(ns, p, parent, Bin(l, a, r)) && Distinct(Bin(l, a, r))
    ensures p == a && a != NIL && a in ns && ns[a].parent == parent
    ensures Rep(ns, ns[a].left, a, l) && Rep(ns, ns[a].right, a, r) && Distinct(l) && Distinct(r)
    ensures l == Leaf <==> ns[a].left == NIL
    ensures r == Leaf <==> ns[a].right == NIL
    ensures ns[a].left != NIL ==> ns[a].left in Addrs(l) && ns[a].left in ns
    ensures ns[a].right != NIL ==> ns[a].right in Addrs(r) && ns[a].right in ns
  {
  }

  // ---- keys and priorities ----

  // Keys, priorities and values are as they were.
  predicate SameData(ns: Nodes, ms: Nodes) {
    forall a :: a in ns ==>
      a in ms && ms[a].key == ns[a].key && ms[a].priority == ns[a].priority && ms[a].value == ns[a].value
  }

  predicate Sorted(ns: Nodes, s: seq<int>) {
    && (forall a :: a in s ==> a in ns)
    && (forall i, j :: 0 <= i <= j < |s| ==> ns[s[i]].key <= ns[s[j]].key)
  }

  // Every priority is at least `bound`, and at least that of the node above.
  predicate HeapFrom(ns: Nodes, t: Tree, bound: nat) {
    match t
    case Leaf => true
    case Bin(l, a, r) =>
      a in ns && ns[a].priority >= bound && HeapFrom(ns, l, ns[a].priority) && HeapFrom(ns, r, ns[a].priority)
  }

  // The priority of the node above the hole.
  function Bound(ns: Nodes, c: Ctx): nat {
    if c.Top? || Above(c) !in ns then 0 else ns[Above(c)].priority
  }

  predicate CtxHeap(ns: Nodes, c: Ctx) {
    match c
    case Top => true
    case InLeft(a, r, up) =>
      a in ns && ns[a].priority >= Bound(ns, up) && HeapFrom(ns, r, ns[a].priority) && CtxHeap(ns, up)
    case InRight(l, a, up) =>
      a in ns && ns[a].priority >= Bound(ns, up) && HeapFrom(ns, l, ns[a].priority) && CtxHeap(ns, up)
  }

  lemma {:induction false} PlugHeap(ns: Nodes, c: Ctx, t: Tree)
    ensures CtxHeap(ns, c) && HeapFrom(ns, t, Bound(ns, c)) ==> HeapFrom(ns, Plug(c, t), 0)
    decreases c
  {
    match c
    case Top =>
    case InLeft(a, r, up) => PlugHeap(ns, up, Bin(t, a, r));
    case InRight(l, a, up) => PlugHeap(ns, up, Bin(l, a, t));
  }

  lemma {:induction false} UnplugHeap(ns: Nodes, c: Ctx, t: Tree)
    requires HeapFrom(ns, Plug(c, t), 0)
    ensures CtxHeap(ns, c) && HeapFrom(ns, t, Bound(ns, c))
    decreases c
  {
    match c
    case Top =>
    case InLeft(a, r, up) => UnplugHeap(ns, up, Bin(t, a, r));
    case InRight(l, a, up) => UnplugHeap(ns, up, Bin(l, a, t));
  }

  lemma HeapWeaker(ns: Nodes, t: Tree, bound: nat, lower: nat)
    requires HeapFrom(ns, t, bound) && lower <= bound
    ensures HeapFrom(ns, t, lower)
  {
  }

  lemma {:induction false} SameHeap(ns: Nodes, ms: Nodes, t: Tree, bound: nat)
    requires HeapFrom(ns, t, bound)
    requires forall a :: a in Addrs(t) && a in ns ==> a in ms && ms[a].priority == ns[a].priority
    ensures HeapFrom(ms, t, bound)
    decreases t
  {
    match t
    case Leaf =>
    case Bin(l, a, r) =>
      SameHeap(ns, ms, l, ns[a].priority);
      SameHeap(ns, ms, r, ns[a].priority);
  }

  lemma {:induction false} SameCtxHeap(ns: Nodes, ms: Nodes, c: Ctx)
    requires CtxHeap(ns, c)
    requires forall a :: a in CtxAddrs(c) && a in ns ==> a in ms && ms[a].priority == ns[a].priority
    ensures CtxHeap(ms, c) && Bound(ms, c) == Bound(ns, c)
    decreases c
  {
    match c
    case Top =>
    case InLeft(a, r, up) =>
      SameHeap(ns, ms, r, ns[a].priority);
      SameCtxHeap(ns, ms, up);
    case InRight(l, a, up) =>
      SameHeap(ns, ms, l, ns[a].priority);
      SameCtxHeap(ns, ms, up);
  }

  // bstProperty: every key within the bounds its place sets.
  predicate BstFrom(ns: Nodes, t: Tree, lo: int, hi: int) {
    match t
    case Leaf => true
    case Bin(l, a, r) =>
      a in ns && lo <= ns[a].key <= hi && BstFrom(ns, l, lo, ns[a].key) && BstFrom(ns, r, ns[a].key, hi)
  }

  predicate Within(ns: Nodes, s: seq<int>, lo: int, hi: int) {
    forall a :: a in s ==> a in ns && lo <= ns[a].key <= hi
  }

  // The check by bounds accepts exactly the trees whose order is sorted.
  lemma {:induction false} BstIffSorted(ns: Nodes, t: Tree, lo: int, hi: int)
    ensures BstFrom(ns, t, lo, hi) <==> Sorted(ns, Order(t)) && Within(ns, Order(t), lo, hi)
    decreases t
  {
    match t
    case Leaf =>
    case Bin(l, a, r) =>
      if a in ns {
        BstIffSorted(ns, l, lo, ns[a].key);
        BstIffSorted(ns, r, ns[a].key, hi);
        if BstFrom(ns, t, lo, hi) {
          SortedJoined(ns, Order(l), a, Order(r), lo, hi);
        }
        if Sorted(ns, Order(t)) && Within(ns, Order(t), lo, hi) {
          SortedParts(ns, Order(l), a, Order(r), lo, hi);
        }
      } else {
        assert a in Order(t);
      }
  }

  lemma SortedJoined(ns: Nodes, p: seq<int>, a: int, q: seq<int>, lo: int, hi: int)
    requires a in ns && lo <= ns[a].key <= hi
    requires Sorted(ns, p) && Within(ns, p, lo, ns[a].key) && Sorted(ns, q) && Within(ns, q, ns[a].key, hi)
    ensures Sorted(ns, p + [a] + q) && Within(ns, p + [a] + q, lo, hi)
  {
    var s := p + [a] + q;
    assert forall k :: k in s ==> k in p || k == a || k in q;
    forall i, j | 0 <= i <= j < |s|
      ensures s[i] in ns && s[j] in ns && ns[s[i]].key <= ns[s[j]].key
    {
      assert s[i] in s && s[j] in s;
      assert i < |p| ==> s[i] == p[i] && p[i] in p;
      assert j < |p| ==> s[j] == p[j] && p[j] in p;
      assert i > |p| ==> s[i] == q[i - |p| - 1] && s[i] in q;
      assert j > |p| ==> s[j] == q[j - |p| - 1] && s[j] in q;
    }
  }

  lemma SortedParts(ns: Nodes, p: seq<int>, a: int, q: seq<int>, lo: int, hi: int)
    requires Sorted(ns, p + [a] + q) && Within(ns, p + [a] + q, lo, hi)
    ensures a in ns && lo <= ns[a].key <= hi
    ensures Sorted(ns, p) && Within(ns, p, lo, ns[a].key) && Sorted(ns, q) && Within(ns, q, ns[a].key, hi)
  {
    var s := p + [a] + q;
    SortedAround(ns, p, a, q);
    assert s[|p|] == a && a in s;
    assert forall k :: k in p || k in q ==> k in s;
    forall i, j | 0 <= i <= j < |p|
      ensures p[i] in ns && p[j] in ns && ns[p[i]].key <= ns[p[j]].key
    {
      assert s[i] == p[i] && s[j] == p[j] && p[i] in p && p[j] in p;
    }
    forall i, j | 0 <= i <= j < |q|
      ensures q[i] in ns && q[j] in ns && ns[q[i]].key <= ns[q[j]].key
    {
      assert s[|p| + 1 + i] == q[i] && s[|p| + 1 + j] == q[j] && q[i] in q && q[j] in q;
    }
  }

  // ---- rotations ----

  // What rotating x to the right leaves in the nodes of the subtree at x.
  predicate RotatedRight(ns: Nodes, ms: Nodes, parent: int, x: int, y: int) {
    && x in ns && y in ns && x in ms && y in ms
    && ms[x] == ns[x].(left := ns[y].right, parent := y)
    && ms[y] == ns[y].(right := x, parent := parent)
    && (ns[y].right != NIL ==>
          ns[y].right in ns && ns[y].right in ms && ms[ns[y].right] == ns[ns[y].right].(parent := x))
  }

  lemma RotateRightRep(ns: Nodes, ms: Nodes, parent: int, a: Tree, y: int, b: Tree, x: int, r: Tree)
    requires Rep(ns, x, parent, Bin(Bin(a, y, b), x, r)) && Distinct(Bin(Bin(a, y, b), x, r))
    requires RotatedRight(ns, ms, parent, x, y)
    requires forall k :: (k in Addrs(a) || k in Addrs(r)) && k in ns ==> k in ms && ms[k] == ns[k]
    requires forall k :: k in Addrs(b) && k in ns && k != ns[y].right ==> k in ms && ms[k] == ns[k]
    ensures Rep(ms, y, parent, Bin(a, y, Bin(b, x, r))) && Distinct(Bin(a, y, Bin(b, x, r)))
    ensures Addrs(Bin(a, y, Bin(b, x, r))) == Addrs(Bin(Bin(a, y, b), x, r))
  {
    assert Rep(ns, y, x, Bin(a, y, b)) && Distinct(Bin(a, y, b));
    RepRoot(ns, ns[y].right, y, b);
    SameRep(ns, ms, ns[y].left, y, a);
    Reparent(ns, ms, ns[y].right, y, x, b);
    SameRep(ns, ms, ns[x].right, x, r);
    assert Rep(ms, x, y, Bin(b, x, r)) && Distinct(Bin(b, x, r));
  }

  predicate RotatedLeft(ns: Nodes, ms: Nodes, parent: int, x: int, y: int) {
    && x in ns && y in ns && x in ms && y in ms
    && ms[x] == ns[x].(right := ns[y].left, parent := y)
    && ms[y] == ns[y].(left := x, parent := parent)
    && (ns[y].left != NIL ==>
          ns[y].left in ns && ns[y].left in ms && ms[ns[y].left] == ns[ns[y].left].(parent := x))
  }

  lemma RotateLeftRep(ns: Nodes, ms: Nodes, parent: int, l: Tree, x: int, b: Tree, y: int, r: Tree)
    requires Rep(ns, x, parent, Bin(l, x, Bin(b, y, r))) && Distinct(Bin(l, x, Bin(b, y, r)))
    requires RotatedLeft(ns, ms, parent, x, y)
    requires forall k :: (k in Addrs(l) || k in Addrs(r)) && k in ns ==> k in ms && ms[k] == ns[k]
    requires forall k :: k in Addrs(b) && k in ns && k != ns[y].left ==> k in ms && ms[k] == ns[k]
    ensures Rep(ms, y, parent, Bin(Bin(l, x, b), y, r)) && Distinct(Bin(Bin(l, x, b), y, r))
    ensures Addrs(Bin(Bin(l, x, b), y, r)) == Addrs(Bin(l, x, Bin(b, y, r)))
  {
    assert Rep(ns, y, x, Bin(b, y, r)) && Distinct(Bin(b, y, r));
    RepRoot(ns, ns[y].left, y, b);
    SameRep(ns, ms, ns[y].right, y, r);
    Reparent(ns, ms, ns[y].left, y, x, b);
    SameRep(ns, ms, ns[x].left, x, l);
    assert Rep(ms, x, y, Bin(l, x, b)) && Distinct(Bin(l, x, b));
  }

  // The node above x links to it on the side the context says.
  lemma LinkSide(ns: Nodes, root: int, c: Ctx, x: int, t: Tree)
    requires Focus(ns, root, c, x, t) && x != NIL
    ensures x in ns && ns[x].parent == Above(c) && (c.Top? <==> ns[x].parent == NIL)
    ensures !c.Top? ==> Above(c) in ns && (c.InLeft? <==> ns[Above(c)].left == x)
  {
  }

  // x can be turned under its child y, mid being the subtree that changes sides:
  // the four nodes concerned are apart.
  predicate Turnable(ns: Nodes, x: int, y: int, mid: int) {
    && x in ns && y in ns && y != x
    && (mid != NIL ==> mid in ns && mid != x && mid != y && mid != ns[x].parent)
    && (ns[x].parent != NIL ==> ns[x].parent in ns && ns[x].parent != x && ns[x].parent != y)
  }

  // The node above x, or the root, now leads to y, and the nodes not concerned
  // are as they were.
  predicate TurnedAround(ns: Nodes, root: int, ms: Nodes, root1: int, x: int, y: int, mid: int)
    requires x in ns
  {
    var p := ns[x].parent;
    && (p == NIL ==> root1 == y)
    && (p != NIL ==> root1 == root && p in ns && p in ms)
    && (p != NIL ==> ms[p] == if ns[p].left == x then ns[p].(left := y) else ns[p].(right := y))
    && (forall k :: k in ns && k != x && k != y && (k != mid || k == NIL) && (k != p || k == NIL) ==>
          k in ms && ms[k] == ns[k])
  }

  lemma TurnedHangs(ns: Nodes, root: int, c: Ctx, t: Tree, ms: Nodes, root1: int, x: int, y: int, mid: int)
    requires Focus(ns, root, c, x, t) && x != NIL && y in Addrs(t) && (mid != NIL ==> mid in Addrs(t))
    requires x in ns && TurnedAround(ns, root, ms, root1, x, y, mid)
    ensures Hangs(ns, root, c, y, ms, root1)
  {
  }

  lemma {:induction false} RepNotNil(ns: Nodes, p: int, parent: int, t: Tree)
    requires Rep(ns, p, parent, t)
    ensures NIL !in Addrs(t)
    decreases t
  {
    match t
    case Leaf =>
    case Bin(l, a, r) =>
      RepNotNil(ns, ns[a].left, a, l);
      RepNotNil(ns, ns[a].right, a, r);
  }

  // A subtree that holds none of the nodes concerned is as it was.
  lemma TurnedApart(ns: Nodes, root: int, c: Ctx, t: Tree, ms: Nodes, root1: int, x: int, y: int, mid: int, k: int)
    requires Focus(ns, root, c, x, t) && x != NIL && x in ns && TurnedAround(ns, root, ms, root1, x, y, mid)
    requires k in Addrs(t) && k in ns && k != x && k != y && k != mid
    ensures k in ms && ms[k] == ns[k]
  {
  }

  lemma RotateRightFocus(ns: Nodes, ms: Nodes, root: int, root1: int, c: Ctx, a: Tree, y: int, b: Tree, x: int, r: Tree)
    requires Focus(ns, root, c, x, Bin(Bin(a, y, b), x, r)) && x in ns && y in ns
    requires RotatedRight(ns, ms, Above(c), x, y) && TurnedAround(ns, root, ms, root1, x, y, ns[y].right)
    ensures Focus(ms, root1, c, y, Bin(a, y, Bin(b, x, r)))
  {
    var t := Bin(Bin(a, y, b), x, r);
    RepBin(ns, x, Above(c), Bin(a, y, b), x, r);
    RepBin(ns, y, x, a, y, b);
    TurnedHangs(ns, root, c, t, ms, root1, x, y, ns[y].right);
    forall k | k in Addrs(a) + Addrs(b) + Addrs(r) && k in ns && k != ns[y].right
      ensures k in ms && ms[k] == ns[k]
    {
      TurnedApart(ns, root, c, t, ms, root1, x, y, ns[y].right, k);
    }
    RepNotNil(ns, x, Above(c), t);
    RotateRightRep(ns, ms, Above(c), a, y, b, x, r);
    HangCtx(ns, root, c, x, y, ms, root1);
  }

  lemma RotateLeftFocus(ns: Nodes, ms: Nodes, root: int, root1: int, c: Ctx, l: Tree, x: int, b: Tree, y: int, r: Tree)
    requires Focus(ns, root, c, x, Bin(l, x, Bin(b, y, r))) && x in ns && y in ns
    requires RotatedLeft(ns, ms, Above(c), x, y) && TurnedAround(ns, root, ms, root1, x, y, ns[y].left)
    ensures Focus(ms, root1, c, y, Bin(Bin(l, x, b), y, r))
  {
    var t := Bin(l, x, Bin(b, y, r));
    RepBin(ns, x, Above(c), l, x, Bin(b, y, r));
    RepBin(ns, y, x, b, y, r);
    TurnedHangs(ns, root, c, t, ms, root1, x, y, ns[y].left);
    forall k | k in Addrs(l) + Addrs(b) + Addrs(r) && k in ns && k != ns[y].left
      ensures k in ms && ms[k] == ns[k]
    {
      TurnedApart(ns, root, c, t, ms, root1, x, y, ns[y].left, k);
    }
    RepNotNil(ns, x, Above(c), t);
    RotateLeftRep(ns, ms, Above(c), l, x, b, y, r);
    HangCtx(ns, root, c, x, y, ms, root1);
  }

  // A turn changes no key, priority or value.
  lemma TurnedData(ns: Nodes, root: int, ms: Nodes, root1: int, x: int, y: int, mid: int)
    requires Turnable(ns, x, y, mid) && TurnedAround(ns, root, ms, root1, x, y, mid)
    requires (RotatedRight(ns, ms, ns[x].parent, x, y) && mid == ns[y].right) ||
             (RotatedLeft(ns, ms, ns[x].parent, x, y) && mid == ns[y].left)
    ensures SameData(ns, ms)
  {
  }

  // ---- finding a place ----

  lemma {:induction false} UnplugRep(ns: Nodes, root: int, c: Ctx, t: Tree) returns (p: int)
    requires Rep(ns, root, NIL, Plug(c, t))
    ensures RepCtx(ns, root, c, p) && Rep(ns, p, Above(c), t)
    decreases c
  {
    match c
    case Top => p := root;
    case InLeft(a, r, up) =>
      var q := UnplugRep(ns, root, up, Bin(t, a, r));
      p := ns[a].left;
    case InRight(l, a, up) =>
      var q := UnplugRep(ns, root, up, Bin(l, a, t));
      p := ns[a].right;
  }

  // The context of a node in a tree that hangs in c.
  lemma {:induction false} Zip(c: Ctx, t: Tree, x: int) returns (d: Ctx, l: Tree, r: Tree)
    requires x in Addrs(t)
    ensures Plug(d, Bin(l, x, r)) == Plug(c, t)
    decreases t
  {
    match t
    case Bin(l0, a, r0) =>
      if x == a {
        d, l, r := c, l0, r0;
      } else if x in Addrs(l0) {
        d, l, r := Zip(InLeft(a, r0, c), l0, x);
      } else {
        d, l, r := Zip(InRight(l0, a, c), r0, x);
      }
  }

  // Keys up to and from a node of a sorted order.
  lemma SortedAround(ns: Nodes, before: seq<int>, a: int, after: seq<int>)
    requires Sorted(ns, before + [a] + after)
    ensures a in ns
    ensures forall k :: k in before ==> k in ns && ns[k].key <= ns[a].key
    ensures forall k :: k in after ==> k in ns && ns[a].key <= ns[k].key
  {
    var s := before + [a] + after;
    assert s[|before|] == a;
    forall k | k in before
      ensures k in ns && ns[k].key <= ns[a].key
    {
      var i :| 0 <= i < |before| && before[i] == k;
      assert s[i] == k;
    }
    forall k | k in after
      ensures k in ns && ns[a].key <= ns[k].key
    {
      var i :| 0 <= i < |after| && after[i] == k;
      assert s[|before| + 1 + i] == k;
    }
  }

  // In a sorted tree: keys left of the hole's node are no larger, and so on.
  lemma SortedFocus(ns: Nodes, c: Ctx, l: Tree, a: int, r: Tree)
    requires Sorted(ns, Order(Plug(c, Bin(l, a, r))))
    ensures a in ns
    ensures forall k :: k in Before(c) + Order(l) ==> k in ns && ns[k].key <= ns[a].key
    ensures forall k :: k in Order(r) + After(c) ==> k in ns && ns[a].key <= ns[k].key
  {
    PlugOrder(c, Bin(l, a, r));
    Regroup(Before(c), Order(l), a, Order(r), After(c));
    SortedAround(ns, Before(c) + Order(l), a, Order(r) + After(c));
  }

  // n goes where the keys before are at most its own and those after are larger.
  predicate Between(ns: Nodes, before: seq<int>, key: int, after: seq<int>) {
    && (forall a :: a in before ==> a in ns && ns[a].key <= key)
    && (forall a :: a in after ==> a in ns && key < ns[a].key)
  }

  lemma GoLeft(ns: Nodes, root: int, c: Ctx, l: Tree, a: int, r: Tree, key: int)
    requires Focus(ns, root, c, a, Bin(l, a, r)) && Sorted(ns, Order(Plug(c, Bin(l, a, r))))
    requires Between(ns, Before(c), key, After(c)) && a in ns && key < ns[a].key
    ensures Focus(ns, root, InLeft(a, r, c), ns[a].left, l)
    ensures Between(ns, Before(InLeft(a, r, c)), key, After(InLeft(a, r, c)))
  {
    SortedFocus(ns, c, l, a, r);
  }

  lemma GoRight(ns: Nodes, root: int, c: Ctx, l: Tree, a: int, r: Tree, key: int)
    requires Focus(ns, root, c, a, Bin(l, a, r)) && Sorted(ns, Order(Plug(c, Bin(l, a, r))))
    requires Between(ns, Before(c), key, After(c)) && a in ns && ns[a].key <= key
    ensures Focus(ns, root, InRight(l, a, c), ns[a].right, r)
    ensures Between(ns, Before(InRight(l, a, c)), key, After(InRight(l, a, c)))
  {
    SortedFocus(ns, c, l, a, r);
  }

  // A node on its way up: all is in heap order except perhaps n below the node
  // above it.
  predicate Rising(ns: Nodes, c: Ctx, l: Tree, n: int, r: Tree) {
    && n in ns && CtxHeap(ns, c)
    && HeapFrom(ns, l, ns[n].priority) && HeapFrom(ns, r, ns[n].priority)
    && HeapFrom(ns, l, Bound(ns, c)) && HeapFrom(ns, r, Bound(ns, c))
  }

  lemma RisingSame(ns: Nodes, ms: Nodes, c: Ctx, l: Tree, n: int, r: Tree)
    requires Rising(ns, c, l, n, r) && SameData(ns, ms)
    ensures Rising(ms, c, l, n, r)
  {
    SameCtxHeap(ns, ms, c);
    SameHeap(ns, ms, l, ns[n].priority);
    SameHeap(ns, ms, r, ns[n].priority);
    SameHeap(ns, ms, l, Bound(ns, c));
    SameHeap(ns, ms, r, Bound(ns, c));
  }

  lemma RisingLeft(ns: Nodes, ms: Nodes, p: int, q: Tree, up: Ctx, l: Tree, n: int, r: Tree)
    requires Rising(ns, InLeft(p, q, up), l, n, r) && SameData(ns, ms) && ns[p].priority > ns[n].priority
    ensures Rising(ms, up, l, n, Bin(r, p, q))
    ensures Order(Bin(r, p, q)) + After(up) == Order(r) + After(InLeft(p, q, up))
  {
    RisingSame(ns, ms, InLeft(p, q, up), l, n, r);
    HeapWeaker(ms, l, ms[p].priority, Bound(ms, up));
    assert (Order(r) + [p] + Order(q)) + After(up) == Order(r) + ([p] + Order(q) + After(up));
  }

  lemma RisingRight(ns: Nodes, ms: Nodes, q: Tree, p: int, up: Ctx, l: Tree, n: int, r: Tree)
    requires Rising(ns, InRight(q, p, up), l, n, r) && SameData(ns, ms) && ns[p].priority > ns[n].priority
    ensures Rising(ms, up, Bin(q, p, l), n, r)
    ensures Before(up) + Order(Bin(q, p, l)) == Before(InRight(q, p, up)) + Order(l)
  {
    RisingSame(ns, ms, InRight(q, p, up), l, n, r);
    HeapWeaker(ms, r, ms[p].priority, Bound(ms, up));
    assert Before(up) + (Order(q) + [p] + Order(l)) == Before(up) + Order(q) + [p] + Order(l);
  }

  lemma Settled(ns: Nodes, root: int, c: Ctx, l: Tree, n: int, r: Tree)
    requires Focus(ns, root, c, n, Bin(l, n, r)) && Rising(ns, c, l, n, r) && ns[n].priority >= Bound(ns, c)
    ensures
      var t := Plug(c, Bin(l, n, r));
      && Rep(ns, root, NIL, t) && Distinct(t) && HeapFrom(ns, t, 0)
      && Order(t) == (Before(c) + Order(l)) + [n] + (Order(r) + After(c))
  {
    PlugRep(ns, root, c, n, Bin(l, n, r));
    PlugDistinct(c, Bin(l, n, r));
    PlugOrder(c, Bin(l, n, r));
    PlugHeap(ns, c, Bin(l, n, r));
    Regroup(Before(c), Order(l), n, Order(r), After(c));
  }

  // The order with n put in at i.
  predicate PutIn(s: seq<int>, n: int, i: nat, s1: seq<int>) {
    i <= |s| && s1 == s[..i] + [n] + s[i..]
  }

  lemma PutInSorted(ns: Nodes, ms: Nodes, before: seq<int>, n: int, after: seq<int>)
    requires Sorted(ns, before + after) && n in ms && Between(ms, before, ms[n].key, after)
    requires forall a :: a in ns && a != n ==> a in ms && ms[a].key == ns[a].key
    requires n !in before && n !in after
    ensures Sorted(ms, before + [n] + after)
  {
    var s, s1 := before + after, before + [n] + after;
    forall i, j | 0 <= i <= j < |s1|
      ensures s1[i] in ms && s1[j] in ms && ms[s1[i]].key <= ms[s1[j]].key
    {
      var i0 := if i < |before| then i else i - 1;
      var j0 := if j < |before| then j else j - 1;
      assert i != |before| ==> s1[i] == s[i0] && s1[i] in s;
      assert j != |before| ==> s1[j] == s[j0] && s1[j] in s;
      assert i < |before| ==> s1[i] in before;
      assert j > |before| ==> s1[j] in after;
    }
  }

  lemma TakeOutSorted(ns: Nodes, ms: Nodes, before: seq<int>, n: int, after: seq<int>)
    requires Sorted(ns, before + [n] + after)
    requires forall a :: a in ns ==> a in ms && ms[a].key == ns[a].key
    ensures Sorted(ms, before + after)
  {
    var s, s1 := before + [n] + after, before + after;
    forall i, j | 0 <= i <= j < |s1|
      ensures s1[i] in ms && s1[j] in ms && ms[s1[i]].key <= ms[s1[j]].key
    {
      var i0 := if i < |before| then i else i + 1;
      var j0 := if j < |before| then j else j + 1;
      assert s1[i] == s[i0] && s1[j] == s[j0] && s[i0] in s && s[j0] in s;
    }
  }

  lemma PlaceFacts(ns: Nodes, t: Tree, c: Ctx, n: int)
    requires Plug(c, Leaf) == t && n !in Addrs(t) && HeapFrom(ns, t, 0)
    ensures Order(t) == Before(c) + After(c) && n !in CtxAddrs(c) && CtxHeap(ns, c)
    ensures n !in Before(c) && n !in After(c)
  {
    PlugOrder(c, Leaf);
    PlugDistinct(c, Leaf);
    UnplugHeap(ns, c, Leaf);
    OrderAddrs(t, n);
    assert Before(c) + Order(Leaf) == Before(c);
    assert n in Before(c) || n in After(c) ==> n in Before(c) + After(c);
  }

  lemma Inserted(ns: Nodes, ms: Nodes, before: seq<int>, n: int, after: seq<int>)
    requires Sorted(ns, before + after) && n in ms && n !in before && n !in after
    requires Between(ns, before, ms[n].key, after)
    requires forall a :: a in ns && a != n ==> a in ms && ms[a].key == ns[a].key
    ensures Sorted(ms, before + [n] + after)
    ensures PutIn(before + after, n, |before|, before + [n] + after)
    ensures Between(ms, (before + after)[..|before|], ms[n].key, (before + after)[|before|..])
  {
    assert (before + after)[..|before|] == before && (before + after)[|before|..] == after;
    PutInSorted(ns, ms, before, n, after);
  }

  // A node on its way down: all is in heap order except perhaps x above the two
  // below it.
  predicate Sinking(ns: Nodes, c: Ctx, l: Tree, r: Tree) {
    CtxHeap(ns, c) && HeapFrom(ns, l, Bound(ns, c)) && HeapFrom(ns, r, Bound(ns, c))
  }

  lemma SinkingSame(ns: Nodes, ms: Nodes, c: Ctx, l: Tree, r: Tree)
    requires Sinking(ns, c, l, r) && SameData(ns, ms)
    ensures Sinking(ms, c, l, r)
  {
    SameCtxHeap(ns, ms, c);
    SameHeap(ns, ms, l, Bound(ns, c));
    SameHeap(ns, ms, r, Bound(ns, c));
  }

  // The left child y comes up; the right one, if any, has no smaller priority.
  lemma SinkRight(ns: Nodes, ms: Nodes, c: Ctx, a: Tree, y: int, b: Tree, x: int, r: Tree)
    requires Sinking(ns, c, Bin(a, y, b), r) && SameData(ns, ms)
    requires r.Bin? ==> r.at in ns && y in ns && ns[y].priority <= ns[r.at].priority
    ensures Sinking(ms, InRight(a, y, c), b, r)
    ensures Before(InRight(a, y, c)) + Order(b) == Before(c) + Order(Bin(a, y, b))
  {
    SinkingSame(ns, ms, c, Bin(a, y, b), r);
    assert Before(c) + Order(a) + [y] + Order(b) == Before(c) + (Order(a) + [y] + Order(b));
  }

  // The right child y comes up.
  lemma SinkLeft(ns: Nodes, ms: Nodes, c: Ctx, l: Tree, x: int, a: Tree, y: int, b: Tree)
    requires Sinking(ns, c, l, Bin(a, y, b)) && SameData(ns, ms)
    requires l.Bin? ==> l.at in ns && y in ns && ns[y].priority <= ns[l.at].priority
    ensures Sinking(ms, InLeft(y, b, c), l, a)
    ensures Order(a) + After(InLeft(y, b, c)) == Order(Bin(a, y, b)) + After(c)
  {
    SinkingSame(ns, ms, c, l, Bin(a, y, b));
    assert Order(a) + ([y] + Order(b) + After(c)) == (Order(a) + [y] + Order(b)) + After(c);
  }

  function Size(t: Tree): nat {
    match t
    case Leaf => 0
    case Bin(l, _, r) => Size(l) + 1 + Size(r)
  }

  // The node x with its context, as remove finds it.
  lemma FindNode(ns: Nodes, root: int, t: Tree, x: int) returns (c: Ctx, l: Tree, r: Tree)
    requires Rep(ns, root, NIL, t) && Distinct(t) && HeapFrom(ns, t, 0) && x in Addrs(t)
    ensures Focus(ns, root, c, x, Bin(l, x, r)) && Plug(c, Bin(l, x, r)) == t
    ensures Sinking(ns, c, l, r)
    ensures Order(t) == (Before(c) + Order(l)) + [x] + (Order(r) + After(c))
    ensures x in ns
  {
    c, l, r := Zip(Top, t, x);
    var p := UnplugRep(ns, root, c, Bin(l, x, r));
    PlugDistinct(c, Bin(l, x, r));
    UnplugHeap(ns, c, Bin(l, x, r));
    PlugOrder(c, Bin(l, x, r));
    Regroup(Before(c), Order(l), x, Order(r), After(c));
    HeapWeaker(ns, l, ns[x].priority, Bound(ns, c));
    HeapWeaker(ns, r, ns[x].priority, Bound(ns, c));
  }

  // The tree with the hole left empty.
  lemma Clipped(ns: Nodes, root: int, c: Ctx)
    requires Focus(ns, root, c, NIL, Leaf) && CtxHeap(ns, c)
    ensures
      var t := Plug(c, Leaf);
      && Rep(ns, root, NIL, t) && Distinct(t) && HeapFrom(ns, t, 0)
      && Order(t) == Before(c) + After(c)
  {
    PlugRep(ns, root, c, NIL, Leaf);
    PlugDistinct(c, Leaf);
    PlugOrder(c, Leaf);
    PlugHeap(ns, c, Leaf);
    assert Before(c) + Order(Leaf) == Before(c);
  }

  lemma RotatedFocus(ns: Nodes, root: int, c: Ctx, d: Ctx, x: int, l: Tree, r: Tree)
    requires (d.InRight? && d.up == c && Focus(ns, root, c, d.at, Bin(d.left, d.at, Bin(l, x, r)))) ||
             (d.InLeft? && d.up == c && Focus(ns, root, c, d.at, Bin(Bin(l, x, r), d.at, d.right)))
    ensures Focus(ns, root, d, x, Bin(l, x, r)) && x in ns
  {
    var t := Bin(l, x, r);
    if d.InRight? {
      RepBin(ns, d.at, Above(c), d.left, d.at, t);
      RepBin(ns, ns[d.at].right, d.at, l, x, r);
    } else {
      RepBin(ns, d.at, Above(c), t, d.at, d.right);
      RepBin(ns, ns[d.at].left, d.at, l, x, r);
    }
  }

  lemma Removed(ns: Nodes, ms: Nodes, before: seq<int>, x: int, after: seq<int>)
    requires Sorted(ns, before + [x] + after) && SameData(ns, ms)
    ensures Sorted(ms, before + after) && PutIn(before + after, x, |before|, before + [x] + after)
  {
    TakeOutSorted(ns, ms, before, x, after);
    assert (before + after)[..|before|] == before && (before + after)[|before|..] == after;
  }

  lemma RemovedAddrs(t: Tree, u: Tree, c: Ctx, x: int)
    requires Order(t) == Before(c) + [x] + After(c) && u == Plug(c, Leaf) && x !in CtxAddrs(c)
    ensures Addrs(u) == Addrs(t) - {x}
  {
    PlugOrder(c, Leaf);
    PlugDistinct(c, Leaf);
    forall a
      ensures a in Addrs(u) <==> a in Addrs(t) && a != x
    {
      OrderAddrs(t, a);
      OrderAddrs(u, a);
      assert a in Order(t) <==> a in Before(c) || a == x || a in After(c);
    }
  }

  lemma RemovedNode(ns: Nodes, ms: Nodes, t: Tree, u: Tree, c: Ctx, x: int)
    requires Order(t) == Before(c) + [x] + After(c) && u == Plug(c, Leaf) && x !in CtxAddrs(c)
    requires Sorted(ns, Order(t)) && SameData(ns, ms)
    ensures Sorted(ms, Order(u)) && PutIn(Order(u), x, |Before(c)|, Order(t)) && Addrs(u) == Addrs(t) - {x}
  {
    PlugOrder(c, Leaf);
    assert Before(c) + Order(Leaf) == Before(c);
    Removed(ns, ms, Before(c), x, After(c));
    RemovedAddrs(t, u, c, x);
  }

  lemma Children(ns: Nodes, root: int, c: Ctx, l: Tree, x: int, r: Tree)
    requires Focus(ns, root, c, x, Bin(l, x, r)) && x in ns
    ensures ns[x].left == (if l.Bin? then l.at else NIL) && (l.Bin? ==> l.at != NIL && l.at in ns)
    ensures ns[x].right == (if r.Bin? then r.at else NIL) && (r.Bin? ==> r.at != NIL && r.at in ns)
  {
    RepBin(ns, x, Above(c), l, x, r);
  }

  lemma BothLeaves(ns: Nodes, root: int, c: Ctx, x: int, l: Tree, r: Tree)
    requires Focus(ns, root, c, x, Bin(l, x, r)) && x in ns && ns[x].left == NIL && ns[x].right == NIL
    ensures l == Leaf && r == Leaf
  {
    RepBin(ns, x, Above(c), l, x, r);
  }

  // The search so far: what is before the hole is too small, and the best so far
  // is the first key after it.
  predicate Narrowed(ns: Nodes, c: Ctx, t: Tree, key: int, best: int) {
    && (forall a :: a in Before(c) ==> a in ns && ns[a].key < key)
    && (forall a :: a in After(c) ==> a in ns && ns[a].key >= key)
    && (best == NIL ==> After(c) == [])
    && (best != NIL ==> best in After(c) && best in ns)
    && (best != NIL ==> forall a :: a in After(c) && a in ns ==> ns[a].key >= ns[best].key)
  }

  lemma NarrowRight(ns: Nodes, root: int, c: Ctx, l: Tree, a: int, r: Tree, key: int, best: int)
    requires Focus(ns, root, c, a, Bin(l, a, r)) && Sorted(ns, Order(Plug(c, Bin(l, a, r))))
    requires Narrowed(ns, c, Bin(l, a, r), key, best) && a in ns && ns[a].key < key
    ensures Focus(ns, root, InRight(l, a, c), ns[a].right, r)
    ensures Narrowed(ns, InRight(l, a, c), r, key, best)
  {
    SortedFocus(ns, c, l, a, r);
  }

  lemma NarrowLeft(ns: Nodes, root: int, c: Ctx, l: Tree, a: int, r: Tree, key: int, best: int)
    requires Focus(ns, root, c, a, Bin(l, a, r)) && Sorted(ns, Order(Plug(c, Bin(l, a, r))))
    requires Narrowed(ns, c, Bin(l, a, r), key, best) && a in ns && ns[a].key >= key
    ensures Focus(ns, root, InLeft(a, r, c), ns[a].left, l)
    ensures Narrowed(ns, InLeft(a, r, c), l, key,
                     if best == NIL || best !in ns || ns[best].key > ns[a].key then a else best)
  {
    SortedFocus(ns, c, l, a, r);
  }

  lemma ExactKey(c: Ctx, l: Tree, a: int, r: Tree)
    ensures a in Order(Plug(c, Bin(l, a, r)))
  {
    PlugOrder(c, Bin(l, a, r));
  }

  class Treap {
    var root: int
    var nodes: Nodes
    ghost var tree: Tree

    ghost predicate Valid()
      reads this
    {
      && Rep(nodes, root, NIL, tree) && Distinct(tree)
      && Sorted(nodes, Order(tree))
      && HeapFrom(nodes, tree, 0)
    }

    constructor ()
      ensures Valid() && Order(tree) == []
    {
      root, nodes, tree := NIL, map[], Leaf;
    }

    // The link from the node above x, or the root, now leads to q.
    method LinkBelow(p: int, x: int, q: int)
      requires p != NIL ==> p in nodes
      modifies this`root, this`nodes
      ensures p == NIL ==> root == q && nodes == old(nodes)
      ensures
        p != NIL ==>
          && root == old(root)
          && nodes == old(nodes)[p := if old(nodes)[p].left == x then old(nodes)[p].(left := q)
                                      else old(nodes)[p].(right := q)]
    {
      if p == NIL {
        root := q;
      } else if nodes[p].left == x {
        nodes := nodes[p := nodes[p].(left := q)];
      } else {
        nodes := nodes[p := nodes[p].(right := q)];
      }
    }

    // rotateRight, link by link
    method TurnRight(x: int)
      requires x in nodes && nodes[x].left in nodes && Turnable(nodes, x, nodes[x].left, nodes[nodes[x].left].right)
      modifies this`root, this`nodes
      ensures
        var ns, y := old(nodes), old(nodes[x].left);
        && RotatedRight(ns, nodes, ns[x].parent, x, y)
        && TurnedAround(ns, old(root), nodes, root, x, y, ns[y].right)
    {
      var left := nodes[x].left;
      nodes := nodes[x := nodes[x].(left := nodes[left].right)];
      if nodes[left].right != NIL {
        var mid := nodes[left].right;
        nodes := nodes[mid := nodes[mid].(parent := x)];
      }
      nodes := nodes[left := nodes[left].(parent := nodes[x].parent)];
      LinkBelow(nodes[x].parent, x, left);
      nodes := nodes[left := nodes[left].(right := x)];
      nodes := nodes[x := nodes[x].(parent := left)];
    }

    // rotateLeft, link by link
    method TurnLeft(x: int)
      requires x in nodes && nodes[x].right in nodes && Turnable(nodes, x, nodes[x].right, nodes[nodes[x].right].left)
      modifies this`root, this`nodes
      ensures
        var ns, y := old(nodes), old(nodes[x].right);
        && RotatedLeft(ns, nodes, ns[x].parent, x, y)
        && TurnedAround(ns, old(root), nodes, root, x, y, ns[y].left)
    {
      var right := nodes[x].right;
      nodes := nodes[x := nodes[x].(right := nodes[right].left)];
      if nodes[right].left != NIL {
        var mid := nodes[right].left;
        nodes := nodes[mid := nodes[mid].(parent := x)];
      }
      nodes := nodes[right := nodes[right].(parent := nodes[x].parent)];
      LinkBelow(nodes[x].parent, x, right);
      nodes := nodes[right := nodes[right].(left := x)];
      nodes := nodes[x := nodes[x].(parent := right)];
    }

    method RotateRight(x: int, ghost c: Ctx, ghost a: Tree, ghost y: int, ghost b: Tree, ghost r: Tree)
      requires Focus(nodes, root, c, x, Bin(Bin(a, y, b), x, r))
      modifies this`root, this`nodes
      ensures Focus(nodes, root, c, y, Bin(a, y, Bin(b, x, r)))
      ensures SameData(old(nodes), nodes)
    {
      LinkSide(nodes, root, c, x, Bin(Bin(a, y, b), x, r));
      RepBin(nodes, x, Above(c), Bin(a, y, b), x, r);
      RepBin(nodes, y, x, a, y, b);
      assert Turnable(nodes, x, y, nodes[y].right) by { RepRoot(nodes, x, Above(c), Bin(Bin(a, y, b), x, r)); }
      TurnRight(x);
      RotateRightFocus(old(nodes), nodes, old(root), root, c, a, y, b, x, r);
      TurnedData(old(nodes), old(root), nodes, root, x, y, old(nodes)[y].right);
    }

    method RotateLeft(x: int, ghost c: Ctx, ghost l: Tree, ghost b: Tree, ghost y: int, ghost r: Tree)
      requires Focus(nodes, root, c, x, Bin(l, x, Bin(b, y, r)))
      modifies this`root, this`nodes
      ensures Focus(nodes, root, c, y, Bin(Bin(l, x, b), y, r))
      ensures SameData(old(nodes), nodes)
    {
      LinkSide(nodes, root, c, x, Bin(l, x, Bin(b, y, r)));
      RepBin(nodes, x, Above(c), l, x, Bin(b, y, r));
      RepBin(nodes, y, x, b, y, r);
      assert Turnable(nodes, x, y, nodes[y].left) by { RepRoot(nodes, x, Above(c), Bin(l, x, Bin(b, y, r))); }
      TurnLeft(x);
      RotateLeftFocus(old(nodes), nodes, old(root), root, c, l, x, b, y, r);
      TurnedData(old(nodes), old(root), nodes, root, x, y, old(nodes)[y].left);
    }

    // The search in insert: the place below `parent` for a node with this key.
    method FindPlace(key: int) returns (parent: int, ghost c: Ctx)
      requires Valid()
      ensures RepCtx(nodes, root, c, NIL) && Plug(c, Leaf) == tree && AllDistinct(c, Leaf)
      ensures parent == Above(c) && (parent != NIL ==> parent in nodes)
      ensures c.Top? <==> parent == NIL
      ensures !c.Top? ==> (c.InLeft? <==> key < nodes[parent].key)
      ensures Between(nodes, Before(c), key, After(c))
    {
      parent := NIL;
      var node := root;
      c := Top;
      ghost var t := tree;
      while node != NIL
        invariant Focus(nodes, root, c, node, t) && Plug(c, t) == tree
        invariant parent == Above(c) && (parent != NIL ==> parent in nodes) && (c.Top? <==> parent == NIL)
        invariant !c.Top? ==> (c.InLeft? <==> key < nodes[parent].key)
        invariant Between(nodes, Before(c), key, After(c))
        decreases t
      {
        RepRoot(nodes, node, Above(c), t);
        var Bin(l, a, r) := t;
        parent := node;
        if key < nodes[node].key {
          GoLeft(nodes, root, c, l, a, r, key);
          node := nodes[node].left;
          c, t := InLeft(a, r, c), l;
        } else {
          GoRight(nodes, root, c, l, a, r, key);
          node := nodes[node].right;
          c, t := InRight(l, a, c), r;
        }
      }
      RepRoot(nodes, node, Above(c), t);
    }

    // The new node as a leaf in its place.
    method Attach(n: int, key: int, value: int, priority: nat, parent: int, ghost c: Ctx)
      requires RepCtx(nodes, root, c, NIL) && AllDistinct(c, Leaf) && n != NIL && n !in CtxAddrs(c)
      requires parent == Above(c) && (parent != NIL ==> parent in nodes) && (c.Top? <==> parent == NIL)
      requires !c.Top? ==> (c.InLeft? <==> key < nodes[parent].key)
      modifies this`root, this`nodes
      ensures Focus(nodes, root, c, n, Bin(Leaf, n, Leaf))
      ensures nodes[n].key == key && nodes[n].value == value && nodes[n].priority == priority
      ensures forall a :: a in old(nodes) && a != n ==>
                a in nodes && nodes[a].key == old(nodes)[a].key && nodes[a].priority == old(nodes)[a].priority &&
                nodes[a].value == old(nodes)[a].value
    {
      nodes := nodes[n := Node(priority, key, value, parent, NIL, NIL)];
      assert c.Top? || Above(c) in CtxAddrs(c);
      if parent == NIL {
        root := n;
      } else if key < nodes[parent].key {
        nodes := nodes[parent := nodes[parent].(left := n)];
      } else {
        nodes := nodes[parent := nodes[parent].(right := n)];
      }
      HangCtx(old(nodes), old(root), c, NIL, n, nodes, root);
    }

    // One rotation that brings n above the node that was above it.
    method RotateAbove(n: int, parent: int, ghost c: Ctx, ghost l: Tree, ghost r: Tree)
      returns (ghost d: Ctx, ghost l1: Tree, ghost r1: Tree)
      requires Focus(nodes, root, c, n, Bin(l, n, r)) && Rising(nodes, c, l, n, r)
      requires parent == Above(c) && parent != NIL && parent in nodes && nodes[parent].priority > nodes[n].priority
      modifies this`root, this`nodes
      ensures SameData(old(nodes), nodes)
      ensures Focus(nodes, root, d, n, Bin(l1, n, r1)) && Rising(nodes, d, l1, n, r1)
      ensures Before(d) + Order(l1) == Before(c) + Order(l) && Order(r1) + After(d) == Order(r) + After(c)
      ensures d < c && nodes[n].parent == Above(d) && (Above(d) != NIL ==> Above(d) in nodes)
    {
      LinkSide(nodes, root, c, n, Bin(l, n, r));
      ghost var ns := nodes;
      if nodes[parent].left == n {
        ghost var InLeft(p, q, up) := c;
        RotateRight(parent, up, l, n, r, q);
        RisingLeft(ns, nodes, p, q, up, l, n, r);
        d, l1, r1 := up, l, Bin(r, p, q);
      } else {
        ghost var InRight(q, p, up) := c;
        RotateLeft(parent, up, q, l, n, r);
        RisingRight(ns, nodes, q, p, up, l, n, r);
        d, l1, r1 := up, Bin(q, p, l), r;
      }
      LinkSide(nodes, root, d, n, Bin(l1, n, r1));
    }

    // The node n moves up while its priority is below that of the node above.
    method MoveUp(n: int, above: int, ghost c0: Ctx) returns (ghost t: Tree)
      requires Focus(nodes, root, c0, n, Bin(Leaf, n, Leaf)) && n in nodes && above == Above(c0)
      requires CtxHeap(nodes, c0)
      modifies this`root, this`nodes
      ensures SameData(old(nodes), nodes)
      ensures Rep(nodes, root, NIL, t) && Distinct(t) && HeapFrom(nodes, t, 0)
      ensures Order(t) == Before(c0) + [n] + After(c0)
    {
      ghost var c, l, r := c0, Leaf, Leaf;
      var parent := above;
      LinkSide(nodes, root, c, n, Bin(l, n, r));
      while parent != NIL && nodes[parent].priority > nodes[n].priority
        invariant Focus(nodes, root, c, n, Bin(l, n, r)) && parent == Above(c)
        invariant parent != NIL ==> parent in nodes
        invariant SameData(old(nodes), nodes)
        invariant Rising(nodes, c, l, n, r)
        invariant Before(c) + Order(l) == Before(c0) && Order(r) + After(c) == After(c0)
        decreases c
      {
        c, l, r := RotateAbove(n, parent, c, l, r);
        parent := nodes[n].parent;
      }
      t := Plug(c, Bin(l, n, r));
      Settled(nodes, root, c, l, n, r);
    }

    // The new node goes in after all nodes with keys up to its own and before all
    // with larger ones; nothing else in the order changes.
    method Insert(n: int, key: int, value: int, priority: nat)
      requires Valid() && n != NIL && n !in Addrs(tree) && value != 0
      modifies this
      ensures Valid()
      ensures exists i: nat :: PutIn(old(Order(tree)), n, i, Order(tree)) &&
                               Between(nodes, old(Order(tree))[..i], key, old(Order(tree))[i..])
      ensures n in nodes && nodes[n].key == key && nodes[n].value == value && nodes[n].priority == priority
      ensures forall a :: a in old(nodes) && a != n ==>
                a in nodes && nodes[a].key == old(nodes)[a].key && nodes[a].priority == old(nodes)[a].priority &&
                nodes[a].value == old(nodes)[a].value
    {
      var parent, c := FindPlace(key);
      PlaceFacts(nodes, tree, c, n);
      Attach(n, key, value, priority, parent, c);
      SameCtxHeap(old(nodes), nodes, c);
      tree := MoveUp(n, parent, c);
      Inserted(old(nodes), nodes, Before(c), n, After(c));
    }

    // A rotation that brings up the left child of x, then one for the right.
    method RaiseLeft(x: int, ghost c: Ctx, ghost a: Tree, ghost y: int, ghost b: Tree, ghost r: Tree)
      requires Focus(nodes, root, c, x, Bin(Bin(a, y, b), x, r)) && Sinking(nodes, c, Bin(a, y, b), r)
      requires r.Bin? ==> r.at in nodes && y in nodes && nodes[y].priority <= nodes[r.at].priority
      modifies this`root, this`nodes
      ensures SameData(old(nodes), nodes) && x in nodes
      ensures Focus(nodes, root, InRight(a, y, c), x, Bin(b, x, r)) && Sinking(nodes, InRight(a, y, c), b, r)
      ensures Before(InRight(a, y, c)) + Order(b) == Before(c) + Order(Bin(a, y, b))
    {
      RotateRight(x, c, a, y, b, r);
      SinkRight(old(nodes), nodes, c, a, y, b, x, r);
      RotatedFocus(nodes, root, c, InRight(a, y, c), x, b, r);
    }

    method RaiseRight(x: int, ghost c: Ctx, ghost l: Tree, ghost a: Tree, ghost y: int, ghost b: Tree)
      requires Focus(nodes, root, c, x, Bin(l, x, Bin(a, y, b))) && Sinking(nodes, c, l, Bin(a, y, b))
      requires l.Bin? ==> l.at in nodes && y in nodes && nodes[y].priority <= nodes[l.at].priority
      modifies this`root, this`nodes
      ensures SameData(old(nodes), nodes) && x in nodes
      ensures Focus(nodes, root, InLeft(y, b, c), x, Bin(l, x, a)) && Sinking(nodes, InLeft(y, b, c), l, a)
      ensures Order(a) + After(InLeft(y, b, c)) == Order(Bin(a, y, b)) + After(c)
    {
      RotateLeft(x, c, l, a, y, b);
      SinkLeft(old(nodes), nodes, c, l, x, a, y, b);
      RotatedFocus(nodes, root, c, InLeft(y, b, c), x, l, a);
    }

    // One turn of the loop of remove: the child with the smaller priority, or
    // the only one, comes up.
    method RaiseChild(x: int, ghost c: Ctx, ghost l: Tree, ghost r: Tree)
      returns (ghost d: Ctx, ghost l1: Tree, ghost r1: Tree)
      requires Focus(nodes, root, c, x, Bin(l, x, r)) && Sinking(nodes, c, l, r)
      requires x in nodes && (nodes[x].left != NIL || nodes[x].right != NIL)
      modifies this`root, this`nodes
      ensures SameData(old(nodes), nodes) && x in nodes
      ensures Focus(nodes, root, d, x, Bin(l1, x, r1)) && Sinking(nodes, d, l1, r1)
      ensures Before(d) + Order(l1) == Before(c) + Order(l) && Order(r1) + After(d) == Order(r) + After(c)
      ensures Size(l1) + Size(r1) < Size(l) + Size(r)
    {
      Children(nodes, root, c, l, x, r);
      if nodes[x].right == NIL ||
         (nodes[x].left != NIL && nodes[nodes[x].left].priority < nodes[nodes[x].right].priority) {
        ghost var Bin(a, y, b) := l;
        RaiseLeft(x, c, a, y, b, r);
        d, l1, r1 := InRight(a, y, c), b, r;
      } else {
        ghost var Bin(a, y, b) := r;
        RaiseRight(x, c, l, a, y, b);
        d, l1, r1 := InLeft(y, b, c), l, a;
      }
    }

    method SinkDown(x: int, ghost c0: Ctx, ghost l0: Tree, ghost r0: Tree) returns (ghost c: Ctx)
      requires Focus(nodes, root, c0, x, Bin(l0, x, r0)) && Sinking(nodes, c0, l0, r0) && x in nodes
      modifies this`root, this`nodes
      ensures SameData(old(nodes), nodes) && x in nodes
      ensures Focus(nodes, root, c, x, Bin(Leaf, x, Leaf)) && CtxHeap(nodes, c)
      ensures Before(c) == Before(c0) + Order(l0) && After(c) == Order(r0) + After(c0)
    {
      ghost var l, r;
      c, l, r := c0, l0, r0;
      while nodes[x].left != NIL || nodes[x].right != NIL
        invariant x in nodes && SameData(old(nodes), nodes)
        invariant Focus(nodes, root, c, x, Bin(l, x, r)) && Sinking(nodes, c, l, r)
        invariant Before(c) + Order(l) == Before(c0) + Order(l0) && Order(r) + After(c) == Order(r0) + After(c0)
        decreases Size(l) + Size(r)
      {
        c, l, r := RaiseChild(x, c, l, r);
      }
      BothLeaves(nodes, root, c, x, l, r);
    }

    // remove: the node sinks to a leaf and is clipped off; nothing else in the
    // order changes.
    method Remove(x: int)
      requires Valid() && (x == NIL || x in Addrs(tree))
      modifies this
      ensures Valid() && SameData(old(nodes), nodes)
      ensures x == NIL ==> tree == old(tree)
      ensures x != NIL ==> exists i: nat :: PutIn(Order(tree), x, i, old(Order(tree)))
      ensures x != NIL ==> Addrs(tree) == old(Addrs(tree)) - {x}
    {
      if x != NIL {
        ghost var i := RemoveNode(x);
      }
    }

    method RemoveNode(x: int) returns (ghost i: nat)
      requires Valid() && x in Addrs(tree)
      modifies this
      ensures Valid() && SameData(old(nodes), nodes)
      ensures PutIn(Order(tree), x, i, old(Order(tree))) && Addrs(tree) == old(Addrs(tree)) - {x}
    {
      ghost var t := tree;
      ghost var c, l, r := FindNode(nodes, root, t, x);
      c := SinkDown(x, c, l, r);
      assert x !in CtxAddrs(c) && Order(t) == Before(c) + [x] + After(c);
      ClipOff(x, c);
      tree := Plug(c, Leaf);
      i := |Before(c)|;
      RemovedNode(old(nodes), nodes, t, tree, c, x);
    }

    method ClipOff(x: int, ghost c: Ctx)
      requires Focus(nodes, root, c, x, Bin(Leaf, x, Leaf)) && CtxHeap(nodes, c) && x in nodes
      modifies this`root, this`nodes
      ensures SameData(old(nodes), nodes)
      ensures
        var t := Plug(c, Leaf);
        && Rep(nodes, root, NIL, t) && Distinct(t) && HeapFrom(nodes, t, 0)
        && Order(t) == Before(c) + After(c)
    {
      LinkSide(nodes, root, c, x, Bin(Leaf, x, Leaf));
      LinkBelow(nodes[x].parent, x, NIL);
      HangCtx(old(nodes), old(root), c, x, NIL, nodes, root);
      SameCtxHeap(old(nodes), nodes, c);
      Clipped(nodes, root, c);
    }

    // lookupGeq: a node with the least key that is at least `key`, or none when
    // every key is smaller.
    method LookupGeq(key: int) returns (best: int)
      requires Valid()
      ensures best == NIL ==> forall a :: a in Order(tree) ==> nodes[a].key < key
      ensures best != NIL ==> best in Order(tree) && nodes[best].key >= key
      ensures best != NIL ==> forall a :: a in Order(tree) && nodes[a].key >= key ==> nodes[a].key >= nodes[best].key
    {
      best := NIL;
      var node := root;
      ghost var c, t := Top, tree;
      while node != NIL
        invariant Focus(nodes, root, c, node, t) && Plug(c, t) == tree
        invariant Narrowed(nodes, c, t, key, best)
        decreases t
      {
        RepRoot(nodes, node, Above(c), t);
        ghost var Bin(l, a, r) := t;
        PlugOrder(c, t);
        SortedFocus(nodes, c, l, a, r);
        if key == nodes[node].key {
          ExactKey(c, l, a, r);
          return node;
        }
        if nodes[node].key < key {
          NarrowRight(nodes, root, c, l, a, r, key, best);
          node := nodes[node].right;
          c, t := InRight(l, a, c), r;
        } else {
          NarrowLeft(nodes, root, c, l, a, r, key, best);
          if best == NIL || nodes[best].key > nodes[node].key {
            best := node;
          }
          node := nodes[node].left;
          c, t := InLeft(a, r, c), l;
        }
      }
      RepRoot(nodes, node, Above(c), t);
      PlugOrder(c, t);
      assert Before(c) + Order(t) + After(c) == Before(c) + After(c);
    }
  }
}
