// The address-ordered first-fit heap with immediate coalescing
// (src/thread_lib/include/heaplayers/experimental/aoffheap.h).
module AOFFHeaps {
  // allocatedObject and freedObject
  const HEADER := 8
  const FREED := 24
  const HEAD := 0

  // A block by the address of its header and the size of what follows it.
  datatype Block = Block(at: int, size: nat)

  // getSuccessor
  function Succ(b: Block): int {
    b.at + HEADER + b.size
  }

  // The bytes a free block takes: its links need room even when its size is
  // smaller.
  function End(b: Block): int {
    if b.size < FREED - HEADER then b.at + FREED else Succ(b)
  }

  // ---- the free list ----

  // In address order, apart from each other, and no block directly behind the
  // one before it.
  predicate Follows(a: Block, b: Block) {
    End(a) <= b.at && Succ(a) != b.at
  }

  ghost predicate Ordered(fl: seq<Block>) {
    && (forall i :: 0 <= i < |fl| ==> fl[i].at > HEAD)
    && (forall i, j :: 0 <= i < j < |fl| ==> Follows(fl[i], fl[j]))
  }

  // The first block that leaves room for a free block behind sz bytes.
  function FirstFit(fl: seq<Block>, sz: nat, i: nat): (k: nat)
    requires i <= |fl|
    ensures i <= k <= |fl|
    ensures k < |fl| ==> fl[k].size >= sz + FREED
    ensures forall j :: i <= j < k ==> fl[j].size < sz + FREED
    decreases |fl| - i
  {
    if i == |fl| || fl[i].size >= sz + FREED then i else FirstFit(fl, sz, i + 1)
  }

  // What is left of a block after sz bytes are taken from its front.
  function Rest(b: Block, sz: nat): Block
    requires b.size >= sz + FREED
  {
    Block(b.at + HEADER + sz, b.size - sz - FREED)
  }

  // How many free blocks have lower addresses.
  function Place(fl: seq<Block>, at: int, i: nat): (k: nat)
    requires i <= |fl|
    ensures i <= k <= |fl|
    ensures forall j :: i <= j < k ==> fl[j].at < at
    ensures k < |fl| ==> at <= fl[k].at
    decreases |fl| - i
  {
    if i == |fl| || fl[i].at >= at then i else Place(fl, at, i + 1)
  }

  function Insert(fl: seq<Block>, i: nat, b: Block): seq<Block>
    requires i <= |fl|
  {
    fl[..i] + [b] + fl[i..]
  }

  function Removed(fl: seq<Block>, i: nat): seq<Block>
    requires i < |fl|
  {
    fl[..i] + fl[i + 1..]
  }

  // coalesce: block i takes in the one after it.
  function Merged(fl: seq<Block>, i: nat): seq<Block>
    requires i + 1 < |fl|
  {
    Removed(fl[i := Block(fl[i].at, fl[i].size + fl[i + 1].size + HEADER)], i + 1)
  }

  // Block i merged with the one before it if they touch, and where it is then.
  function JoinLeft(f: seq<Block>, i: nat): (r: (seq<Block>, nat))
    requires i < |f|
    ensures r.1 < |r.0|
  {
    if i > 0 && Succ(f[i - 1]) == f[i].at then (Merged(f, i - 1), i - 1) else (f, i)
  }

  function JoinRight(f: seq<Block>, k: nat): seq<Block>
    requires k < |f|
  {
    if k + 1 < |f| && Succ(f[k]) == f[k + 1].at then Merged(f, k) else f
  }

  // A block put in at i and merged with its neighbours where they touch.
  function Coalesced(fl: seq<Block>, i: nat, b: Block): (seq<Block>, nat)
    requires i <= |fl|
  {
    var (g, k) := JoinLeft(Insert(fl, i, b), i);
    (JoinRight(g, k), k)
  }

  // ---- free and live blocks together ----

  // A live block keeps clear of another block's bytes.
  predicate Clear(a: int, aEnd: int, b: int, bEnd: int) {
    aEnd <= b || bEnd <= a
  }

  ghost predicate LiveOk(live: map<int, nat>) {
    && (forall a :: a in live ==> a > HEAD && live[a] >= FREED - HEADER)
    && (forall a, b :: a in live && b in live && a != b ==>
          Clear(a, a + HEADER + live[a], b, b + HEADER + live[b]))
  }

  ghost predicate Disjoint(fl: seq<Block>, live: map<int, nat>) {
    forall i, a :: 0 <= i < |fl| && a in live ==> Clear(fl[i].at, End(fl[i]), a, a + HEADER + live[a])
  }

  ghost predicate Inv(fl: seq<Block>, live: map<int, nat>) {
    Ordered(fl) && LiveOk(live) && Disjoint(fl, live)
  }

  // Cutting a live block from the front of a free one.
  lemma SplitKeeps(fl: seq<Block>, live: map<int, nat>, k: nat, sz: nat)
    requires Inv(fl, live) && k < |fl| && fl[k].size >= sz + FREED && sz >= FREED - HEADER
    ensures fl[k].at !in live
    ensures Inv(fl[k := Rest(fl[k], sz)], live[fl[k].at := sz])
  {
    var b, r := fl[k], Rest(fl[k], sz);
    assert r.at > b.at && End(r) <= End(b) && Succ(r) < End(b);
    var f, l := fl[k := r], live[b.at := sz];
    forall i, j | 0 <= i < j < |f|
      ensures Follows(f[i], f[j])
    {
      assert Follows(fl[i], fl[j]);
    }
    forall i, a | 0 <= i < |f| && a in l
      ensures Clear(f[i].at, End(f[i]), a, a + HEADER + l[a])
    {
      assert a != b.at ==> Clear(fl[i].at, End(fl[i]), a, a + HEADER + live[a]);
      assert i < k ==> Follows(fl[i], fl[k]);
      assert i > k ==> Follows(fl[k], fl[i]);
    }
    forall a, c | a in l && c in l && a != c
      ensures Clear(a, a + HEADER + l[a], c, c + HEADER + l[c])
    {
      assert a == b.at ==> Clear(b.at, End(b), c, c + HEADER + live[c]);
      assert c == b.at ==> Clear(b.at, End(b), a, a + HEADER + live[a]);
    }
  }

  // A new block from the heap below, clear of everything here.
  lemma GrowKeeps(fl: seq<Block>, live: map<int, nat>, at: int, sz: nat)
    requires Inv(fl, live) && at > HEAD && sz >= FREED - HEADER
    requires forall i :: 0 <= i < |fl| ==> Clear(fl[i].at, End(fl[i]), at, at + HEADER + sz)
    requires forall a :: a in live ==> Clear(a, a + HEADER + live[a], at, at + HEADER + sz)
    ensures Inv(fl, live[at := sz])
  {
  }

  // ---- freeing ----

  // The list with the freed block in it, where neighbours may still touch.
  ghost predicate Spaced(fl: seq<Block>, live: map<int, nat>) {
    && LiveOk(live) && Disjoint(fl, live)
    && (forall i :: 0 <= i < |fl| ==> fl[i].at > HEAD)
    && (forall i, j :: 0 <= i < j < |fl| ==> End(fl[i]) <= fl[j].at)
  }

  // Blocks touch at most around position k.
  ghost predicate GapsBut(fl: seq<Block>, lo: int, hi: int) {
    forall i, j :: 0 <= i < j < |fl| && !(j == i + 1 && lo <= i < hi) ==> Succ(fl[i]) != fl[j].at
  }

  // A live block has its own place between the free ones.
  lemma PlaceOfLive(fl: seq<Block>, live: map<int, nat>, b: Block)
    requires Inv(fl, live) && b.at in live && b.size == live[b.at]
    ensures
      var i := Place(fl, b.at, 0);
      forall j :: 0 <= j < |fl| ==>
        if j < i then End(fl[j]) <= b.at else End(b) <= fl[j].at && fl[j].at != b.at
  {
  }

  lemma InsertDisjoint(fl: seq<Block>, live: map<int, nat>, b: Block, i: nat)
    requires LiveOk(live) && Disjoint(fl, live) && b.at in live && b.size == live[b.at] && i <= |fl|
    ensures LiveOk(live - {b.at}) && Disjoint(Insert(fl, i, b), live - {b.at})
  {
  }

  lemma InsertSpaced(fl: seq<Block>, live: map<int, nat>, b: Block)
    requires Inv(fl, live) && b.at in live && b.size == live[b.at]
    ensures
      var i := Place(fl, b.at, 0);
      && (i < |fl| ==> fl[i].at != b.at)
      && Spaced(Insert(fl, i, b), live - {b.at})
      && GapsBut(Insert(fl, i, b), i - 1, i + 1)
  {
    var i := Place(fl, b.at, 0);
    PlaceOfLive(fl, live, b);
    InsertDisjoint(fl, live, b, i);
    InsertOrder(fl, i, b);
  }

  lemma InsertOrder(fl: seq<Block>, i: nat, b: Block)
    requires Ordered(fl) && i <= |fl| && b.at > HEAD
    requires forall n :: 0 <= n < |fl| ==> if n < i then End(fl[n]) <= b.at else End(b) <= fl[n].at
    ensures
      var f := Insert(fl, i, b);
      && (forall j :: 0 <= j < |f| ==> f[j].at > HEAD)
      && (forall j, k :: 0 <= j < k < |f| ==> End(f[j]) <= f[k].at)
      && GapsBut(f, i - 1, i + 1)
  {
    var f := Insert(fl, i, b);
    forall j, k | 0 <= j < k < |f|
      ensures End(f[j]) <= f[k].at && (!(k == j + 1 && i - 1 <= j < i + 1) ==> Succ(f[j]) != f[k].at)
    {
      InsertPair(fl, i, b, j, k);
    }
    forall j | 0 <= j < |f|
      ensures f[j].at > HEAD
    {
      assert f[j] == if j < i then fl[j] else if j == i then b else fl[j - 1];
    }
  }

  lemma InsertPair(fl: seq<Block>, i: nat, b: Block, j: nat, k: nat)
    requires Ordered(fl) && i <= |fl| && j < k <= |fl|
    requires forall n :: 0 <= n < |fl| ==> if n < i then End(fl[n]) <= b.at else End(b) <= fl[n].at
    ensures
      var f := Insert(fl, i, b);
      End(f[j]) <= f[k].at && (!(k == j + 1 && i - 1 <= j < i + 1) ==> Succ(f[j]) != f[k].at)
  {
    var f := Insert(fl, i, b);
    if j != i && k != i {
      var j0, k0 := if j < i then j else j - 1, if k < i then k else k - 1;
      assert f[j] == fl[j0] && f[k] == fl[k0] && Follows(fl[j0], fl[k0]);
    } else if j == i {
      assert f[k] == fl[k - 1];
      if k > i + 1 { assert Follows(fl[i], fl[k - 1]); }
    } else {
      assert f[j] == fl[j];
      if j < i - 1 { assert Follows(fl[j], fl[i - 1]); }
    }
  }

  // The blocks of a merged list.
  lemma MergedAt(fl: seq<Block>, i: nat, j: nat)
    requires i + 1 < |fl| && j < |fl| - 1
    ensures |Merged(fl, i)| == |fl| - 1
    ensures Merged(fl, i)[j] ==
              if j < i then fl[j]
              else if j == i then Block(fl[i].at, fl[i].size + fl[i + 1].size + HEADER)
              else fl[j + 1]
  {
  }

  // Merged block j starts where a block of the list starts, and reaches as far as
  // one.
  lemma MergedBounds(fl: seq<Block>, i: nat, j: nat)
    requires i + 1 < |fl| && j < |fl| - 1 && Succ(fl[i]) == fl[i + 1].at
    ensures |Merged(fl, i)| == |fl| - 1
    ensures
      var b := Merged(fl, i)[j];
      && b.at == fl[if j <= i then j else j + 1].at
      && Succ(b) == Succ(fl[if j < i then j else j + 1]) && End(b) <= End(fl[if j < i then j else j + 1])
  {
    MergedAt(fl, i, j);
  }

  lemma MergedOrder(fl: seq<Block>, i: nat)
    requires i + 1 < |fl| && Succ(fl[i]) == fl[i + 1].at
    requires forall j, k :: 0 <= j < k < |fl| ==> End(fl[j]) <= fl[k].at
    ensures
      var m := Merged(fl, i);
      forall j, k :: 0 <= j < k < |m| ==> End(m[j]) <= m[k].at
  {
    var m := Merged(fl, i);
    forall j, k | 0 <= j < k < |m|
      ensures End(m[j]) <= m[k].at
    {
      MergedBounds(fl, i, j);
      MergedBounds(fl, i, k);
    }
  }

  lemma MergedGaps(fl: seq<Block>, i: nat, hi: int)
    requires i + 1 < |fl| && Succ(fl[i]) == fl[i + 1].at && i < hi && GapsBut(fl, i, hi)
    ensures GapsBut(Merged(fl, i), i, hi - 1)
  {
    var m := Merged(fl, i);
    forall j, k | 0 <= j < k < |m| && !(k == j + 1 && i <= j < hi - 1)
      ensures Succ(m[j]) != m[k].at
    {
      MergedBounds(fl, i, j);
      MergedBounds(fl, i, k);
    }
  }

  lemma MergedDisjoint(fl: seq<Block>, live: map<int, nat>, i: nat)
    requires Disjoint(fl, live) && i + 1 < |fl| && Succ(fl[i]) == fl[i + 1].at && End(fl[i]) <= fl[i + 1].at
    requires LiveOk(live)
    ensures Disjoint(Merged(fl, i), live)
  {
    var m := Merged(fl, i);
    forall j, a | 0 <= j < |m| && a in live
      ensures Clear(m[j].at, End(m[j]), a, a + HEADER + live[a])
    {
      MergedBounds(fl, i, j);
      var j0 := if j < i then j else j + 1;
      assert Clear(fl[j0].at, End(fl[j0]), a, a + HEADER + live[a]);
      assert Clear(fl[i].at, End(fl[i]), a, a + HEADER + live[a]);
    }
  }

  // Merging takes nothing from a live block, and settles the first open gap.
  lemma MergeKeeps(fl: seq<Block>, live: map<int, nat>, i: nat, hi: int)
    requires Spaced(fl, live) && i + 1 < |fl| && Succ(fl[i]) == fl[i + 1].at && i < hi && GapsBut(fl, i, hi)
    ensures Spaced(Merged(fl, i), live) && GapsBut(Merged(fl, i), i, hi - 1)
  {
    var m := Merged(fl, i);
    MergedOrder(fl, i);
    MergedGaps(fl, i, hi);
    MergedDisjoint(fl, live, i);
    forall j | 0 <= j < |m|
      ensures m[j].at > HEAD
    {
      MergedBounds(fl, i, j);
    }
  }

  lemma GapSettled(fl: seq<Block>, i: int, hi: int)
    requires GapsBut(fl, i, hi) && (0 <= i && i + 1 < |fl| ==> Succ(fl[i]) != fl[i + 1].at)
    ensures GapsBut(fl, i + 1, hi)
  {
  }

  lemma NoGapsOpen(fl: seq<Block>, live: map<int, nat>, i: int)
    requires Spaced(fl, live) && (GapsBut(fl, i, i) || (i + 1 >= |fl| && GapsBut(fl, i, i + 1)))
    ensures Inv(fl, live)
  {
  }

  lemma JoinLeftKeeps(f: seq<Block>, live: map<int, nat>, i: nat)
    requires Spaced(f, live) && i < |f| && GapsBut(f, i - 1, i + 1)
    ensures
      var (g, k) := JoinLeft(f, i);
      && k < |g| && Spaced(g, live) && GapsBut(g, k, k + 1)
      && g[k].at <= f[i].at && Succ(g[k]) == Succ(f[i])
  {
    if i > 0 && Succ(f[i - 1]) == f[i].at {
      MergeKeeps(f, live, i - 1, i + 1);
      MergedAt(f, i - 1, i - 1);
    } else {
      GapSettled(f, i - 1, i + 1);
    }
  }

  lemma JoinRightKeeps(g: seq<Block>, live: map<int, nat>, k: nat)
    requires Spaced(g, live) && k < |g| && GapsBut(g, k, k + 1)
    ensures
      var h := JoinRight(g, k);
      k < |h| && Inv(h, live) && h[k].at == g[k].at && Succ(h[k]) >= Succ(g[k])
  {
    if k + 1 < |g| && Succ(g[k]) == g[k + 1].at {
      MergeKeeps(g, live, k, k + 1);
      MergedAt(g, k, k);
      NoGapsOpen(Merged(g, k), live, k);
    } else {
      GapSettled(g, k, k + 1);
      NoGapsOpen(g, live, k + 1);
    }
  }

  // Freeing a live block keeps everything in order, and the bytes of the block
  // end up in one free block.
  lemma FreeKeeps(fl: seq<Block>, live: map<int, nat>, b: Block)
    requires Inv(fl, live) && b.at in live && b.size == live[b.at]
    ensures
      var i := Place(fl, b.at, 0);
      var (h, k) := Coalesced(fl, i, b);
      && (i < |fl| ==> fl[i].at != b.at)
      && Inv(h, live - {b.at})
      && k < |h| && h[k].at <= b.at && Succ(b) <= Succ(h[k])
  {
    var i := Place(fl, b.at, 0);
    InsertSpaced(fl, live, b);
    JoinLeftKeeps(Insert(fl, i, b), live - {b.at}, i);
    var (g, k) := JoinLeft(Insert(fl, i, b), i);
    JoinRightKeeps(g, live - {b.at}, k);
  }

  // A block given back to the heap below.
  lemma ReleaseKeeps(fl: seq<Block>, live: map<int, nat>, k: nat)
    requires Inv(fl, live) && k < |fl|
    ensures Inv(Removed(fl, k), live)
  {
  }

  // ---- no byte is lost or taken twice ----

  // The free blocks, headers included, cover byte x.
  ghost predicate Covers(fl: seq<Block>, x: int) {
    exists i :: 0 <= i < |fl| && fl[i].at <= x < Succ(fl[i])
  }

  // After a split the free blocks cover what they covered before, except the live
  // block with its header and the last bytes of the block that was cut, as many as
  // a free header is larger than a live one.
  lemma SplitCovers(fl: seq<Block>, live: map<int, nat>, k: nat, sz: nat, x: int)
    requires Inv(fl, live) && k < |fl| && fl[k].size >= sz + FREED
    ensures
      var b := fl[k];
      Covers(fl[k := Rest(b, sz)], x) <==>
        && Covers(fl, x)
        && !(b.at <= x < b.at + HEADER + sz)
        && !(Succ(b) - (FREED - HEADER) <= x < Succ(b))
  {
    var f := fl[k := Rest(fl[k], sz)];
    if Covers(f, x) {
      var i :| 0 <= i < |f| && f[i].at <= x < Succ(f[i]);
      assert fl[i].at <= x < Succ(fl[i]);
      assert i < k ==> Follows(fl[i], fl[k]);
      assert i > k ==> Follows(fl[k], fl[i]);
    }
    if Covers(fl, x) {
      var i :| 0 <= i < |fl| && fl[i].at <= x < Succ(fl[i]);
      assert i != k ==> f[i].at <= x < Succ(f[i]);
      assert i == k ==> f[k].at <= x < Succ(f[k]) || x < f[k].at || Succ(f[k]) <= x;
    }
  }

  lemma InsertCovers(fl: seq<Block>, i: nat, b: Block, x: int)
    requires i <= |fl|
    ensures Covers(Insert(fl, i, b), x) <==> Covers(fl, x) || b.at <= x < Succ(b)
  {
    var f := Insert(fl, i, b);
    assert f[i] == b;
    if Covers(f, x) {
      var j :| 0 <= j < |f| && f[j].at <= x < Succ(f[j]);
      if j != i {
        var k := if j < i then j else j - 1;
        assert fl[k] == f[j];
      }
    }
    if Covers(fl, x) {
      var k :| 0 <= k < |fl| && fl[k].at <= x < Succ(fl[k]);
      var j := if k < i then k else k + 1;
      assert f[j] == fl[k];
    }
  }

  lemma MergedCovers(fl: seq<Block>, i: nat, x: int)
    requires i + 1 < |fl| && Succ(fl[i]) == fl[i + 1].at
    ensures Covers(Merged(fl, i), x) <==> Covers(fl, x)
  {
    var m := Merged(fl, i);
    MergedAt(fl, i, i);
    if Covers(m, x) {
      var j :| 0 <= j < |m| && m[j].at <= x < Succ(m[j]);
      MergedAt(fl, i, j);
      var k := if j < i || (j == i && x < Succ(fl[i])) then j else j + 1;
      assert fl[k].at <= x < Succ(fl[k]);
    }
    if Covers(fl, x) {
      var k :| 0 <= k < |fl| && fl[k].at <= x < Succ(fl[k]);
      var j := if k <= i then k else k - 1;
      MergedAt(fl, i, j);
      assert m[j].at <= x < Succ(m[j]);
    }
  }

  // A free gives back exactly the bytes of the block with its header.
  lemma FreeCovers(fl: seq<Block>, b: Block, i: nat, x: int)
    requires i <= |fl|
    ensures Covers(Coalesced(fl, i, b).0, x) <==> Covers(fl, x) || b.at <= x < Succ(b)
  {
    var f := Insert(fl, i, b);
    InsertCovers(fl, i, b, x);
    if i > 0 && Succ(f[i - 1]) == f[i].at {
      MergedCovers(f, i - 1, x);
    }
    var (g, k) := JoinLeft(f, i);
    if k + 1 < |g| && Succ(g[k]) == g[k + 1].at {
      MergedCovers(g, k, x);
    }
  }

  // ---- the links ----

  function At(fl: seq<Block>, i: int): int {
    if 0 <= i < |fl| then fl[i].at else HEAD
  }

  // The block before i and block i lead to each other; the list head stands
  // before the first and after the last.
  predicate Joined(nx: map<int, int>, pv: map<int, int>, a: int, b: int) {
    a in nx && nx[a] == b && b in pv && pv[b] == a
  }

  predicate Linked(nx: map<int, int>, pv: map<int, int>, fl: seq<Block>) {
    forall i :: 0 <= i <= |fl| ==> Joined(nx, pv, At(fl, i - 1), At(fl, i))
  }

  predicate Sized(size: map<int, nat>, fl: seq<Block>) {
    forall i :: 0 <= i < |fl| ==> fl[i].at in size && size[fl[i].at] == fl[i].size
  }

  // No address twice, and none that of the list head.
  ghost predicate Apart(fl: seq<Block>) {
    && (forall i :: 0 <= i < |fl| ==> fl[i].at != HEAD)
    && (forall i, j :: 0 <= i < j < |fl| ==> fl[i].at != fl[j].at)
  }

  lemma OrderedApart(fl: seq<Block>, live: map<int, nat>)
    requires Ordered(fl) || Spaced(fl, live)
    ensures Apart(fl)
  {
  }

  lemma AtDiffers(fl: seq<Block>, i: int, j: int)
    requires Apart(fl) && -1 <= i < j <= |fl| && (i >= 0 || j < |fl|)
    ensures At(fl, i) != At(fl, j)
  {
  }

  lemma LinkedReplace(nx: map<int, int>, pv: map<int, int>, fl: seq<Block>, k: nat, b: Block)
    requires Linked(nx, pv, fl) && Apart(fl) && k < |fl| && Apart(fl[k := b])
    ensures
      var before, after := At(fl, k - 1), At(fl, k + 1);
      Linked(nx[b.at := after][before := b.at], pv[b.at := before][after := b.at], fl[k := b])
  {
    var f := fl[k := b];
    var before, after := At(fl, k - 1), At(fl, k + 1);
    var nx1, pv1 := nx[b.at := after][before := b.at], pv[b.at := before][after := b.at];
    forall i | 0 <= i <= |f|
      ensures Joined(nx1, pv1, At(f, i - 1), At(f, i))
    {
      assert Joined(nx, pv, At(fl, i - 1), At(fl, i));
      if i < k {
        AtDiffers(f, i - 1, k - 1);
        AtDiffers(f, i - 1, k);
        AtDiffers(f, i, k);
        AtDiffers(f, i, k + 1);
      } else if i > k + 1 {
        AtDiffers(f, k - 1, i - 1);
        AtDiffers(f, k, i - 1);
        AtDiffers(f, k, i);
        AtDiffers(f, k + 1, i);
      } else {
        AtDiffers(f, k - 1, k);
        AtDiffers(f, k, k + 1);
      }
    }
  }

  lemma LinkedInsert(nx: map<int, int>, pv: map<int, int>, fl: seq<Block>, k: nat, b: Block)
    requires Linked(nx, pv, fl) && Apart(fl) && k <= |fl| && Apart(Insert(fl, k, b))
    ensures
      var before, after := At(fl, k - 1), At(fl, k);
      Linked(nx[before := b.at][b.at := after], pv[after := b.at][b.at := before], Insert(fl, k, b))
  {
    var f := Insert(fl, k, b);
    var before, after := At(fl, k - 1), At(fl, k);
    var nx1, pv1 := nx[before := b.at][b.at := after], pv[after := b.at][b.at := before];
    InsertAt(fl, k, b, k - 1);
    InsertAt(fl, k, b, k);
    InsertAt(fl, k, b, k + 1);
    AtDiffers(f, k - 1, k);
    AtDiffers(f, k, k + 1);
    forall i | 0 <= i <= |f|
      ensures Joined(nx1, pv1, At(f, i - 1), At(f, i))
    {
      InsertAt(fl, k, b, i - 1);
      InsertAt(fl, k, b, i);
      if i < k {
        assert Joined(nx, pv, At(fl, i - 1), At(fl, i));
        AtDiffers(f, i - 1, k - 1);
        AtDiffers(f, i - 1, k);
        AtDiffers(f, i, k);
        AtDiffers(f, i, k + 1);
      } else if i > k + 1 {
        assert Joined(nx, pv, At(fl, i - 2), At(fl, i - 1));
        AtDiffers(f, k - 1, i - 1);
        AtDiffers(f, k, i - 1);
        AtDiffers(f, k, i);
        AtDiffers(f, k + 1, i);
      }
    }
  }

  lemma InsertAt(fl: seq<Block>, k: nat, b: Block, i: int)
    requires k <= |fl| && -1 <= i <= |fl| + 1
    ensures At(Insert(fl, k, b), i) == if i < k then At(fl, i) else if i == k then b.at else At(fl, i - 1)
  {
  }

  lemma LinkedRemove(nx: map<int, int>, pv: map<int, int>, fl: seq<Block>, k: nat)
    requires Linked(nx, pv, fl) && Apart(fl) && k < |fl|
    ensures
      var before, after := At(fl, k - 1), At(fl, k + 1);
      Linked(nx[before := after], pv[after := before], Removed(fl, k))
  {
    var f := Removed(fl, k);
    var before, after := At(fl, k - 1), At(fl, k + 1);
    var nx1, pv1 := nx[before := after], pv[after := before];
    assert forall j :: 0 <= j < |f| ==> f[j] == if j < k then fl[j] else fl[j + 1];
    forall i | 0 <= i <= |f|
      ensures Joined(nx1, pv1, At(f, i - 1), At(f, i))
    {
      if i < k {
        assert Joined(nx, pv, At(fl, i - 1), At(fl, i));
        AtDiffers(fl, i - 1, k - 1);
        AtDiffers(fl, i, k + 1);
      } else if i > k {
        assert Joined(nx, pv, At(fl, i), At(fl, i + 1));
        AtDiffers(fl, k - 1, i);
        AtDiffers(fl, k + 1, i + 1);
      }
      assert At(f, i) == if i < k then At(fl, i) else At(fl, i + 1);
      assert At(f, i - 1) == if i - 1 < k then At(fl, i - 1) else At(fl, i);
    }
  }

  // The header of the rest is no other block's, and the front's is no free
  // block's.
  lemma RestApart(fl: seq<Block>, live: map<int, nat>, k: nat, sz: nat)
    requires Inv(fl, live) && k < |fl| && fl[k].size >= sz + FREED && sz >= FREED - HEADER
    ensures
      var rest := Rest(fl[k], sz).at;
      && rest !in live && rest != fl[k].at && fl[k].at !in live
      && forall i :: 0 <= i < |fl| && i != k ==> fl[i].at != rest && fl[i].at != fl[k].at
  {
  }

  // The header of a free block is not that of a live one.
  lemma NotLive(fl: seq<Block>, live: map<int, nat>, i: nat)
    requires LiveOk(live) && Disjoint(fl, live) && i < |fl|
    ensures fl[i].at !in live
  {
  }

  lemma JoinedLeft(f: seq<Block>, live: map<int, nat>, i: nat)
    requires Spaced(f, live) && i < |f| && GapsBut(f, i - 1, i + 1)
    ensures
      var (g, k) := JoinLeft(f, i);
      && Spaced(g, live) && GapsBut(g, k, k + 1) && k < |g|
      && At(g, k) == (if i > 0 && Succ(f[i - 1]) == f[i].at then At(f, i - 1) else At(f, i))
      && At(g, k + 1) == At(f, i + 1)
  {
    JoinLeftKeeps(f, live, i);
    if i > 0 && Succ(f[i - 1]) == f[i].at {
      MergedAt(f, i - 1, i - 1);
      if i + 1 < |f| { MergedAt(f, i - 1, i); }
    }
  }

  lemma SplitSized(size: map<int, nat>, now: map<int, nat>, fl: seq<Block>, live: map<int, nat>, k: nat, sz: nat)
    requires Inv(fl, live) && k < |fl| && fl[k].size >= sz + FREED && sz >= FREED - HEADER
    requires Sized(size, fl) && forall a :: a in live ==> a in size && size[a] == live[a]
    requires now == size[fl[k].at := sz][Rest(fl[k], sz).at := Rest(fl[k], sz).size]
    ensures Sized(now, fl[k := Rest(fl[k], sz)])
    ensures forall a :: a in live[fl[k].at := sz] ==> a in now && now[a] == live[fl[k].at := sz][a]
  {
    RestApart(fl, live, k, sz);
  }

  // A free block with this header is at its place.
  lemma FoundInPlace(fl: seq<Block>, at: int)
    requires Ordered(fl)
    ensures (exists i :: 0 <= i < |fl| && fl[i].at == at) ==> At(fl, Place(fl, at, 0)) == at
  {
  }

  lemma InsertedAround(fl: seq<Block>, k: nat, b: Block)
    requires k <= |fl|
    ensures
      var f := Insert(fl, k, b);
      f[k] == b && At(f, k - 1) == At(fl, k - 1) && At(f, k + 1) == At(fl, k)
  {
  }

  class AOFFHeap {
    const freeThreshold: nat
    var size: map<int, nat>
    var next: map<int, int>
    var prev: map<int, int>
    ghost var free: seq<Block>
    ghost var live: map<int, nat>

    // The fields hold this list of blocks.
    ghost predicate Holds(fl: seq<Block>)
      reads this
    {
      Linked(next, prev, fl) && Sized(size, fl)
    }

    ghost predicate Valid()
      reads this
    {
      && Holds(free) && Inv(free, live)
      && (forall a :: a in live ==> a in size && size[a] == live[a])
    }

    constructor (freeThreshold: nat)
      ensures Valid() && free == [] && live == map[] && this.freeThreshold == freeThreshold
    {
      this.freeThreshold := freeThreshold;
      size, next, prev := map[HEAD := 0], map[HEAD := HEAD], map[HEAD := HEAD];
      free, live := [], map[];
    }

    // The walk in malloc to the first block that fits.
    method FindFit(sz: nat) returns (ptr: int, ghost k: nat)
      requires Valid()
      ensures ptr == At(free, FirstFit(free, sz, 0))
      ensures k == FirstFit(free, sz, 0)
    {
      assert Joined(next, prev, At(free, -1), At(free, 0));
      ptr, k := next[HEAD], 0;
      while ptr != HEAD && size[ptr] < sz + FREED
        invariant k <= |free| && ptr == At(free, k)
        invariant FirstFit(free, sz, 0) == FirstFit(free, sz, k)
        decreases |free| - k
      {
        assert Joined(next, prev, At(free, k), At(free, k + 1));
        ptr, k := next[ptr], k + 1;
      }
      assert k < |free| ==> free[k].at > HEAD;
    }

    // malloc; buf is what the heap below hands out when nothing fits, or HEAD.
    method Malloc(sz: nat, buf: int) returns (p: int)
      requires Valid() && sz >= FREED - HEADER && buf >= HEAD
      requires buf > HEAD ==>
                 && (forall i :: 0 <= i < |free| ==> Clear(free[i].at, End(free[i]), buf, buf + HEADER + sz))
                 && (forall a :: a in live ==> Clear(a, a + HEADER + live[a], buf, buf + HEADER + sz))
      modifies this
      ensures Valid()
      ensures
        var fl, k := old(free), FirstFit(old(free), sz, 0);
        if k < |fl| then
          p == fl[k].at + HEADER && free == fl[k := Rest(fl[k], sz)] && live == old(live)[fl[k].at := sz]
        else if buf > HEAD then p == buf + HEADER && free == fl && live == old(live)[buf := sz]
        else p == HEAD && free == fl && live == old(live)
    {
      var ptr, k := FindFit(sz);
      if ptr == HEAD {
        if buf == HEAD {
          return HEAD;
        }
        GrowKeeps(free, live, buf, sz);
        size := size[buf := sz];
        live := live[buf := sz];
        assert forall i :: 0 <= i < |free| ==> free[i].at != buf;
        return buf + HEADER;
      }
      SplitKeeps(free, live, k, sz);
      Split(ptr, sz, k);
      p := ptr + HEADER;
    }

    // The block at ptr is cut: its front keeps its header and the rest takes its
    // place in the list.
    method Split(ptr: int, sz: nat, ghost k: nat)
      requires Valid() && k < |free| && ptr == free[k].at && free[k].size >= sz + FREED && sz >= FREED - HEADER
      requires Inv(free[k := Rest(free[k], sz)], live[ptr := sz]) && ptr !in live
      modifies this
      ensures Valid() && free == old(free)[k := Rest(old(free)[k], sz)] && live == old(live)[ptr := sz]
    {
      assert Joined(next, prev, At(free, k - 1), At(free, k)) && Joined(next, prev, At(free, k), At(free, k + 1));
      var before, after := prev[ptr], next[ptr];
      var oldSize := size[ptr];
      var rest := ptr + HEADER + sz;
      ghost var fl := free;
      OrderedApart(free, live);
      LinkedReplace(next, prev, free, k, Rest(free[k], sz));
      RestApart(free, live, k, sz);
      size := size[ptr := sz][rest := oldSize - sz - FREED];
      SplitSized(old(size), size, fl, live, k, sz);
      next := next[rest := after];
      prev := prev[rest := before];
      next := next[before := rest];
      prev := prev[after := rest];
      free := free[k := Rest(free[k], sz)];
      live := live[ptr := sz];
    }

    // The walk in free to the place of a block.
    method FindPlace(at: int) returns (before: int, after: int, ghost k: nat)
      requires Valid()
      ensures before == At(free, Place(free, at, 0) - 1) && after == At(free, Place(free, at, 0))
      ensures k == Place(free, at, 0)
    {
      assert Joined(next, prev, At(free, -1), At(free, 0));
      before, after, k := HEAD, next[HEAD], 0;
      while after != HEAD && at > after
        invariant k <= |free| && before == At(free, k - 1) && after == At(free, k)
        invariant Place(free, at, 0) == Place(free, at, k)
        decreases |free| - k
      {
        assert Joined(next, prev, At(free, k), At(free, k + 1));
        before := after;
        after, k := next[after], k + 1;
      }
      assert k < |free| ==> free[k].at > HEAD;
    }

    // coalesce: the block before takes in the block after.
    method Coalesce(curr: int, succ: int, ghost fl: seq<Block>, ghost k: nat)
      requires Holds(fl) && Apart(fl) && k + 1 < |fl| && curr == fl[k].at && succ == fl[k + 1].at
      modifies this`size, this`next, this`prev
      ensures Holds(Merged(fl, k))
      ensures forall a :: a in old(size) && a != curr ==> a in size && size[a] == old(size)[a]
    {
      assert Joined(next, prev, At(fl, k), At(fl, k + 1)) && Joined(next, prev, At(fl, k + 1), At(fl, k + 2));
      ghost var g := fl[k := Block(fl[k].at, fl[k].size + fl[k + 1].size + HEADER)];
      assert forall i :: 0 <= i < |g| ==> g[i].at == fl[i].at;
      assert forall i :: At(g, i) == At(fl, i);
      assert Linked(next, prev, g) by {
        assert forall i :: 0 <= i <= |fl| ==> Joined(next, prev, At(fl, i - 1), At(fl, i));
      }
      LinkedRemove(next, prev, g, k + 1);
      next := next[curr := next[succ]];
      prev := prev[next[succ] := curr];
      size := size[curr := size[curr] + size[succ] + HEADER];
    }

    method Unlink(at: int, ghost fl: seq<Block>, ghost k: nat)
      requires Holds(fl) && Apart(fl) && k < |fl| && at == fl[k].at
      modifies this`next, this`prev
      ensures Holds(Removed(fl, k))
    {
      assert Joined(next, prev, At(fl, k - 1), At(fl, k)) && Joined(next, prev, At(fl, k), At(fl, k + 1));
      LinkedRemove(next, prev, fl, k);
      var before, after := prev[at], next[at];
      next := next[before := after];
      prev := prev[after := before];
    }

    // The block at `at` put between two neighbours in the list.
    method LinkIn(at: int, before: int, after: int, ghost k: nat, ghost b: Block)
      requires Holds(free) && Apart(free) && k <= |free| && Apart(Insert(free, k, b))
      requires b.at == at && at in size && size[at] == b.size
      requires before == At(free, k - 1) && after == At(free, k)
      modifies this`next, this`prev
      ensures Holds(Insert(free, k, b))
    {
      LinkedInsert(next, prev, free, k, b);
      next := next[before := at];
      prev := prev[after := at];
      next := next[at := after];
      prev := prev[at := before];
    }

    // The merge with the block before, if they touch.
    method MergeLeft(at: int, before: int, ghost f: seq<Block>, ghost l: map<int, nat>, ghost i: nat)
      returns (merged: int)
      requires Holds(f) && Spaced(f, l) && i < |f| && GapsBut(f, i - 1, i + 1)
      requires at == f[i].at && before == At(f, i - 1) && forall a :: a in l ==> a in size && size[a] == l[a]
      modifies this`size, this`next, this`prev
      ensures Holds(JoinLeft(f, i).0) && merged == JoinLeft(f, i).0[JoinLeft(f, i).1].at
      ensures forall a :: a in l ==> a in size && size[a] == l[a]
    {
      merged := at;
      JoinedLeft(f, l, i);
      OrderedApart(f, l);
      if before != HEAD && before + HEADER + size[before] == at {
        NotLive(f, l, i - 1);
        Coalesce(before, at, f, i - 1);
        merged := before;
      }
    }

    // The merge with the block after, if they touch.
    method MergeRight(at: int, after: int, ghost g: seq<Block>, ghost l: map<int, nat>, ghost k: nat)
      requires Holds(g) && Spaced(g, l) && k < |g| && GapsBut(g, k, k + 1)
      requires at == g[k].at && after == At(g, k + 1) && forall a :: a in l ==> a in size && size[a] == l[a]
      modifies this`size, this`next, this`prev
      ensures Holds(JoinRight(g, k))
      ensures forall a :: a in l ==> a in size && size[a] == l[a]
    {
      OrderedApart(g, l);
      if after != HEAD && at + HEADER + size[at] == after {
        NotLive(g, l, k);
        Coalesce(at, after, g, k);
      }
    }

    // Both merges, one after the other.
    method MergeBoth(at: int, before: int, after: int, ghost f: seq<Block>, ghost l: map<int, nat>, ghost i: nat)
      returns (merged: int)
      requires Holds(f) && Spaced(f, l) && i < |f| && GapsBut(f, i - 1, i + 1)
      requires at == f[i].at && before == At(f, i - 1) && after == At(f, i + 1)
      requires forall a :: a in l ==> a in size && size[a] == l[a]
      modifies this`size, this`next, this`prev
      ensures
        var (g, n) := JoinLeft(f, i);
        var h := JoinRight(g, n);
        Holds(h) && Inv(h, l) && n < |h| && merged == h[n].at
      ensures forall a :: a in l ==> a in size && size[a] == l[a]
    {
      JoinedLeft(f, l, i);
      merged := MergeLeft(at, before, f, l, i);
      ghost var (g, n) := JoinLeft(f, i);
      JoinRightKeeps(g, l, n);
      MergeRight(merged, after, g, l, n);
    }

    // The block linked in at its place and merged with its neighbours.
    method PutBack(at: int, before: int, after: int, ghost k: nat) returns (merged: int)
      requires Valid() && at in live && k == Place(free, at, 0)
      requires before == At(free, k - 1) && after == At(free, k)
      modifies this`size, this`next, this`prev
      ensures
        var (h, n) := Coalesced(free, k, Block(at, live[at]));
        && Holds(h) && n < |h| && merged == h[n].at
        && Inv(h, live - {at})
      ensures forall a :: a in live - {at} ==> a in size && size[a] == live[a]
    {
      ghost var b, l := Block(at, live[at]), live - {at};
      ghost var f := Insert(free, k, b);
      InsertSpaced(free, live, b);
      OrderedApart(free, live);
      OrderedApart(f, l);
      LinkIn(at, before, after, k, b);
      InsertedAround(free, k, b);
      merged := MergeBoth(at, before, after, f, l, k);
    }

    // A block of at least the threshold goes back to the heap below.
    method Settle(at: int, ghost n: nat)
      requires Valid() && n < |free| && at == free[n].at
      modifies this
      ensures Valid() && live == old(live)
      ensures free == if old(free)[n].size >= freeThreshold then Removed(old(free), n) else old(free)
    {
      if size[at] >= freeThreshold {
        ReleaseKeeps(free, live, n);
        OrderedApart(free, live);
        Unlink(at, free, n);
        free := Removed(free, n);
      }
    }

    // free of a live block; the header of a block that is free already is
    // noticed and left alone.
    method Free(p: int)
      requires Valid() && (p - HEADER in live || exists i :: 0 <= i < |free| && free[i].at == p - HEADER)
      modifies this
      ensures Valid()
      ensures
        var at := p - HEADER;
        if at in old(live) then
          var (h, k) := Coalesced(old(free), Place(old(free), at, 0), Block(at, old(live)[at]));
          && live == old(live) - {at}
          && k < |h| && free == (if h[k].size >= freeThreshold then Removed(h, k) else h)
        else live == old(live) && free == old(free)
    {
      var at := p - HEADER;
      var before, after, k := FindPlace(at);
      if at == after {
        assert at !in live by { NotLive(free, live, k); }
        return;
      }
      assert at in live by { FoundInPlace(free, at); }
      var merged := PutBack(at, before, after, k);
      ghost var (h, n) := Coalesced(free, k, Block(at, live[at]));
      live, free := live - {at}, h;
      Settle(merged, n);
    }
  }
}
