// The runtime's allocator stack. A request is rounded
// (src/thread_lib/include/heaplayers/ansiwrapper.h), goes to the free list of
// its size class (segheap.h, adapt.h, util/sllist.h in the same directory) and,
// when that is empty, gets an object header (src/thread_lib/include/warpheap.h)
// in front of a piece cut from the heap's arena (heaplayers/zoneheap.h), which is
// itself cut from the pages that all heaps share (src/thread_lib/include/xheap.h).
// The free lists run through the freed blocks themselves, and a block may be
// freed into another heap than it came from.
module HeapStack {
  import opened Kingsley

  const PAGE := 4096
  const CHUNK := 10485760
  const ARENAHEADER := 32
  const HEADER := 16
  const MAGIC := 0xCAFEBABE
  const NOWHERE := 0

  datatype Option<T> = None | Some(value: T)

  // The unused rest of a heap's current arena.
  datatype Arena = NoArena | Arena(space: int, remaining: nat)

  // The shared pages not yet handed out, the words of memory, and for every heap
  // its arena and the heads of its free lists.
  datatype Heaps = Heaps(
    start: int,
    position: int,
    remaining: nat,
    limit: int,
    mem: map<int, int>,
    arenas: seq<Arena>,
    heads: seq<seq<int>>)

  // Fresh pages read as zero.
  function Word(mem: map<int, int>, a: int): int {
    if a in mem then mem[a] else 0
  }

  function Max(a: nat, b: nat): nat { if a < b then b else a }

  function Align(sz: nat): (r: nat)
    ensures sz <= r < sz + 8 && r % 8 == 0
  {
    (sz + 7) / 8 * 8
  }

  // ANSIWrapper::malloc
  function Rounded(sz: nat): (r: nat)
    ensures r >= 16 && r >= sz
  {
    Align(Max(sz, 16))
  }

  function PageRounded(sz: nat): (r: nat)
    ensures sz <= r < sz + PAGE && r % 8 == 0
  {
    PagesAligned((sz + PAGE - 1) / PAGE);
    PAGE * ((sz + PAGE - 1) / PAGE)
  }

  lemma PagesAligned(n: nat)
    ensures (PAGE * n) % 8 == 0
  {
    assert PAGE * n == 8 * (512 * n);
  }

  // xheap::malloc, which stops the program when the pages run out.
  function XheapMalloc(s: Heaps, sz: nat): Option<(Heaps, int)> {
    var n := PageRounded(sz);
    if s.remaining < n then None
    else Some((s.(position := s.position + n, remaining := s.remaining - n), s.position))
  }

  predicate HasHeap(s: Heaps, h: nat) {
    h < |s.heads| == |s.arenas| && |s.heads[h]| == NUMBINS
  }

  // ZoneHeap::zoneMalloc and slowMalloc
  function ZoneMalloc(s: Heaps, h: nat, sz: nat): Option<(Heaps, int)>
    requires HasHeap(s, h)
  {
    var n := Align(sz);
    var a := s.arenas[h];
    if a.Arena? && a.remaining >= n then
      Some((s.(arenas := s.arenas[h := Arena(a.space + n, a.remaining - n)]), a.space))
    else
      var size := Max(CHUNK, n);
      match XheapMalloc(s, ARENAHEADER + size)
      case None => None
      case Some((t, buf)) =>
        var space := buf + ARENAHEADER;
        Some((t.(arenas := t.arenas[h := Arena(space + n, size - n)]), space))
  }

  // NewSourceHeap::malloc: the header holds a mark and the size.
  function BlockMalloc(s: Heaps, h: nat, size: nat): Option<(Heaps, int)>
    requires HasHeap(s, h)
  {
    match ZoneMalloc(s, h, size + HEADER)
    case None => None
    case Some((t, o)) => Some((t.(mem := t.mem[o := MAGIC][o + 8 := size]), o + HEADER))
  }

  // StrictSegHeap::malloc below the wrapper; None when the pages run out.
  function Malloc(s: Heaps, h: nat, sz: nat): Option<(Heaps, int)>
    requires HasHeap(s, h)
  {
    var n := Rounded(sz);
    if n <= MAXOBJECT then
      LeastClassBounded(n);
      var c := LeastClass(n);
      var p := s.heads[h][c];
      if p != NOWHERE then
        Some((s.(heads := s.heads[h := s.heads[h][c := Word(s.mem, p)]]), p))
      else BlockMalloc(s, h, Class2Size(c))
    else BlockMalloc(s, h, n)
  }

  // The class a freed block goes to: the loop in StrictSegHeap::free.
  function ClassBelow(c: nat, size: nat): nat {
    if c > 0 && Class2Size(c) > size then ClassBelow(c - 1, size) else c
  }

  // free; None when the header's mark is wrong and the program aborts.
  function Free(s: Heaps, h: nat, p: int): Option<Heaps>
    requires HasHeap(s, h)
  {
    if p == NOWHERE then Some(s)
    else if Word(s.mem, p - HEADER) != MAGIC then None
    else
      var size := Word(s.mem, p - 8);
      if size <= 0 || size > MAXOBJECT then Some(s)
      else
        LeastClassBounded(size);
        var c := ClassBelow(LeastClass(size), size);
        ClassBelowBounded(LeastClass(size), size);
        Some(s.(mem := s.mem[p := s.heads[h][c]], heads := s.heads[h := s.heads[h][c := p]]))
  }

  lemma {:induction false} ClassBelowBounded(c: nat, size: nat)
    ensures ClassBelow(c, size) <= c
    ensures Class2Size(c) <= size ==> ClassBelow(c, size) == c
  {
    if c > 0 && Class2Size(c) > size {
      ClassBelowBounded(c - 1, size);
    }
  }

  // ---- who owns what ----

  // Every block ever cut and its size, the live ones and what was asked for,
  // the free ones and the list they are on, and the lists.
  datatype Own = Own(
    blocks: map<int, nat>,
    live: map<int, nat>,
    free: map<int, (nat, nat)>,
    lists: seq<seq<seq<int>>>)

  predicate Shaped(s: Heaps, o: Own) {
    && 0 < s.start <= s.position && s.position % 8 == 0 && s.position + s.remaining == s.limit
    && |s.heads| == |s.arenas| == |o.lists|
    && (forall h :: 0 <= h < |s.heads| ==> |s.heads[h]| == NUMBINS && |o.lists[h]| == NUMBINS)
  }

  // A block with its header lies in the pages handed out, and the header tells
  // its size.
  predicate BlockAt(s: Heaps, o: Own, p: int)
    requires p in o.blocks
  {
    && s.start + HEADER <= p && p + o.blocks[p] <= s.position && o.blocks[p] >= 16 && p % 8 == 0
    && Word(s.mem, p - HEADER) == MAGIC && Word(s.mem, p - 8) == o.blocks[p]
    && (o.blocks[p] <= MAXOBJECT ==> exists c :: 0 <= c < NUMBINS && o.blocks[p] == Class2Size(c))
  }

  predicate Apart(a: int, b: int, c: int, d: int) {
    b <= c || d <= a
  }

  predicate BlocksApart(o: Own, p: int, q: int)
    requires p in o.blocks && q in o.blocks
  {
    p != q ==> Apart(p - HEADER, p + o.blocks[p], q - HEADER, q + o.blocks[q])
  }

  // The unused part of an arena lies in the pages handed out.
  predicate ArenaAt(s: Heaps, h: nat)
    requires h < |s.arenas|
  {
    var a := s.arenas[h];
    a.Arena? ==> s.start <= a.space && a.space + a.remaining <= s.position && a.space % 8 == 0
  }

  predicate ArenaClear(s: Heaps, o: Own, h: nat, p: int)
    requires h < |s.arenas| && p in o.blocks
  {
    var a := s.arenas[h];
    a.Arena? ==> Apart(p - HEADER, p + o.blocks[p], a.space, a.space + a.remaining)
  }

  predicate ArenasApart(s: Heaps, h: nat, k: nat)
    requires h < |s.arenas| && k < |s.arenas|
  {
    var a, b := s.arenas[h], s.arenas[k];
    h != k && a.Arena? && b.Arena? ==> Apart(a.space, a.space + a.remaining, b.space, b.space + b.remaining)
  }

  // A block is live, and large enough, or free, or, if it is too large for any
  // class, may be neither.
  predicate Owned(o: Own, p: int)
    requires p in o.blocks
  {
    && (p in o.live ==> o.live[p] <= o.blocks[p] && p !in o.free)
    && (o.blocks[p] <= MAXOBJECT ==> p in o.live || p in o.free)
    && (p in o.free ==> o.blocks[p] <= MAXOBJECT)
  }

  predicate OnList(o: Own, p: int)
    requires p in o.free
  {
    var h, c := o.free[p].0, o.free[p].1;
    && p in o.blocks
    && h < |o.lists| && c < |o.lists[h]| && p in o.lists[h][c]
  }

  // A free list: the head leads through the first words of its blocks.
  predicate Chain(mem: map<int, int>, head: int, list: seq<int>)
    decreases |list|
  {
    if list == [] then head == NOWHERE
    else head == list[0] && head != NOWHERE && Chain(mem, Word(mem, head), list[1..])
  }

  predicate NoRepeats(s: seq<int>) {
    forall i, j :: 0 <= i < j < |s| ==> s[i] != s[j]
  }

  // List c of heap h holds blocks of that class's size and no others.
  predicate BinAt(s: Heaps, o: Own, h: nat, c: nat)
    requires Shaped(s, o) && h < |s.heads| && c < NUMBINS
  {
    && Chain(s.mem, s.heads[h][c], o.lists[h][c])
    && NoRepeats(o.lists[h][c])
    && forall p :: p in o.lists[h][c] ==>
         p in o.free && p in o.blocks && o.free[p] == (h, c) && o.blocks[p] == Class2Size(c)
  }

  // Where things lie.
  ghost predicate Layout(s: Heaps, o: Own) {
    && Shaped(s, o)
    && (forall p :: p in o.blocks ==> BlockAt(s, o, p))
    && (forall p, q :: p in o.blocks && q in o.blocks ==> BlocksApart(o, p, q))
    && (forall h :: 0 <= h < |s.arenas| ==> ArenaAt(s, h))
    && (forall h, p :: 0 <= h < |s.arenas| && p in o.blocks ==> ArenaClear(s, o, h, p))
    && (forall h, k :: 0 <= h < |s.arenas| && 0 <= k < |s.arenas| ==> ArenasApart(s, h, k))
  }

  // Who has them.
  ghost predicate Shared(s: Heaps, o: Own) {
    && Shaped(s, o)
    && o.live.Keys <= o.blocks.Keys
    && (forall p :: p in o.blocks ==> Owned(o, p))
    && (forall p :: p in o.free ==> OnList(o, p))
    && (forall h, c :: 0 <= h < |s.heads| && 0 <= c < NUMBINS ==> BinAt(s, o, h, c))
  }

  ghost predicate Inv(s: Heaps, o: Own) {
    Layout(s, o) && Shared(s, o)
  }

  // ---- steps that move no boundary ----

  // The headers are as they were.
  predicate SameHeader(s: Heaps, t: Heaps, p: int) {
    Word(t.mem, p - HEADER) == Word(s.mem, p - HEADER) && Word(t.mem, p - 8) == Word(s.mem, p - 8)
  }

  lemma LayoutKept(s: Heaps, o: Own, t: Heaps, n: Own)
    requires Layout(s, o) && Shaped(t, n)
    requires t.start == s.start && t.position == s.position && t.arenas == s.arenas && n.blocks == o.blocks
    requires forall p :: p in o.blocks ==> SameHeader(s, t, p)
    ensures Layout(t, n)
  {
    forall p | p in n.blocks
      ensures BlockAt(t, n, p)
    {
      assert BlockAt(s, o, p) && SameHeader(s, t, p);
    }
    forall p, q | p in n.blocks && q in n.blocks
      ensures BlocksApart(n, p, q)
    {
      assert BlocksApart(o, p, q);
    }
    forall h | 0 <= h < |t.arenas|
      ensures ArenaAt(t, h)
    {
      assert ArenaAt(s, h);
    }
    forall h, p | 0 <= h < |t.arenas| && p in n.blocks
      ensures ArenaClear(t, n, h, p)
    {
      assert ArenaClear(s, o, h, p);
    }
    forall h, k | 0 <= h < |t.arenas| && 0 <= k < |t.arenas|
      ensures ArenasApart(t, h, k)
    {
      assert ArenasApart(s, h, k);
    }
  }

  lemma {:induction false} ChainKept(mem: map<int, int>, now: map<int, int>, head: int, list: seq<int>)
    requires Chain(mem, head, list)
    requires forall p :: p in list ==> Word(now, p) == Word(mem, p)
    ensures Chain(now, head, list)
    decreases |list|
  {
    if list != [] {
      assert list[0] in list;
      assert forall p :: p in list[1..] ==> p in list;
      ChainKept(mem, now, Word(mem, head), list[1..]);
    }
  }

  // ---- taking a block off a list ----

  function PopOwn(o: Own, h: nat, c: nat, sz: nat): Own
    requires h < |o.lists| && c < |o.lists[h]| && o.lists[h][c] != []
  {
    var p := o.lists[h][c][0];
    Own(o.blocks, o.live[p := sz], o.free - {p}, o.lists[h := o.lists[h][c := o.lists[h][c][1..]]])
  }

  function PopState(s: Heaps, h: nat, c: nat): Heaps
    requires HasHeap(s, h) && c < NUMBINS
  {
    s.(heads := s.heads[h := s.heads[h][c := Word(s.mem, s.heads[h][c])]])
  }

  lemma PopBin(s: Heaps, o: Own, h: nat, c: nat, sz: nat, k: nat, d: nat)
    requires Inv(s, o) && h < |s.heads| && c < NUMBINS && o.lists[h][c] != []
    requires k < |s.heads| && d < NUMBINS
    requires Shaped(PopState(s, h, c), PopOwn(o, h, c, sz))
    ensures BinAt(PopState(s, h, c), PopOwn(o, h, c, sz), k, d)
  {
    assert BinAt(s, o, k, d) && BinAt(s, o, h, c);
    var l := o.lists[h][c];
    assert forall p :: p in l <==> p == l[0] || p in l[1..];
  }

  lemma PopOnList(s: Heaps, o: Own, h: nat, c: nat, sz: nat, p: int)
    requires Inv(s, o) && h < |s.heads| && c < NUMBINS && o.lists[h][c] != []
    requires p in PopOwn(o, h, c, sz).free
    ensures OnList(PopOwn(o, h, c, sz), p)
  {
    assert OnList(o, p) && BinAt(s, o, h, c);
    var l := o.lists[h][c];
    assert forall q :: q in l <==> q == l[0] || q in l[1..];
    var k, d := o.free[p].0, o.free[p].1;
    var n := PopOwn(o, h, c, sz);
    assert p != l[0] && n.free[p] == o.free[p];
    assert n.lists[k][d] == if k == h && d == c then l[1..] else o.lists[k][d];
  }

  lemma PopKeeps(s: Heaps, o: Own, h: nat, c: nat, sz: nat)
    requires Inv(s, o) && h < |s.heads| && c < NUMBINS && o.lists[h][c] != [] && sz <= Class2Size(c)
    ensures Inv(PopState(s, h, c), PopOwn(o, h, c, sz))
  {
    var t, n := PopState(s, h, c), PopOwn(o, h, c, sz);
    LayoutKept(s, o, t, n);
    assert BinAt(s, o, h, c);
    var p := o.lists[h][c][0];
    assert p in o.lists[h][c];
    forall q | q in n.blocks
      ensures Owned(n, q)
    {
      assert Owned(o, q);
    }
    forall q | q in n.free
      ensures OnList(n, q)
    {
      PopOnList(s, o, h, c, sz, q);
    }
    forall k, d | 0 <= k < |t.heads| && 0 <= d < NUMBINS
      ensures BinAt(t, n, k, d)
    {
      PopBin(s, o, h, c, sz, k, d);
    }
  }

  // ---- putting a block on a list ----

  function PushOwn(o: Own, h: nat, c: nat, p: int): Own
    requires h < |o.lists| && c < |o.lists[h]|
  {
    Own(o.blocks, o.live - {p}, o.free[p := (h, c)], o.lists[h := o.lists[h][c := [p] + o.lists[h][c]]])
  }

  function PushState(s: Heaps, h: nat, c: nat, p: int): Heaps
    requires HasHeap(s, h) && c < NUMBINS
  {
    s.(mem := s.mem[p := s.heads[h][c]], heads := s.heads[h := s.heads[h][c := p]])
  }

  // Nothing the allocator keeps is in the payload of a live block: neither the
  // header of any block nor the link of any free one.
  lemma PayloadClear(s: Heaps, o: Own, p: int, q: int)
    requires Inv(s, o) && p in o.live && q in o.blocks
    ensures q <= p || p + o.live[p] <= q - HEADER
    ensures q in o.free ==> q + 8 <= p || p + o.live[p] <= q
  {
    assert p in o.blocks && Owned(o, p) && Owned(o, q) && BlocksApart(o, p, q);
    assert BlockAt(s, o, q) && BlockAt(s, o, p);
  }

  lemma PushBin(s: Heaps, o: Own, h: nat, c: nat, p: int, k: nat, d: nat)
    requires Inv(s, o) && h < |s.heads| && c < NUMBINS && p in o.live && o.blocks[p] == Class2Size(c)
    requires k < |s.heads| && d < NUMBINS
    requires Shaped(PushState(s, h, c, p), PushOwn(o, h, c, p))
    ensures BinAt(PushState(s, h, c, p), PushOwn(o, h, c, p), k, d)
  {
    assert BinAt(s, o, k, d) && Owned(o, p) && BlockAt(s, o, p);
    var t, n := PushState(s, h, c, p), PushOwn(o, h, c, p);
    var l := o.lists[k][d];
    assert p !in l;
    ChainKept(s.mem, t.mem, s.heads[k][d], l);
    if k == h && d == c {
      assert n.lists[k][d] == [p] + l && t.heads[k][d] == p && ([p] + l)[1..] == l;
    } else {
      assert n.lists[k][d] == l && t.heads[k][d] == s.heads[k][d];
    }
  }

  lemma PushOnList(s: Heaps, o: Own, h: nat, c: nat, p: int, q: int)
    requires Inv(s, o) && h < |s.heads| && c < NUMBINS && p in o.live
    requires q in PushOwn(o, h, c, p).free
    ensures OnList(PushOwn(o, h, c, p), q)
  {
    var n := PushOwn(o, h, c, p);
    if q == p {
      assert n.lists[h][c][0] == p;
    } else {
      assert OnList(o, q);
      var k, d := o.free[q].0, o.free[q].1;
      assert n.lists[k][d] == if k == h && d == c then [p] + o.lists[k][d] else o.lists[k][d];
    }
  }

  lemma PushKeeps(s: Heaps, o: Own, h: nat, c: nat, p: int)
    requires Inv(s, o) && h < |s.heads| && c < NUMBINS && p in o.live && o.blocks[p] == Class2Size(c)
    ensures Inv(PushState(s, h, c, p), PushOwn(o, h, c, p))
  {
    var t, n := PushState(s, h, c, p), PushOwn(o, h, c, p);
    forall q | q in o.blocks
      ensures SameHeader(s, t, q)
    {
      PayloadClear(s, o, p, q);
      assert BlockAt(s, o, q) && BlocksApart(o, p, q) && BlockAt(s, o, p);
    }
    LayoutKept(s, o, t, n);
    LargestClass();
    Pow2Monotone(c + 3, NUMBINS - 1 + 3);
    forall q | q in n.blocks
      ensures Owned(n, q)
    {
      assert Owned(o, q);
    }
    forall q | q in n.free
      ensures OnList(n, q)
    {
      PushOnList(s, o, h, c, p, q);
    }
    forall k, d | 0 <= k < |t.heads| && 0 <= d < NUMBINS
      ensures BinAt(t, n, k, d)
    {
      PushBin(s, o, h, c, p, k, d);
    }
  }

  // A block too large for any class is given up when it is freed.
  lemma DropKeeps(s: Heaps, o: Own, p: int)
    requires Inv(s, o) && p in o.live && o.blocks[p] > MAXOBJECT
    ensures Inv(s, o.(live := o.live - {p}))
  {
    var n := o.(live := o.live - {p});
    LayoutKept(s, o, s, n);
    forall q | q in n.blocks
      ensures Owned(n, q)
    {
      assert Owned(o, q);
    }
    forall q | q in n.free
      ensures OnList(n, q)
    {
      assert OnList(o, q);
    }
    forall k, d | 0 <= k < |s.heads| && 0 <= d < NUMBINS
      ensures BinAt(s, n, k, d)
    {
      assert BinAt(s, o, k, d);
    }
  }

  // ---- the program writes into a live block ----

  // mem becomes now, and only inside what was asked for at p.
  ghost predicate WritesInside(mem: map<int, int>, now: map<int, int>, p: int, size: nat) {
    forall a :: a + 8 <= p || p + size <= a ==> Word(now, a) == Word(mem, a)
  }

  lemma WriteKeeps(s: Heaps, o: Own, p: int, now: map<int, int>)
    requires Inv(s, o) && p in o.live && WritesInside(s.mem, now, p, o.live[p])
    ensures Inv(s.(mem := now), o)
  {
    var t := s.(mem := now);
    forall q | q in o.blocks
      ensures SameHeader(s, t, q)
    {
      PayloadClear(s, o, p, q);
    }
    LayoutKept(s, o, t, o);
    forall k, d | 0 <= k < |t.heads| && 0 <= d < NUMBINS
      ensures BinAt(t, o, k, d)
    {
      assert BinAt(s, o, k, d);
      forall q | q in o.lists[k][d]
        ensures Word(now, q) == Word(s.mem, q)
      {
        PayloadClear(s, o, p, q);
      }
      ChainKept(s.mem, now, s.heads[k][d], o.lists[k][d]);
    }
  }

  // ---- cutting a new block ----

  // The new block is cut from the front of heap h's arena, or of a new one made
  // from pages nobody has had.
  ghost predicate Cuts(s: Heaps, h: nat, size: nat, t: Heaps, p: int) {
    && HasHeap(s, h) && |t.arenas| == |s.arenas| && t.heads == s.heads
    && t.start == s.start && t.limit == s.limit
    && t.position >= s.position && t.position % 8 == 0 && p % 8 == 0
    && t.position + t.remaining == s.position + s.remaining
    && t.mem == s.mem[p - HEADER := MAGIC][p - 8 := size]
    && (forall k :: 0 <= k < |s.arenas| && k != h ==> t.arenas[k] == s.arenas[k])
    && t.arenas[h].Arena?
    && var a := t.arenas[h];
    && p + size <= a.space && a.space + a.remaining <= t.position && a.space % 8 == 0
    && ((s.arenas[h].Arena? && p - HEADER == s.arenas[h].space &&
         a.space + a.remaining == s.arenas[h].space + s.arenas[h].remaining)
        || p - HEADER >= s.position)
  }

  // The arena has room: the block comes from its front.
  lemma CutFromArena(s: Heaps, h: nat, size: nat)
    requires HasHeap(s, h) && s.position % 8 == 0 && s.arenas[h].Arena? && s.arenas[h].remaining >= Align(size + HEADER)
    requires s.arenas[h].space + s.arenas[h].remaining <= s.position && s.arenas[h].space % 8 == 0
    ensures BlockMalloc(s, h, size).Some?
    ensures Cuts(s, h, size, BlockMalloc(s, h, size).value.0, BlockMalloc(s, h, size).value.1)
  {
  }

  // It has not: a new arena is cut from fresh pages first.
  lemma CutFromPages(s: Heaps, h: nat, size: nat)
    requires HasHeap(s, h) && s.position % 8 == 0
    requires s.arenas[h].Arena? ==> s.arenas[h].remaining < Align(size + HEADER)
    ensures BlockMalloc(s, h, size).Some? ==>
              Cuts(s, h, size, BlockMalloc(s, h, size).value.0, BlockMalloc(s, h, size).value.1)
  {
    var n := Align(size + HEADER);
    var pages := PageRounded(ARENAHEADER + Max(CHUNK, n));
    assert n <= Max(CHUNK, n);
    AlignedSum(s.position, pages);
    AlignedSum(s.position + ARENAHEADER, n);
  }

  lemma AlignedSum(a: int, b: int)
    requires a % 8 == 0 && b % 8 == 0
    ensures (a + b) % 8 == 0
  {
  }

  lemma CutFacts(s: Heaps, h: nat, size: nat)
    requires HasHeap(s, h) && s.position % 8 == 0
    requires s.arenas[h].Arena? ==>
               s.arenas[h].space + s.arenas[h].remaining <= s.position && s.arenas[h].space % 8 == 0
    ensures BlockMalloc(s, h, size).Some? ==>
              Cuts(s, h, size, BlockMalloc(s, h, size).value.0, BlockMalloc(s, h, size).value.1)
  {
    if s.arenas[h].Arena? && s.arenas[h].remaining >= Align(size + HEADER) {
      CutFromArena(s, h, size);
    } else {
      CutFromPages(s, h, size);
    }
  }

  function CutOwn(o: Own, p: int, size: nat, sz: nat): Own {
    o.(blocks := o.blocks[p := size], live := o.live[p := sz])
  }

  // What was cut is apart from every block and from every other arena.
  lemma CutApart(s: Heaps, o: Own, h: nat, size: nat, t: Heaps, p: int, q: int)
    requires Inv(s, o) && h < |s.heads| && Cuts(s, h, size, t, p) && size >= 16 && q in o.blocks
    ensures Apart(p - HEADER, p + size, q - HEADER, q + o.blocks[q]) && q != p
    ensures forall k :: 0 <= k < |t.arenas| ==> ArenaClear(t, CutOwn(o, p, size, 0), k, q)
  {
    assert BlockAt(s, o, q) && ArenaClear(s, o, h, q);
    forall k | 0 <= k < |t.arenas|
      ensures ArenaClear(t, CutOwn(o, p, size, 0), k, q)
    {
      assert ArenaClear(s, o, k, q) && ArenaAt(s, k);
    }
  }

  lemma CutArenas(s: Heaps, o: Own, h: nat, size: nat, t: Heaps, p: int)
    requires Inv(s, o) && h < |s.heads| && Cuts(s, h, size, t, p) && size >= 16
    ensures s.start <= p - HEADER && p + size <= t.position
    ensures forall k :: 0 <= k < |t.arenas| ==> ArenaAt(t, k) && ArenaClear(t, CutOwn(o, p, size, 0), k, p)
    ensures forall j, k :: 0 <= j < |t.arenas| && 0 <= k < |t.arenas| ==> ArenasApart(t, j, k)
  {
    assert ArenaAt(s, h);
    forall k | 0 <= k < |t.arenas|
      ensures ArenaAt(t, k) && ArenaClear(t, CutOwn(o, p, size, 0), k, p)
    {
      assert ArenaAt(s, k) && ArenasApart(s, h, k);
    }
    forall j, k | 0 <= j < |t.arenas| && 0 <= k < |t.arenas|
      ensures ArenasApart(t, j, k)
    {
      assert ArenasApart(s, j, k) && ArenaAt(s, j) && ArenaAt(s, k);
    }
  }

  lemma CutLayout(s: Heaps, o: Own, h: nat, size: nat, sz: nat, t: Heaps, p: int)
    requires Inv(s, o) && h < |s.heads| && Cuts(s, h, size, t, p) && size >= 16
    requires size <= MAXOBJECT ==> exists c :: 0 <= c < NUMBINS && size == Class2Size(c)
    ensures Layout(t, CutOwn(o, p, size, sz))
  {
    var n := CutOwn(o, p, size, sz);
    CutArenas(s, o, h, size, t, p);
    forall q | q in n.blocks
      ensures BlockAt(t, n, q)
    {
      if q != p {
        assert BlockAt(s, o, q);
        CutApart(s, o, h, size, t, p, q);
      }
    }
    forall q, r | q in n.blocks && r in n.blocks
      ensures BlocksApart(n, q, r)
    {
      if q in o.blocks && q != p { CutApart(s, o, h, size, t, p, q); }
      if r in o.blocks && r != p { CutApart(s, o, h, size, t, p, r); }
      if q != p && r != p { assert BlocksApart(o, q, r); }
    }
    forall k, q | 0 <= k < |t.arenas| && q in n.blocks
      ensures ArenaClear(t, n, k, q)
    {
      if q == p {
        assert ArenaClear(t, CutOwn(o, p, size, 0), k, p);
      } else {
        CutApart(s, o, h, size, t, p, q);
        assert ArenaClear(t, CutOwn(o, p, size, 0), k, q);
      }
    }
  }

  lemma CutShared(s: Heaps, o: Own, h: nat, size: nat, sz: nat, t: Heaps, p: int)
    requires Inv(s, o) && h < |s.heads| && Cuts(s, h, size, t, p) && size >= 16 && sz <= size
    ensures Shared(t, CutOwn(o, p, size, sz))
  {
    var n := CutOwn(o, p, size, sz);
    if p in o.blocks { CutApart(s, o, h, size, t, p, p); }
    forall q | q in o.free
      ensures q in o.blocks
    {
      assert OnList(o, q);
    }
    forall q | q in n.blocks
      ensures Owned(n, q)
    {
      assert q != p ==> Owned(o, q);
    }
    forall q | q in n.free
      ensures OnList(n, q)
    {
      assert OnList(o, q);
    }
    forall k, d | 0 <= k < |t.heads| && 0 <= d < NUMBINS
      ensures BinAt(t, n, k, d)
    {
      assert BinAt(s, o, k, d);
      forall q | q in o.lists[k][d]
        ensures Word(t.mem, q) == Word(s.mem, q)
      {
        CutApart(s, o, h, size, t, p, q);
        assert BlockAt(s, o, q);
      }
      ChainKept(s.mem, t.mem, s.heads[k][d], o.lists[k][d]);
    }
  }

  // ---- runs ----

  // DoWrite is the program writing into its own block p.
  datatype Step = DoMalloc(h: nat, sz: nat) | DoFree(h: nat, p: int) | DoWrite(p: int, now: map<int, int>)

  ghost predicate Legal(s: Heaps, o: Own, x: Step) {
    match x
    case DoMalloc(h, sz) => HasHeap(s, h) && Malloc(s, h, sz).Some?
    case DoFree(h, p) => HasHeap(s, h) && (p == NOWHERE || p in o.live)
    case DoWrite(p, now) => p in o.live && WritesInside(s.mem, now, p, o.live[p])
  }

  function StepState(s: Heaps, x: Step): Heaps {
    match x
    case DoMalloc(h, sz) => if HasHeap(s, h) && Malloc(s, h, sz).Some? then Malloc(s, h, sz).value.0 else s
    case DoFree(h, p) => if HasHeap(s, h) && Free(s, h, p).Some? then Free(s, h, p).value else s
    case DoWrite(p, now) => s.(mem := now)
  }

  // The size of the block that serves a request.
  function BlockSize(sz: nat): nat {
    if Rounded(sz) <= MAXOBJECT then Class2Size(LeastClass(Rounded(sz))) else Rounded(sz)
  }

  function MallocOwn(s: Heaps, o: Own, h: nat, sz: nat): Own
    requires Shaped(s, o) && HasHeap(s, h) && Malloc(s, h, sz).Some?
  {
    var n, p := Rounded(sz), Malloc(s, h, sz).value.1;
    LeastClassBounded(if n <= MAXOBJECT then n else 0);
    if n <= MAXOBJECT && o.lists[h][LeastClass(n)] != [] then PopOwn(o, h, LeastClass(n), sz)
    else CutOwn(o, p, BlockSize(sz), sz)
  }

  function FreeOwn(s: Heaps, o: Own, h: nat, p: int): Own
    requires Shaped(s, o) && HasHeap(s, h)
  {
    if p !in o.live || p !in o.blocks then o
    else if o.blocks[p] > MAXOBJECT then o.(live := o.live - {p})
    else
      LeastClassBounded(o.blocks[p]);
      PushOwn(o, h, LeastClass(o.blocks[p]), p)
  }

  function StepOwn(s: Heaps, o: Own, x: Step): Own {
    match x
    case DoMalloc(h, sz) =>
      if Shaped(s, o) && HasHeap(s, h) && Malloc(s, h, sz).Some? then MallocOwn(s, o, h, sz) else o
    case DoFree(h, p) => if Shaped(s, o) && HasHeap(s, h) then FreeOwn(s, o, h, p) else o
    case DoWrite(_, _) => o
  }

  lemma BlockSizeFits(sz: nat)
    ensures sz <= BlockSize(sz) && BlockSize(sz) >= 16
    ensures BlockSize(sz) <= MAXOBJECT ==> exists c :: 0 <= c < NUMBINS && BlockSize(sz) == Class2Size(c)
  {
    if Rounded(sz) <= MAXOBJECT {
      LeastClassBounded(Rounded(sz));
    }
  }

  lemma MallocKeeps(s: Heaps, o: Own, h: nat, sz: nat)
    requires Inv(s, o) && HasHeap(s, h) && Malloc(s, h, sz).Some?
    ensures Inv(Malloc(s, h, sz).value.0, MallocOwn(s, o, h, sz))
    ensures var p := Malloc(s, h, sz).value.1; p !in o.live && MallocOwn(s, o, h, sz).live == o.live[p := sz]
  {
    var n := Rounded(sz);
    var (t, p) := Malloc(s, h, sz).value;
    BlockSizeFits(sz);
    var cut := true;
    if n <= MAXOBJECT {
      LeastClassBounded(n);
      var c := LeastClass(n);
      assert BinAt(s, o, h, c);
      if o.lists[h][c] != [] {
        cut := false;
        PopKeeps(s, o, h, c, sz);
        assert o.lists[h][c][0] in o.lists[h][c] && Owned(o, o.lists[h][c][0]);
      }
    }
    if cut {
      var size := BlockSize(sz);
      assert ArenaAt(s, h);
      CutFacts(s, h, size);
      if p in o.blocks { CutApart(s, o, h, size, t, p, p); }
      CutLayout(s, o, h, size, sz, t, p);
      CutShared(s, o, h, size, sz, t, p);
    }
  }

  // What free does to a live block, whatever heap it is freed into.
  lemma FreeKeeps(s: Heaps, o: Own, h: nat, p: int)
    requires Inv(s, o) && HasHeap(s, h) && (p == NOWHERE || p in o.live)
    ensures Free(s, h, p).Some? && Inv(Free(s, h, p).value, FreeOwn(s, o, h, p))
    ensures FreeOwn(s, o, h, p).live == o.live - {p}
  {
    if p in o.live {
      assert p in o.blocks && BlockAt(s, o, p) && Owned(o, p);
      if o.blocks[p] > MAXOBJECT {
        DropKeeps(s, o, p);
      } else {
        var c :| 0 <= c < NUMBINS && o.blocks[p] == Class2Size(c);
        ClassOfClassSize(c);
        ClassBelowBounded(c, o.blocks[p]);
        PushKeeps(s, o, h, c, p);
        assert Free(s, h, p) == Some(PushState(s, h, c, p));
      }
    }
  }

  lemma StepKeeps(s: Heaps, o: Own, x: Step)
    requires Inv(s, o) && Legal(s, o, x)
    ensures Inv(StepState(s, x), StepOwn(s, o, x))
  {
    match x
    case DoMalloc(h, sz) => MallocKeeps(s, o, h, sz);
    case DoFree(h, p) => FreeKeeps(s, o, h, p);
    case DoWrite(p, now) => WriteKeeps(s, o, p, now);
  }

  // The heaps before the first request: n of them, sharing the pages from start.
  function Start(n: nat, start: int, size: nat): Heaps {
    Heaps(start, start, size, start + size, map[], seq(n, i => NoArena), seq(n, i => seq(NUMBINS, j => NOWHERE)))
  }

  function StartOwn(n: nat): Own {
    Own(map[], map[], map[], seq(n, i => seq(NUMBINS, j => [])))
  }

  lemma StartInv(n: nat, start: int, size: nat)
    requires start > 0 && start % 8 == 0
    ensures Inv(Start(n, start, size), StartOwn(n))
  {
  }

  // Every step of a run has to be legal where it is taken.
  ghost predicate Runs(s: Heaps, o: Own, xs: seq<Step>) {
    xs == [] ||
    (var ys := xs[..|xs| - 1];
     Runs(s, o, ys) && Legal(After(s, o, ys).0, After(s, o, ys).1, xs[|xs| - 1]))
  }

  function After(s: Heaps, o: Own, xs: seq<Step>): (Heaps, Own) {
    if xs == [] then (s, o)
    else
      var (t, n) := After(s, o, xs[..|xs| - 1]);
      (StepState(t, xs[|xs| - 1]), StepOwn(t, n, xs[|xs| - 1]))
  }

  lemma {:induction false} RunKeeps(s: Heaps, o: Own, xs: seq<Step>)
    requires Inv(s, o) && Runs(s, o, xs)
    ensures Inv(After(s, o, xs).0, After(s, o, xs).1)
    decreases |xs|
  {
    if xs != [] {
      RunKeeps(s, o, xs[..|xs| - 1]);
      var (t, n) := After(s, o, xs[..|xs| - 1]);
      StepKeeps(t, n, xs[|xs| - 1]);
    }
  }

  // Blocks that are in use never overlap, lie in the shared pages, and are
  // aligned to 8.
  lemma LiveApart(s: Heaps, o: Own, p: int, q: int)
    requires Inv(s, o) && p in o.live && q in o.live && p != q
    ensures Apart(p, p + o.live[p], q, q + o.live[q])
    ensures s.start < p && p + o.live[p] <= s.limit && p % 8 == 0
  {
    assert p in o.blocks && q in o.blocks;
    assert BlockAt(s, o, p) && BlockAt(s, o, q) && Owned(o, p) && Owned(o, q) && BlocksApart(o, p, q);
  }

  predicate InBin(o: Own, p: int, h: int, c: int) {
    0 <= h < |o.lists| && 0 <= c < |o.lists[h]| && p in o.lists[h][c]
  }

  // A block that was ever cut for a class is in use or in exactly one list of
  // exactly one heap, that of its own size; no block is both.
  lemma LiveOrInOneBin(s: Heaps, o: Own, p: int)
    requires Inv(s, o) && p in o.blocks && o.blocks[p] <= MAXOBJECT
    ensures p in o.live ==> forall h, c :: !InBin(o, p, h, c)
    ensures p !in o.live ==>
              exists h, c :: InBin(o, p, h, c) && o.blocks[p] == Class2Size(c) &&
                forall k, d :: InBin(o, p, k, d) ==> k == h && d == c
  {
    assert Owned(o, p);
    forall k, d | InBin(o, p, k, d)
      ensures p in o.free && o.free[p] == (k, d)
    {
      assert BinAt(s, o, k, d);
    }
    if p !in o.live {
      assert OnList(o, p);
      var h, c := o.free[p].0, o.free[p].1;
      assert BinAt(s, o, h, c) && InBin(o, p, h, c);
    }
  }

  // Every word inside what was asked for at q.
  ghost predicate SamePayload(mem: map<int, int>, now: map<int, int>, q: int, size: nat) {
    forall a :: q <= a && a + 8 <= q + size ==> Word(now, a) == Word(mem, a)
  }

  // The allocator never changes what the program has stored in a block it holds.
  lemma PayloadKept(s: Heaps, o: Own, x: Step, q: int)
    requires Inv(s, o) && Legal(s, o, x) && !x.DoWrite?
    requires q in o.live && q in StepOwn(s, o, x).live
    ensures SamePayload(s.mem, StepState(s, x).mem, q, o.live[q])
    ensures StepOwn(s, o, x).live[q] == o.live[q]
  {
    match x
    case DoMalloc(h, sz) => MallocPayload(s, o, h, sz, q);
    case DoFree(h, p) => FreePayload(s, o, h, p, q);
  }

  lemma MallocPayload(s: Heaps, o: Own, h: nat, sz: nat, q: int)
    requires Inv(s, o) && HasHeap(s, h) && Malloc(s, h, sz).Some? && q in o.live
    ensures SamePayload(s.mem, Malloc(s, h, sz).value.0.mem, q, o.live[q])
    ensures q in MallocOwn(s, o, h, sz).live && MallocOwn(s, o, h, sz).live[q] == o.live[q]
  {
    MallocKeeps(s, o, h, sz);
    var (t, p) := Malloc(s, h, sz).value;
    assert q in o.blocks && Owned(o, q);
    if t.mem != s.mem {
      var size := BlockSize(sz);
      BlockSizeFits(sz);
      assert ArenaAt(s, h);
      CutFacts(s, h, size);
      CutApart(s, o, h, size, t, p, q);
    }
  }

  lemma FreePayload(s: Heaps, o: Own, h: nat, p: int, q: int)
    requires Inv(s, o) && HasHeap(s, h) && (p == NOWHERE || p in o.live) && q in o.live && p != q
    ensures Free(s, h, p).Some? && SamePayload(s.mem, Free(s, h, p).value.mem, q, o.live[q])
  {
    FreeKeeps(s, o, h, p);
    if p in o.live {
      assert p in o.blocks && q in o.blocks;
      assert BlocksApart(o, p, q) && BlockAt(s, o, p) && BlockAt(s, o, q) && Owned(o, q);
    }
  }

  // Any number of heaps sharing the pages, after any run of requests, frees into
  // whatever heap and writes: blocks in use do not overlap, and a freed one is on
  // one list.
  lemma RunSafe(n: nat, start: int, size: nat, xs: seq<Step>, p: int, q: int)
    requires start > 0 && start % 8 == 0 && Runs(Start(n, start, size), StartOwn(n), xs)
    ensures
      var (s, o) := After(Start(n, start, size), StartOwn(n), xs);
      && (p in o.live && q in o.live && p != q ==> Apart(p, p + o.live[p], q, q + o.live[q]))
      && (p in o.blocks && o.blocks[p] <= MAXOBJECT && p !in o.live ==>
            exists h, c :: InBin(o, p, h, c) && forall k, d :: InBin(o, p, k, d) ==> k == h && d == c)
  {
    var (s, o) := After(Start(n, start, size), StartOwn(n), xs);
    StartInv(n, start, size);
    RunKeeps(Start(n, start, size), StartOwn(n), xs);
    if p in o.live && q in o.live && p != q {
      LiveApart(s, o, p, q);
    }
    if p in o.blocks && o.blocks[p] <= MAXOBJECT {
      LiveOrInOneBin(s, o, p);
    }
  }

  // ---- what a request gets ----

  // The block for a request is the least class size, from 16 on, that is large
  // enough; a request with no class gets its size rounded up to 8.
  lemma BlockSizeLeast(sz: nat, c: nat)
    ensures sz <= BlockSize(sz) && 16 <= BlockSize(sz)
    ensures sz <= MAXOBJECT ==> exists d :: 0 <= d < NUMBINS && BlockSize(sz) == Class2Size(d)
    ensures sz <= MAXOBJECT && sz <= Class2Size(c) && 16 <= Class2Size(c) ==> BlockSize(sz) <= Class2Size(c)
    ensures sz > MAXOBJECT ==> BlockSize(sz) % 8 == 0 && BlockSize(sz) < sz + 8
  {
    BlockSizeFits(sz);
    if sz <= MAXOBJECT {
      RoundedUnder(sz, MAXOBJECT);
      LeastClassBounded(Rounded(sz));
      if sz <= Class2Size(c) && 16 <= Class2Size(c) {
        ClassesAligned(c);
        RoundedUnder(sz, Class2Size(c));
        LeastUnder(Rounded(sz), c);
      }
    }
  }

  lemma RoundedUnder(sz: nat, n: nat)
    requires n % 8 == 0 && sz <= n && 16 <= n
    ensures Rounded(sz) <= n
  {
  }

  lemma LeastUnder(sz: nat, c: nat)
    requires sz <= Class2Size(c)
    ensures Class2Size(LeastClass(sz)) <= Class2Size(c)
  {
    var d := LeastClass(sz);
    if c < d {
      Pow2Monotone(c + 3, d - 1 + 3);
    } else {
      Pow2Monotone(d + 3, c + 3);
    }
  }

  lemma ClassesAligned(c: nat)
    ensures Class2Size(c) % 8 == 0
  {
    assert Pow2(3) == 8;
    Pow2Sum(3, c);
  }

  lemma {:induction false} Pow2Sum(a: nat, b: nat)
    ensures Pow2(b + a) == Pow2(a) * Pow2(b)
    decreases b
  {
    if b > 0 {
      Pow2Sum(a, b - 1);
    }
  }

  // Heap h has a free block of this size on a list.
  predicate Listed(o: Own, h: nat, size: nat) {
    h < |o.lists| && exists c :: 0 <= c < |o.lists[h]| && size == Class2Size(c) && o.lists[h][c] != []
  }

  // What a block of this size takes with its header.
  function Taken(size: nat): nat {
    (size + HEADER + 7) / 8 * 8
  }

  predicate Room(s: Heaps, h: nat, size: nat)
    requires h < |s.arenas|
  {
    s.arenas[h].Arena? && s.arenas[h].remaining >= Taken(size)
  }

  // A new arena for it, with the arena's own words.
  function ArenaSize(size: nat): nat {
    ARENAHEADER + if Taken(size) > CHUNK then Taken(size) else CHUNK
  }

  lemma ListedClass(s: Heaps, o: Own, h: nat, sz: nat)
    requires Inv(s, o) && HasHeap(s, h)
    ensures Rounded(sz) > MAXOBJECT ==> !Listed(o, h, BlockSize(sz))
    ensures Rounded(sz) <= MAXOBJECT ==>
              && LeastClass(Rounded(sz)) < NUMBINS
              && (Listed(o, h, BlockSize(sz)) <==> o.lists[h][LeastClass(Rounded(sz))] != [])
  {
    if Rounded(sz) <= MAXOBJECT {
      LeastClassBounded(Rounded(sz));
    }
    forall c | 0 <= c < NUMBINS && BlockSize(sz) == Class2Size(c)
      ensures Rounded(sz) <= MAXOBJECT && c == LeastClass(Rounded(sz))
    {
      ClassLimit(c);
      ClassInjective(c, LeastClass(Rounded(sz)));
    }
  }

  // A request is refused exactly if the heap has no free block of the size, no room
  // in its arena, and too few whole pages are left for a new arena.
  lemma MallocSucceeds(s: Heaps, o: Own, h: nat, sz: nat)
    requires Inv(s, o) && HasHeap(s, h)
    ensures
      var size := BlockSize(sz);
      Malloc(s, h, sz).Some? <==>
        Listed(o, h, size) || Room(s, h, size) || s.remaining / PAGE * PAGE >= ArenaSize(size)
  {
    ListedClass(s, o, h, sz);
    CutSucceeds(s, h, BlockSize(sz));
    if Rounded(sz) <= MAXOBJECT {
      assert BinAt(s, o, h, LeastClass(Rounded(sz)));
    }
  }

  lemma CutSucceeds(s: Heaps, h: nat, size: nat)
    requires HasHeap(s, h)
    ensures BlockMalloc(s, h, size).Some? <==> Room(s, h, size) || s.remaining / PAGE * PAGE >= ArenaSize(size)
  {
    PagesSucceed(s, ArenaSize(size));
  }

  lemma PagesSucceed(s: Heaps, n: nat)
    ensures XheapMalloc(s, n).Some? <==> s.remaining / PAGE * PAGE >= n
  {
    PagesFit(n, s.remaining);
  }

  lemma PagesFit(n: nat, m: nat)
    ensures PAGE * ((n + PAGE - 1) / PAGE) <= m <==> n <= m / PAGE * PAGE
  {
  }

  // Where the block comes from: the block freed last, the front of the arena, or
  // the front of a new arena at the first page nobody has had; what it does not take
  // of the arena stays there.
  ghost predicate PlacedAt(s: Heaps, o: Own, h: nat, size: nat, t: Heaps, p: int)
    requires h < |s.arenas|
  {
    var at := p - HEADER;
    && |t.arenas| == |s.arenas| && t.position - s.position == s.remaining - t.remaining
    && (forall k :: 0 <= k < |s.arenas| && k != h ==> t.arenas[k] == s.arenas[k])
    && if Listed(o, h, size) then
         && t.arenas == s.arenas && t.position == s.position && t.mem == s.mem
         && exists c :: 0 <= c < |o.lists[h]| && size == Class2Size(c) && o.lists[h][c] != [] && p == o.lists[h][c][0]
       else if Room(s, h, size) then InArena(s, h, size, t, at)
       else InPages(s, h, size, t, at)
  }

  predicate InArena(s: Heaps, h: nat, size: nat, t: Heaps, at: int)
    requires h < |s.arenas| == |t.arenas| && Room(s, h, size)
  {
    && t.position == s.position && at == s.arenas[h].space
    && t.arenas[h] == Arena(at + Taken(size), s.arenas[h].remaining - Taken(size))
  }

  predicate InPages(s: Heaps, h: nat, size: nat, t: Heaps, at: int)
    requires h < |s.arenas| == |t.arenas|
  {
    && at == s.position + ARENAHEADER
    && (t.position - s.position) % PAGE == 0
    && ArenaSize(size) <= t.position - s.position < ArenaSize(size) + PAGE
    && t.arenas[h] == Arena(at + Taken(size), ArenaSize(size) - ARENAHEADER - Taken(size))
  }

  lemma CutPlace(s: Heaps, h: nat, size: nat)
    requires HasHeap(s, h) && BlockMalloc(s, h, size).Some?
    ensures
      var (t, p) := BlockMalloc(s, h, size).value;
      && |t.arenas| == |s.arenas| && t.position - s.position == s.remaining - t.remaining
      && (forall k :: 0 <= k < |s.arenas| && k != h ==> t.arenas[k] == s.arenas[k])
      && if Room(s, h, size) then InArena(s, h, size, t, p - HEADER) else InPages(s, h, size, t, p - HEADER)
  {
    if !Room(s, h, size) {
      PagesTaken(s, ArenaSize(size));
    }
  }

  lemma PagesTaken(s: Heaps, n: nat)
    requires XheapMalloc(s, n).Some?
    ensures
      var t := XheapMalloc(s, n).value.0;
      (t.position - s.position) % PAGE == 0 && n <= t.position - s.position < n + PAGE
  {
  }

  lemma MallocPlace(s: Heaps, o: Own, h: nat, sz: nat)
    requires Inv(s, o) && HasHeap(s, h) && Malloc(s, h, sz).Some?
    ensures PlacedAt(s, o, h, BlockSize(sz), Malloc(s, h, sz).value.0, Malloc(s, h, sz).value.1)
  {
    ListedClass(s, o, h, sz);
    var size := BlockSize(sz);
    if Listed(o, h, size) {
      var c := LeastClass(Rounded(sz));
      assert BinAt(s, o, h, c);
      assert 0 <= c < |o.lists[h]| && size == Class2Size(c) && o.lists[h][c] != [];
    } else {
      if Rounded(sz) <= MAXOBJECT {
        assert BinAt(s, o, h, LeastClass(Rounded(sz)));
      }
      assert Malloc(s, h, sz) == BlockMalloc(s, h, size);
      CutPlace(s, h, size);
    }
  }

  predicate HeadSet(s: Heaps, t: Heaps, h: nat, c: nat, p: int) {
    HasHeap(s, h) && HasHeap(t, h) && c < NUMBINS && t.heads[h] == s.heads[h][c := p]
  }

  // A free stops the program exactly if the header in front of the block is not
  // marked; otherwise it changes only the block's first word and the head of one
  // list of that heap, and nothing at all for a block too large for any class.
  lemma FreeExact(s: Heaps, h: nat, p: int)
    requires HasHeap(s, h)
    ensures Free(s, h, p).None? <==> p != NOWHERE && Word(s.mem, p - HEADER) != MAGIC
    ensures
      Free(s, h, p).Some? ==>
        var t := Free(s, h, p).value;
        && t == s.(mem := t.mem, heads := t.heads)
        && (p == NOWHERE || Word(s.mem, p - 8) > MAXOBJECT ==> t == s)
        && (forall a :: a != p ==> Word(t.mem, a) == Word(s.mem, a))
        && HasHeap(t, h) && |t.heads| == |s.heads|
        && (forall k :: 0 <= k < |s.heads| && k != h ==> t.heads[k] == s.heads[k])
        && (t != s ==> exists c :: HeadSet(s, t, h, c, p))
  {
    if p != NOWHERE && Word(s.mem, p - HEADER) == MAGIC && 0 < Word(s.mem, p - 8) <= MAXOBJECT {
      var size := Word(s.mem, p - 8);
      LeastClassBounded(size);
      ClassBelowBounded(LeastClass(size), size);
      var c := ClassBelow(LeastClass(size), size);
      assert HeadSet(s, Free(s, h, p).value, h, c, p);
    }
  }

  // A block that is freed is the next one its heap hands out for a request that
  // needs a block of its size.
  lemma FreeThenMalloc(s: Heaps, o: Own, h: nat, p: int, sz: nat)
    requires Inv(s, o) && HasHeap(s, h) && p in o.live && p in o.blocks && o.blocks[p] == BlockSize(sz) <= MAXOBJECT
    ensures Free(s, h, p).Some? && HasHeap(Free(s, h, p).value, h)
    ensures Malloc(Free(s, h, p).value, h, sz).Some? && Malloc(Free(s, h, p).value, h, sz).value.1 == p
  {
    FreeKeeps(s, o, h, p);
    FreedFirst(s, o, h, p);
    var c := LeastClass(o.blocks[p]);
    HandsOutFirst(Free(s, h, p).value, FreeOwn(s, o, h, p), h, c, sz);
  }

  lemma FreedFirst(s: Heaps, o: Own, h: nat, p: int)
    requires Inv(s, o) && HasHeap(s, h) && p in o.live && p in o.blocks && o.blocks[p] <= MAXOBJECT
    ensures Free(s, h, p).Some? ==> HasHeap(Free(s, h, p).value, h)
    ensures
      var n, c := FreeOwn(s, o, h, p), LeastClass(o.blocks[p]);
      c < NUMBINS && h < |n.lists| && c < |n.lists[h]| && n.lists[h][c] != [] && n.lists[h][c][0] == p
      && Class2Size(c) == o.blocks[p]
  {
    LeastClassBounded(o.blocks[p]);
    assert BlockAt(s, o, p);
    var d :| 0 <= d < NUMBINS && o.blocks[p] == Class2Size(d);
    ClassOfClassSize(d);
  }

  lemma HandsOutFirst(s: Heaps, o: Own, h: nat, c: nat, sz: nat)
    requires Inv(s, o) && HasHeap(s, h) && c < |o.lists[h]| && o.lists[h][c] != [] && BlockSize(sz) == Class2Size(c)
    ensures Malloc(s, h, sz).Some? && Malloc(s, h, sz).value.1 == o.lists[h][c][0]
  {
    assert Listed(o, h, BlockSize(sz));
    MallocSucceeds(s, o, h, sz);
    MallocPlace(s, o, h, sz);
    forall d | 0 <= d < |o.lists[h]| && BlockSize(sz) == Class2Size(d)
      ensures d == c
    {
      ClassInjective(d, c);
    }
  }

  // ---- the footprint of one heap ----

  ghost function CutOf(o: Own, c: nat): set<int> {
    set p | p in o.blocks && o.blocks[p] == Class2Size(c)
  }

  ghost function LiveOf(o: Own, c: nat): set<int> {
    set p | p in o.live && p in o.blocks && o.blocks[p] == Class2Size(c)
  }

  lemma SubsetSize(a: set<int>, b: set<int>)
    requires a <= b
    ensures |a| <= |b|
  {
    assert b == a + (b - a);
    assert a * (b - a) == {};
  }

  lemma ClassInjective(c: nat, d: nat)
    requires Class2Size(c) == Class2Size(d)
    ensures c == d
  {
    ClassOfClassSize(c);
    ClassOfClassSize(d);
  }

  lemma EmptyListLive(s: Heaps, o: Own, c: nat, p: int)
    requires Inv(s, o) && |s.heads| == 1 && c < NUMBINS && o.lists[0][c] == []
    requires p in o.blocks && o.blocks[p] == Class2Size(c) <= MAXOBJECT
    ensures p in o.live
  {
    assert Owned(o, p);
    if p in o.free {
      assert OnList(o, p);
      var d := o.free[p].1;
      assert BinAt(s, o, 0, d);
      ClassInjective(c, d);
    }
  }

  // With one heap, a class whose list is empty has all its blocks in use.
  lemma EmptyListAllLive(s: Heaps, o: Own, c: nat)
    requires Inv(s, o) && |s.heads| == 1 && c < NUMBINS && o.lists[0][c] == []
    ensures CutOf(o, c) == LiveOf(o, c)
  {
    ClassLimit(c);
    forall p | p in CutOf(o, c)
      ensures p in o.live
    {
      EmptyListLive(s, o, c, p);
    }
  }

  lemma ClassLimit(c: nat)
    requires c < NUMBINS
    ensures Class2Size(c) <= MAXOBJECT
  {
    LargestClass();
    Pow2Monotone(c + 3, NUMBINS - 1 + 3);
  }

  lemma CutGrows(o: Own, p: int, size: nat, sz: nat, c: nat)
    requires p !in o.blocks && o.live.Keys <= o.blocks.Keys
    ensures
      var n := CutOwn(o, p, size, sz);
      if size == Class2Size(c) then CutOf(n, c) == CutOf(o, c) + {p} && LiveOf(n, c) == LiveOf(o, c) + {p}
      else CutOf(n, c) == CutOf(o, c)
  {
  }

  // A step cuts at most one block of class c, and only when all are in use.
  lemma StepFootprint(s: Heaps, o: Own, x: Step, c: nat)
    requires Inv(s, o) && Legal(s, o, x) && |s.heads| == 1 && c < NUMBINS
    ensures
      var n := StepOwn(s, o, x);
      |CutOf(n, c)| == Max(|CutOf(o, c)|, |LiveOf(n, c)|)
  {
    var n := StepOwn(s, o, x);
    StepKeeps(s, o, x);
    SubsetSize(LiveOf(n, c), CutOf(n, c));
    if x.DoMalloc? {
      MallocFootprint(s, o, x.h, x.sz, c);
      SubsetSize(CutOf(o, c), CutOf(n, c));
    } else {
      assert n.blocks == o.blocks;
      assert CutOf(n, c) == CutOf(o, c);
    }
  }

  // When a block of class c is cut, its list was empty.
  lemma CutWhenEmpty(s: Heaps, o: Own, h: nat, sz: nat, c: nat)
    requires Inv(s, o) && |s.heads| == 1 && c < NUMBINS && HasHeap(s, h) && Malloc(s, h, sz).Some?
    requires MallocOwn(s, o, h, sz).blocks != o.blocks && BlockSize(sz) == Class2Size(c)
    ensures o.lists[0][c] == []
  {
    ClassLimit(c);
    var n := Rounded(sz);
    var d := LeastClass(n);
    if n <= MAXOBJECT {
      ClassInjective(c, d);
    }
  }

  lemma MallocFootprint(s: Heaps, o: Own, h: nat, sz: nat, c: nat)
    requires Inv(s, o) && |s.heads| == 1 && c < NUMBINS && HasHeap(s, h) && Malloc(s, h, sz).Some?
    ensures
      var n := MallocOwn(s, o, h, sz);
      CutOf(n, c) == CutOf(o, c) || (CutOf(n, c) == LiveOf(n, c) && CutOf(o, c) <= CutOf(n, c))
  {
    var n, p := MallocOwn(s, o, h, sz), Malloc(s, h, sz).value.1;
    if n.blocks != o.blocks {
      CutIsNew(s, o, h, sz);
      CutGrows(o, p, BlockSize(sz), sz, c);
      if BlockSize(sz) == Class2Size(c) {
        CutWhenEmpty(s, o, h, sz, c);
        EmptyListAllLive(s, o, c);
      }
    } else {
      assert CutOf(n, c) == CutOf(o, c);
    }
  }

  lemma CutIsNew(s: Heaps, o: Own, h: nat, sz: nat)
    requires Inv(s, o) && HasHeap(s, h) && Malloc(s, h, sz).Some? && MallocOwn(s, o, h, sz).blocks != o.blocks
    ensures Malloc(s, h, sz).value.1 !in o.blocks
    ensures MallocOwn(s, o, h, sz) == CutOwn(o, Malloc(s, h, sz).value.1, BlockSize(sz), sz)
  {
    var (t, p) := Malloc(s, h, sz).value;
    BlockSizeFits(sz);
    assert ArenaAt(s, h);
    CutFacts(s, h, BlockSize(sz));
    LeastClassBounded(if Rounded(sz) <= MAXOBJECT then Rounded(sz) else 0);
    assert Rounded(sz) <= MAXOBJECT ==> BinAt(s, o, h, LeastClass(Rounded(sz)));
    if p in o.blocks { CutApart(s, o, h, BlockSize(sz), t, p, p); }
  }

  // The most blocks of class c in use at any one time so far.
  ghost function HighWater(s: Heaps, o: Own, xs: seq<Step>, c: nat): nat {
    if xs == [] then |LiveOf(o, c)|
    else Max(HighWater(s, o, xs[..|xs| - 1], c), |LiveOf(After(s, o, xs).1, c)|)
  }

  // One heap has cut exactly as many blocks of a class as it ever had in use at
  // one time.
  lemma {:induction false} FootprintIsHighWater(start: int, size: nat, xs: seq<Step>, c: nat)
    requires start > 0 && start % 8 == 0 && c < NUMBINS && Runs(Start(1, start, size), StartOwn(1), xs)
    ensures
      var (s, o) := (Start(1, start, size), StartOwn(1));
      |CutOf(After(s, o, xs).1, c)| == HighWater(s, o, xs, c)
    decreases |xs|
  {
    var s, o := Start(1, start, size), StartOwn(1);
    if xs == [] {
      assert CutOf(o, c) == {} && LiveOf(o, c) == {};
    } else {
      FootprintIsHighWater(start, size, xs[..|xs| - 1], c);
      var (t, n) := After(s, o, xs[..|xs| - 1]);
      StartInv(1, start, size);
      RunKeeps(s, o, xs[..|xs| - 1]);
      HeapCount(s, o, xs[..|xs| - 1]);
      StepFootprint(t, n, xs[|xs| - 1], c);
    }
  }

  lemma {:induction false} HeapCount(s: Heaps, o: Own, xs: seq<Step>)
    requires Runs(s, o, xs)
    ensures |After(s, o, xs).0.heads| == |s.heads|
    decreases |xs|
  {
    if xs != [] {
      HeapCount(s, o, xs[..|xs| - 1]);
      var (t, n) := After(s, o, xs[..|xs| - 1]);
      if xs[|xs| - 1].DoMalloc? {
        MallocHeads(t, xs[|xs| - 1].h, xs[|xs| - 1].sz);
      }
    }
  }

  lemma MallocHeads(s: Heaps, h: nat, sz: nat)
    requires HasHeap(s, h) && Malloc(s, h, sz).Some?
    ensures |Malloc(s, h, sz).value.0.heads| == |s.heads|
  {
  }
}
