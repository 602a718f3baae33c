// The allocator stack as the layers run it, each changing its own fields. Every
// layer refines the function of the same name in HeapStack.
module SharedHeaps {
  import opened HeapStack
  import K = Kingsley

  class Stack {
    const start: int
    const limit: int
    var position: int
    var remaining: nat
    var mem: map<int, int>
    var arenas: seq<Arena>
    var heads: seq<seq<int>>

    function M(): Heaps
      reads this
    {
      Heaps(start, position, remaining, limit, mem, arenas, heads)
    }

    constructor (n: nat, start: int, size: nat)
      requires start > 0 && start % 8 == 0
      ensures M() == Start(n, start, size) && Inv(M(), StartOwn(n))
    {
      this.start, limit := start, start + size;
      position, remaining, mem := start, size, map[];
      arenas := seq(n, i => NoArena);
      heads := seq(n, i => seq(K.NUMBINS, j => NOWHERE));
      new;
      StartInv(n, start, size);
    }

    // xheap::malloc; !ok is the exit when the pages run out.
    method TakePages(sz: nat) returns (ok: bool, p: int)
      modifies this`position, this`remaining
      ensures ok == XheapMalloc(old(M()), sz).Some?
      ensures ok ==> (M(), p) == XheapMalloc(old(M()), sz).value
      ensures !ok ==> M() == old(M())
    {
      var n := PAGE * ((sz + PAGE - 1) / PAGE);
      if remaining < n {
        return false, NOWHERE;
      }
      p := position;
      remaining := remaining - n;
      position := position + n;
      ok := true;
    }

    // ZoneHeap::zoneMalloc
    method TakeZone(h: nat, sz: nat) returns (ok: bool, p: int)
      requires HasHeap(M(), h)
      modifies this`position, this`remaining, this`arenas
      ensures ok == ZoneMalloc(old(M()), h, sz).Some?
      ensures ok ==> (M(), p) == ZoneMalloc(old(M()), h, sz).value
      ensures !ok ==> M().heads == old(M().heads) && M().mem == old(M().mem)
    {
      var n := Align(sz);
      var a := arenas[h];
      if a.Arena? && a.remaining >= n {
        p := a.space;
        arenas := arenas[h := Arena(a.space + n, a.remaining - n)];
        ok := true;
      } else {
        ok, p := SlowZone(h, n);
      }
    }

    // ZoneHeap::slowMalloc: the rest of the old arena is given up.
    method SlowZone(h: nat, n: nat) returns (ok: bool, p: int)
      requires HasHeap(M(), h)
      modifies this`position, this`remaining, this`arenas
      ensures
        var r := XheapMalloc(old(M()), ARENAHEADER + Max(CHUNK, n));
        && ok == r.Some?
        && (ok ==>
              && p == r.value.1 + ARENAHEADER
              && M() == r.value.0.(arenas := old(arenas)[h := Arena(p + n, Max(CHUNK, n) - n)]))
        && (!ok ==> M() == old(M()).(arenas := old(arenas)[h := NoArena]))
    {
      arenas := arenas[h := NoArena];
      var size := CHUNK;
      if size < n {
        size := n;
      }
      var buf;
      ok, buf := TakePages(ARENAHEADER + size);
      if ok {
        p := buf + ARENAHEADER;
        arenas := arenas[h := Arena(p + n, size - n)];
      } else {
        p := NOWHERE;
      }
    }

    // NewSourceHeap::malloc over the zone
    method TakeBlock(h: nat, size: nat) returns (ok: bool, p: int)
      requires HasHeap(M(), h)
      modifies this`position, this`remaining, this`arenas, this`mem
      ensures ok == BlockMalloc(old(M()), h, size).Some?
      ensures ok ==> (M(), p) == BlockMalloc(old(M()), h, size).value
    {
      var o;
      ok, o := TakeZone(h, size + HEADER);
      if ok {
        mem := mem[o := MAGIC];
        mem := mem[o + 8 := size];
      }
      p := o + HEADER;
    }

    // SLList::get
    method Get(h: nat, c: nat) returns (p: int)
      requires HasHeap(M(), h) && c < K.NUMBINS
      modifies this`heads
      ensures p == old(heads)[h][c]
      ensures M() == if p == NOWHERE then old(M()) else PopState(old(M()), h, c)
    {
      p := heads[h][c];
      if p != NOWHERE {
        heads := heads[h := heads[h][c := Word(mem, p)]];
      }
    }

    // SLList::insert
    method Insert(h: nat, c: nat, p: int)
      requires HasHeap(M(), h) && c < K.NUMBINS
      modifies this`heads, this`mem
      ensures M() == PushState(old(M()), h, c, p)
    {
      mem := mem[p := heads[h][c]];
      heads := heads[h := heads[h][c := p]];
    }

    // ANSIWrapper::malloc and StrictSegHeap::malloc
    method Allocate(h: nat, request: nat) returns (ok: bool, p: int)
      requires HasHeap(M(), h)
      modifies this`position, this`remaining, this`arenas, this`heads, this`mem
      ensures ok == Malloc(old(M()), h, request).Some?
      ensures ok ==> (M(), p) == Malloc(old(M()), h, request).value
    {
      var sz := request;
      if sz < 16 {
        sz := 16;
      }
      sz := Align(sz);
      if sz <= K.MAXOBJECT {
        var c := K.Size2Class(sz);
        K.LeastClassBounded(sz);
        p := Get(h, c);
        ok := true;
        if p == NOWHERE {
          ok, p := TakeBlock(h, K.Class2Size(c));
        }
      } else {
        ok, p := TakeBlock(h, sz);
      }
    }

    // ANSIWrapper::free and StrictSegHeap::free; !ok is the abort on a bad mark.
    method Release(h: nat, p: int) returns (ok: bool)
      requires HasHeap(M(), h)
      modifies this`heads, this`mem
      ensures ok == Free(old(M()), h, p).Some?
      ensures M() == if ok then Free(old(M()), h, p).value else old(M())
    {
      if p == NOWHERE {
        return true;
      }
      if Word(mem, p - HEADER) != MAGIC {
        return false;
      }
      var size := Word(mem, p - 8);
      if 0 < size <= K.MAXOBJECT {
        var c := K.Size2Class(size);
        K.LeastClassBounded(size);
        while c > 0 && K.Class2Size(c) > size
          invariant 0 <= c < K.NUMBINS
          invariant ClassBelow(c, size) == ClassBelow(K.LeastClass(size), size)
        {
          c := c - 1;
        }
        Insert(h, c, p);
      }
      ok := true;
    }
  }
}
