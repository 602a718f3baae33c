// The segregated-fits heap that keeps one bit per bin
// (src/thread_lib/include/heaplayers/segheap.h). A set bit may be stale; a clear
// bit says that the bin is empty. The bitmap search refines a scan of the bins.
module SegHeaps {
  import opened Kingsley

  const BITS := 32

  // ---- words as sets of bits ----

  function And(x: nat, y: nat): nat {
    if x == 0 || y == 0 then 0
    else 2 * And(x / 2, y / 2) + (x % 2) * (y % 2)
  }

  function Or(x: nat, y: nat): nat {
    if x == 0 then y
    else 2 * Or(x / 2, y / 2) + if x % 2 == 1 || y % 2 == 1 then 1 else 0
  }

  // x & ~y
  function AndNot(x: nat, y: nat): nat {
    if x == 0 || y == 0 then x
    else 2 * AndNot(x / 2, y / 2) + if x % 2 == 1 && y % 2 == 0 then 1 else 0
  }

  predicate HasBit(m: nat, k: nat) {
    if k == 0 then m % 2 == 1 else HasBit(m / 2, k - 1)
  }

  lemma {:induction false} HalfPow2(k: nat)
    requires k > 0
    ensures Pow2(k) / 2 == Pow2(k - 1) && Pow2(k) % 2 == 0
  {
  }

  lemma {:induction false} AndBit(m: nat, k: nat)
    ensures And(Pow2(k), m) == 0 <==> !HasBit(m, k)
    decreases k
  {
    if k > 0 {
      HalfPow2(k);
      AndBit(m / 2, k - 1);
      if m == 0 { NoBits(0, k); }
    }
  }

  lemma {:induction false} OrZero(y: nat)
    ensures Or(y, 0) == y
    decreases y
  {
    if y > 0 {
      OrZero(y / 2);
    }
  }

  lemma {:induction false} OrBits(m: nat, k: nat, j: nat)
    ensures HasBit(Or(m, Pow2(k)), j) <==> HasBit(m, j) || j == k
    decreases k
  {
    if m == 0 {
      BitOfPow2(k, j);
      NoBits(0, j);
    } else if k == 0 {
      OrZero(m / 2);
    } else {
      HalfPow2(k);
      if j > 0 { OrBits(m / 2, k - 1, j - 1); }
    }
  }

  lemma {:induction false} AndNotBits(m: nat, k: nat, j: nat)
    ensures HasBit(AndNot(m, Pow2(k)), j) <==> HasBit(m, j) && j != k
    decreases k
  {
    if m == 0 {
      NoBits(0, j);
    } else if k == 0 {
      assert AndNot(m, 1) == 2 * (m / 2);
    } else {
      HalfPow2(k);
      if j > 0 { AndNotBits(m / 2, k - 1, j - 1); }
    }
  }

  lemma {:induction false} BitOfPow2(k: nat, j: nat)
    ensures HasBit(Pow2(k), j) <==> j == k
    decreases j
  {
    if k == 0 {
      if j > 0 { NoBits(0, j - 1); }
    } else {
      HalfPow2(k);
      if j > 0 { BitOfPow2(k - 1, j - 1); }
    }
  }

  // A word below 2^k has no bit from k on.
  lemma {:induction false} NoBits(m: nat, k: nat)
    requires m < Pow2(k)
    ensures !HasBit(m, k)
    decreases k
  {
    if k > 0 {
      NoBits(m / 2, k - 1);
    }
  }

  // A word of at least 2^k without bit k is at least 2^(k+1).
  lemma {:induction false} BitAbove(m: nat, k: nat)
    requires Pow2(k) <= m && !HasBit(m, k)
    ensures Pow2(k + 1) <= m
    decreases k
  {
    if k > 0 {
      HalfPow2(k);
      BitAbove(m / 2, k - 1);
    }
  }

  lemma {:induction false} AndNotSmaller(x: nat, y: nat)
    ensures AndNot(x, y) <= x
    decreases x
  {
    if x > 0 && y > 0 {
      AndNotSmaller(x / 2, y / 2);
    }
  }

  lemma {:induction false} OrBelow(x: nat, y: nat, k: nat)
    requires x < Pow2(k) && y < Pow2(k)
    ensures Or(x, y) < Pow2(k)
    decreases k
  {
    if k > 0 && x > 0 {
      OrBelow(x / 2, y / 2, k - 1);
    }
  }

  // ---- the scan that the search refines ----

  // The first bin from c on that holds something, or the number of bins.
  function FirstFrom(bins: seq<seq<int>>, c: nat): (i: nat)
    requires c <= |bins|
    ensures c <= i <= |bins|
    ensures i < |bins| ==> bins[i] != []
    ensures forall j :: c <= j < i ==> bins[j] == []
    decreases |bins| - c
  {
    if c == |bins| || bins[c] != [] then c else FirstFrom(bins, c + 1)
  }

  lemma {:induction false} FirstIs(bins: seq<seq<int>>, c: nat, i: nat)
    requires c <= i <= |bins| && (i < |bins| ==> bins[i] != [])
    requires forall j :: c <= j < i ==> bins[j] == []
    ensures FirstFrom(bins, c) == i
    decreases |bins| - c
  {
  }

  // Bit i of the bitmap, and what it means for bin i.
  predicate Marked(binmap: seq<nat>, i: nat)
    requires i / BITS < |binmap|
  {
    HasBit(binmap[i / BITS], i % BITS)
  }

  predicate BitOk(binmap: seq<nat>, bins: seq<seq<int>>, i: nat)
    requires i / BITS < |binmap|
  {
    && (i < |bins| && bins[i] != [] ==> Marked(binmap, i))
    && (i >= |bins| ==> !Marked(binmap, i))
  }

  predicate Mapped(binmap: seq<nat>, bins: seq<seq<int>>) {
    && |bins| <= BITS * |binmap|
    && (forall b :: 0 <= b < |binmap| ==> binmap[b] < Pow2(BITS))
    && (forall i :: 0 <= i < BITS * |binmap| ==> BitOk(binmap, bins, i))
  }

  // From bit k on, a word below 2^k has none, so those bins are empty.
  lemma RestEmpty(binmap: seq<nat>, bins: seq<seq<int>>, b: nat, k: nat)
    requires Mapped(binmap, bins) && b < |binmap| && k <= BITS && binmap[b] < Pow2(k)
    ensures forall i :: BITS * b + k <= i < BITS * b + BITS ==> !Marked(binmap, i)
    ensures forall i :: BITS * b + k <= i < BITS * b + BITS && i < |bins| ==> bins[i] == []
  {
    forall i | BITS * b + k <= i < BITS * b + BITS
      ensures !Marked(binmap, i) && (i < |bins| ==> bins[i] == [])
    {
      assert i / BITS == b && i % BITS == i - BITS * b;
      Pow2Monotone(k, i % BITS);
      NoBits(binmap[b], i % BITS);
      assert BitOk(binmap, bins, i);
    }
  }

  // Of the first n bins, exactly those from lo on below hi have lost their mark.
  ghost predicate Swept(was: seq<nat>, now: seq<nat>, n: nat, lo: nat, hi: nat) {
    && n <= BITS * |now| && |now| == |was|
    && forall j :: 0 <= j < n ==> (Marked(now, j) <==> Marked(was, j) && !(lo <= j < hi))
  }

  // The sweep goes on over bins that have no mark, and over one that loses it.
  lemma SweptMore(was: seq<nat>, now: seq<nat>, after: seq<nat>, n: nat, lo: nat, mid: nat, hi: nat)
    requires Swept(was, now, n, lo, mid) && lo <= mid <= hi < n && |after| == |now|
    requires forall i :: mid <= i < hi ==> !Marked(now, i)
    requires forall j :: 0 <= j < n ==> (Marked(after, j) <==> Marked(now, j) && j != hi)
    ensures Swept(was, after, n, lo, hi + 1)
  {
  }

  lemma SweptOver(was: seq<nat>, now: seq<nat>, n: nat, lo: nat, mid: nat, hi: nat)
    requires Swept(was, now, n, lo, mid) && lo <= mid <= hi
    requires forall i :: mid <= i < hi && i < n ==> !Marked(now, i)
    ensures Swept(was, now, n, lo, hi)
  {
  }

  // Clearing the bit of an empty bin is allowed.
  lemma ClearKeeps(binmap: seq<nat>, bins: seq<seq<int>>, i: nat)
    requires Mapped(binmap, bins) && i < |bins| && bins[i] == []
    ensures
      var b := i / BITS;
      && b < |binmap| && Mapped(binmap[b := AndNot(binmap[b], Pow2(i % BITS))], bins)
      && forall j :: 0 <= j < BITS * |binmap| ==>
           (Marked(binmap[b := AndNot(binmap[b], Pow2(i % BITS))], j) <==> Marked(binmap, j) && j != i)
  {
    var b := i / BITS;
    var now := binmap[b := AndNot(binmap[b], Pow2(i % BITS))];
    AndNotSmaller(binmap[b], Pow2(i % BITS));
    forall j | 0 <= j < BITS * |now|
      ensures BitOk(now, bins, j) && (Marked(now, j) <==> Marked(binmap, j) && j != i)
    {
      assert BitOk(binmap, bins, j);
      AndNotBits(binmap[b], i % BITS, j % BITS);
      assert j / BITS == b && j % BITS == i % BITS ==> j == i;
    }
  }

  // Marking a bin lets it hold anything.
  lemma MarkKeeps(binmap: seq<nat>, bins: seq<seq<int>>, i: nat, list: seq<int>)
    requires Mapped(binmap, bins) && i < |bins|
    ensures
      var b := i / BITS;
      && b < |binmap| && Mapped(binmap[b := Or(binmap[b], Pow2(i % BITS))], bins[i := list])
      && forall j :: 0 <= j < BITS * |binmap| ==>
           (Marked(binmap[b := Or(binmap[b], Pow2(i % BITS))], j) <==> Marked(binmap, j) || j == i)
  {
    var b := i / BITS;
    var now := binmap[b := Or(binmap[b], Pow2(i % BITS))];
    var full := bins[i := list];
    Pow2Monotone(i % BITS + 1, BITS);
    OrBelow(binmap[b], Pow2(i % BITS), BITS);
    forall j | 0 <= j < BITS * |now|
      ensures BitOk(now, full, j) && (Marked(now, j) <==> Marked(binmap, j) || j == i)
    {
      assert BitOk(binmap, bins, j);
      OrBits(binmap[b], i % BITS, j % BITS);
      assert j / BITS == b && j % BITS == i % BITS ==> j == i;
    }
  }

  lemma TakeKeeps(binmap: seq<nat>, bins: seq<seq<int>>, i: nat)
    requires Mapped(binmap, bins) && i < |bins| && bins[i] != []
    ensures Mapped(binmap, bins[i := bins[i][1..]])
  {
    var rest := bins[i := bins[i][1..]];
    forall j | 0 <= j < BITS * |binmap|
      ensures BitOk(binmap, rest, j)
    {
      assert BitOk(binmap, bins, j);
    }
  }

  lemma BlockOf(block: nat, idx: nat)
    requires BITS * block <= idx < BITS * block + BITS
    ensures idx / BITS == block && idx % BITS == idx - BITS * block
  {
  }

  // Bit k is clear in a word of at least 2^k: the bin is empty and there is a
  // higher bit in the same word.
  lemma SkipBit(binmap: seq<nat>, bins: seq<seq<int>>, block: nat, idx: nat)
    requires Mapped(binmap, bins) && block < |binmap| && BITS * block <= idx < BITS * block + BITS
    requires Pow2(idx - BITS * block) <= binmap[block] && And(Pow2(idx - BITS * block), binmap[block]) == 0
    ensures idx + 1 < BITS * block + BITS && Pow2(idx + 1 - BITS * block) <= binmap[block]
    ensures idx < |bins| ==> bins[idx] == []
    ensures idx / BITS == block && !Marked(binmap, idx)
  {
    var k := idx - BITS * block;
    BlockOf(block, idx);
    AndBit(binmap[block], k);
    BitAbove(binmap[block], k);
    assert binmap[block] < Pow2(BITS);
    assert BitOk(binmap, bins, idx);
  }

  // A set bit belongs to a bin.
  lemma BitHeld(binmap: seq<nat>, bins: seq<seq<int>>, block: nat, idx: nat)
    requires Mapped(binmap, bins) && block < |binmap| && BITS * block <= idx < BITS * block + BITS
    requires And(Pow2(idx - BITS * block), binmap[block]) != 0
    ensures idx < |bins|
  {
    BlockOf(block, idx);
    AndBit(binmap[block], idx - BITS * block);
    assert BitOk(binmap, bins, idx);
  }

  // NumBins lists with their bitmap; classOf and sizeOf are the heap's class
  // functions.
  class SegHeap {
    const classOf: nat -> nat
    const sizeOf: nat -> nat
    const maxObjectSize: nat
    const binmap: array<nat>
    const bins: array<seq<int>>
    var memoryHeld: nat

    ghost predicate Valid()
      reads this, binmap, bins
    {
      && binmap as object != bins as object
      && Mapped(binmap[..], bins[..])
      && (forall sz: nat :: sz <= maxObjectSize ==> classOf(sz) < bins.Length)
    }

    constructor (numBins: nat, classOf: nat -> nat, sizeOf: nat -> nat)
      requires numBins > 0 && forall sz: nat :: sz <= sizeOf(numBins - 1) ==> classOf(sz) < numBins
      ensures Valid() && bins.Length == numBins && maxObjectSize == sizeOf(numBins - 1) && memoryHeld == 0
      ensures forall i :: 0 <= i < numBins ==> bins[i] == []
      ensures fresh(binmap) && fresh(bins)
    {
      this.classOf, this.sizeOf := classOf, sizeOf;
      maxObjectSize := sizeOf(numBins - 1);
      binmap := new nat[(numBins + BITS - 1) / BITS](i => 0);
      bins := new seq<int>[numBins](i => []);
      memoryHeld := 0;
      new;
      forall i | 0 <= i < BITS * |binmap[..]|
        ensures BitOk(binmap[..], bins[..], i)
      {
        Pow2Monotone(0, i % BITS);
        NoBits(0, i % BITS);
      }
    }

    // AdaptHeap::malloc of one bin: its first block, or nothing
    method Take(i: nat) returns (found: bool, p: int)
      requires i < bins.Length
      modifies bins
      ensures found == (old(bins[i]) != [])
      ensures found ==> p == old(bins[i])[0] && bins[..] == old(bins[..])[i := old(bins[i])[1..]]
      ensures !found ==> bins[..] == old(bins[..])
    {
      found, p := false, 0;
      if bins[i] != [] {
        found, p := true, bins[i][0];
        bins[i] := bins[i][1..];
      }
    }

    // The inner do loop: the next block of bins with a bit set.
    method NextBlock(from: nat) returns (block: nat, word: nat)
      requires Valid() && from < binmap.Length
      ensures from < block <= binmap.Length
      ensures block < binmap.Length ==> word == binmap[block] >= 1
      ensures forall i :: BITS * from + BITS <= i < BITS * block && i < bins.Length ==> bins[i] == []
      ensures forall i :: BITS * from + BITS <= i < BITS * block ==> !Marked(binmap[..], i)
    {
      block, word := from, 0;
      while word == 0
        invariant from <= block < binmap.Length && (word == 0 || block > from)
        invariant word != 0 ==> word == binmap[block]
        invariant forall i ::
                    BITS * from + BITS <= i < BITS * block + (if word == 0 then BITS else 0) && i < bins.Length ==>
                      bins[i] == []
        invariant forall i ::
                    BITS * from + BITS <= i < BITS * block + (if word == 0 then BITS else 0) ==> !Marked(binmap[..], i)
        decreases binmap.Length - block, if word == 0 then 1 else 0
      {
        block := block + 1;
        if block >= binmap.Length {
          return;
        }
        word := binmap[block];
        if word == 0 {
          RestEmpty(binmap[..], bins[..], block, 0);
        }
      }
    }

    // The inner while loop: the next set bit of a block that has one.
    method NextBit(block: nat, from: nat, word: nat) returns (idx: nat, bit: nat)
      requires Valid() && block < binmap.Length && word == binmap[block]
      requires BITS * block <= from < BITS * block + BITS && Pow2(from - BITS * block) <= word
      ensures from <= idx < BITS * block + BITS && idx < bins.Length
      ensures bit == Pow2(idx - BITS * block)
      ensures forall i :: from <= i < idx ==> bins[i] == [] && !Marked(binmap[..], i)
    {
      idx, bit := from, Pow2(from - BITS * block);
      while And(bit, word) == 0
        invariant from <= idx < BITS * block + BITS && bit == Pow2(idx - BITS * block) <= word
        invariant forall i :: from <= i < idx && i < bins.Length ==> bins[i] == []
        invariant forall i :: from <= i < idx ==> !Marked(binmap[..], i)
        decreases BITS * block + BITS - idx
      {
        SkipBit(binmap[..], bins[..], block, idx);
        bit := bit * 2;
        idx := idx + 1;
      }
      BitHeld(binmap[..], bins[..], block, idx);
    }

    // One turn of the search up to a set bit, or to the end of the bitmap.
    method Seek(block0: nat, idx0: nat, word0: nat, bit0: nat) returns (block: nat, idx: nat, word: nat, bit: nat)
      requires Valid() && block0 < binmap.Length && word0 == binmap[block0]
      requires BITS * block0 <= idx0 <= BITS * block0 + BITS && bit0 == Pow2(idx0 - BITS * block0)
      ensures idx0 <= idx && forall i :: idx0 <= i < idx && i < bins.Length ==> bins[i] == []
      ensures forall i :: idx0 <= i < idx && i < bins.Length ==> !Marked(binmap[..], i)
      ensures block >= binmap.Length ==> idx >= bins.Length
      ensures
        block < binmap.Length ==>
          && word == binmap[block] && idx < bins.Length
          && BITS * block <= idx < BITS * block + BITS && bit == Pow2(idx - BITS * block)
    {
      block, idx, word, bit := block0, idx0, word0, bit0;
      if bit > word || bit == 0 {
        RestEmpty(binmap[..], bins[..], block, idx - BITS * block);
        block, word := NextBlock(block);
        if block >= binmap.Length {
          idx := if idx < bins.Length then bins.Length else idx;
          return;
        }
        idx := BITS * block;
        bit := 1;
      }
      assert bit <= word < Pow2(BITS);
      idx, bit := NextBit(block, idx, word);
    }

    // malloc: `big` when the request goes to the big heap.
    method Malloc(sz: nat) returns (big: bool, p: int)
      requires Valid()
      modifies binmap, bins
      ensures Valid()
      ensures
        sz <= maxObjectSize ==>
          var i := FirstFrom(old(bins[..]), classOf(sz));
          && big == (i == bins.Length)
          && (!big ==> p == old(bins[..])[i][0] && bins[..] == old(bins[..])[i := old(bins[..])[i][1..]])
      ensures sz > maxObjectSize ==> big && binmap[..] == old(binmap[..])
      ensures big ==> bins[..] == old(bins[..])
      ensures
        sz <= maxObjectSize ==>
          Swept(old(binmap[..]), binmap[..], bins.Length, classOf(sz), FirstFrom(old(bins[..]), classOf(sz)))
    {
      p := 0;
      ghost var was, were := binmap[..], bins[..];
      if sz > maxObjectSize {
        return true, p;
      }
      var sc := classOf(sz);
      var idx := sc;
      var block := idx / BITS;
      var word := binmap[block];
      var bit := Pow2(idx % BITS);
      while true
        invariant 0 <= block < binmap.Length && word == binmap[block]
        invariant sc <= idx <= bins.Length && BITS * block <= idx <= BITS * block + BITS
        invariant bit == Pow2(idx - BITS * block)
        invariant bins[..] == were && Valid()
        invariant forall i :: sc <= i < idx ==> bins[i] == []
        invariant Swept(was, binmap[..], bins.Length, sc, idx)
        decreases bins.Length - idx
      {
        ghost var from, now := idx, binmap[..];
        block, idx, word, bit := Seek(block, idx, word, bit);
        assert now == binmap[..];
        if block >= binmap.Length {
          SweptOver(was, now, bins.Length, sc, from, bins.Length);
          FirstIs(bins[..], sc, bins.Length);
          return true, p;
        }
        var found;
        found, p := Take(idx);
        if found {
          SweptOver(was, now, bins.Length, sc, from, idx);
          FirstIs(were, sc, idx);
          TakeKeeps(binmap[..], were, idx);
          return false, p;
        }
        word := ClearBit(block, idx, word, bit);
        SweptMore(was, now, binmap[..], bins.Length, sc, from, idx);
        idx := idx + 1;
        bit := bit * 2;
      }
    }

    method ClearBit(block: nat, idx: nat, word: nat, bit: nat) returns (now: nat)
      requires Valid() && block < binmap.Length && word == binmap[block]
      requires BITS * block <= idx < BITS * block + BITS && bit == Pow2(idx - BITS * block)
      requires idx < bins.Length && bins[idx] == []
      modifies binmap
      ensures Valid() && now == binmap[block]
      ensures forall j :: 0 <= j < bins.Length ==> (Marked(binmap[..], j) <==> Marked(old(binmap[..]), j) && j != idx)
    {
      BlockOf(block, idx);
      ClearKeeps(binmap[..], bins[..], idx);
      now := AndNot(word, bit);
      ghost var before := binmap[..];
      binmap[block] := now;
      assert binmap[..] == before[block := now];
    }

    // The bin takes the block, and mark_bin marks it.
    method PutInto(c: nat, p: int)
      requires Valid() && c < bins.Length
      modifies binmap, bins
      ensures Valid() && bins[..] == old(bins[..])[c := [p] + old(bins[..])[c]]
      ensures forall j :: 0 <= j < bins.Length ==> (Marked(binmap[..], j) <==> Marked(old(binmap[..]), j) || j == c)
    {
      MarkKeeps(binmap[..], bins[..], c, [p] + bins[c]);
      ghost var were, before := bins[..], binmap[..];
      bins[c] := [p] + bins[c];
      binmap[c / BITS] := Or(binmap[c / BITS], Pow2(c % BITS));
      assert bins[..] == were[c := [p] + were[c]];
      assert binmap[..] == before[c / BITS := Or(before[c / BITS], Pow2(c % BITS))];
    }

    // free of a block whose header says objectSize
    method Free(p: int, objectSize: nat)
      requires Valid() && (objectSize == 0 || sizeOf(0) <= objectSize)
      modifies this`memoryHeld, binmap, bins
      ensures Valid()
      ensures
        objectSize == 0 || objectSize > maxObjectSize ==>
          bins[..] == old(bins[..]) && binmap[..] == old(binmap[..]) && memoryHeld == old(memoryHeld)
      ensures
        0 < objectSize <= maxObjectSize ==>
          && memoryHeld == old(memoryHeld) + objectSize
          && exists c :: 0 <= c <= classOf(objectSize) && c < bins.Length && sizeOf(c) <= objectSize &&
                         (forall d :: c < d <= classOf(objectSize) ==> sizeOf(d) > objectSize) &&
                         bins[..] == old(bins[..])[c := [p] + old(bins[..])[c]] &&
                         forall j :: 0 <= j < bins.Length ==>
                           (Marked(binmap[..], j) <==> Marked(old(binmap[..]), j) || j == c)
    {
      if objectSize == 0 || objectSize > maxObjectSize {
        return;
      }
      var c := classOf(objectSize);
      while sizeOf(c) > objectSize
        invariant 0 <= c <= classOf(objectSize)
        invariant forall d :: c < d <= classOf(objectSize) ==> sizeOf(d) > objectSize
        decreases c
      {
        c := c - 1;
      }
      PutInto(c, p);
      memoryHeld := memoryHeld + objectSize;
    }
  }
}
