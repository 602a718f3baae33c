// The array-based doubly linked list of active threads
// (src/logical_clock/module/listarray.h).
//
// A ListArray refines a duplicate-free sequence of thread ids: insertion
// appends, removal deletes, and both walks over the links agree with the
// sequence in their own direction.
module ListArrays {

  const MAX_SIZE := 4096
  const NULL := -1
  const DEAD := MAX_SIZE + 1

  ghost predicate NoDup<T>(s: seq<T>) {
    forall i, j :: 0 <= i < j < |s| ==> s[i] != s[j]
  }

  // The sequence without its first occurrence of x.
  function Without(s: seq<int>, x: int): (r: seq<int>) {
    if s == [] then []
    else if s[0] == x then s[1..]
    else [s[0]] + Without(s[1..], x)
  }

  // t is s with position k dropped.
  ghost predicate Dropped(s: seq<int>, k: nat, t: seq<int>)
  {
    && k < |s| == |t| + 1
    && forall i {:trigger t[i]} :: 0 <= i < |t| ==> t[i] == s[if i < k then i else i + 1]
  }

  lemma {:induction false} WithoutDrops(s: seq<int>, k: nat)
    requires k < |s| && forall i :: 0 <= i < k ==> s[i] != s[k]
    ensures Dropped(s, k, Without(s, s[k]))
  {
    if k > 0 {
      WithoutDrops(s[1..], k - 1);
    }
  }

  lemma {:induction false} WithoutAbsent(s: seq<int>, x: int)
    requires x !in s
    ensures Without(s, x) == s
  {
    if s != [] {
      WithoutAbsent(s[1..], x);
      assert s == [s[0]] + s[1..];
    }
  }

  // What removal means for a duplicate-free list: exactly x goes, nothing
  // else moves.
  lemma WithoutMembers(s: seq<int>, x: int)
    requires NoDup(s)
    ensures NoDup(Without(s, x))
    ensures forall y :: y in Without(s, x) <==> y in s && y != x
    ensures |Without(s, x)| == if x in s then |s| - 1 else |s|
  {
    if x in s {
      var k :| 0 <= k < |s| && s[k] == x;
      WithoutDrops(s, k);
      var r := Without(s, x);
      forall y | y in s && y != x
        ensures y in r
      {
        var i :| 0 <= i < |s| && s[i] == y;
        assert r[if i < k then i else i - 1] == y;
      }
    } else {
      WithoutAbsent(s, x);
    }
  }

  // The neighbours of the element at position k.
  function NextOf(s: seq<int>, k: nat): int
    requires k < |s|
  {
    if k + 1 < |s| then s[k + 1] else NULL
  }

  function PrevOf(s: seq<int>, k: nat): int
    requires k < |s|
  {
    if k > 0 then s[k - 1] else NULL
  }

  // The links of the element at position k point at its neighbours.
  ghost predicate LinkedAt(nx: seq<int>, pv: seq<int>, s: seq<int>, k: nat)
    requires k < |s|
  {
    && 0 <= s[k] < |nx| && s[k] < |pv|
    && nx[s[k]] == NextOf(s, k)
    && pv[s[k]] == PrevOf(s, k)
  }

  // The link arrays nx and pv thread exactly the sequence s.
  ghost predicate Links(nx: seq<int>, pv: seq<int>, s: seq<int>) {
    && |nx| == |pv| == MAX_SIZE
    && NoDup(s)
    && (forall k :: 0 <= k < |s| ==> 0 <= s[k] < MAX_SIZE)
    && (forall k :: 0 <= k < |s| ==> LinkedAt(nx, pv, s, k))
    && (forall i :: 0 <= i < MAX_SIZE && i !in s ==> nx[i] == pv[i] == DEAD)
  }

  lemma AppendLinks(nx: seq<int>, pv: seq<int>, s: seq<int>, x: int)
    requires Links(nx, pv, s) && 0 <= x < MAX_SIZE && x !in s
    ensures
      var last := if s == [] then NULL else s[|s| - 1];
      var nx1 := if s == [] then nx else nx[last := x];
      Links(nx1[x := NULL], pv[x := last], s + [x])
  {
    var t := s + [x];
    var last := if s == [] then NULL else s[|s| - 1];
    var nx1 := (if s == [] then nx else nx[last := x])[x := NULL];
    var pv1 := pv[x := last];
    forall k | 0 <= k < |t|
      ensures LinkedAt(nx1, pv1, t, k)
    {
      if k < |s| {
        assert LinkedAt(nx, pv, s, k);
      }
    }
    assert forall i :: i !in t ==> i !in s;
    assert s != [] ==> t[|s| - 1] == last;
  }

  // The two link arrays once position k is unlinked.
  ghost function UnlinkedNext(nx: seq<int>, s: seq<int>, k: nat): (r: seq<int>)
    requires k < |s| && forall i :: 0 <= i < |s| ==> 0 <= s[i] < |nx|
  {
    (if k == 0 then nx else nx[s[k - 1] := NextOf(s, k)])[s[k] := DEAD]
  }

  ghost function UnlinkedPrev(pv: seq<int>, s: seq<int>, k: nat): (r: seq<int>)
    requires k < |s| && forall i :: 0 <= i < |s| ==> 0 <= s[i] < |pv|
  {
    (if k + 1 == |s| then pv else pv[s[k + 1] := PrevOf(s, k)])[s[k] := DEAD]
  }

  lemma UnlinkAt(nx: seq<int>, pv: seq<int>, s: seq<int>, k: nat, t: seq<int>, i: nat)
    requires Links(nx, pv, s) && k < |s| && Dropped(s, k, t) && i < |t|
    ensures LinkedAt(UnlinkedNext(nx, s, k), UnlinkedPrev(pv, s, k), t, i)
  {
    var j := if i < k then i else i + 1;
    assert t[i] == s[j] && s[j] != s[k];
    assert LinkedAt(nx, pv, s, j) && LinkedAt(nx, pv, s, k);
    if i + 1 == k {
      assert NextOf(t, i) == NextOf(s, k);
    } else {
      assert i + 1 < |t| ==> t[i + 1] == s[j + 1];
      assert NextOf(t, i) == NextOf(s, j);
      assert k > 0 ==> s[k - 1] != s[j];
    }
    if i == k {
      assert PrevOf(t, i) == PrevOf(s, k);
    } else {
      assert PrevOf(t, i) == PrevOf(s, j);
      assert k + 1 < |s| ==> s[k + 1] != s[j];
    }
  }

  lemma UnlinkLinks(nx: seq<int>, pv: seq<int>, s: seq<int>, k: nat)
    requires Links(nx, pv, s) && k < |s|
    ensures Links(UnlinkedNext(nx, s, k), UnlinkedPrev(pv, s, k), Without(s, s[k]))
  {
    WithoutDrops(s, k);
    WithoutMembers(s, s[k]);
    var t := Without(s, s[k]);
    forall i | 0 <= i < |t|
      ensures LinkedAt(UnlinkedNext(nx, s, k), UnlinkedPrev(pv, s, k), t, i)
    {
      UnlinkAt(nx, pv, s, k, t, i);
    }
    forall i | 0 <= i < MAX_SIZE && i !in t
      ensures UnlinkedNext(nx, s, k)[i] == UnlinkedPrev(pv, s, k)[i] == DEAD
    {
      assert i in s ==> i == s[k];
    }
  }

  class ListArray {
    var next: array<int>
    var prev: array<int>
    var head: int
    var tail: int
    var count: int
    var maxIndex: int
    ghost var items: seq<int>

    ghost predicate Valid()
      reads this, next, prev
    {
      && next != prev && next.Length == prev.Length == MAX_SIZE
      && Links(next[..], prev[..], items)
      && count == |items|
      && head == (if items == [] then NULL else items[0])
      && tail == (if items == [] then NULL else items[|items| - 1])
      && 0 <= maxIndex < MAX_SIZE
      && (forall x :: x in items ==> x <= maxIndex)
    }

    constructor ()
      ensures Valid() && items == [] && maxIndex == 0
      ensures fresh(next) && fresh(prev)
    {
      head, tail, count, maxIndex, items := NULL, NULL, 0, 0, [];
      next := new int[MAX_SIZE];
      prev := new int[MAX_SIZE];
      new;
      var i := 0;
      while i < MAX_SIZE
        invariant 0 <= i <= MAX_SIZE
        invariant next.Length == prev.Length == MAX_SIZE && next != prev
        invariant fresh(next) && fresh(prev)
        invariant forall j :: 0 <= j < i ==> next[j] == prev[j] == DEAD
        invariant head == tail == NULL && count == maxIndex == 0 && items == []
      {
        next[i], prev[i] := DEAD, DEAD;
        i := i + 1;
      }
    }

    // A linked index carries live links on both sides, an unlinked one none.
    lemma LinkedIffDead(index: int)
      requires Valid() && 0 <= index < MAX_SIZE
      ensures next[..][index] == next[index] && prev[..][index] == prev[index]
      ensures index in items ==> next[index] != DEAD && prev[index] != DEAD
      ensures index !in items ==> next[index] == DEAD && prev[index] == DEAD
    {
      if index in items {
        var k :| 0 <= k < |items| && items[k] == index;
        assert LinkedAt(next[..], prev[..], items, k);
      }
    }

    method InList(index: int) returns (r: bool)
      requires Valid() && 0 <= index < MAX_SIZE
      ensures r <==> index in items
    {
      LinkedIffDead(index);
      r := next[index] != DEAD && prev[index] != DEAD;
    }

    // Appends index. The result is false where the code reports a kernel
    // bug: the index is already linked, and nothing changes.
    method Insert(index: int) returns (ok: bool)
      requires Valid() && 0 <= index < MAX_SIZE
      modifies this, next, prev
      ensures Valid() && next == old(next) && prev == old(prev)
      ensures ok <==> index !in old(items)
      ensures items == if ok then old(items) + [index] else old(items)
      ensures maxIndex == if ok && index > old(maxIndex) then index else old(maxIndex)
    {
      LinkedIffDead(index);
      if !(next[index] == DEAD && prev[index] == DEAD) {
        return false;
      }
      AppendLinks(next[..], prev[..], items, index);
      if tail == NULL {
        head, tail := index, index;
        prev[index] := NULL;
      } else {
        next[tail] := index;
        prev[index] := tail;
        tail := index;
      }
      next[index] := NULL;
      count := count + 1;
      if index > maxIndex {
        maxIndex := index;
      }
      items := items + [index];
      return true;
    }

    // Where index stands in the list, and what unlinking it must produce.
    lemma Locate(index: int) returns (k: nat)
      requires Valid() && index in items
      ensures k < |items| && items[k] == index && 0 <= index < MAX_SIZE
      ensures next[index] == NextOf(items, k) && prev[index] == PrevOf(items, k)
      ensures k > 0 ==> 0 <= items[k - 1] < MAX_SIZE && items[k - 1] != index
      ensures k + 1 < |items| ==> 0 <= items[k + 1] < MAX_SIZE && items[k + 1] != index
      ensures Links(UnlinkedNext(next[..], items, k), UnlinkedPrev(prev[..], items, k), Without(items, index))
      ensures Dropped(items, k, Without(items, index))
      ensures forall x :: x in Without(items, index) ==> x in items
    {
      k :| k < |items| && items[k] == index;
      assert LinkedAt(next[..], prev[..], items, k);
      WithoutDrops(items, k);
      WithoutMembers(items, index);
      UnlinkLinks(next[..], prev[..], items, k);
    }

    // Unlinks index, wherever in the list it is. Only a linked index may be
    // removed: the code checks the count, not the links.
    method Remove(index: int)
      requires Valid() && index in items
      modifies this, next, prev
      ensures Valid() && next == old(next) && prev == old(prev)
      ensures items == Without(old(items), index)
      ensures maxIndex == old(maxIndex)
    {
      ghost var k := Locate(index);
      ghost var nx := UnlinkedNext(next[..], items, k);
      ghost var pv := UnlinkedPrev(prev[..], items, k);
      ghost var rest := Without(items, index);
      if prev[index] == NULL && next[index] == NULL {
        head, tail := NULL, NULL;
      } else if prev[index] == NULL {
        head := next[index];
        prev[head] := NULL;
        assert rest[0] == head;
      } else if next[index] == NULL {
        tail := prev[index];
        next[tail] := NULL;
        assert rest[|rest| - 1] == tail;
      } else {
        next[prev[index]] := next[index];
        prev[next[index]] := prev[index];
        assert rest[0] == head && rest[|rest| - 1] == tail;
      }
      prev[index], next[index] := DEAD, DEAD;
      count := count - 1;
      items := rest;
      assert next[..] == nx && prev[..] == pv;
    }
  }
}
