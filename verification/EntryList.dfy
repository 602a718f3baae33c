// The circular intrusive list of waiting threads (src/thread_lib/include/list.h).
// Every thread entry carries one pair of links, so a thread is in at most one
// list; a list is reached through the index of its head. A list refines a
// duplicate-free sequence, and an operation touches only the links of its own
// members, so every other list is left as it was.
module EntryLists {
  import opened ListArrays

  // The neighbours of position k going round.
  function RingNext(s: seq<int>, k: nat): int
    requires k < |s|
  {
    if k + 1 < |s| then s[k + 1] else s[0]
  }

  function RingPrev(s: seq<int>, k: nat): int
    requires k < |s|
  {
    if k > 0 then s[k - 1] else s[|s| - 1]
  }

  ghost predicate RingAt(nx: seq<int>, pv: seq<int>, s: seq<int>, k: nat)
    requires k < |s|
  {
    && 0 <= s[k] < |nx| && s[k] < |pv|
    && nx[s[k]] == RingNext(s, k)
    && pv[s[k]] == RingPrev(s, k)
  }

  ghost predicate Ring(nx: seq<int>, pv: seq<int>, s: seq<int>, head: int) {
    && NoDup(s)
    && head == (if s == [] then NULL else s[0])
    && forall k :: 0 <= k < |s| ==> RingAt(nx, pv, s, k)
  }

  // Changes to links outside a ring leave it a ring.
  lemma RingFrame(nx: seq<int>, pv: seq<int>, nx1: seq<int>, pv1: seq<int>, s: seq<int>, head: int)
    requires Ring(nx, pv, s, head) && |nx1| == |nx| && |pv1| == |pv|
    requires forall i :: i in s && 0 <= i < |nx| && i < |pv| ==> nx1[i] == nx[i] && pv1[i] == pv[i]
    ensures Ring(nx1, pv1, s, head)
  {
    forall k | 0 <= k < |s|
      ensures RingAt(nx1, pv1, s, k)
    {
      assert RingAt(nx, pv, s, k) && s[k] in s;
    }
  }

  lemma RingMembers(nx: seq<int>, pv: seq<int>, s: seq<int>, head: int)
    requires Ring(nx, pv, s, head)
    ensures forall x :: x in s ==> 0 <= x < |nx| && x < |pv|
    ensures head == NULL <==> s == []
  {
    assert s != [] ==> RingAt(nx, pv, s, 0);
    forall x | x in s
      ensures 0 <= x < |nx| && x < |pv|
    {
      var k :| 0 <= k < |s| && s[k] == x;
      assert RingAt(nx, pv, s, k);
    }
  }

  lemma AppendRing(nx: seq<int>, pv: seq<int>, s: seq<int>, head: int, e: int)
    requires Ring(nx, pv, s, head) && e !in s && 0 <= e < |nx| == |pv|
    requires s != [] ==> 0 <= head < |nx| && 0 <= s[|s| - 1] < |nx|
    ensures
      s == [] ==> Ring(nx[e := e], pv[e := e], [e], e)
    ensures
      s != [] ==>
        var tail := s[|s| - 1];
        Ring(nx[tail := e][e := head], pv[head := e][e := tail], s + [e], head)
  {
    if s == [] {
      assert RingAt(nx[e := e], pv[e := e], [e], 0);
    } else {
      var t := s + [e];
      var tail := s[|s| - 1];
      var nx1, pv1 := nx[tail := e][e := head], pv[head := e][e := tail];
      forall k | 0 <= k < |t|
        ensures RingAt(nx1, pv1, t, k)
      {
        if k < |s| {
          assert RingAt(nx, pv, s, k) && s[k] in s;
        }
      }
    }
  }

  lemma DropHeadRing(nx: seq<int>, pv: seq<int>, s: seq<int>, head: int)
    requires Ring(nx, pv, s, head) && |s| > 1 && |nx| == |pv|
    requires 0 <= s[1] < |nx| && 0 <= s[|s| - 1] < |nx|
    ensures Ring(nx[s[|s| - 1] := s[1]], pv[s[1] := s[|s| - 1]], s[1..], s[1])
  {
    var t := s[1..];
    var tail := s[|s| - 1];
    assert t[|t| - 1] == tail;
    var nx1, pv1 := nx[tail := s[1]], pv[s[1] := tail];
    forall k | 0 <= k < |t|
      ensures RingAt(nx1, pv1, t, k)
    {
      assert RingAt(nx, pv, s, k + 1);
      assert t[k] == s[k + 1];
      assert k > 0 ==> t[k - 1] == s[k] && s[k + 1] != s[1];
      assert k + 1 < |t| ==> t[k + 1] == s[k + 2] && s[k + 1] != tail;
    }
  }

  class Links {
    const prev: array<int>
    const next: array<int>

    ghost predicate Valid() {
      prev != next && prev.Length == next.Length
    }

    constructor (n: nat)
      ensures Valid() && prev.Length == n && fresh(prev) && fresh(next)
    {
      prev := new int[n];
      next := new int[n];
    }

    ghost predicate IsRing(s: seq<int>, head: int)
      reads this, prev, next
    {
      Ring(next[..], prev[..], s, head)
    }

    // Every ring that shares no thread with `touched` is as it was.
    twostate predicate Elsewhere(touched: seq<int>)
      reads this, prev, next
    {
      forall s, h :: old(IsRing(s, h)) && (forall x :: x in s ==> x !in touched) ==> IsRing(s, h)
    }

    twostate lemma UntouchedElsewhere(touched: seq<int>)
      requires Valid()
      requires forall i :: 0 <= i < next.Length && i !in touched ==>
                 next[i] == old(next[i]) && prev[i] == old(prev[i])
      ensures Elsewhere(touched)
    {
      forall s, h | old(IsRing(s, h)) && (forall x :: x in s ==> x !in touched)
        ensures IsRing(s, h)
      {
        RingFrame(old(next[..]), old(prev[..]), next[..], prev[..], s, h);
      }
    }

    // insertTail
    method InsertTail(entry: int, head: int, ghost s: seq<int>) returns (newHead: int)
      requires Valid() && IsRing(s, head) && 0 <= entry < next.Length && entry !in s
      modifies prev, next
      ensures IsRing(s + [entry], newHead)
      ensures Elsewhere(s + [entry])
    {
      RingMembers(next[..], prev[..], s, head);
      assert s != [] ==> s[0] in s && s[|s| - 1] in s;
      AppendRing(next[..], prev[..], s, head, entry);
      newHead := head;
      if head == NULL {
        newHead := entry;
        prev[entry] := entry;
        next[entry] := entry;
      } else {
        assert RingAt(next[..], prev[..], s, 0);
        var tail := prev[head];
        next[tail] := entry;
        prev[head] := entry;
        prev[entry] := tail;
        next[entry] := head;
      }
      assert s == [] ==> s + [entry] == [entry];
      UntouchedElsewhere(s + [entry]);
    }

    // removeHeadEntry, which takes the head through removeEntry
    method RemoveHead(head: int, ghost s: seq<int>) returns (entry: int, newHead: int)
      requires Valid() && IsRing(s, head)
      modifies prev, next
      ensures s == [] ==> entry == NULL && newHead == NULL && IsRing([], NULL)
      ensures s != [] ==> entry == s[0] && IsRing(s[1..], newHead)
      ensures Elsewhere(s)
    {
      assert s != [] ==> RingAt(next[..], prev[..], s, 0);
      if head == NULL {
        UntouchedElsewhere(s);
        return NULL, NULL;
      }
      entry := head;
      RingMembers(next[..], prev[..], s, head);
      assert s[0] in s && s[|s| - 1] in s && (|s| > 1 ==> s[1] in s);
      var p, n := prev[entry], next[entry];
      if p == entry && n == entry {
        newHead := NULL;
        assert |s| == 1;
      } else {
        DropHeadRing(next[..], prev[..], s, head);
        next[p] := n;
        prev[n] := p;
        newHead := n;
      }
      UntouchedElsewhere(s);
    }
  }
}
