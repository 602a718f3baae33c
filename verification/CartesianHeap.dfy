// Best-fit allocation from a treap of free blocks, ordered by size with the
// block's address as its priority
// (src/thread_lib/include/heaplayers/experimental/cartesianheap.h).
module CartesianHeaps {
  import opened Treaps

  // A free block holds its own treap node, so no block is smaller than one.
  const NODESIZE := 48
  const TWO32 := 0x1_0000_0000

  function AtLeastNode(sz: nat): nat {
    if sz < NODESIZE then NODESIZE else sz
  }

  class CartesianHeap {
    const treap: Treap

    ghost predicate Valid()
      reads this, treap
    {
      && treap.Valid()
      && forall p :: p in Addrs(treap.tree) ==>
           p in treap.nodes && treap.nodes[p].value == p && treap.nodes[p].priority == p % TWO32
    }

    ghost function Free(): set<int>
      reads this, treap
    {
      Addrs(treap.tree)
    }

    function SizeOf(p: int): int
      reads this, treap
      requires p in treap.nodes
    {
      treap.nodes[p].key
    }

    constructor ()
      ensures Valid() && Free() == {} && fresh(treap)
    {
      treap := new Treap();
      new;
      assert Order(treap.tree) == [];
      forall p
        ensures p !in Addrs(treap.tree)
      {
        OrderAddrs(treap.tree, p);
      }
    }

    // A free block that fits and is no larger than any other that fits; when
    // there is none the request goes to the heap below.
    method Malloc(request: nat) returns (found: bool, ptr: int)
      requires Valid()
      modifies treap
      ensures Valid()
      ensures
        found ==>
          && ptr in old(Free()) && Free() == old(Free()) - {ptr}
          && ptr in old(treap.nodes) && old(SizeOf(ptr)) >= request && old(SizeOf(ptr)) >= NODESIZE
          && forall q :: q in old(Free()) && q in old(treap.nodes) &&
                         old(treap.nodes)[q].key >= request && old(treap.nodes)[q].key >= NODESIZE ==>
               old(treap.nodes)[q].key >= old(SizeOf(ptr))
      ensures
        !found ==>
          && Free() == old(Free())
          && forall q :: q in old(Free()) && q in old(treap.nodes) ==>
               old(treap.nodes)[q].key < request || old(treap.nodes)[q].key < NODESIZE
      ensures forall q :: q in Free() && q in old(treap.nodes) ==>
                q in treap.nodes && treap.nodes[q].key == old(treap.nodes)[q].key
    {
      var sz := AtLeastNode(request);
      var n := treap.LookupGeq(sz);
      forall p
        ensures p in Order(treap.tree) <==> p in Addrs(treap.tree)
      {
        OrderAddrs(treap.tree, p);
      }
      if n != NIL {
        ptr := treap.nodes[n].value;
        treap.Remove(n);
        found := true;
      } else {
        found, ptr := false, NIL;
      }
    }

    // Free of a block of the given size, which getSize reads.
    method Release(ptr: int, size: nat)
      requires Valid() && ptr > 0 && ptr !in Free()
      modifies treap
      ensures Valid() && Free() == old(Free()) + {ptr}
      ensures ptr in treap.nodes && SizeOf(ptr) == size
      ensures forall q :: q in old(Free()) && q in old(treap.nodes) ==>
                q in treap.nodes && treap.nodes[q].key == old(treap.nodes)[q].key
    {
      ghost var before := treap.tree;
      treap.Insert(ptr, size, ptr, ptr % TWO32);
      ghost var i: nat :| PutIn(Order(before), ptr, i, Order(treap.tree));
      PutInAddrs(before, treap.tree, ptr, i);
    }
  }

  lemma PutInAddrs(t: Tree, u: Tree, n: int, i: nat)
    requires PutIn(Order(t), n, i, Order(u))
    ensures Addrs(u) == Addrs(t) + {n}
  {
    var s := Order(t);
    assert s == s[..i] + s[i..];
    forall a
      ensures a in Addrs(u) <==> a in Addrs(t) || a == n
    {
      OrderAddrs(t, a);
      OrderAddrs(u, a);
      assert a in s <==> a in s[..i] || a in s[i..];
    }
  }
}
