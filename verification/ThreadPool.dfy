// The pool of parked threads (src/thread_lib/include/thread_pool.h). A thread
// that ends is put at the head and a spawn takes the one at the tail, or an
// entry never used before; which id a spawn gets depends on nothing else.
module ThreadPools {
  import opened ListArrays

  const POOLSIZE := 256

  datatype Parked = Exited | Waiting | Woken | Fresh

  // The entry a spawn gets: the one parked longest, else the next new one, else
  // none.
  function Chosen(queue: seq<int>, idCounter: nat): int {
    if queue != [] then queue[0]
    else if idCounter < POOLSIZE - 1 then idCounter
    else NULL
  }

  // The links of a queue, oldest first: prev leads to the younger neighbour.
  ghost predicate Queued(younger: seq<int>, older: seq<int>, queue: seq<int>, head: int, tail: int) {
    && |younger| == |older| == POOLSIZE
    && NoDup(queue)
    && (forall k :: 0 <= k < |queue| ==> 0 <= queue[k] < POOLSIZE && LinkedAt(younger, older, queue, k))
    && tail == (if queue == [] then NULL else queue[0])
    && head == (if queue == [] then NULL else queue[|queue| - 1])
  }

  lemma QueueAdd(younger: seq<int>, older: seq<int>, queue: seq<int>, head: int, tail: int, e: int)
    requires Queued(younger, older, queue, head, tail) && 0 <= e < POOLSIZE && e !in queue
    ensures queue == [] ==> Queued(younger[e := NULL], older[e := NULL], [e], e, e)
    ensures queue != [] ==> Queued(younger[e := NULL][head := e], older[e := head], queue + [e], e, tail)
  {
    var q := queue + [e];
    if queue != [] {
      var y, o := younger[e := NULL][head := e], older[e := head];
      forall k | 0 <= k < |q|
        ensures 0 <= q[k] < POOLSIZE && LinkedAt(y, o, q, k)
      {
        if k < |queue| {
          assert LinkedAt(younger, older, queue, k) && queue[k] in queue;
        }
      }
    } else {
      assert LinkedAt(younger[e := NULL], older[e := NULL], [e], 0);
    }
  }

  lemma QueueTake(younger: seq<int>, older: seq<int>, queue: seq<int>, head: int, tail: int)
    requires Queued(younger, older, queue, head, tail) && queue != []
    ensures 0 <= tail < POOLSIZE && younger[tail] == (if |queue| > 1 then queue[1] else NULL)
    ensures |queue| == 1 ==> Queued(younger, older, [], NULL, NULL)
    ensures |queue| > 1 ==> 0 <= queue[1] < POOLSIZE
    ensures |queue| > 1 ==> Queued(younger, older[queue[1] := NULL], queue[1..], head, queue[1])
  {
    assert LinkedAt(younger, older, queue, 0);
    if |queue| > 1 {
      var q, o := queue[1..], older[queue[1] := NULL];
      forall k | 0 <= k < |q|
        ensures 0 <= q[k] < POOLSIZE && LinkedAt(younger, o, q, k)
      {
        assert LinkedAt(younger, older, queue, k + 1) && q[k] == queue[k + 1];
        assert k > 0 ==> q[k - 1] == queue[k] && queue[k + 1] != queue[1];
        assert k + 1 < |q| ==> q[k + 1] == queue[k + 2];
      }
    }
  }

  class ThreadPool {
    const next: array<int>
    const prev: array<int>
    const status: array<Parked>
    var head: int
    var tail: int
    var idCounter: nat
    ghost var queue: seq<int>
    ghost var inUse: set<int>

    // Every entry handed out so far is parked or in use, and not both.
    ghost predicate Valid()
      reads this, next, prev, status
    {
      && next != prev && status.Length == POOLSIZE
      && idCounter <= POOLSIZE - 1
      && Queued(prev[..], next[..], queue, head, tail)
      && (forall e :: e in inUse ==> 0 <= e < idCounter && e !in queue)
      && (forall e :: 0 <= e < idCounter ==> e in queue || e in inUse)
      && (forall e :: e in queue ==> 0 <= e < idCounter && status[e] == Waiting)
      && (forall e :: idCounter <= e < POOLSIZE ==> status[e] == Fresh)
    }

    constructor ()
      ensures Valid() && queue == [] && inUse == {} && idCounter == 0
    {
      next := new int[POOLSIZE];
      prev := new int[POOLSIZE];
      status := new Parked[POOLSIZE](i => Fresh);
      head, tail, idCounter, queue, inUse := NULL, NULL, 0, [], {};
    }

    // The entry put at the head of the queue.
    method PutHead(e: int)
      requires next != prev && Queued(prev[..], next[..], queue, head, tail) && 0 <= e < POOLSIZE && e !in queue
      modifies this`head, this`tail, next, prev
      ensures Queued(prev[..], next[..], queue + [e], head, tail)
    {
      QueueAdd(prev[..], next[..], queue, head, tail, e);
      assert queue == [] ==> queue + [e] == [e];
      assert queue != [] ==> queue[|queue| - 1] in queue;
      next[e], prev[e] := NULL, NULL;
      if head == NULL {
        head, tail := e, e;
      } else {
        next[e] := head;
        prev[head] := e;
        assert prev[..] == old(prev[..])[e := NULL][head := e];
        assert next[..] == old(next[..])[e := head];
        head := e;
      }
    }

    // add_thread_to_pool
    method Park(e: int)
      requires Valid() && e in inUse
      modifies this`head, this`tail, this`queue, this`inUse, next, prev, status
      ensures Valid() && idCounter == old(idCounter)
      ensures queue == old(queue) + [e] && inUse == old(inUse) - {e}
      ensures status[..] == old(status[..])[e := Waiting]
    {
      PutHead(e);
      status[e] := Waiting;
      assert forall x :: x in queue + [e] <==> x in queue || x == e;
      queue, inUse := queue + [e], inUse - {e};
    }

    // get_thread; there is no entry to give when all are in use.
    method GetThread() returns (e: int)
      requires Valid()
      modifies this`head, this`tail, this`idCounter, this`queue, this`inUse, next, prev, status
      ensures Valid() && e == Chosen(old(queue), old(idCounter))
      ensures e == NULL <==> |old(queue)| == 0 && old(idCounter) == POOLSIZE - 1
      ensures e != NULL ==> e !in old(inUse) && inUse == old(inUse) + {e}
      ensures queue == if old(queue) == [] then [] else old(queue)[1..]
      ensures e == NULL ==> inUse == old(inUse)
      ensures status[..] == if e == NULL then old(status[..])
                            else old(status[..])[e := if old(queue) == [] then Fresh else Woken]
    {
      assert queue != [] ==> queue[0] in queue;
      e := tail;
      if e != NULL {
        QueueTake(prev[..], next[..], queue, head, tail);
        tail := prev[e];
        if prev[e] != NULL {
          next[prev[e]] := NULL;
        } else {
          head := NULL;
        }
        assert forall x :: x in queue <==> x == queue[0] || x in queue[1..];
        queue := queue[1..];
      } else if idCounter < POOLSIZE - 1 {
        e := idCounter;
        idCounter := idCounter + 1;
      }
      if e != NULL {
        inUse := inUse + {e};
        status[e] := if status[e] == Waiting then Woken else Fresh;
      }
    }
  }
}
