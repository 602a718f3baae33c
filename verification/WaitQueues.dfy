// The lock and condition entries as the runtime holds them: a wait count and the
// head of a circular list threaded through the thread entries
// (src/thread_lib/include/determ.h). Every operation here refines the function
// of the same name in SyncTables.
module WaitQueues {
  import opened ListArrays
  import opened EntryLists
  import opened SyncTables

  // A LockEntry or a CondEntry.
  datatype Rec = Rec(isLock: bool, acquired: bool, waiters: int, head: int)

  function ObjOf(r: Rec, q: seq<int>): Obj {
    if r.isLock then Lock(r.acquired, r.waiters, q) else Cond(r.waiters, q)
  }

  class SyncState {
    const links: Links
    const status: array<Status>
    var objs: map<int, Rec>
    var active: set<int>
    var bug: bool
    ghost var queues: map<int, seq<int>>

    ghost predicate ObjAt(m: int)
      reads this, links, links.prev, links.next
    {
      && m in objs && m in queues
      && links.IsRing(queues[m], objs[m].head)
      && objs[m].waiters == |queues[m]|
      && forall x :: x in queues[m] ==> 0 <= x < status.Length
    }

    ghost predicate Apart() 
      reads this
    {
      forall m, n, x :: m in queues && n in queues && m != n && x in queues[m] ==> x !in queues[n]
    }

    ghost predicate Valid()
      reads this, links, links.prev, links.next
    {
      && links.Valid() && links.next.Length == status.Length
      && objs.Keys == queues.Keys
      && (forall m :: m in objs ==> ObjAt(m))
      && Apart()
    }

    ghost function M(): Tables
      reads this, links, links.prev, links.next, status
      requires objs.Keys == queues.Keys
    {
      Tables(map m | m in objs :: ObjOf(objs[m], queues[m]), status[..], active, bug)
    }

    constructor (n: nat)
      ensures Valid() && status.Length == n
      ensures M().objs == map[] && M().active == {} && !M().bug
    {
      links := new Links(n);
      status := new Status[n];
      objs, active, bug, queues := map[], {}, false, map[];
      new;
    }

    // An entry that is as it was keeps its list when no link of it was touched.
    twostate lemma OthersKept(touched: seq<int>)
      requires old(Valid()) && objs.Keys == queues.Keys
      requires links.Elsewhere(touched)
      ensures forall n :: (n in objs && n in old(objs) && objs[n] == old(objs[n]) && queues[n] == old(queues[n]) &&
                forall x :: x in queues[n] ==> x !in touched) ==> ObjAt(n)
    {
      forall n | n in objs && n in old(objs) && objs[n] == old(objs[n]) && queues[n] == old(queues[n]) &&
          forall x :: x in queues[n] ==> x !in touched
        ensures ObjAt(n)
      {
        assert old(ObjAt(n));
        assert old(links.IsRing(queues[n], objs[n].head));
      }
    }

    // insertTail on the list of m and one more waiter, as wait_on_lock and
    // cond_wait begin.
    method Join(t: int, m: int)
      requires Valid() && m in objs && 0 <= t < status.Length
      requires forall n :: n in queues ==> t !in queues[n]
      modifies this`objs, this`queues, links.prev, links.next
      ensures Valid() && objs.Keys == old(objs.Keys)
      ensures queues == old(queues)[m := old(queues)[m] + [t]]
      ensures objs == old(objs)[m := objs[m]]
      ensures objs[m].isLock == old(objs[m].isLock) && objs[m].acquired == old(objs[m].acquired)
      ensures objs[m].waiters == old(objs[m].waiters) + 1
    {
      assert ObjAt(m);
      ghost var q := queues[m];
      var head := links.InsertTail(t, objs[m].head, q);
      objs := objs[m := Rec(objs[m].isLock, objs[m].acquired, objs[m].waiters + 1, head)];
      queues := queues[m := q + [t]];
      assert objs.Keys == old(objs.Keys);
      OthersKept(q + [t]);
      assert ObjAt(m);
    }

    // removeHeadEntry on the list of m and one waiter less.
    method Leave(m: int) returns (t: int)
      requires Valid() && m in objs && queues[m] != []
      modifies this`objs, this`queues, links.prev, links.next
      ensures Valid() && objs.Keys == old(objs.Keys)
      ensures t == old(queues)[m][0] && 0 <= t < status.Length
      ensures queues == old(queues)[m := old(queues)[m][1..]]
      ensures objs == old(objs)[m := objs[m]]
      ensures objs[m].isLock == old(objs[m].isLock) && objs[m].acquired == old(objs[m].acquired)
      ensures objs[m].waiters == old(objs[m].waiters) - 1
    {
      assert ObjAt(m);
      ghost var q := queues[m];
      assert q[0] in q;
      var head;
      t, head := links.RemoveHead(objs[m].head, q);
      objs := objs[m := Rec(objs[m].isLock, objs[m].acquired, objs[m].waiters - 1, head)];
      queues := queues[m := q[1..]];
      assert forall x :: x in q[1..] ==> x in q;
      assert objs.Keys == old(objs.Keys);
      OthersKept(q);
      assert ObjAt(m);
    }

    // lock_init and cond_init: an entry with no waiting threads.
    method Init(m: int, isLock: bool)
      requires Valid() && m !in objs
      modifies this`objs, this`queues
      ensures Valid()
      ensures objs == old(objs)[m := Rec(isLock, false, 0, NULL)] && queues == old(queues)[m := []]
    {
      objs := objs[m := Rec(isLock, false, 0, NULL)];
      queues := queues[m := []];
      assert forall n :: n in objs && n != m ==> old(ObjAt(n));
    }

    method LockInit(m: int)
      requires Valid() && m !in objs
      modifies this`objs, this`queues
      ensures Valid() && objs == old(objs)[m := Rec(true, false, 0, NULL)]
      ensures M() == InitLock(old(M()), m)
    {
      Init(m, true);
    }

    method CondInit(m: int)
      requires Valid() && m !in objs
      modifies this`objs, this`queues
      ensures Valid()
      ensures M() == InitCond(old(M()), m)
    {
      Init(m, false);
    }

    method Mark(m: int, acquired: bool)
      requires Valid() && m in objs && objs[m].isLock
      modifies this`objs
      ensures Valid() && objs == old(objs)[m := Rec(true, acquired, old(objs[m].waiters), old(objs[m].head))]
      ensures M() == Marked(old(M()), m, acquired)
    {
      objs := objs[m := Rec(true, acquired, objs[m].waiters, objs[m].head)];
      assert forall n :: n in objs ==> old(ObjAt(n));
    }

    method LockAcquire(m: int) returns (ok: bool)
      requires Valid() && (m in objs ==> objs[m].isLock)
      modifies this`objs, this`queues
      ensures Valid()
      ensures M() == Acquire(old(M()), m).0 && ok == Acquire(old(M()), m).1
    {
      if m !in objs {
        LockInit(m);
      }
      ok := !objs[m].acquired;
      if ok {
        Mark(m, true);
      }
    }

    // The first part of wait_on_lock_and_release_token.
    method WaitOnLock(t: int, m: int)
      requires Valid() && m in objs && objs[m].isLock && 0 <= t < status.Length
      requires forall n :: n in queues ==> t !in queues[n]
      modifies this`objs, this`queues, links.prev, links.next, status
      ensures Valid()
      ensures M() == Enqueue(old(M()), t, m)
    {
      Join(t, m);
      status[t] := WaitingOnLock;
    }

    // The first part of cond_wait.
    method CondWait(t: int, c: int)
      requires Valid() && c in objs && !objs[c].isLock && 0 <= t < status.Length
      requires forall n :: n in queues ==> t !in queues[n]
      modifies this`objs, this`queues, links.prev, links.next, status
      ensures Valid()
      ensures M() == CondEnqueue(old(M()), t, c)
    {
      Join(t, c);
      status[t] := CondWaiting;
    }

    // determ_task_clock_activate_other, as far as the active list goes.
    method ActivateOther(t: int)
      modifies this`active, this`bug
      ensures active == old(active) + {t} && bug == (old(bug) || t in old(active))
    {
      bug := bug || t in active;
      active := active + {t};
    }

    // The head of the queue of m taken off, activated and made ready.
    method Wake(m: int)
      requires Valid() && m in objs && queues[m] != []
      modifies this`objs, this`queues, this`active, this`bug, links.prev, links.next, status
      ensures Valid() && m in objs && objs[m].isLock == old(objs[m].isLock)
      ensures queues == old(queues)[m := old(queues)[m][1..]]
      ensures M() == PopHead(old(M()), m)
    {
      var waiting := Leave(m);
      assert M() == Shortened(old(M()), m);
      Rouse(waiting);
    }

    method Rouse(t: int)
      requires Valid() && 0 <= t < status.Length
      modifies this`active, this`bug, status
      ensures Valid()
      ensures M() == WithStatus(Activated(old(M()), t), t, Ready)
    {
      ActivateOther(t);
      status[t] := Ready;
    }

    method LockRelease(m: int)
      requires Valid() && m in objs && objs[m].isLock
      modifies this`objs, this`queues, this`active, this`bug, links.prev, links.next, status
      ensures Valid()
      ensures M() == Release(old(M()), m)
    {
      assert ObjAt(m);
      Mark(m, false);
      if objs[m].waiters > 0 {
        assert ObjAt(m);
        Wake(m);
        assert ObjAt(m);
        assert queues[m] != [] ==> queues[m][0] in queues[m];
        if objs[m].waiters > 0 {
          var next := objs[m].head;
          if next != NULL {
            status[next] := OnDeck;
          }
        }
      }
    }

    method CondSignal(c: int)
      requires Valid() && c in objs && !objs[c].isLock
      modifies this`objs, this`queues, this`active, this`bug, links.prev, links.next, status
      ensures Valid()
      ensures M() == Signal(old(M()), c)
    {
      assert ObjAt(c);
      if objs[c].waiters == 0 {
        return;
      }
      Wake(c);
    }

    method CondBroadcast(c: int)
      requires Valid() && c in objs && !objs[c].isLock
      modifies this`objs, this`queues, this`active, this`bug, links.prev, links.next, status
      ensures Valid()
      ensures M() == Broadcast(old(M()), c)
    {
      assert ObjAt(c);
      if objs[c].waiters == 0 {
        return;
      }
      while objs[c].head != NULL
        invariant Valid() && c in objs && !objs[c].isLock
        invariant PopAll(M(), c) == PopAll(old(M()), c)
        decreases |queues[c]|
      {
        assert ObjAt(c);
        Wake(c);
      }
      assert ObjAt(c);
      RingMembers(links.next[..], links.prev[..], queues[c], objs[c].head);
    }
  }
}
