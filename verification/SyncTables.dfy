// Lock and condition-variable entries, the threads queued on them and the
// active list, as the token holder changes them
// (src/thread_lib/include/determ.h: wait_on_lock_and_release_token,
// lock_acquire, lock_release, cond_wait, cond_signal, cond_broadcast).
module SyncTables {
  import opened ListArrays

  // The statuses a thread entry takes in lock and condition operations.
  datatype Status = Ready | WaitingOnLock | OnDeck | CondWaiting

  datatype Obj =
    | Lock(acquired: bool, waiters: int, q: seq<int>)
    | Cond(waiters: int, q: seq<int>)

  // `bug` records a step that would stop the program: a thread put on the active
  // list while it is on it, or a waiting thread counted but not queued.
  datatype Tables = Tables(objs: map<int, Obj>, status: seq<Status>, active: set<int>, bug: bool)

  ghost predicate ObjOk(T: Tables, m: int)
    requires m in T.objs
  {
    && T.objs[m].waiters == |T.objs[m].q|
    && NoDup(T.objs[m].q)
    && forall x :: x in T.objs[m].q ==> 0 <= x < |T.status|
  }

  predicate IsLock(T: Tables, m: int) { m in T.objs && T.objs[m].Lock? }

  predicate IsCond(T: Tables, c: int) { c in T.objs && T.objs[c].Cond? }

  function WithStatus(T: Tables, t: int, s: Status): Tables {
    if 0 <= t < |T.status| then T.(status := T.status[t := s]) else T
  }

  function Activated(T: Tables, t: int): Tables {
    T.(active := T.active + {t}, bug := T.bug || t in T.active)
  }

  // lock_init
  function InitLock(T: Tables, m: int): Tables {
    T.(objs := T.objs[m := Lock(false, 0, [])])
  }

  // cond_init
  function InitCond(T: Tables, c: int): Tables {
    T.(objs := T.objs[c := Cond(0, [])])
  }

  function Marked(T: Tables, m: int, acquired: bool): Tables
    requires IsLock(T, m)
  {
    T.(objs := T.objs[m := Lock(acquired, T.objs[m].waiters, T.objs[m].q)])
  }

  // lock_acquire, which creates the entry on first use
  function Acquire(T: Tables, m: int): (Tables, bool)
    requires m in T.objs ==> T.objs[m].Lock?
  {
    var U := if m in T.objs then T else InitLock(T, m);
    if U.objs[m].acquired then (U, false) else (Marked(U, m, true), true)
  }

  // The first section of wait_on_lock_and_release_token
  function Enqueue(T: Tables, t: int, m: int): Tables
    requires IsLock(T, m)
  {
    var o := T.objs[m];
    WithStatus(T.(objs := T.objs[m := Lock(o.acquired, o.waiters + 1, o.q + [t])]), t, WaitingOnLock)
  }

  function Shortened(T: Tables, m: int): Tables
    requires m in T.objs && T.objs[m].q != []
  {
    var o := T.objs[m];
    var p := if o.Lock? then Lock(o.acquired, o.waiters - 1, o.q[1..]) else Cond(o.waiters - 1, o.q[1..]);
    T.(objs := T.objs[m := p])
  }

  // The head of a queue is taken off, activated and made ready.
  function PopHead(T: Tables, m: int): Tables
    requires m in T.objs && T.objs[m].q != []
  {
    var t := T.objs[m].q[0];
    WithStatus(Activated(Shortened(T, m), t), t, Ready)
  }

  // lock_release: the head of the queue is woken, and the thread behind it is
  // told it is next.
  function Release(T: Tables, m: int): Tables
    requires IsLock(T, m)
  {
    var q := T.objs[m].q;
    if T.objs[m].waiters <= 0 then Marked(T, m, false)
    else if q == [] then T.(bug := true)
    else
      var U := PopHead(Marked(T, m, false), m);
      if |q| > 1 then WithStatus(U, q[1], OnDeck) else U
  }

  // The first part of cond_wait
  function CondEnqueue(T: Tables, t: int, c: int): Tables
    requires IsCond(T, c)
  {
    var o := T.objs[c];
    WithStatus(T.(objs := T.objs[c := Cond(o.waiters + 1, o.q + [t])]), t, CondWaiting)
  }

  // cond_signal
  function Signal(T: Tables, c: int): Tables
    requires IsCond(T, c)
  {
    if T.objs[c].waiters == 0 then T
    else if T.objs[c].q == [] then T.(bug := true)
    else PopHead(T, c)
  }

  // The loop of cond_broadcast, which goes by the queue and not by the count
  function PopAll(T: Tables, c: int): Tables
    requires IsCond(T, c)
    decreases |T.objs[c].q|
  {
    if T.objs[c].q == [] then T else PopAll(PopHead(T, c), c)
  }

  // cond_broadcast
  function Broadcast(T: Tables, c: int): Tables
    requires IsCond(T, c)
  {
    if T.objs[c].waiters == 0 then T else PopAll(T, c)
  }

  // What a broadcast amounts to: the queue is emptied, exactly its threads are
  // ready and active, and nothing else changes.
  lemma {:induction false} PopAllEmpties(T: Tables, c: int)
    requires IsCond(T, c) && ObjOk(T, c)
    ensures
      var U := PopAll(T, c);
      && U.objs == T.objs[c := Cond(0, [])] && |U.status| == |T.status|
      && (forall t :: 0 <= t < |T.status| ==>
            U.status[t] == if t in T.objs[c].q then Ready else T.status[t])
      && (forall t :: t in U.active <==> t in T.active || t in T.objs[c].q)
      && (U.bug <==> T.bug || exists t :: t in T.objs[c].q && t in T.active)
    decreases |T.objs[c].q|
  {
    var q := T.objs[c].q;
    if q == [] {
      assert T.objs[c := Cond(0, [])] == T.objs;
    } else {
      var V := PopHead(T, c);
      assert forall x :: x in q <==> x == q[0] || x in q[1..];
      assert q[0] !in q[1..];
      PopAllEmpties(V, c);
      assert V.objs[c := Cond(0, [])] == T.objs[c := Cond(0, [])];
    }
  }

  lemma BroadcastEmpties(T: Tables, c: int)
    requires IsCond(T, c) && ObjOk(T, c)
    ensures
      var U := Broadcast(T, c);
      && U.objs == T.objs[c := Cond(0, [])] && |U.status| == |T.status|
      && (forall t :: 0 <= t < |T.status| ==>
            U.status[t] == if t in T.objs[c].q then Ready else T.status[t])
      && (forall t :: t in U.active <==> t in T.active || t in T.objs[c].q)
      && (U.bug <==> T.bug || exists t :: t in T.objs[c].q && t in T.active)
  {
    PopAllEmpties(T, c);
    assert T.objs[c].q == [] ==> PopAll(T, c) == T;
  }

  // ---- what each operation does ----

  // Nothing but the entry of m differs.
  predicate OnlyEntry(T: Tables, m: int, U: Tables) {
    m in U.objs && U == T.(objs := T.objs[m := U.objs[m]])
  }

  // An acquisition succeeds exactly if nobody has the lock, which it then has, and
  // touches no queue; an entry is created on first use.
  lemma AcquireExact(T: Tables, m: int)
    requires m in T.objs ==> T.objs[m].Lock?
    ensures
      var (U, ok) := Acquire(T, m);
      && (ok <==> (m in T.objs ==> !T.objs[m].acquired))
      && OnlyEntry(T, m, U) && IsLock(U, m) && U.objs[m].acquired
      && (if m in T.objs then U.objs[m].q == T.objs[m].q && U.objs[m].waiters == T.objs[m].waiters
          else U.objs[m].q == [] && U.objs[m].waiters == 0)
  {
  }

  // A release leaves the lock free. Its first waiting thread, if there is one, is
  // taken off the queue, ready and active, and the next one is on deck.
  lemma ReleaseExact(T: Tables, m: int)
    requires IsLock(T, m) && ObjOk(T, m)
    ensures
      var q, U := T.objs[m].q, Release(T, m);
      && IsLock(U, m) && !U.objs[m].acquired && ObjOk(U, m) && |U.status| == |T.status|
      && (forall n :: n != m ==> (n in U.objs <==> n in T.objs) && (n in T.objs ==> U.objs[n] == T.objs[n]))
      && (if q == [] then U.objs[m].q == [] && U.active == T.active && U.bug == T.bug
          else q == [q[0]] + U.objs[m].q && U.active == T.active + {q[0]} && (U.bug <==> T.bug || q[0] in T.active))
      && forall t :: 0 <= t < |T.status| ==>
           U.status[t] == if q != [] && t == q[0] then Ready else if |q| > 1 && t == q[1] then OnDeck else T.status[t]
  {
    var q := T.objs[m].q;
    if q != [] {
      assert q[0] in q && q == [q[0]] + q[1..];
      assert |q| > 1 ==> q[1] in q && q[1] != q[0];
      assert forall x :: x in q[1..] ==> x in q;
    }
  }

  // A thread that waits is at the end of the one queue, and not ready.
  lemma EnqueueExact(T: Tables, t: int, m: int)
    requires m in T.objs && 0 <= t < |T.status|
    ensures
      var U := if T.objs[m].Lock? then Enqueue(T, t, m) else CondEnqueue(T, t, m);
      && m in U.objs && U.objs == T.objs[m := U.objs[m]] && U.active == T.active && U.bug == T.bug
      && U.objs[m].q == T.objs[m].q + [t] && U.objs[m].waiters == T.objs[m].waiters + 1
      && U.objs[m].Lock? == T.objs[m].Lock? && (T.objs[m].Lock? ==> U.objs[m].acquired == T.objs[m].acquired)
      && U.status == T.status[t := if T.objs[m].Lock? then WaitingOnLock else CondWaiting]
  {
  }

  // A signal takes the first waiting thread, if there is one, and no other.
  lemma SignalExact(T: Tables, c: int)
    requires IsCond(T, c) && ObjOk(T, c)
    ensures
      var q, U := T.objs[c].q, Signal(T, c);
      if q == [] then U == T
      else
        && 0 <= q[0] < |T.status|
        && U.objs == T.objs[c := Cond(|q| - 1, q[1..])] && U.active == T.active + {q[0]}
        && U.status == T.status[q[0] := Ready] && (U.bug <==> T.bug || q[0] in T.active)
  {
    var q := T.objs[c].q;
    if q != [] {
      assert q[0] in q;
    }
  }
}
