// Runs of lock and condition operations. The token serializes the sections,
// but a thread is queued, takes itself off the active list and lets the token
// go in separate steps, and it retries the lock only when it runs again
// (src/thread_lib/include/determ.h, src/thread_lib/include/xrun.h).
module LockProtocol {
  import opened ListArrays
  import opened SyncTables

  // Where a thread stands.
  //  Away          off the active list for another reason: waiting in a barrier
  //                or a join, not yet created, or gone
  //  Idle          in no lock or condition operation
  //  Wants         about to try lock m; `popped` if a release has taken it off
  //                the queue of m
  //  Queued        queued on lock m, still active, still holding the token
  //  QueuedHalted  the same, halted
  //  Asleep        waiting for its status to become ready
  //  CondQueued    queued on condition c, lock m not yet released
  //  CondReleased  lock m released
  //  CondHalted    the same, halted
  //  CondAsleep    waiting for its status to become ready
  datatype Pc =
    | Away
    | Idle
    | Wants(m: int, popped: bool)
    | Queued(m: int)
    | QueuedHalted(m: int)
    | Asleep(m: int)
    | CondQueued(c: int, m: int)
    | CondReleased(c: int, m: int)
    | CondHalted(c: int, m: int)
    | CondAsleep(c: int, m: int)

  const FREE := -1

  datatype Sys = Sys(T: Tables, token: int, pc: seq<Pc>)

  datatype Step =
    | CreateLock(t: int, m: int)
    | CreateCond(t: int, c: int)
    | Call(t: int, m: int)
    | Take(t: int)
    | TryLock(t: int)
    | HaltSelf(t: int)
    | Put(t: int)
    | Unlock(t: int, m: int)
    | Wait(t: int, c: int, m: int)
    | WaitRelease(t: int)
    | Notify(t: int, c: int)
    | NotifyAll(t: int, c: int)
    | Resume(t: int)
    | Leave(t: int)
    | Return(t: int)

  predicate Fits(s: Sys) {
    |s.pc| == |s.T.status| && -1 <= s.token < |s.pc|
  }

  predicate Enabled(s: Sys, x: Step) {
    Fits(s) && 0 <= x.t < |s.pc| &&
    match x
    case CreateLock(t, m) => s.token == t && s.pc[t].Idle? && m >= 0 && m !in s.T.objs
    case CreateCond(t, c) => s.token == t && s.pc[t].Idle? && c >= 0 && c !in s.T.objs
    case Call(t, m) => s.pc[t].Idle? && s.token != t && m >= 0
    case Take(t) => s.token == FREE && t in s.T.active && (s.pc[t].Idle? || s.pc[t].Wants?)
    case TryLock(t) => s.token == t && s.pc[t].Wants? && (s.pc[t].m in s.T.objs ==> s.T.objs[s.pc[t].m].Lock?)
    case HaltSelf(t) => s.token == t && (s.pc[t].Queued? || s.pc[t].CondReleased?)
    case Put(t) => s.token == t && (s.pc[t].Idle? || s.pc[t].Away? || s.pc[t].QueuedHalted? || s.pc[t].CondHalted?)
    case Unlock(t, m) => s.token == t && s.pc[t].Idle? && IsLock(s.T, m)
    case Wait(t, c, m) => s.token == t && s.pc[t].Idle? && IsCond(s.T, c) && IsLock(s.T, m)
    case WaitRelease(t) => s.token == t && s.pc[t].CondQueued? && IsLock(s.T, s.pc[t].m)
    case Notify(t, c) => s.token == t && s.pc[t].Idle? && IsCond(s.T, c)
    case NotifyAll(t, c) => s.token == t && s.pc[t].Idle? && IsCond(s.T, c)
    case Resume(t) => (s.pc[t].Asleep? || s.pc[t].CondAsleep?) && s.T.status[t] == Ready
    case Leave(t) => s.token == t && s.pc[t].Idle?
    case Return(t) => s.token != t && s.pc[t].Away?
  }

  function At(s: Sys, t: int, p: Pc): Sys
    requires 0 <= t < |s.pc|
  {
    s.(pc := s.pc[t := p])
  }

  function Do(s: Sys, x: Step): Sys
    requires Enabled(s, x)
  {
    match x
    case CreateLock(t, m) => s.(T := InitLock(s.T, m))
    case CreateCond(t, c) => s.(T := InitCond(s.T, c))
    case Call(t, m) => At(s, t, Wants(m, false))
    case Take(t) => s.(token := t)
    case TryLock(t) =>
      var m := s.pc[t].m;
      var r := Acquire(s.T, m);
      if r.1 then At(s.(T := r.0), t, Idle) else At(s.(T := Enqueue(r.0, t, m)), t, Queued(m))
    case HaltSelf(t) =>
      At(s.(T := s.T.(active := s.T.active - {t})), t,
         match s.pc[t] case Queued(m) => QueuedHalted(m) case CondReleased(c, m) => CondHalted(c, m) case p => p)
    case Put(t) =>
      At(s.(token := FREE), t,
         match s.pc[t] case QueuedHalted(m) => Asleep(m) case CondHalted(c, m) => CondAsleep(c, m) case p => p)
    case Unlock(t, m) => s.(T := Release(s.T, m))
    case Wait(t, c, m) => At(s.(T := CondEnqueue(s.T, t, c)), t, CondQueued(c, m))
    case WaitRelease(t) => At(s.(T := Release(s.T, s.pc[t].m)), t, CondReleased(s.pc[t].c, s.pc[t].m))
    case Notify(t, c) => s.(T := Signal(s.T, c))
    case NotifyAll(t, c) => s.(T := Broadcast(s.T, c))
    case Resume(t) =>
      At(s, t, match s.pc[t] case Asleep(m) => Wants(m, true) case CondAsleep(c, m) => Wants(m, false) case p => p)
    case Leave(t) => At(s.(T := s.T.(active := s.T.active - {t})), t, Away)
    case Return(t) => At(s.(T := Activated(s.T, t)), t, Idle)
  }

  // ---- the invariant ----

  // The queue a thread in this place is on, or -1.
  function Home(p: Pc, st: Status): int {
    match p
    case Queued(m) => m
    case QueuedHalted(m) => m
    case Asleep(m) => if st == Ready then -1 else m
    case CondQueued(c, _) => c
    case CondReleased(c, _) => c
    case CondHalted(c, _) => c
    case CondAsleep(c, _) => if st == Ready then -1 else c
    case _ => -1
  }

  predicate Halted(p: Pc, st: Status) {
    p.Away? || p.QueuedHalted? || p.CondHalted? || ((p.Asleep? || p.CondAsleep?) && st != Ready)
  }

  predicate Mid(p: Pc) {
    p.Queued? || p.QueuedHalted? || p.CondQueued? || p.CondReleased? || p.CondHalted?
  }

  // What a place says about the tables.
  predicate PlaceOk(T: Tables, p: Pc) {
    match p
    case Wants(m, popped) => m >= 0 && (popped ==> IsLock(T, m))
    case Queued(m) => IsLock(T, m)
    case QueuedHalted(m) => IsLock(T, m)
    case Asleep(m) => IsLock(T, m)
    case CondQueued(c, m) => IsCond(T, c) && IsLock(T, m)
    case CondReleased(c, m) => IsCond(T, c) && IsLock(T, m)
    case CondHalted(c, m) => IsCond(T, c) && IsLock(T, m)
    case CondAsleep(c, m) => IsCond(T, c) && IsLock(T, m)
    case _ => true
  }

  predicate ThreadOk(s: Sys, t: int)
    requires Fits(s) && 0 <= t < |s.pc|
  {
    var h := Home(s.pc[t], s.T.status[t]);
    && PlaceOk(s.T, s.pc[t])
    && (h >= 0 ==> h in s.T.objs && t in s.T.objs[h].q)
    && (s.T.status[t] == Ready <==> h < 0)
    && (t in s.T.active <==> !Halted(s.pc[t], s.T.status[t]))
    && (Mid(s.pc[t]) ==> s.token == t)
  }

  ghost predicate QueueOk(s: Sys, m: int)
    requires Fits(s) && m in s.T.objs
  {
    && m >= 0
    && ObjOk(s.T, m)
    && forall t :: t in s.T.objs[m].q ==> Home(s.pc[t], s.T.status[t]) == m
  }

  // A thread that a release of m has taken off the queue and that has yet to
  // try m again.
  predicate WillRetry(s: Sys, m: int, u: int)
    requires Fits(s)
  {
    && 0 <= u < |s.pc|
    && (s.pc[u] == Wants(m, true) || (s.pc[u] == Asleep(m) && s.T.status[u] == Ready))
  }

  ghost predicate Awake(s: Sys, m: int)
    requires Fits(s) && m in s.T.objs
  {
    s.T.objs[m].Lock? && s.T.objs[m].q != [] ==> s.T.objs[m].acquired || exists u :: WillRetry(s, m, u)
  }

  ghost predicate Placed(s: Sys) {
    && Fits(s) && !s.T.bug
    && (forall t :: 0 <= t < |s.pc| ==> ThreadOk(s, t))
    && (forall m :: m in s.T.objs ==> QueueOk(s, m))
  }

  ghost predicate Inv(s: Sys) {
    Placed(s) && forall m :: m in s.T.objs ==> Awake(s, m)
  }

  // ---- taking the head of a queue ----

  // U is T with the head of the queue of m made ready and active.
  ghost predicate Pops(T: Tables, m: int, U: Tables) {
    && m in T.objs && T.objs[m].q != [] && m in U.objs
    && U.objs == T.objs[m := U.objs[m]]
    && U.objs[m].Lock? == T.objs[m].Lock?
    && U.objs[m].q == T.objs[m].q[1..] && U.objs[m].waiters == T.objs[m].waiters - 1
    && |U.status| == |T.status|
    && 0 <= T.objs[m].q[0] < |T.status| && U.status[T.objs[m].q[0]] == Ready
    && (forall t :: 0 <= t < |T.status| && t != T.objs[m].q[0] ==> (U.status[t] == Ready <==> T.status[t] == Ready))
    && U.active == T.active + {T.objs[m].q[0]}
    && (U.bug <==> T.bug || T.objs[m].q[0] in T.active)
  }

  lemma HeadAsleep(s: Sys, m: int)
    requires Placed(s) && m in s.T.objs && s.T.objs[m].q != []
    requires 0 <= s.token < |s.pc| && Home(s.pc[s.token], s.T.status[s.token]) != m
    ensures
      var t := s.T.objs[m].q[0];
      && 0 <= t < |s.pc| && t != s.token && t !in s.T.active && s.T.status[t] != Ready
      && (if s.T.objs[m].Lock? then s.pc[t] == Asleep(m) else s.pc[t].CondAsleep? && s.pc[t].c == m)
  {
    assert QueueOk(s, m);
    var t := s.T.objs[m].q[0];
    assert t in s.T.objs[m].q && ThreadOk(s, t);
  }

  lemma PopThread(s: Sys, m: int, U: Tables, t: int)
    requires Placed(s) && Pops(s.T, m, U) && 0 <= t < |s.pc|
    requires 0 <= s.token < |s.pc| && Home(s.pc[s.token], s.T.status[s.token]) != m
    ensures ThreadOk(s.(T := U), t)
  {
    HeadAsleep(s, m);
    assert ThreadOk(s, t) && QueueOk(s, m);
    var q := s.T.objs[m].q;
    assert forall x :: x in q <==> x == q[0] || x in q[1..];
  }

  lemma PopQueue(s: Sys, m: int, U: Tables, n: int)
    requires Placed(s) && Pops(s.T, m, U) && n in U.objs
    requires 0 <= s.token < |s.pc| && Home(s.pc[s.token], s.T.status[s.token]) != m
    ensures QueueOk(s.(T := U), n)
  {
    HeadAsleep(s, m);
    assert QueueOk(s, m) && QueueOk(s, n);
    var q := s.T.objs[m].q;
    forall x | x in U.objs[n].q
      ensures 0 <= x < |U.status| && Home(s.pc[x], U.status[x]) == n
    {
      assert x in s.T.objs[n].q;
    }
    assert n == m ==> NoDup(q[1..]);
  }

  lemma PopKeeps(s: Sys, m: int, U: Tables)
    requires Placed(s) && Pops(s.T, m, U)
    requires 0 <= s.token < |s.pc| && Home(s.pc[s.token], s.T.status[s.token]) != m
    ensures Placed(s.(T := U))
    ensures s.T.objs[m].Lock? ==> WillRetry(s.(T := U), m, s.T.objs[m].q[0])
  {
    HeadAsleep(s, m);
    forall t | 0 <= t < |s.pc|
      ensures ThreadOk(s.(T := U), t)
    {
      PopThread(s, m, U, t);
    }
    forall n | n in U.objs
      ensures QueueOk(s.(T := U), n)
    {
      PopQueue(s, m, U, n);
    }
  }

  // A retrying thread goes on retrying while only others are made ready.
  lemma PopAwake(s: Sys, m: int, U: Tables, n: int)
    requires Fits(s) && Pops(s.T, m, U) && n in s.T.objs && n != m && Awake(s, n)
    ensures Awake(s.(T := U), n)
  {
    if s.T.objs[n].Lock? && s.T.objs[n].q != [] && !s.T.objs[n].acquired {
      var u :| WillRetry(s, n, u);
      assert WillRetry(s.(T := U), n, u);
    }
  }

  // ---- joining the tail of a queue ----

  // U is T with thread t behind the queue of m.
  ghost predicate Pushes(T: Tables, m: int, t: int, U: Tables) {
    && m in T.objs && m in U.objs
    && U.objs == T.objs[m := U.objs[m]]
    && U.objs[m].Lock? == T.objs[m].Lock?
    && (T.objs[m].Lock? ==> U.objs[m].acquired == T.objs[m].acquired)
    && U.objs[m].q == T.objs[m].q + [t] && U.objs[m].waiters == T.objs[m].waiters + 1
    && 0 <= t < |T.status| == |U.status| && U.status[t] != Ready && U.status == T.status[t := U.status[t]]
    && U.active == T.active && U.bug == T.bug
  }

  lemma PushKeeps(s: Sys, m: int, t: int, U: Tables, p: Pc)
    requires Placed(s) && Pushes(s.T, m, t, U) && s.token == t
    requires s.pc[t].Idle? || s.pc[t].Wants?
    requires (p == Queued(m) && IsLock(s.T, m)) || (p.CondQueued? && p.c == m && IsCond(s.T, m) && IsLock(s.T, p.m))
    ensures Placed(At(s.(T := U), t, p))
  {
    var v := At(s.(T := U), t, p);
    var q, r := s.T.objs[m].q, U.objs[m].q;
    assert ThreadOk(s, t) && QueueOk(s, m);
    assert forall x :: x in r <==> x in q || x == t;
    forall u | 0 <= u < |v.pc|
      ensures ThreadOk(v, u)
    {
      assert ThreadOk(s, u);
    }
    forall n | n in v.T.objs
      ensures QueueOk(v, n)
    {
      assert QueueOk(s, n);
      if n == m {
        assert NoDup(r);
      }
    }
  }

  // ---- steps that leave the queues alone ----

  // v differs from s in the place of t and in who holds the token.
  ghost predicate Moves(s: Sys, t: int, v: Sys) {
    && Fits(s) && Fits(v) && 0 <= t < |s.pc| == |v.pc|
    && v.T.objs == s.T.objs && v.T.status == s.T.status && v.T.bug == s.T.bug
    && (forall u :: u != t ==> (u in v.T.active <==> u in s.T.active))
    && (forall u :: 0 <= u < |s.pc| && u != t ==> v.pc[u] == s.pc[u])
    && Home(v.pc[t], v.T.status[t]) == Home(s.pc[t], s.T.status[t])
    && (v.token == s.token || s.token == FREE || s.token == t)
  }

  lemma MoveKeeps(s: Sys, t: int, v: Sys)
    requires Placed(s) && Moves(s, t, v) && ThreadOk(v, t)
    ensures Placed(v)
  {
    forall u | 0 <= u < |v.pc|
      ensures ThreadOk(v, u)
    {
      assert ThreadOk(s, u);
    }
    forall n | n in v.T.objs
      ensures QueueOk(v, n)
    {
      assert QueueOk(s, n);
    }
  }

  // Locks keep a retrying thread when no lock is changed and whoever was
  // retrying still is.
  lemma AwakeKept(s: Sys, v: Sys)
    requires Inv(s) && Fits(v)
    requires forall n :: n in v.T.objs && v.T.objs[n].Lock? && v.T.objs[n].q != [] ==>
               v.T.objs[n].acquired || (n in s.T.objs && v.T.objs[n] == s.T.objs[n])
    requires forall n, u :: WillRetry(s, n, u) && n in v.T.objs && v.T.objs[n].Lock? && v.T.objs[n].q != [] ==>
               v.T.objs[n].acquired || WillRetry(v, n, u)
    ensures forall n :: n in v.T.objs ==> Awake(v, n)
  {
  }

  lemma AddKeeps(s: Sys, m: int, o: Obj)
    requires Inv(s) && m >= 0 && m !in s.T.objs && o.q == [] && o.waiters == 0
    ensures Inv(s.(T := s.T.(objs := s.T.objs[m := o])))
  {
    var v := s.(T := s.T.(objs := s.T.objs[m := o]));
    forall u | 0 <= u < |v.pc|
      ensures ThreadOk(v, u)
    {
      assert ThreadOk(s, u);
    }
    forall n | n in v.T.objs
      ensures QueueOk(v, n)
    {
      assert n != m ==> QueueOk(s, n);
    }
    AwakeKept(s, v);
  }

  // Setting or clearing the acquired mark touches no queue.
  lemma MarkKeeps(s: Sys, m: int, acquired: bool)
    requires Placed(s) && IsLock(s.T, m)
    ensures Placed(s.(T := Marked(s.T, m, acquired)))
  {
    var v := s.(T := Marked(s.T, m, acquired));
    forall u | 0 <= u < |v.pc|
      ensures ThreadOk(v, u)
    {
      assert ThreadOk(s, u);
    }
    forall n | n in v.T.objs
      ensures QueueOk(v, n)
    {
      assert QueueOk(s, n);
    }
  }

  // ---- every step keeps the invariant ----

  lemma ReleaseKeeps(s: Sys, m: int)
    requires Inv(s) && IsLock(s.T, m)
    requires 0 <= s.token < |s.pc| && Home(s.pc[s.token], s.T.status[s.token]) != m
    ensures Inv(s.(T := Release(s.T, m)))
  {
    var U := Release(s.T, m);
    var v := s.(T := U);
    if s.T.objs[m].waiters > 0 {
      HeadAsleep(s, m);
      assert Pops(s.T, m, U) by {
        assert QueueOk(s, m);
        var q := s.T.objs[m].q;
        if |q| > 1 {
          assert q[1] in q && ThreadOk(s, q[1]);
        }
      }
      PopKeeps(s, m, U);
      forall n | n in v.T.objs
        ensures Awake(v, n)
      {
        if n == m {
          assert WillRetry(v, m, s.T.objs[m].q[0]);
        } else {
          PopAwake(s, m, U, n);
        }
      }
    } else {
      assert s.T.objs[m].q == [] by { assert QueueOk(s, m); }
      MarkKeeps(s, m, false);
      AwakeKept(s, v);
    }
  }

  lemma PopCondKeeps(s: Sys, c: int)
    requires Inv(s) && IsCond(s.T, c) && s.T.objs[c].q != []
    requires 0 <= s.token < |s.pc| && Home(s.pc[s.token], s.T.status[s.token]) != c
    ensures Inv(s.(T := PopHead(s.T, c)))
  {
    var U := PopHead(s.T, c);
    var v := s.(T := U);
    HeadAsleep(s, c);
    assert Pops(s.T, c, U) by { assert QueueOk(s, c); }
    PopKeeps(s, c, U);
    forall n | n in v.T.objs
      ensures Awake(v, n)
    {
      if n != c {
        PopAwake(s, c, U, n);
      }
    }
  }

  lemma {:induction false} PopAllKeeps(s: Sys, c: int)
    requires Inv(s) && IsCond(s.T, c)
    requires 0 <= s.token < |s.pc| && Home(s.pc[s.token], s.T.status[s.token]) == -1
    ensures Inv(s.(T := PopAll(s.T, c)))
    decreases |s.T.objs[c].q|
  {
    assert QueueOk(s, c);
    if s.T.objs[c].q != [] {
      HeadAsleep(s, c);
      var v := s.(T := PopHead(s.T, c));
      PopCondKeeps(s, c);
      PopAllKeeps(v, c);
      assert v.(T := PopAll(v.T, c)) == s.(T := PopAll(s.T, c));
    } else {
      assert s.(T := PopAll(s.T, c)) == s;
    }
  }

  lemma TryLockKeeps(s: Sys, t: int)
    requires Inv(s) && Enabled(s, TryLock(t))
    ensures Inv(Do(s, TryLock(t)))
  {
    var m := s.pc[t].m;
    assert ThreadOk(s, t);
    var w := if m in s.T.objs then s else s.(T := InitLock(s.T, m));
    if m !in s.T.objs {
      AddKeeps(s, m, Lock(false, 0, []));
    }
    assert Inv(w) && ThreadOk(w, t);
    var v := Do(s, TryLock(t));
    if w.T.objs[m].acquired {
      var U := Enqueue(w.T, t, m);
      assert Pushes(w.T, m, t, U);
      PushKeeps(w, m, t, U, Queued(m));
      assert v == At(w.(T := U), t, Queued(m));
      AwakeKept(w, v);
    } else {
      var x := w.(T := Marked(w.T, m, true));
      MarkKeeps(w, m, true);
      assert v == At(x, t, Idle);
      assert ThreadOk(x, t);
      MoveKeeps(x, t, v);
      AwakeKept(w, v);
    }
  }

  lemma WaitKeeps(s: Sys, t: int, c: int, m: int)
    requires Inv(s) && Enabled(s, Wait(t, c, m))
    ensures Inv(Do(s, Wait(t, c, m)))
  {
    assert ThreadOk(s, t);
    var U := CondEnqueue(s.T, t, c);
    assert Pushes(s.T, c, t, U);
    PushKeeps(s, c, t, U, CondQueued(c, m));
    AwakeKept(s, Do(s, Wait(t, c, m)));
  }

  lemma WaitReleaseKeeps(s: Sys, t: int)
    requires Inv(s) && Enabled(s, WaitRelease(t))
    ensures Inv(Do(s, WaitRelease(t)))
  {
    assert ThreadOk(s, t);
    var m := s.pc[t].m;
    var w := s.(T := Release(s.T, m));
    ReleaseKeeps(s, m);
    var v := Do(s, WaitRelease(t));
    assert v == At(w, t, CondReleased(s.pc[t].c, m));
    assert ThreadOk(w, t);
    MoveKeeps(w, t, v);
    AwakeKept(w, v);
  }

  // The steps that change neither queues nor statuses.
  predicate Quiet(x: Step) {
    x.Call? || x.Take? || x.HaltSelf? || x.Put? || x.Resume? || x.Leave?
  }

  lemma QuietKeeps(s: Sys, x: Step)
    requires Inv(s) && Enabled(s, x) && Quiet(x)
    ensures Inv(Do(s, x))
  {
    var v := Do(s, x);
    assert ThreadOk(s, x.t);
    assert ThreadOk(v, x.t);
    MoveKeeps(s, x.t, v);
    AwakeKept(s, v);
  }

  lemma ReturnKeeps(s: Sys, t: int)
    requires Inv(s) && Enabled(s, Return(t))
    ensures Inv(Do(s, Return(t)))
  {
    var v := Do(s, Return(t));
    assert ThreadOk(s, t);
    MoveKeeps(s, t, v);
    AwakeKept(s, v);
  }

  lemma StepKeeps(s: Sys, x: Step)
    requires Inv(s) && Enabled(s, x)
    ensures Inv(Do(s, x))
  {
    assert ThreadOk(s, x.t);
    match x
    case CreateLock(t, m) => AddKeeps(s, m, Lock(false, 0, []));
    case CreateCond(t, c) => AddKeeps(s, c, Cond(0, []));
    case TryLock(t) => TryLockKeeps(s, t);
    case Unlock(t, m) =>
      assert QueueOk(s, m);
      ReleaseKeeps(s, m);
    case Wait(t, c, m) => WaitKeeps(s, t, c, m);
    case WaitRelease(t) => WaitReleaseKeeps(s, t);
    case Notify(t, c) =>
      assert QueueOk(s, c);
      if s.T.objs[c].waiters != 0 {
        PopCondKeeps(s, c);
      } else {
        assert s.(T := Signal(s.T, c)) == s;
      }
    case NotifyAll(t, c) =>
      if s.T.objs[c].waiters != 0 {
        PopAllKeeps(s, c);
      } else {
        assert s.(T := Broadcast(s.T, c)) == s;
      }
    case Return(t) => ReturnKeeps(s, t);
    case _ => QuietKeeps(s, x);
  }

  // ---- runs ----

  // No locks or conditions yet; some threads run, the others are away.
  ghost predicate Start(s: Sys) {
    && Fits(s) && s.token == FREE && s.T.objs == map[] && !s.T.bug
    && forall t :: 0 <= t < |s.pc| ==>
         && s.T.status[t] == Ready
         && ((s.pc[t].Idle? && t in s.T.active) || (s.pc[t].Away? && t !in s.T.active))
  }

  // xs is a run from s: every step is enabled where it is taken.
  predicate Runs(s: Sys, xs: seq<Step>)
    decreases |xs|, 0
  {
    xs == [] || (Runs(s, xs[..|xs| - 1]) && Enabled(After(s, xs[..|xs| - 1]), xs[|xs| - 1]))
  }

  function After(s: Sys, xs: seq<Step>): Sys
    requires Runs(s, xs)
    decreases |xs|, 1
  {
    if xs == [] then s else Do(After(s, xs[..|xs| - 1]), xs[|xs| - 1])
  }

  lemma {:induction false} RunKeeps(s: Sys, xs: seq<Step>)
    requires Start(s) && Runs(s, xs)
    ensures Inv(After(s, xs))
    decreases |xs|
  {
    if xs != [] {
      RunKeeps(s, xs[..|xs| - 1]);
      StepKeeps(After(s, xs[..|xs| - 1]), xs[|xs| - 1]);
    }
  }

  // No lost wakeup: when a lock has waiting threads and is free, some thread
  // taken off its queue is on the active list and has yet to try it again, and
  // it can move as soon as nobody holds the token.
  lemma NoLostWakeup(s: Sys, xs: seq<Step>, m: int)
    requires Start(s) && Runs(s, xs)
    ensures
      var v := After(s, xs);
      Fits(v) && (IsLock(v.T, m) && v.T.objs[m].q != [] && !v.T.objs[m].acquired ==>
        exists u :: WillRetry(v, m, u) && u in v.T.active &&
                    (v.token == FREE ==> Enabled(v, Resume(u)) || Enabled(v, Take(u))))
  {
    RunKeeps(s, xs);
    var v := After(s, xs);
    if IsLock(v.T, m) && v.T.objs[m].q != [] && !v.T.objs[m].acquired {
      assert Awake(v, m);
      var u :| WillRetry(v, m, u);
      assert ThreadOk(v, u);
      assert v.token == FREE ==> Enabled(v, Resume(u)) || Enabled(v, Take(u));
    }
  }

  // A thread is on at most one queue, which is as long as its wait count says,
  // and off the active list whenever another thread holds the token; so no
  // release, signal or broadcast activates an active thread.
  lemma QueuesSeparate(s: Sys, xs: seq<Step>, m: int, n: int, t: int)
    requires Start(s) && Runs(s, xs)
    requires m in After(s, xs).T.objs && n in After(s, xs).T.objs
    requires t in After(s, xs).T.objs[m].q
    ensures
      var v := After(s, xs);
      && !v.T.bug
      && v.T.objs[m].waiters == |v.T.objs[m].q| && NoDup(v.T.objs[m].q)
      && (t in v.T.objs[n].q ==> n == m)
      && (v.token != FREE && v.token != t ==> t !in v.T.active)
  {
    RunKeeps(s, xs);
    var v := After(s, xs);
    assert QueueOk(v, m) && QueueOk(v, n) && ThreadOk(v, t);
  }

  // Nor does anything else: no run stops on the active list or on a count.
  lemma NeverStops(s: Sys, xs: seq<Step>)
    requires Start(s) && Runs(s, xs)
    ensures !After(s, xs).T.bug
  {
    RunKeeps(s, xs);
  }

  // Only the token holder can be part-way through joining or leaving a queue.
  lemma OneInTheMiddle(s: Sys, xs: seq<Step>, t: int, u: int)
    requires Start(s) && Runs(s, xs)
    requires 0 <= t < |After(s, xs).pc| && 0 <= u < |After(s, xs).pc|
    requires Mid(After(s, xs).pc[t]) && Mid(After(s, xs).pc[u])
    ensures t == u == After(s, xs).token
  {
    RunKeeps(s, xs);
    assert ThreadOk(After(s, xs), t) && ThreadOk(After(s, xs), u);
  }

  // ---- first come, first served ----

  function QueueOf(s: Sys, m: int): seq<int> {
    if m in s.T.objs then s.T.objs[m].q else []
  }

  // The threads a step puts on the queue of m.
  function Joins(s: Sys, x: Step, m: int): seq<int>
    requires Enabled(s, x)
  {
    match x
    case TryLock(t) => if s.pc[t].m == m && m in s.T.objs && s.T.objs[m].acquired then [t] else []
    case Wait(t, c, _) => if c == m then [t] else []
    case _ => []
  }

  function Head(q: seq<int>): seq<int> {
    if q == [] then [] else [q[0]]
  }

  // The threads a step takes off the queue of m, in the order it takes them.
  function Serves(s: Sys, x: Step, m: int): seq<int>
    requires Enabled(s, x)
  {
    match x
    case Unlock(_, l) => if l == m then Head(QueueOf(s, m)) else []
    case WaitRelease(t) => if s.pc[t].m == m then Head(QueueOf(s, m)) else []
    case Notify(_, c) => if c == m then Head(QueueOf(s, m)) else []
    case NotifyAll(_, c) => if c == m then QueueOf(s, m) else []
    case _ => []
  }

  // The threads us were off the active list and are ready and active now.
  predicate Woken(T: Tables, U: Tables, us: seq<int>) {
    && |U.status| == |T.status|
    && forall u :: u in us ==> 0 <= u < |U.status| && U.status[u] == Ready && u in U.active && u !in T.active
  }

  lemma ReleaseQueue(T: Tables, l: int, m: int)
    requires IsLock(T, l) && T.objs[l].waiters == |T.objs[l].q| && m in T.objs
    ensures m in Release(T, l).objs
    ensures T.objs[m].q == (if l == m then Head(T.objs[m].q) else []) + Release(T, l).objs[m].q
  {
    var q := T.objs[l].q;
    if q != [] {
      assert q == [q[0]] + q[1..];
    }
  }

  lemma ReleaseWakes(s: Sys, l: int)
    requires Inv(s) && IsLock(s.T, l)
    requires 0 <= s.token < |s.pc| && Home(s.pc[s.token], s.T.status[s.token]) != l
    ensures Woken(s.T, Release(s.T, l), Head(s.T.objs[l].q))
  {
    assert QueueOk(s, l);
    var q := s.T.objs[l].q;
    if q != [] {
      HeadAsleep(s, l);
      assert |q| > 1 ==> q[1] != q[0];
    }
  }

  lemma BroadcastWakes(s: Sys, c: int)
    requires Inv(s) && IsCond(s.T, c)
    requires 0 <= s.token < |s.pc| && Home(s.pc[s.token], s.T.status[s.token]) == -1
    ensures Broadcast(s.T, c).objs == s.T.objs[c := Cond(0, [])]
    ensures Woken(s.T, Broadcast(s.T, c), s.T.objs[c].q)
  {
    assert QueueOk(s, c);
    BroadcastEmpties(s.T, c);
    forall u | u in s.T.objs[c].q
      ensures 0 <= u < |s.pc| && u !in s.T.active
    {
      assert ThreadOk(s, u);
    }
  }

  lemma SignalQueue(T: Tables, c: int, m: int)
    requires IsCond(T, c) && T.objs[c].waiters == |T.objs[c].q| && m in T.objs
    ensures m in Signal(T, c).objs
    ensures T.objs[m].q == (if c == m then Head(T.objs[m].q) else []) + Signal(T, c).objs[m].q
  {
  }

  lemma TryLockQueue(s: Sys, t: int, m: int)
    requires Enabled(s, TryLock(t))
    ensures QueueOf(Do(s, TryLock(t)), m) == QueueOf(s, m) + Joins(s, TryLock(t), m)
  {
  }

  lemma WakingQueue(s: Sys, x: Step, m: int)
    requires Inv(s) && Enabled(s, x) && (x.Unlock? || x.WaitRelease? || x.Notify? || x.NotifyAll?)
    ensures QueueOf(s, m) == Serves(s, x, m) + QueueOf(Do(s, x), m)
  {
    assert ThreadOk(s, x.t);
    match x
    case Unlock(_, l) =>
      assert QueueOk(s, l);
      if m in s.T.objs { ReleaseQueue(s.T, l, m); }
    case WaitRelease(t) =>
      assert QueueOk(s, s.pc[t].m);
      if m in s.T.objs { ReleaseQueue(s.T, s.pc[t].m, m); }
    case Notify(_, c) =>
      assert QueueOk(s, c);
      if m in s.T.objs { SignalQueue(s.T, c, m); }
    case NotifyAll(_, c) => BroadcastWakes(s, c);
  }

  // A step serves from the front and adds at the back.
  lemma StepQueue(s: Sys, x: Step, m: int)
    requires Inv(s) && Enabled(s, x)
    ensures QueueOf(s, m) + Joins(s, x, m) == Serves(s, x, m) + QueueOf(Do(s, x), m)
  {
    match x
    case Unlock(_, _) => WakingQueue(s, x, m);
    case WaitRelease(_) => WakingQueue(s, x, m);
    case Notify(_, _) => WakingQueue(s, x, m);
    case NotifyAll(_, _) => WakingQueue(s, x, m);
    case TryLock(t) => TryLockQueue(s, t, m);
    case _ =>
  }

  // Exactly the threads a step serves become ready and active.
  lemma StepWakes(s: Sys, x: Step, m: int)
    requires Inv(s) && Enabled(s, x)
    ensures Woken(s.T, Do(s, x).T, Serves(s, x, m))
  {
    assert ThreadOk(s, x.t);
    match x
    case Unlock(_, l) => ReleaseWakes(s, l);
    case WaitRelease(t) => ReleaseWakes(s, s.pc[t].m);
    case Notify(_, c) =>
      assert QueueOk(s, c);
      if s.T.objs[c].q != [] {
        HeadAsleep(s, c);
      }
    case NotifyAll(_, c) => BroadcastWakes(s, c);
    case _ =>
  }

  // Everyone who ever joined the queue of m, and everyone ever served from it.
  function JoinedSoFar(s: Sys, xs: seq<Step>, m: int): seq<int>
    requires Runs(s, xs)
  {
    if xs == [] then []
    else JoinedSoFar(s, xs[..|xs| - 1], m) + Joins(After(s, xs[..|xs| - 1]), xs[|xs| - 1], m)
  }

  function ServedSoFar(s: Sys, xs: seq<Step>, m: int): seq<int>
    requires Runs(s, xs)
  {
    if xs == [] then []
    else ServedSoFar(s, xs[..|xs| - 1], m) + Serves(After(s, xs[..|xs| - 1]), xs[|xs| - 1], m)
  }

  lemma QueueTurn(joined: seq<int>, served: seq<int>, q: seq<int>, j: seq<int>, h: seq<int>, q1: seq<int>)
    requires joined == served + q && q + j == h + q1
    ensures joined + j == served + h + q1
  {
    assert joined + j == served + (q + j);
    assert served + h + q1 == served + (h + q1);
  }

  // Threads are served in the order they joined, and the queue is what is left.
  lemma {:induction false} ServedInOrder(s: Sys, xs: seq<Step>, m: int)
    requires Start(s) && Runs(s, xs)
    ensures JoinedSoFar(s, xs, m) == ServedSoFar(s, xs, m) + QueueOf(After(s, xs), m)
    decreases |xs|
  {
    if xs != [] {
      var ys, x := xs[..|xs| - 1], xs[|xs| - 1];
      ServedInOrder(s, ys, m);
      RunKeeps(s, ys);
      StepQueue(After(s, ys), x, m);
      QueueTurn(JoinedSoFar(s, ys, m), ServedSoFar(s, ys, m), QueueOf(After(s, ys), m), Joins(After(s, ys), x, m),
        Serves(After(s, ys), x, m), QueueOf(After(s, xs), m));
    }
  }

  // ---- who is told to get ready ----

  // The thread at place i of the queue of m is on deck.
  predicate OnDeckAt(T: Tables, m: int, i: nat) {
    m in T.objs && i < |T.objs[m].q| && 0 <= T.objs[m].q[i] < |T.status| && T.status[T.objs[m].q[i]] == OnDeck
  }

  ghost predicate DeckOk(T: Tables) {
    forall m, i :: OnDeckAt(T, m, i) ==> i == 0 && IsLock(T, m)
  }

  // A queue another step has left alone, or has taken the first thread from, or has
  // put one behind.
  lemma DeckStep(s: Sys, x: Step, m: int, i: nat)
    requires Inv(s) && DeckOk(s.T) && Enabled(s, x) && OnDeckAt(Do(s, x).T, m, i)
    ensures i == 0 && IsLock(Do(s, x).T, m)
  {
    match x
    case TryLock(t) => TryDeck(s, t, m, i);
    case Unlock(_, l) => ReleaseDeck(s, l, m, i);
    case WaitRelease(t) => ReleaseDeck(s, s.pc[t].m, m, i);
    case Wait(t, c, _) =>
      EnqueueExact(s.T, t, c);
      assert i < |s.T.objs[m].q| ==> OnDeckAt(s.T, m, i);
    case Notify(_, c) => SignalDeck(s, c, m, i);
    case NotifyAll(_, c) =>
      assert QueueOk(s, c);
      BroadcastEmpties(s.T, c);
      assert OnDeckAt(s.T, m, i);
    case _ => assert OnDeckAt(s.T, m, i);
  }

  lemma TryDeck(s: Sys, t: int, m: int, i: nat)
    requires Inv(s) && DeckOk(s.T) && Enabled(s, TryLock(t)) && OnDeckAt(Do(s, TryLock(t)).T, m, i)
    ensures i == 0 && IsLock(Do(s, TryLock(t)).T, m)
  {
    var l := s.pc[t].m;
    AcquireExact(s.T, l);
    var (U, ok) := Acquire(s.T, l);
    if !ok { EnqueueExact(U, t, l); }
    assert m in s.T.objs && i < |s.T.objs[m].q| ==> OnDeckAt(s.T, m, i);
  }

  lemma ReleaseDeck(s: Sys, l: int, m: int, i: nat)
    requires Inv(s) && DeckOk(s.T) && IsLock(s.T, l) && OnDeckAt(Release(s.T, l), m, i)
    ensures i == 0 && IsLock(Release(s.T, l), m)
  {
    assert QueueOk(s, l) && m in s.T.objs && QueueOk(s, m);
    ReleaseExact(s.T, l);
    var q := s.T.objs[l].q;
    var u := Release(s.T, l).objs[m].q[i];
    if m == l {
      assert u == q[i + 1];
      if i > 0 {
        assert u != q[0] && u != q[1];
        assert OnDeckAt(s.T, m, i + 1);
      }
    } else {
      assert u in s.T.objs[m].q;
      assert |q| > 1 ==> q[1] in q;
      assert OnDeckAt(s.T, m, i);
    }
  }

  lemma SignalDeck(s: Sys, c: int, m: int, i: nat)
    requires Inv(s) && DeckOk(s.T) && IsCond(s.T, c) && OnDeckAt(Signal(s.T, c), m, i)
    ensures i == 0 && IsLock(Signal(s.T, c), m)
  {
    assert QueueOk(s, c);
    SignalExact(s.T, c);
    if m == c {
      assert OnDeckAt(s.T, m, i + 1) || OnDeckAt(s.T, m, i);
    } else {
      assert OnDeckAt(s.T, m, i);
    }
  }

  // Over every run: only the first thread of a lock's queue is ever on deck.
  lemma {:induction false} FirstOnDeck(s: Sys, xs: seq<Step>)
    requires Start(s) && Runs(s, xs)
    ensures DeckOk(After(s, xs).T)
    decreases |xs|
  {
    if xs != [] {
      var v, x := After(s, xs[..|xs| - 1]), xs[|xs| - 1];
      FirstOnDeck(s, xs[..|xs| - 1]);
      RunKeeps(s, xs[..|xs| - 1]);
      forall m, i: nat | OnDeckAt(Do(v, x).T, m, i)
        ensures i == 0 && IsLock(Do(v, x).T, m)
      {
        DeckStep(v, x, m, i);
      }
    }
  }

  // ---- mutual exclusion ----

  const NOBODY := -1

  // x lets go of lock m.
  predicate Frees(s: Sys, x: Step, m: int)
    requires Enabled(s, x)
  {
    (x.Unlock? && x.m == m) || (x.WaitRelease? && s.pc[x.t].m == m)
  }

  // x is an attempt at lock m after which its thread goes on.
  predicate Wins(s: Sys, x: Step, m: int)
    requires Enabled(s, x)
  {
    x.TryLock? && s.pc[x.t].m == m && Do(s, x).pc[x.t].Idle?
  }

  // Who last went on with lock m, if nobody has let go of it since.
  function Owner(s: Sys, xs: seq<Step>, m: int): int
    requires Runs(s, xs)
  {
    if xs == [] then NOBODY
    else
      var v, x := After(s, xs[..|xs| - 1]), xs[|xs| - 1];
      if Wins(v, x, m) then x.t else if Frees(v, x, m) then NOBODY else Owner(s, xs[..|xs| - 1], m)
  }

  predicate Acquired(s: Sys, m: int) {
    IsLock(s.T, m) && s.T.objs[m].acquired
  }

  lemma StepAcquires(s: Sys, x: Step, m: int)
    requires Inv(s) && Enabled(s, x)
    ensures Acquired(Do(s, x), m) <==> Wins(s, x, m) || (Acquired(s, m) && !Frees(s, x, m))
    ensures Wins(s, x, m) ==> !Acquired(s, m)
    ensures x.TryLock? && s.pc[x.t].m == m && !Wins(s, x, m) ==> Acquired(s, m)
  {
    assert ThreadOk(s, x.t);
    match x
    case TryLock(t) => AcquireExact(s.T, s.pc[t].m);
    case Unlock(_, l) =>
      assert QueueOk(s, l);
      ReleaseExact(s.T, l);
    case WaitRelease(t) =>
      assert QueueOk(s, s.pc[t].m);
      ReleaseExact(s.T, s.pc[t].m);
    case Notify(_, c) =>
      assert QueueOk(s, c);
      SignalExact(s.T, c);
    case NotifyAll(_, c) =>
      assert QueueOk(s, c);
      BroadcastEmpties(s.T, c);
    case _ =>
  }

  lemma {:induction false} OwnerAcquired(s: Sys, xs: seq<Step>, m: int)
    requires Start(s) && Runs(s, xs)
    ensures Owner(s, xs, m) != NOBODY <==> Acquired(After(s, xs), m)
    decreases |xs|
  {
    if xs != [] {
      OwnerAcquired(s, xs[..|xs| - 1], m);
      RunKeeps(s, xs[..|xs| - 1]);
      StepAcquires(After(s, xs[..|xs| - 1]), xs[|xs| - 1], m);
    }
  }

  // An attempt at a lock succeeds exactly if nobody has gone on with the lock
  // without letting go of it since.
  lemma MutualExclusion(s: Sys, xs: seq<Step>, t: int)
    requires Start(s) && Runs(s, xs) && Enabled(After(s, xs), TryLock(t))
    ensures
      var m := After(s, xs).pc[t].m;
      Wins(After(s, xs), TryLock(t), m) <==> Owner(s, xs, m) == NOBODY
  {
    RunKeeps(s, xs);
    OwnerAcquired(s, xs, After(s, xs).pc[t].m);
    StepAcquires(After(s, xs), TryLock(t), After(s, xs).pc[t].m);
  }

  // The lock an operation of a thread will end with.
  function Target(p: Pc): int {
    match p
    case Wants(m, _) => m
    case Queued(m) => m
    case QueuedHalted(m) => m
    case Asleep(m) => m
    case CondQueued(_, m) => m
    case CondReleased(_, m) => m
    case CondHalted(_, m) => m
    case CondAsleep(_, m) => m
    case _ => NOBODY
  }

  // A call of lock, and a wait on a condition, goes on only with its lock: until
  // its thread wins that one, it is still after it.
  lemma ReturnsWithLock(s: Sys, xs: seq<Step>, x: Step, t: int)
    requires Start(s) && Runs(s, xs) && Enabled(After(s, xs), x) && 0 <= t < |After(s, xs).pc|
    requires Target(After(s, xs).pc[t]) != NOBODY
    ensures
      var v := After(s, xs);
      var m := Target(v.pc[t]);
      if x == TryLock(t) && Wins(v, x, m) then Acquired(Do(v, x), m) && v.token == t && t in v.T.active
      else Target(Do(v, x).pc[t]) == m
  {
    RunKeeps(s, xs);
    assert ThreadOk(After(s, xs), t);
    StepAcquires(After(s, xs), x, Target(After(s, xs).pc[t]));
  }

  // The token is taken and let go of where a thread says so and nowhere else; a
  // call only makes its thread want the lock; and a new entry is free and unused.
  lemma TokenExact(s: Sys, x: Step)
    requires Inv(s) && Enabled(s, x)
    ensures
      var v := Do(s, x);
      && v.token == (if x.Take? then x.t else if x.Put? then FREE else s.token)
      && (x.Take? ==> v.pc == s.pc && v.T == s.T)
      && (x.Call? ==> v.T == s.T && v.pc == s.pc[x.t := v.pc[x.t]] && Target(v.pc[x.t]) == x.m)
      && (x.CreateLock? ==> IsLock(v.T, x.m) && !v.T.objs[x.m].acquired && v.T.objs[x.m].q == [])
      && (x.CreateCond? ==> IsCond(v.T, x.c) && v.T.objs[x.c].q == [])
  {
  }

  // A thread that wants a lock and has the token can try it, whether the lock has an
  // entry yet or not; only a condition cannot be tried.
  lemma CanTry(s: Sys, t: int)
    requires Inv(s) && s.token == t && 0 <= t < |s.pc| && s.pc[t].Wants?
    ensures Enabled(s, TryLock(t)) <==> !IsCond(s.T, s.pc[t].m)
  {
  }

  // A thread that holds the token and is in no operation can unlock any lock, wait on
  // any condition with any lock, wake one thread or all that wait on it, and let the
  // token go.
  lemma HolderCan(s: Sys, t: int, c: int, m: int)
    requires Inv(s) && 0 <= t < |s.pc| && s.token == t && s.pc[t].Idle?
    ensures Enabled(s, Put(t)) && Enabled(s, Leave(t))
    ensures IsLock(s.T, m) ==> Enabled(s, Unlock(t, m))
    ensures IsCond(s.T, c) ==> Enabled(s, Notify(t, c)) && Enabled(s, NotifyAll(t, c))
    ensures IsCond(s.T, c) && IsLock(s.T, m) ==> Enabled(s, Wait(t, c, m))
    ensures c >= 0 && c !in s.T.objs ==> Enabled(s, CreateCond(t, c)) && Enabled(s, CreateLock(t, c))
  {
  }

  // Once it has begun, it can go through with joining a queue up to its sleep.
  lemma QueuedCan(s: Sys, t: int)
    requires Inv(s) && 0 <= t < |s.pc| && Mid(s.pc[t])
    ensures s.pc[t].Queued? || s.pc[t].CondReleased? ==> Enabled(s, HaltSelf(t))
    ensures s.pc[t].CondQueued? ==> Enabled(s, WaitRelease(t))
    ensures s.pc[t].QueuedHalted? || s.pc[t].CondHalted? ==> Enabled(s, Put(t))
  {
    assert ThreadOk(s, t);
  }
}
