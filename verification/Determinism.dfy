// Schedule determinism. A program is deterministic between synchronization
// operations, and a thread enters one only as the least active thread by
// (clock, thread id) while nobody else is inside one
// (src/thread_lib/include/determ.h __getToken and __putToken). Then the order
// of the operations, and everything the program can observe, is the same in
// every interleaving.
module Determinism {

  // What a synchronization operation does while it holds the token, as a
  // function of the shared state, the caller, its clock and its local state:
  // it may add ticks to its own clock, take itself off the active list, put
  // halted threads back and create threads.
  datatype Birth<L> = Birth(ticks: nat, local: L)

  datatype Outcome<S, L> = Outcome(
    shared: S, ticks: nat, local: L, halts: bool, wakes: set<int>, births: map<int, Birth<L>>)

  // `work` is the number of ticks from a local state to the next operation.
  datatype Program<!S, !L> = Program(work: L -> nat, sync: (S, int, int, L) -> Outcome<S, L>)

  datatype Thread<L> = Thread(clock: int, left: nat, active: bool, local: L)

  datatype Holder = Nobody | Holding(t: int)

  datatype State<S, L> = State(shared: S, threads: map<int, Thread<L>>, holder: Holder)

  // An interleaving is a sequence of these.
  datatype Move = Tick(t: int, n: nat) | Take(t: int) | Give(t: int)

  predicate Sooner(c: int, t: int, d: int, u: int) {
    c < d || (c == d && t < u)
  }

  ghost predicate LeastActive<S, L>(s: State<S, L>, t: int) {
    && t in s.threads && s.threads[t].active
    && forall u :: u in s.threads && s.threads[u].active && u != t ==>
         Sooner(s.threads[t].clock, t, s.threads[u].clock, u)
  }

  ghost predicate CanMove<S, L>(s: State<S, L>, m: Move) {
    match m
    case Tick(t, n) => t in s.threads && s.threads[t].active && 0 < n <= s.threads[t].left
    case Take(t) => s.holder == Nobody && LeastActive(s, t) && s.threads[t].left == 0
    case Give(t) => s.holder == Holding(t) && t in s.threads
  }

  // The threads after the operation of t, which stands at clock c. An id whose
  // thread has ended may be born again.
  function Resumed<S, L>(p: Program<S, L>, c: int, o: Outcome<S, L>): Thread<L> {
    Thread(c + o.ticks, p.work(o.local), !o.halts, o.local)
  }

  function Born<S, L>(p: Program<S, L>, c: int, b: Birth<L>): Thread<L> {
    Thread(c + b.ticks + 1, p.work(b.local), true, b.local)
  }

  function Others<S, L>(p: Program<S, L>, threads: map<int, Thread<L>>, t: int, c: int, o: Outcome<S, L>)
    : map<int, Thread<L>>
    requires t in threads
  {
    map u | u in threads.Keys + o.births.Keys ::
      if u == t then Resumed(p, c, o)
      else if u in o.births && (u in threads ==> !threads[u].active) then Born(p, c, o.births[u])
      else threads[u].(active := threads[u].active || u in o.wakes)
  }

  function Moved<S, L>(p: Program<S, L>, s: State<S, L>, m: Move): State<S, L>
    requires m.t in s.threads
    requires m.Tick? ==> m.n <= s.threads[m.t].left
  {
    match m
    case Tick(t, n) =>
      var th := s.threads[t];
      s.(threads := s.threads[t := th.(clock := th.clock + n, left := th.left - n)])
    case Take(t) => s.(holder := Holding(t))
    case Give(t) =>
      var th := s.threads[t];
      var o := p.sync(s.shared, t, th.clock, th.local);
      State(o.shared, Others(p, s.threads, t, th.clock, o), Nobody)
  }

  // What an operation leaves: the shared state and its thread are as the program
  // says, the thread due again after its ticks and the work that follows; the threads
  // it creates start one tick after the point where it creates them; those it wakes
  // are active; and for nobody else does anything change.
  lemma GiveExact<S, L>(p: Program<S, L>, s: State<S, L>, t: int, u: int)
    requires CanMove(s, Give(t))
    ensures
      var r, th := Moved(p, s, Give(t)), s.threads[t];
      var o := p.sync(s.shared, t, th.clock, th.local);
      && r.shared == o.shared && r.holder == Nobody
      && (u in r.threads <==> u in s.threads || u in o.births) && t in r.threads
      && r.threads[t].local == o.local && r.threads[t].clock == th.clock + o.ticks
      && r.threads[t].left == p.work(o.local) && (r.threads[t].active <==> !o.halts)
      && (u in o.births && u !in s.threads ==>
            var b := o.births[u];
            r.threads[u] == Thread(th.clock + b.ticks + 1, p.work(b.local), true, b.local))
      && (u in s.threads && u != t && (u in o.births ==> s.threads[u].active) ==>
            r.threads[u] == s.threads[u].(active := s.threads[u].active || u in o.wakes))
  {
  }

  function Front<T>(s: seq<T>): seq<T>
    requires s != []
  {
    s[..|s| - 1]
  }

  function Last<T>(s: seq<T>): T
    requires s != []
  {
    s[|s| - 1]
  }

  // ms is a run from s, and Run is where it ends.
  ghost predicate Legal<S, L>(p: Program<S, L>, s: State<S, L>, ms: seq<Move>)
    decreases |ms|, 0
  {
    ms == [] || (Legal(p, s, Front(ms)) && CanMove(Run(p, s, Front(ms)), Last(ms)))
  }

  ghost function Run<S, L>(p: Program<S, L>, s: State<S, L>, ms: seq<Move>): State<S, L>
    requires Legal(p, s, ms)
    decreases |ms|, 1
  {
    if ms == [] then s else Moved(p, Run(p, s, Front(ms)), Last(ms))
  }

  // The threads that took the token, in order.
  function Log(ms: seq<Move>): seq<int>
    decreases |ms|
  {
    if ms == [] then []
    else Log(Front(ms)) + (if Last(ms).Take? then [Last(ms).t] else [])
  }

  // ---- what ticking cannot change ----

  // A thread as the scheduler sees it: when it is due, not how far it has come.
  datatype Due<L> = Due(due: int, active: bool, local: L)

  datatype Plan<S, L> = Plan(shared: S, threads: map<int, Due<L>>, holder: Holder)

  function Planned<L>(th: Thread<L>): Due<L> {
    Due(th.clock + th.left, th.active, th.local)
  }

  function PlanOf<S, L>(s: State<S, L>): Plan<S, L> {
    Plan(s.shared, map t | t in s.threads :: Planned(s.threads[t]), s.holder)
  }

  // The one thread that can be the next to take the token.
  ghost predicate NextUp<S, L>(q: Plan<S, L>, t: int) {
    && t in q.threads && q.threads[t].active
    && forall u :: u in q.threads && q.threads[u].active && u != t ==>
         Sooner(q.threads[t].due, t, q.threads[u].due, u)
  }

  // A whole operation of t, seen on plans.
  function Served<S, L>(p: Program<S, L>, q: Plan<S, L>, t: int): Plan<S, L>
    requires t in q.threads
  {
    var c := q.threads[t].due;
    var o := p.sync(q.shared, t, c, q.threads[t].local);
    Plan(o.shared,
         map u | u in q.threads.Keys + o.births.Keys ::
           if u == t then Due(c + o.ticks + p.work(o.local), !o.halts, o.local)
           else if u in o.births && (u in q.threads ==> !q.threads[u].active) then Planned(Born(p, c, o.births[u]))
           else q.threads[u].(active := q.threads[u].active || u in o.wakes),
         Nobody)
  }

  // The log names, at every point, the thread that is next up, and After is
  // the plan once all its operations are done.
  ghost predicate InOrder<S, L>(p: Program<S, L>, q: Plan<S, L>, log: seq<int>)
    decreases |log|, 0
  {
    log == [] || (InOrder(p, q, Front(log)) && NextUp(After(p, q, Front(log)), Last(log)))
  }

  ghost function After<S, L>(p: Program<S, L>, q: Plan<S, L>, log: seq<int>): Plan<S, L>
    requires InOrder(p, q, log)
    decreases |log|, 1
  {
    if log == [] then q else Served(p, After(p, q, Front(log)), Last(log))
  }

  ghost predicate Orderly<S, L>(s: State<S, L>) {
    s.holder.Holding? ==> s.holder.t in s.threads && s.threads[s.holder.t].left == 0
  }

  lemma TickKeepsPlan<S, L>(p: Program<S, L>, s: State<S, L>, t: int, n: nat)
    requires CanMove(s, Tick(t, n)) && Orderly(s)
    ensures PlanOf(Moved(p, s, Tick(t, n))) == PlanOf(s) && Orderly(Moved(p, s, Tick(t, n)))
  {
  }

  lemma GiveServes<S, L>(p: Program<S, L>, s: State<S, L>, t: int)
    requires CanMove(s, Give(t)) && Orderly(s)
    ensures PlanOf(Moved(p, s, Give(t))) == Served(p, PlanOf(s), t)
  {
  }

  // The plan before the operation in progress, if there is one.
  function Settled<S, L>(q: Plan<S, L>): Plan<S, L> { q.(holder := Nobody) }

  // s stands where the log says: between two operations, or inside the last.
  ghost predicate OnSchedule<S, L>(p: Program<S, L>, q: Plan<S, L>, log: seq<int>, s: State<S, L>) {
    && Orderly(s)
    && InOrder(p, q, log)
    && match s.holder
       case Nobody => PlanOf(s) == After(p, q, log)
       case Holding(t) => log != [] && t == Last(log) && Settled(PlanOf(s)) == After(p, q, Front(log))
  }

  lemma MoveOnSchedule<S, L>(p: Program<S, L>, q: Plan<S, L>, log: seq<int>, s: State<S, L>, m: Move)
    requires OnSchedule(p, q, log, s) && CanMove(s, m)
    ensures OnSchedule(p, q, log + (if m.Take? then [m.t] else []), Moved(p, s, m))
  {
    match m {
      case Tick(t, n) =>
        TickKeepsPlan(p, s, t, n);
        assert log + [] == log;
      case Take(t) =>
        TakeOnSchedule(p, q, log, s, t);
      case Give(t) =>
        GiveOnSchedule(p, q, log, s, t);
        assert log + [] == log;
    }
  }

  lemma TakeOnSchedule<S, L>(p: Program<S, L>, q: Plan<S, L>, log: seq<int>, s: State<S, L>, t: int)
    requires OnSchedule(p, q, log, s) && CanMove(s, Take(t))
    ensures OnSchedule(p, q, log + [t], Moved(p, s, Take(t)))
  {
  }

  lemma GiveOnSchedule<S, L>(p: Program<S, L>, q: Plan<S, L>, log: seq<int>, s: State<S, L>, t: int)
    requires OnSchedule(p, q, log, s) && CanMove(s, Give(t))
    ensures OnSchedule(p, q, log, Moved(p, s, Give(t)))
  {
    GiveServes(p, s, t);
    ServedSettled(p, PlanOf(s), t);
  }

  lemma ServedSettled<S, L>(p: Program<S, L>, q: Plan<S, L>, t: int)
    requires t in q.threads
    ensures Served(p, Settled(q), t) == Served(p, q, t)
  {
  }

  // Every run is on the schedule of the state it starts from.
  lemma {:induction false} RunOnSchedule<S, L>(p: Program<S, L>, s: State<S, L>, ms: seq<Move>)
    requires s.holder == Nobody && Legal(p, s, ms)
    ensures OnSchedule(p, PlanOf(s), Log(ms), Run(p, s, ms))
    decreases |ms|
  {
    if ms != [] {
      RunOnSchedule(p, s, Front(ms));
      MoveOnSchedule(p, PlanOf(s), Log(Front(ms)), Run(p, s, Front(ms)), Last(ms));
    }
  }

  lemma NextUpUnique<S, L>(q: Plan<S, L>, t: int, u: int)
    requires NextUp(q, t) && NextUp(q, u)
    ensures t == u
  {
  }

  // Of two logs that are in order, the shorter is the beginning of the longer.
  lemma {:induction false} LogsAgree<S, L>(p: Program<S, L>, q: Plan<S, L>, a: seq<int>, b: seq<int>)
    requires InOrder(p, q, a) && InOrder(p, q, b) && |a| <= |b|
    ensures a <= b
    decreases |b|
  {
    if |a| < |b| {
      LogsAgree(p, q, a, Front(b));
    } else if a != [] {
      LogsAgree(p, q, Front(a), Front(b));
      assert Front(a) == Front(b);
      NextUpUnique(After(p, q, Front(a)), Last(a), Last(b));
      assert a == Front(a) + [Last(a)] && b == Front(b) + [Last(b)];
    }
  }

  // Schedule determinism: of any two interleavings of the same program from
  // the same state, one takes the token in the order of the other, as far as it
  // goes.
  lemma SameSchedule<S, L>(p: Program<S, L>, s: State<S, L>, ms: seq<Move>, ns: seq<Move>)
    requires s.holder == Nobody && Legal(p, s, ms) && Legal(p, s, ns)
    ensures Log(ms) <= Log(ns) || Log(ns) <= Log(ms)
  {
    RunOnSchedule(p, s, ms);
    RunOnSchedule(p, s, ns);
    if |Log(ms)| <= |Log(ns)| {
      LogsAgree(p, PlanOf(s), Log(ms), Log(ns));
    } else {
      LogsAgree(p, PlanOf(s), Log(ns), Log(ms));
    }
  }

  // And the order decides everything else: two interleavings that have
  // completed equally many operations agree on the shared state and on every
  // thread's local state, status and next due time.
  lemma SameOutcome<S, L>(p: Program<S, L>, s: State<S, L>, ms: seq<Move>, ns: seq<Move>)
    requires s.holder == Nobody && Legal(p, s, ms) && Legal(p, s, ns)
    requires |Log(ms)| == |Log(ns)| && Run(p, s, ms).holder == Run(p, s, ns).holder == Nobody
    ensures Log(ms) == Log(ns) && PlanOf(Run(p, s, ms)) == PlanOf(Run(p, s, ns))
  {
    RunOnSchedule(p, s, ms);
    RunOnSchedule(p, s, ns);
    LogsAgree(p, PlanOf(s), Log(ms), Log(ns));
  }

  // ---- the schedule never gets stuck ----

  lemma {:induction false} SoonestOf<S, L>(q: Plan<S, L>, ts: set<int>, x: int) returns (t: int)
    requires x in ts && ts <= q.threads.Keys
    ensures t in ts && forall u :: u in ts && u != t ==> Sooner(q.threads[t].due, t, q.threads[u].due, u)
    decreases |ts|
  {
    t := x;
    if y :| y in ts && y != x {
      var z := SoonestOf(q, ts - {x}, y);
      t := if Sooner(q.threads[x].due, x, q.threads[z].due, z) then x else z;
    }
  }

  function Unfinished<S, L>(s: State<S, L>): set<int> {
    set t | t in s.threads && s.threads[t].active && s.threads[t].left > 0
  }

  // Every active thread can tick on to its next operation, which changes
  // nothing the schedule depends on.
  lemma TickAll<S, L>(p: Program<S, L>, s: State<S, L>) returns (ms: seq<Move>)
    requires s.holder == Nobody
    ensures Legal(p, s, ms) && Log(ms) == []
    ensures forall t :: t !in Unfinished(Run(p, s, ms))
    ensures PlanOf(Run(p, s, ms)) == PlanOf(s)
  {
    ms := [];
    while exists t :: t in Unfinished(Run(p, s, ms))
      invariant Legal(p, s, ms) && Log(ms) == []
      invariant PlanOf(Run(p, s, ms)) == PlanOf(s)
      decreases |Unfinished(Run(p, s, ms))|
    {
      var v := Run(p, s, ms);
      var t :| t in Unfinished(v);
      var m := Tick(t, v.threads[t].left);
      RunOnSchedule(p, s, ms);
      TickKeepsPlan(p, v, t, v.threads[t].left);
      assert Front(ms + [m]) == ms && Last(ms + [m]) == m;
      assert Unfinished(Moved(p, v, m)) == Unfinished(v) - {t};
      ms := ms + [m];
    }
  }

  lemma NextUpExists<S, L>(q: Plan<S, L>, t0: int) returns (t: int)
    requires t0 in q.threads && q.threads[t0].active
    ensures NextUp(q, t)
  {
    t := SoonestOf(q, (set u | u in q.threads && q.threads[u].active), t0);
  }

  lemma FinishedCanTake<S, L>(s: State<S, L>, t: int)
    requires s.holder == Nobody && (forall u :: u !in Unfinished(s)) && NextUp(PlanOf(s), t)
    ensures CanMove(s, Take(t))
  {
    forall u | u in s.threads && s.threads[u].active
      ensures s.threads[u].left == 0 && u in PlanOf(s).threads && PlanOf(s).threads[u] == Planned(s.threads[u])
    {
      assert u !in Unfinished(s);
    }
  }

  // While some thread is active and the token is free, letting the threads run
  // makes the next thread of the schedule able to take it.
  lemma AlwaysProceeds<S, L>(p: Program<S, L>, s: State<S, L>, t0: int) returns (ms: seq<Move>, t: int)
    requires s.holder == Nobody && t0 in s.threads && s.threads[t0].active
    ensures Log(ms) == [] && Legal(p, s, ms + [Take(t)]) && NextUp(PlanOf(s), t)
  {
    assert PlanOf(s).threads[t0] == Planned(s.threads[t0]);
    t := NextUpExists(PlanOf(s), t0);
    ms := TickAll(p, s);
    FinishedCanTake(Run(p, s, ms), t);
    assert Front(ms + [Take(t)]) == ms && Last(ms + [Take(t)]) == Take(t);
  }
}
