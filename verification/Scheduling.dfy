// Processes that run a deterministic program under the token protocol. Whatever
// the kernel, the notifications and the retries of __getToken do, a harmless run
// of such a process takes the token in the order Determinism lays down, so two
// of them agree on the order and on what it leads to
// (src/thread_lib/include/determ.h, src/thread_lib/include/xrun.h).
module Scheduling {
  import opened ListArrays
  import opened Clocks
  import opened Grants
  import opened TokenProtocol
  import D = Determinism

  // What the thread inside an operation has done so far: ticks added to its
  // clock, halting, threads put back, and threads created, with the ticks added
  // before each creation.
  datatype Effect = Effect(ticks: nat, halts: bool, wakes: set<int>, births: map<int, nat>)

  const NOTHING := Effect(0, false, {}, map[])

  // A process in the middle of a run: the state of the protocol, and for every
  // thread its local state and the ticks it has yet to count before its next
  // operation.
  datatype Process<S, L> = Process(w: World, shared: S, left: seq<nat>, local: seq<L>, done: Effect)

  predicate Formed<S, L>(c: Process<S, L>) {
    |c.left| == |c.local| == |c.w.phase|
  }

  // The ticks that reading the counter adds.
  function Counted(g: Group, t: int, n: nat): nat
    requires Known(g, t)
  {
    if g.clocks[t].counting then n else 0
  }

  function Outcome<S, L>(p: D.Program<S, L>, c: Process<S, L>, t: int): D.Outcome<S, L>
    requires Formed(c) && Fits(c.w) && Known(c.w.g, t)
  {
    p.sync(c.shared, t, Clock(c.w.g, t) - c.done.ticks, c.local[t])
  }

  // The operation of t has done what the program says, and nobody who goes
  // straight on to another operation has work before it.
  ghost predicate Completes<S, L>(p: D.Program<S, L>, c: Process<S, L>, t: int)
    requires Formed(c) && Fits(c.w) && Known(c.w.g, t)
  {
    var o := Outcome(p, c, t);
    && o.ticks == c.done.ticks && o.halts == c.done.halts && o.wakes == c.done.wakes
    && o.births.Keys == c.done.births.Keys
    && (forall u :: u in o.births ==> o.births[u].ticks == c.done.births[u] && p.work(o.births[u].local) == 0)
    && (c.w.phase[t] == Hold(true) ==> p.work(o.local) == 0)
  }

  // What the program allows: a thread counts no more than the work it has left
  // and enters an operation when that is done, a thread that will go straight
  // into __getToken is woken only when it has no work left, and an operation ends
  // as the program says.
  ghost predicate Obeys<S, L>(p: D.Program<S, L>, c: Process<S, L>, a: Action)
    requires Formed(c) && CanAct(c.w, a)
  {
    match a
    case Sys(s) => s.Overflow? ==> Counted(c.w.g, s.t, s.n) <= c.left[s.t]
    case BeginSync(t, n) => Counted(c.w.g, t, n) == c.left[t]
    case Signal(_, u) => c.left[u] == 0
    case Broadcast(_, us) => forall u :: u in us ==> c.left[u] == 0
    case JoinReturn(_, q) => c.left[q] == 0
    case Release(t) => Completes(p, c, t)
    case _ => true
  }

  // The threads an action puts on the list.
  function Joining(a: Action): set<int> {
    match a
    case Spawn(_, u) => {u}
    case Signal(_, u) => {u}
    case Broadcast(_, us) => set u | u in us
    case JoinReturn(_, q) => {q}
    case BarrierReturn(_, qs) => set q | q in qs
    case _ => {}
  }

  predicate Wakes(a: Action) {
    a.Signal? || a.Broadcast? || a.JoinReturn? || a.BarrierReturn?
  }

  function Locals<L>(local: seq<L>, births: map<int, D.Birth<L>>): seq<L> {
    seq(|local|, i requires 0 <= i < |local| => if i in births then births[i].local else local[i])
  }

  function Finished<S, L>(p: D.Program<S, L>, c: Process<S, L>, t: int): (d: Process<S, L>)
    requires Formed(c) && CanAct(c.w, Release(t))
    ensures Formed(d)
  {
    var o := Outcome(p, c, t);
    Process(Act(c.w, Release(t)), o.shared, c.left[t := p.work(o.local)],
            Locals(c.local, o.births)[t := o.local], NOTHING)
  }

  ghost function Next<S, L>(p: D.Program<S, L>, c: Process<S, L>, a: Action): (d: Process<S, L>)
    requires Formed(c) && CanAct(c.w, a) && Obeys(p, c, a)
    ensures Formed(d) && d.w == Act(c.w, a)
  {
    var d := c.(w := Act(c.w, a));
    match a
    case Sys(s) =>
      if s.AddTicks? then d.(done := c.done.(ticks := c.done.ticks + s.n))
      else if s.Disable? then d.(done := c.done.(ticks := c.done.ticks + Counted(c.w.g, s.t, s.n)))
      else if s.Overflow? then d.(left := c.left[s.t := c.left[s.t] - Counted(c.w.g, s.t, s.n)])
      else d
    case BeginSync(t, n) => d.(left := c.left[t := 0])
    case Spawn(_, u) => d.(left := c.left[u := 0], done := c.done.(births := c.done.births[u := c.done.ticks]))
    case HaltSelf(_) => d.(done := c.done.(halts := true))
    case Release(t) => Finished(p, c, t)
    case _ => if Wakes(a) then d.(done := c.done.(wakes := c.done.wakes + Joining(a))) else d
  }

  ghost predicate Follows<S, L>(p: D.Program<S, L>, c: Process<S, L>, acts: seq<Action>)
    requires Formed(c)
    decreases |acts|
  {
    acts == [] ||
    (CanAct(c.w, acts[0]) && Obeys(p, c, acts[0]) && Follows(p, Next(p, c, acts[0]), acts[1..]))
  }

  ghost function Outcomes<S, L>(p: D.Program<S, L>, c: Process<S, L>, acts: seq<Action>): (d: Process<S, L>)
    requires Formed(c) && Follows(p, c, acts)
    ensures Formed(d)
    decreases |acts|
  {
    if acts == [] then c else Outcomes(p, Next(p, c, acts[0]), acts[1..])
  }

  // The threads that left __getToken with the token, in order.
  function Order(acts: seq<Action>): seq<int> {
    if acts == [] then []
    else (if acts[0].Check? then [acts[0].t] else []) + Order(acts[1..])
  }

  // ---- what an action does to clocks and list ----

  function Gain(w: World, a: Action, x: int): nat
    requires CanAct(w, a) && Known(w.g, x)
  {
    match a
    case Sys(s) =>
      if s.Notify? || s.t != x then 0
      else if s.AddTicks? then s.n
      else if s.Disable? || s.Overflow? then Counted(w.g, x, s.n)
      else 0
    case BeginSync(t, n) => if t == x then Counted(w.g, x, n) else 0
    case _ => 0
  }

  ghost predicate Shape(w: World, a: Action, v: World)
    requires CanAct(w, a)
  {
    && Fits(v) && |v.phase| == |w.phase|
    && (forall x :: 0 <= x < |w.phase| && !(a.Spawn? && x == a.u) ==> Clock(v.g, x) == Clock(w.g, x) + Gain(w, a, x))
    && (a.Spawn? ==> Clock(v.g, a.u) == Clock(w.g, a.t) + 1)
    && (forall x :: 0 <= x < |w.phase| ==>
          (x in v.g.active <==> (x in w.g.active && !(a.HaltSelf? && x == a.t)) || x in Joining(a)))
    && (forall x :: 0 <= x < |w.phase| && v.g.clocks[x].initialized ==> w.g.clocks[x].initialized || x in Joining(a))
  }

  function DecidedGain(g: Group, s: Step, x: int): nat
    requires Known(g, x)
  {
    if s.Notify? || x != s.t then 0
    else if s.AddTicks? then s.n
    else if s.Disable? || s.Stop? then Counted(g, x, s.n)
    else 0
  }

  lemma BeforeShape(g: Group, s: Step, x: int)
    requires Consistent(g) && Enabled(g, s) && Decides(s) && Known(g, x)
    ensures
      var b := Before(g, s);
      && Known(b, x)
      && Clock(b, x) == Clock(g, x) + DecidedGain(g, s, x)
      && b.clocks[x].initialized == g.clocks[x].initialized
      && (x in b.active <==> x in g.active && !(s.Halt? && x == s.t))
  {
    if s.Halt? {
      WithoutMembers(g.active, s.t);
    }
  }

  lemma DecidingShape(g: Group, s: Step)
    requires Consistent(g) && Enabled(g, s) && Decides(s)
    ensures
      var h := Apply(g, s);
      && Shaped(h) && |h.clocks| == |g.clocks| && -1 <= h.lowestTid < |h.clocks|
      && (forall x :: 0 <= x < |g.clocks| ==>
            && Clock(h, x) == Clock(g, x) + DecidedGain(g, s, x)
            && h.clocks[x].initialized == g.clocks[x].initialized
            && (x in h.active <==> x in g.active && !(s.Halt? && x == s.t)))
  {
    StepKeepsConsistent(g, s);
    DecidingFrame(g, s);
    forall x | 0 <= x < |g.clocks|
      ensures Known(Before(g, s), x) && Clock(Before(g, s), x) == Clock(g, x) + DecidedGain(g, s, x)
      ensures Before(g, s).clocks[x].initialized == g.clocks[x].initialized
      ensures x in Before(g, s).active <==> x in g.active && !(s.Halt? && x == s.t)
    {
      BeforeShape(g, s, x);
    }
  }

  lemma DecideShape(w: World, s: Step)
    requires Good(w) && CanAct(w, Sys(s)) && Decides(s)
    ensures Shape(w, Sys(s), Act(w, Sys(s)))
  {
    DecidingShape(w.g, s);
  }

  lemma SysShape(w: World, s: Step)
    requires Good(w) && CanAct(w, Sys(s)) && !Decides(s)
    ensures Shape(w, Sys(s), Act(w, Sys(s)))
  {
    StepKeepsConsistent(w.g, s);
    if s.Notify? {
      NotifyFrame(w.g);
    }
  }

  lemma JoiningShape(w: World, a: Action)
    requires Good(w) && CanAct(w, a) && Wakes(a)
    ensures Shape(w, a, Act(w, a))
  {
    ActivationJoins(w, a);
    ActivationPlaced(w, a);
    assert forall x :: x in Joiners(a) <==> x in Joining(a);
  }

  lemma BeginShape(w: World, t: int, n: nat)
    requires Good(w) && CanAct(w, BeginSync(t, n))
    ensures Shape(w, BeginSync(t, n), Act(w, BeginSync(t, n)))
  {
    StepKeepsConsistent(w.g, Step.Stop(t, n));
    DecidingShape(w.g, Step.Stop(t, n));
  }

  lemma HaltShape(w: World, t: int)
    requires Good(w) && CanAct(w, HaltSelf(t))
    ensures Shape(w, HaltSelf(t), Act(w, HaltSelf(t)))
  {
    assert PlaceOk(w, t);
    StepKeepsConsistent(w.g, Step.Halt(t));
    DecidingShape(w.g, Step.Halt(t));
  }

  lemma StoreShape(w: World, a: Action)
    requires Good(w) && CanAct(w, a)
    requires a.GoPoll? || a.Observe? || a.Cas? || a.Check? || a.Fail? || a.Release?
    ensures Shape(w, a, Act(w, a))
  {
  }

  lemma ActShape(w: World, a: Action)
    requires Good(w) && CanAct(w, a)
    ensures Shape(w, a, Act(w, a))
  {
    if a.Sys? {
      if Decides(a.s) { DecideShape(w, a.s); } else { SysShape(w, a.s); }
    } else if a.Spawn? {
      RouseJoins(w.g, a.t, a.u);
    } else if Wakes(a) {
      JoiningShape(w, a);
    } else if a.BeginSync? {
      BeginShape(w, a.t, a.n);
    } else if a.HaltSelf? {
      HaltShape(w, a.t);
    } else {
      StoreShape(w, a);
    }
  }

  // ---- processes and plans ----

  function Inside(w: World): int {
    if 0 <= w.token < |w.phase| && (w.phase[w.token].Hold? || w.phase[w.token].Leave?) then w.token else -1
  }

  predicate Pending(e: Effect, u: int) { u in e.wakes || u in e.births }

  // Whether u was on the list when the operation in progress began.
  predicate Awake<S, L>(c: Process<S, L>, u: int) {
    u == Inside(c.w) || (u in c.w.g.active && !Pending(c.done, u))
  }

  // When u is due, apart from the ticks of the operation in progress.
  function DueOf<S, L>(c: Process<S, L>, u: int): int
    requires Formed(c) && Fits(c.w) && Known(c.w.g, u)
  {
    Clock(c.w.g, u) + c.left[u] - (if u == Inside(c.w) then c.done.ticks else 0)
  }

  // q and c agree on u.
  ghost predicate PlannedAt<S, L>(q: D.Plan<S, L>, c: Process<S, L>, u: int)
    requires Formed(c) && Fits(c.w) && Known(c.w.g, u)
  {
    && (Awake(c, u) <==> u in q.threads && q.threads[u].active)
    && (c.w.g.clocks[u].initialized ==> u in q.threads || u in c.done.births)
    && (u in q.threads && u !in c.done.births ==>
          q.threads[u].local == c.local[u] && q.threads[u].due == DueOf(c, u))
  }

  // q is the plan of c before the operation in progress.
  ghost predicate Planned<S, L>(q: D.Plan<S, L>, c: Process<S, L>)
    requires Formed(c) && Fits(c.w)
  {
    && q.holder == D.Nobody && q.shared == c.shared
    && (forall u :: u in q.threads ==> Known(c.w.g, u))
    && (forall u :: Known(c.w.g, u) ==> PlannedAt(q, c, u))
  }

  predicate Entered(p: Phase) { !p.Run? && !p.Off? }

  // A thread put on the list by the operation in progress.
  ghost predicate PendingOk<S, L>(c: Process<S, L>, u: int)
    requires Formed(c) && Fits(c.w)
  {
    Known(c.w.g, u) && u in c.w.g.active && u != Inside(c.w)
  }

  ghost predicate BirthOk<S, L>(c: Process<S, L>, u: int)
    requires Formed(c) && Fits(c.w) && u in c.done.births
  {
    PendingOk(c, u) && Entered(c.w.phase[u]) && u !in c.done.wakes
    && (Inside(c.w) >= 0 ==> Clock(c.w.g, u) == Clock(c.w.g, Inside(c.w)) - c.done.ticks + c.done.births[u] + 1)
  }

  ghost predicate EffectOk<S, L>(c: Process<S, L>)
    requires Formed(c) && Fits(c.w)
  {
    && (Inside(c.w) < 0 ==> c.done == NOTHING)
    && (Inside(c.w) >= 0 ==> (c.done.halts <==> c.w.phase[Inside(c.w)].Leave?))
    && (forall u :: u in c.done.wakes ==> PendingOk(c, u))
    && (forall u :: u in c.done.births ==> BirthOk(c, u))
  }

  ghost predicate Kempt<S, L>(c: Process<S, L>) {
    && Formed(c) && Good(c.w)
    && (forall u :: 0 <= u < |c.w.phase| && Entered(c.w.phase[u]) ==> c.left[u] == 0)
    && EffectOk(c)
  }

  // From the plan q on, the log is in the order of the schedule, and r is the
  // plan after the operations that c has completed.
  ghost predicate Carries<S, L>(p: D.Program<S, L>, q: D.Plan<S, L>, log: seq<int>, c: Process<S, L>, r: D.Plan<S, L>) {
    && Kempt(c) && D.InOrder(p, q, log) && Planned(r, c)
    && if Inside(c.w) < 0 then r == D.After(p, q, log)
       else log != [] && D.Last(log) == Inside(c.w) && r == D.After(p, q, D.Front(log))
  }

  ghost predicate OnPlan<S(!new), L(!new)>(p: D.Program<S, L>, q: D.Plan<S, L>, log: seq<int>, c: Process<S, L>) {
    exists r :: Carries(p, q, log, c, r)
  }

  // ---- the steps ----

  // Steps by which no thread enters or leaves an operation.
  predicate Between(a: Action) { !a.Check? && !a.Release? }

  lemma SameInside(w: World, a: Action)
    requires Good(w) && CanAct(w, a) && Between(a)
    ensures Inside(Act(w, a)) == Inside(w)
  {
    assert w.token >= 0 ==> PlaceOk(w, w.token);
    assert !a.Sys? ==> PlaceOk(w, a.t);
  }

  ghost predicate SteadyAt<S, L>(c: Process<S, L>, d: Process<S, L>, u: int)
    requires Formed(c) && Fits(c.w) && Formed(d) && Fits(d.w) && |d.w.phase| == |c.w.phase|
    requires 0 <= u < |c.w.phase|
  {
    && (Awake(d, u) <==> Awake(c, u))
    && (d.w.g.clocks[u].initialized ==> c.w.g.clocks[u].initialized || u in d.done.births)
    && (u !in d.done.births ==> DueOf(d, u) == DueOf(c, u))
  }

  // From c to d nothing changed that a plan shows.
  ghost predicate Steady<S, L>(c: Process<S, L>, d: Process<S, L>) {
    && Formed(c) && Fits(c.w) && Formed(d) && Fits(d.w) && |d.w.phase| == |c.w.phase|
    && d.shared == c.shared && d.local == c.local
    && c.done.births.Keys <= d.done.births.Keys
    && forall u :: 0 <= u < |c.w.phase| ==> SteadyAt(c, d, u)
  }

  lemma SteadyPlanned<S, L>(q: D.Plan<S, L>, c: Process<S, L>, d: Process<S, L>)
    requires Steady(c, d) && Planned(q, c)
    ensures Planned(q, d)
  {
    forall u | Known(d.w.g, u)
      ensures PlannedAt(q, d, u)
    {
      assert PlannedAt(q, c, u) && SteadyAt(c, d, u);
    }
  }

  // d is c after the action a, by which nobody enters or leaves an operation.
  ghost predicate Took<S, L>(p: D.Program<S, L>, c: Process<S, L>, a: Action, d: Process<S, L>) {
    && Formed(c) && CanAct(c.w, a) && Obeys(p, c, a) && Between(a)
    && d == Next(p, c, a) && Shape(c.w, a, d.w) && Inside(d.w) == Inside(c.w)
  }

  lemma ActTook<S, L>(p: D.Program<S, L>, c: Process<S, L>, a: Action)
    requires Kempt(c) && CanAct(c.w, a) && Obeys(p, c, a) && Between(a) && Harmless(c.w, a)
    ensures Took(p, c, a, Next(p, c, a)) && Good(Act(c.w, a))
  {
    ActShape(c.w, a);
    ActionKeeps(c.w, a);
    SameInside(c.w, a);
  }

  lemma OwnerInside(w: World, t: int)
    requires Good(w) && Known(w.g, t) && (w.phase[t].Hold? || w.phase[t].Leave?)
    ensures Inside(w) == t
  {
    assert PlaceOk(w, t);
  }

  // The kinds of steps: outside operations, inside one, and on or off the list.
  predicate Counts(a: Action) { a.BeginSync? || (a.Sys? && a.s.Overflow?) }

  predicate Adds(a: Action) { a.Sys? && (a.s.AddTicks? || a.s.Disable?) }

  predicate Still(a: Action) {
    Between(a) && !Counts(a) && !Adds(a) && !a.Spawn? && !Wakes(a) && !a.HaltSelf?
  }

  lemma StillSteady<S, L>(p: D.Program<S, L>, c: Process<S, L>, a: Action, d: Process<S, L>, u: int)
    requires Took(p, c, a, d) && Still(a) && 0 <= u < |c.w.phase|
    ensures SteadyAt(c, d, u)
  {
  }

  // Work counted changes no due time.
  lemma CountSteady<S, L>(p: D.Program<S, L>, c: Process<S, L>, a: Action, d: Process<S, L>, u: int)
    requires Took(p, c, a, d) && Counts(a) && 0 <= u < |c.w.phase|
    ensures SteadyAt(c, d, u)
  {
  }

  // Ticks added in an operation do not show in the plan before it.
  lemma AddSteady<S, L>(p: D.Program<S, L>, c: Process<S, L>, a: Action, d: Process<S, L>, u: int)
    requires Took(p, c, a, d) && Adds(a) && a.s.t == Inside(c.w) && 0 <= u < |c.w.phase|
    ensures SteadyAt(c, d, u)
  {
  }

  // A thread that joins is pending until the operation is over.
  lemma SpawnSteady<S, L>(p: D.Program<S, L>, c: Process<S, L>, a: Action, d: Process<S, L>, u: int)
    requires Took(p, c, a, d) && a.Spawn? && a.t == Inside(c.w) && 0 <= u < |c.w.phase|
    ensures SteadyAt(c, d, u)
  {
  }

  lemma WakeSteady<S, L>(p: D.Program<S, L>, c: Process<S, L>, a: Action, d: Process<S, L>, u: int)
    requires Took(p, c, a, d) && Wakes(a) && a.t == Inside(c.w) && 0 <= u < |c.w.phase|
    ensures SteadyAt(c, d, u)
  {
  }

  // Halting takes nothing but the thread inside off the list.
  ghost predicate HaltsAt<S, L>(c: Process<S, L>, d: Process<S, L>, u: int)
    requires Formed(c) && Fits(c.w) && Formed(d) && Fits(d.w) && Known(c.w.g, u) && Known(d.w.g, u)
  {
    && Inside(d.w) == Inside(c.w) && d.left == c.left && d.done == c.done.(halts := true)
    && Clock(d.w.g, u) == Clock(c.w.g, u)
    && (u != Inside(c.w) ==> (u in d.w.g.active <==> u in c.w.g.active))
    && (d.w.g.clocks[u].initialized ==> c.w.g.clocks[u].initialized)
  }

  lemma HaltTook<S, L>(p: D.Program<S, L>, c: Process<S, L>, a: Action, d: Process<S, L>, u: int)
    requires Took(p, c, a, d) && a.HaltSelf? && a.t == Inside(c.w) && 0 <= u < |c.w.phase|
    ensures Known(d.w.g, u) && HaltsAt(c, d, u)
  {
  }

  lemma HaltSteady<S, L>(p: D.Program<S, L>, c: Process<S, L>, a: Action, d: Process<S, L>, u: int)
    requires Took(p, c, a, d) && a.HaltSelf? && a.t == Inside(c.w) && 0 <= u < |c.w.phase|
    ensures SteadyAt(c, d, u)
  {
    HaltTook(p, c, a, d, u);
  }

  // What an operation does is done by the thread inside it.
  predicate ActorInside(w: World, a: Action) {
    && (Adds(a) ==> a.s.t == Inside(w))
    && (a.Spawn? || Wakes(a) || a.HaltSelf? ==> a.t == Inside(w))
  }

  lemma ActorsInside(w: World, a: Action)
    requires Good(w) && CanAct(w, a)
    ensures ActorInside(w, a)
  {
    if Adds(a) {
      OwnerInside(w, a.s.t);
    } else if a.Spawn? || Wakes(a) || a.HaltSelf? {
      OwnerInside(w, a.t);
    }
  }

  lemma TookSteadyAt<S, L>(p: D.Program<S, L>, c: Process<S, L>, a: Action, d: Process<S, L>, u: int)
    requires Took(p, c, a, d) && ActorInside(c.w, a) && 0 <= u < |c.w.phase|
    ensures SteadyAt(c, d, u)
  {
    if Still(a) {
      StillSteady(p, c, a, d, u);
    } else if Counts(a) {
      CountSteady(p, c, a, d, u);
    } else if Adds(a) {
      AddSteady(p, c, a, d, u);
    } else if a.Spawn? {
      SpawnSteady(p, c, a, d, u);
    } else if Wakes(a) {
      WakeSteady(p, c, a, d, u);
    } else {
      HaltSteady(p, c, a, d, u);
    }
  }

  lemma TookSteady<S, L>(p: D.Program<S, L>, c: Process<S, L>, a: Action, d: Process<S, L>)
    requires Took(p, c, a, d) && ActorInside(c.w, a)
    ensures Steady(c, d)
  {
    forall u | 0 <= u < |c.w.phase|
      ensures SteadyAt(c, d, u)
    {
      TookSteadyAt(p, c, a, d, u);
    }
  }

  lemma TookRested<S, L>(p: D.Program<S, L>, c: Process<S, L>, a: Action, d: Process<S, L>, u: int)
    requires Took(p, c, a, d) && 0 <= u < |c.w.phase|
    requires Entered(c.w.phase[u]) ==> c.left[u] == 0
    ensures Entered(d.w.phase[u]) ==> d.left[u] == 0
  {
  }

  lemma SameEffect<S, L>(p: D.Program<S, L>, c: Process<S, L>, a: Action, d: Process<S, L>)
    requires EffectPre(c) && Took(p, c, a, d) && (Still(a) || Counts(a))
    ensures EffectOk(d)
  {
    assert d.done == c.done;
    forall u | u in d.done.wakes
      ensures PendingOk(d, u)
    {
      assert PendingOk(c, u);
    }
    forall u | u in d.done.births
      ensures BirthOk(d, u)
    {
      assert BirthOk(c, u);
    }
  }

  // What the steps need of the state before them.
  ghost predicate EffectPre<S, L>(c: Process<S, L>) {
    Formed(c) && Fits(c.w) && EffectOk(c) && -1 <= Inside(c.w) < |c.w.phase|
  }

  lemma AddEffect<S, L>(p: D.Program<S, L>, c: Process<S, L>, a: Action, d: Process<S, L>)
    requires EffectPre(c) && Took(p, c, a, d) && Adds(a) && a.s.t == Inside(c.w)
    ensures EffectOk(d)
  {
  }

  lemma SpawnEffect<S, L>(p: D.Program<S, L>, c: Process<S, L>, a: Action, d: Process<S, L>)
    requires EffectPre(c) && Took(p, c, a, d) && a.Spawn? && a.t == Inside(c.w)
    ensures EffectOk(d)
  {
  }

  lemma WakePending<S, L>(p: D.Program<S, L>, c: Process<S, L>, a: Action, d: Process<S, L>, u: int)
    requires EffectPre(c) && Took(p, c, a, d) && Wakes(a) && a.t == Inside(c.w) && u in d.done.wakes
    ensures PendingOk(d, u)
  {
    assert u in c.done.wakes ==> PendingOk(c, u);
  }

  lemma WakeBirth<S, L>(p: D.Program<S, L>, c: Process<S, L>, a: Action, d: Process<S, L>, u: int)
    requires EffectPre(c) && Took(p, c, a, d) && Wakes(a) && a.t == Inside(c.w) && u in d.done.births
    ensures BirthOk(d, u)
  {
    assert BirthOk(c, u);
  }

  lemma WakeEffect<S, L>(p: D.Program<S, L>, c: Process<S, L>, a: Action, d: Process<S, L>)
    requires EffectPre(c) && Took(p, c, a, d) && Wakes(a) && a.t == Inside(c.w)
    ensures EffectOk(d)
  {
    forall u | u in d.done.wakes
      ensures PendingOk(d, u)
    {
      WakePending(p, c, a, d, u);
    }
    forall u | u in d.done.births
      ensures BirthOk(d, u)
    {
      WakeBirth(p, c, a, d, u);
    }
  }

  lemma HaltEffect<S, L>(p: D.Program<S, L>, c: Process<S, L>, a: Action, d: Process<S, L>)
    requires EffectPre(c) && Took(p, c, a, d) && a.HaltSelf? && a.t == Inside(c.w)
    ensures EffectOk(d)
  {
  }

  lemma TookEffect<S, L>(p: D.Program<S, L>, c: Process<S, L>, a: Action, d: Process<S, L>)
    requires EffectPre(c) && Took(p, c, a, d) && ActorInside(c.w, a)
    ensures EffectOk(d)
  {
    if Still(a) || Counts(a) {
      SameEffect(p, c, a, d);
    } else if Adds(a) {
      AddEffect(p, c, a, d);
    } else if a.Spawn? {
      SpawnEffect(p, c, a, d);
    } else if Wakes(a) {
      WakeEffect(p, c, a, d);
    } else {
      HaltEffect(p, c, a, d);
    }
  }

  lemma TookKempt<S, L>(p: D.Program<S, L>, c: Process<S, L>, a: Action, d: Process<S, L>)
    requires Kempt(c) && Took(p, c, a, d) && ActorInside(c.w, a) && Good(d.w)
    ensures Kempt(d)
  {
    TookEffect(p, c, a, d);
    forall u | 0 <= u < |d.w.phase|
      ensures Entered(d.w.phase[u]) ==> d.left[u] == 0
    {
      TookRested(p, c, a, d, u);
    }
  }

  // ---- taking the token ----

  // The least active thread, its work done, is the next one up.
  lemma LeastNextUp<S, L>(q: D.Plan<S, L>, c: Process<S, L>, t: int)
    requires Formed(c) && Fits(c.w) && Planned(q, c) && Inside(c.w) < 0 && c.done == NOTHING
    requires IsLeast(c.w.g, t) && c.left[t] == 0
    ensures D.NextUp(q, t)
  {
    assert Awake(c, t);
    forall u | u in q.threads && q.threads[u].active && u != t
      ensures D.Sooner(q.threads[t].due, t, q.threads[u].due, u)
    {
      assert Awake(c, u) && Lower(c.w.g, t, u);
    }
  }

  lemma CheckInside<S, L>(p: D.Program<S, L>, c: Process<S, L>, t: int, again: bool)
    requires Kempt(c) && CanAct(c.w, Check(t, again))
    ensures
      var d := Next(p, c, Check(t, again));
      && Inside(c.w) < 0 && IsLeast(c.w.g, t) && c.left[t] == 0
      && Inside(d.w) == t && Kempt(d) && Steady(c, d)
  {
    CheckKeeps(c.w, t, again);
    assert PlaceOk(c.w, t) && Armed(c.w, t) && Backed(c.w, t);
  }

  lemma TakeOnPlan<S, L>(p: D.Program<S, L>, q: D.Plan<S, L>, log: seq<int>, c: Process<S, L>, r: D.Plan<S, L>,
                         t: int, again: bool)
    requires Carries(p, q, log, c, r) && CanAct(c.w, Check(t, again))
    ensures Carries(p, q, log + [t], Next(p, c, Check(t, again)), r)
  {
    var d := Next(p, c, Check(t, again));
    CheckInside(p, c, t, again);
    LeastNextUp(r, c, t);
    SteadyPlanned(r, c, d);
    assert D.Front(log + [t]) == log && D.Last(log + [t]) == t;
  }

  // ---- letting it go ----

  // c stands where t can let the token go, d is c after that, and r the plan.
  ghost predicate Finishes<S, L>(p: D.Program<S, L>, q: D.Plan<S, L>, c: Process<S, L>, t: int,
                                 d: Process<S, L>, r: D.Plan<S, L>) {
    && Formed(c) && CanAct(c.w, Release(t)) && Completes(p, c, t) && d == Finished(p, c, t)
    && Planned(q, c) && t in q.threads && q.threads[t].due == Clock(c.w.g, t) - c.done.ticks
    && q.threads[t].local == c.local[t] && r == D.Served(p, q, t)
    && Inside(c.w) == t && Inside(d.w) < 0
  }

  lemma CanFinish<S, L>(p: D.Program<S, L>, q: D.Plan<S, L>, c: Process<S, L>, t: int)
    requires Kempt(c) && Planned(q, c) && CanAct(c.w, Release(t)) && Completes(p, c, t)
    ensures t in q.threads && Finishes(p, q, c, t, Finished(p, c, t), D.Served(p, q, t))
  {
    OwnerInside(c.w, t);
    assert PlannedAt(q, c, t) && Awake(c, t);
    assert t !in c.done.births;
  }

  lemma FinishedOwn<S, L>(
      p: D.Program<S, L>, q: D.Plan<S, L>, c: Process<S, L>, t: int, d: Process<S, L>, r: D.Plan<S, L>)
    requires Kempt(c) && Finishes(p, q, c, t, d, r)
    ensures PlannedAt(r, d, t)
  {
    assert PlaceOk(c.w, t);
  }

  lemma FinishedBirth<S, L>(
      p: D.Program<S, L>, q: D.Plan<S, L>, c: Process<S, L>, t: int, d: Process<S, L>, r: D.Plan<S, L>, u: int)
    requires Kempt(c) && Finishes(p, q, c, t, d, r) && u in c.done.births
    ensures PlannedAt(r, d, u)
  {
    assert BirthOk(c, u) && PlannedAt(q, c, u);
    assert !Awake(c, u);
  }

  lemma FinishedOther<S, L>(
      p: D.Program<S, L>, q: D.Plan<S, L>, c: Process<S, L>, t: int, d: Process<S, L>, r: D.Plan<S, L>, u: int)
    requires Kempt(c) && Finishes(p, q, c, t, d, r) && Known(c.w.g, u) && u != t && u !in c.done.births
    ensures PlannedAt(r, d, u)
  {
    assert PlannedAt(q, c, u) && PlaceOk(c.w, u);
    assert u in c.done.wakes ==> PendingOk(c, u);
  }

  // Once the operation is over, what was pending is done.
  lemma FinishedPlanned<S, L>(p: D.Program<S, L>, q: D.Plan<S, L>, c: Process<S, L>, t: int)
    requires Kempt(c) && Planned(q, c) && CanAct(c.w, Release(t)) && Completes(p, c, t)
    ensures t in q.threads && Planned(D.Served(p, q, t), Finished(p, c, t))
  {
    CanFinish(p, q, c, t);
    var d, r := Finished(p, c, t), D.Served(p, q, t);
    forall u | Known(d.w.g, u)
      ensures PlannedAt(r, d, u)
    {
      if u == t {
        FinishedOwn(p, q, c, t, d, r);
      } else if u in c.done.births {
        FinishedBirth(p, q, c, t, d, r, u);
      } else {
        FinishedOther(p, q, c, t, d, r, u);
      }
    }
  }

  lemma FinishedKempt<S, L>(p: D.Program<S, L>, c: Process<S, L>, t: int)
    requires Kempt(c) && CanAct(c.w, Release(t)) && Completes(p, c, t)
    ensures Kempt(Finished(p, c, t)) && Inside(c.w) == t && Inside(Finished(p, c, t).w) < 0
  {
    OwnerInside(c.w, t);
    ActionKeeps(c.w, Release(t));
    assert PlaceOk(c.w, t);
  }

  lemma GiveOnPlan<S, L>(p: D.Program<S, L>, q: D.Plan<S, L>, log: seq<int>, c: Process<S, L>, r: D.Plan<S, L>, t: int)
    requires Carries(p, q, log, c, r) && CanAct(c.w, Release(t)) && Completes(p, c, t)
    ensures t in r.threads && Carries(p, q, log, Finished(p, c, t), D.Served(p, r, t))
  {
    FinishedKempt(p, c, t);
    FinishedPlanned(p, r, c, t);
  }

  lemma StayOnPlan<S, L>(
      p: D.Program<S, L>, q: D.Plan<S, L>, log: seq<int>, c: Process<S, L>, r: D.Plan<S, L>, a: Action)
    requires Carries(p, q, log, c, r) && CanAct(c.w, a) && Obeys(p, c, a) && Harmless(c.w, a) && Between(a)
    ensures Carries(p, q, log, Next(p, c, a), r)
  {
    var d := Next(p, c, a);
    ActTook(p, c, a);
    ActorsInside(c.w, a);
    TookKempt(p, c, a, d);
    TookSteady(p, c, a, d);
    SteadyPlanned(r, c, d);
  }

  // ---- runs ----

  function Taken(a: Action): seq<int> {
    if a.Check? then [a.t] else []
  }

  lemma StepOnPlan<S(!new), L(!new)>(p: D.Program<S, L>, q: D.Plan<S, L>, log: seq<int>, c: Process<S, L>, a: Action)
    requires OnPlan(p, q, log, c) && Formed(c) && CanAct(c.w, a) && Obeys(p, c, a) && Harmless(c.w, a)
    ensures OnPlan(p, q, log + Taken(a), Next(p, c, a))
  {
    var r :| Carries(p, q, log, c, r);
    if a.Check? {
      TakeOnPlan(p, q, log, c, r, a.t, a.again);
    } else {
      assert log + Taken(a) == log;
      if a.Release? {
        GiveOnPlan(p, q, log, c, r, a.t);
      } else {
        StayOnPlan(p, q, log, c, r, a);
      }
    }
  }

  lemma {:induction false} OutcomesWorld<S, L>(p: D.Program<S, L>, c: Process<S, L>, acts: seq<Action>)
    requires Formed(c) && Follows(p, c, acts) && HarmlessRun(c.w, acts)
    ensures Outcomes(p, c, acts).w == AfterRun(c.w, acts) && |Outcomes(p, c, acts).w.phase| == |c.w.phase|
    decreases |acts|
  {
    if acts != [] {
      OutcomesWorld(p, Next(p, c, acts[0]), acts[1..]);
    }
  }

  // A harmless run that follows the program is on the plan it started from.
  lemma {:induction false} RunOnPlan<S(!new), L(!new)>(
      p: D.Program<S, L>, q: D.Plan<S, L>, log: seq<int>, c: Process<S, L>, acts: seq<Action>)
    requires OnPlan(p, q, log, c) && Formed(c) && Follows(p, c, acts) && HarmlessRun(c.w, acts)
    ensures OnPlan(p, q, log + Order(acts), Outcomes(p, c, acts))
    decreases |acts|
  {
    if acts == [] {
      assert log + Order(acts) == log;
    } else {
      var a := acts[0];
      var d := FirstStep(p, c, acts);
      StepOnPlan(p, q, log, c, a);
      RunOnPlan(p, q, log + Taken(a), d, acts[1..]);
      OrderFirst(log, acts);
    }
  }

  lemma OrderFirst(log: seq<int>, acts: seq<Action>)
    requires acts != []
    ensures log + Order(acts) == log + Taken(acts[0]) + Order(acts[1..])
  {
  }

  lemma FirstStep<S, L>(p: D.Program<S, L>, c: Process<S, L>, acts: seq<Action>) returns (d: Process<S, L>)
    requires acts != [] && Formed(c) && Follows(p, c, acts) && HarmlessRun(c.w, acts)
    ensures CanAct(c.w, acts[0]) && Obeys(p, c, acts[0]) && Harmless(c.w, acts[0]) && d == Next(p, c, acts[0])
    ensures Formed(d) && Follows(p, d, acts[1..]) && HarmlessRun(d.w, acts[1..])
    ensures Outcomes(p, c, acts) == Outcomes(p, d, acts[1..])
  {
    d := Next(p, c, acts[0]);
  }

  // The process when thread 0 has joined the group, and its plan. The local
  // state of a thread that is yet to be created does not matter.
  function Begin<S, L>(p: D.Program<S, L>, n: nat, shared: S, local: L): (c: Process<S, L>)
    requires n > 0
    ensures Formed(c)
  {
    Process(Start(n), shared, seq(n, _ => 0)[0 := p.work(local)], seq(n, _ => local), NOTHING)
  }

  function FirstPlan<S, L>(p: D.Program<S, L>, shared: S, local: L): D.Plan<S, L> {
    D.Plan(shared, map[0 := D.Due(p.work(local), true, local)], D.Nobody)
  }

  lemma StartThread(n: nat, u: int)
    requires n > 0 && 0 <= u < n
    ensures
      var w := Start(n);
      && Fits(w) && |w.phase| == n && Clock(w.g, u) == 0 && w.g.active == [0] && w.token == FREE
      && (w.g.clocks[u].initialized <==> u == 0)
  {
  }

  lemma BeginPlanned<S, L>(p: D.Program<S, L>, n: nat, shared: S, local: L, u: int)
    requires n > 0 && 0 <= u < n
    ensures
      var c := Begin(p, n, shared, local);
      Fits(c.w) && PlannedAt(FirstPlan(p, shared, local), c, u)
  {
    StartThread(n, u);
    var q, c := FirstPlan(p, shared, local), Begin(p, n, shared, local);
    assert Inside(c.w) == -1 && c.left[u] == if u == 0 then p.work(local) else 0;
    FirstPlanned(p, shared, local, c, u);
  }

  lemma FirstPlanned<S, L>(p: D.Program<S, L>, shared: S, local: L, c: Process<S, L>, u: int)
    requires Formed(c) && Fits(c.w) && Known(c.w.g, u) && Clock(c.w.g, u) == 0
    requires c.w.g.active == [0] && (c.w.g.clocks[u].initialized <==> u == 0)
    requires Inside(c.w) == -1 && c.done == NOTHING
    requires c.left[u] == (if u == 0 then p.work(local) else 0) && c.local[u] == local
    ensures PlannedAt(FirstPlan(p, shared, local), c, u)
  {
  }

  lemma BeginOnPlan<S(!new), L(!new)>(p: D.Program<S, L>, n: nat, shared: S, local: L)
    requires n > 0
    ensures OnPlan(p, FirstPlan(p, shared, local), [], Begin(p, n, shared, local))
  {
    var q, c := FirstPlan(p, shared, local), Begin(p, n, shared, local);
    forall u | 0 <= u < n
      ensures Fits(c.w) && PlannedAt(q, c, u)
    {
      BeginPlanned(p, n, shared, local, u);
    }
    StartGood(n);
    assert Carries(p, q, [], c, q);
  }

  // A run of the program on n threads, from the start of the process on.
  ghost predicate Executes<S, L>(p: D.Program<S, L>, n: nat, shared: S, local: L, acts: seq<Action>) {
    n > 0 && Follows(p, Begin(p, n, shared, local), acts)
  }

  lemma ExecutesOnPlan<S(!new), L(!new)>(p: D.Program<S, L>, n: nat, shared: S, local: L, acts: seq<Action>)
    requires Executes(p, n, shared, local, acts) && HarmlessRun(Start(n), acts)
    ensures OnPlan(p, FirstPlan(p, shared, local), Order(acts), Outcomes(p, Begin(p, n, shared, local), acts))
  {
    BeginOnPlan(p, n, shared, local);
    RunOnPlan(p, FirstPlan(p, shared, local), [], Begin(p, n, shared, local), acts);
    assert [] + Order(acts) == Order(acts);
  }

  lemma OnPlanOrder<S(!new), L(!new)>(
      p: D.Program<S, L>, q: D.Plan<S, L>, log: seq<int>, c: Process<S, L>, mog: seq<int>, d: Process<S, L>)
    requires OnPlan(p, q, log, c) && OnPlan(p, q, mog, d)
    ensures log <= mog || mog <= log
  {
    if |log| <= |mog| {
      D.LogsAgree(p, q, log, mog);
    } else {
      D.LogsAgree(p, q, mog, log);
    }
  }

  // Determinism of the runtime: of any two harmless runs of the same program,
  // however the kernel, the notifications and the threads' own progress
  // interleave, one takes the token in the order of the other, as far as it goes.
  lemma SameOrder<S(!new), L(!new)>(
      p: D.Program<S, L>, n: nat, shared: S, local: L, acts: seq<Action>, bcts: seq<Action>)
    requires Executes(p, n, shared, local, acts) && HarmlessRun(Start(n), acts)
    requires Executes(p, n, shared, local, bcts) && HarmlessRun(Start(n), bcts)
    ensures Order(acts) <= Order(bcts) || Order(bcts) <= Order(acts)
  {
    var c, q := Begin(p, n, shared, local), FirstPlan(p, shared, local);
    ExecutesOnPlan(p, n, shared, local, acts);
    ExecutesOnPlan(p, n, shared, local, bcts);
    OnPlanOrder(p, q, Order(acts), Outcomes(p, c, acts), Order(bcts), Outcomes(p, c, bcts));
  }

  // Two processes that a program cannot tell apart: the same shared state, the
  // same threads running, each with the same local state and due at the same
  // clock.
  ghost predicate Alike<S, L>(c: Process<S, L>, d: Process<S, L>) {
    && Formed(c) && Fits(c.w) && Formed(d) && Fits(d.w) && |c.w.phase| == |d.w.phase|
    && c.shared == d.shared
    && forall u :: 0 <= u < |c.w.phase| ==>
         && (u in c.w.g.active <==> u in d.w.g.active)
         && (u in c.w.g.active ==>
               c.local[u] == d.local[u] && Clock(c.w.g, u) + c.left[u] == Clock(d.w.g, u) + d.left[u])
  }

  lemma OnPlanAlike<S(!new), L(!new)>(
      p: D.Program<S, L>, q: D.Plan<S, L>, log: seq<int>, c: Process<S, L>, mog: seq<int>, d: Process<S, L>)
    requires OnPlan(p, q, log, c) && OnPlan(p, q, mog, d) && |log| == |mog|
    requires |c.w.phase| == |d.w.phase| && Inside(c.w) < 0 && Inside(d.w) < 0
    ensures log == mog && Alike(c, d)
  {
    D.LogsAgree(p, q, log, mog);
    var r :| Carries(p, q, log, c, r);
    var r1 :| Carries(p, q, mog, d, r1);
    assert log == mog && r == r1 && c.done == d.done == NOTHING;
    forall u | 0 <= u < |c.w.phase|
      ensures u in c.w.g.active <==> u in d.w.g.active
      ensures u in c.w.g.active ==>
                c.local[u] == d.local[u] && Clock(c.w.g, u) + c.left[u] == Clock(d.w.g, u) + d.left[u]
    {
      assert PlannedAt(r, c, u) && PlannedAt(r1, d, u);
    }
  }

  // And when they have completed equally many operations they stand alike.
  lemma SameOutcome<S(!new), L(!new)>(
      p: D.Program<S, L>, n: nat, shared: S, local: L, acts: seq<Action>, bcts: seq<Action>)
    requires Executes(p, n, shared, local, acts) && HarmlessRun(Start(n), acts)
    requires Executes(p, n, shared, local, bcts) && HarmlessRun(Start(n), bcts)
    requires |Order(acts)| == |Order(bcts)|
    requires Inside(AfterRun(Start(n), acts)) < 0 && Inside(AfterRun(Start(n), bcts)) < 0
    ensures Order(acts) == Order(bcts)
    ensures Alike(Outcomes(p, Begin(p, n, shared, local), acts), Outcomes(p, Begin(p, n, shared, local), bcts))
  {
    var c, q := Begin(p, n, shared, local), FirstPlan(p, shared, local);
    ExecutesOnPlan(p, n, shared, local, acts);
    ExecutesOnPlan(p, n, shared, local, bcts);
    OutcomesWorld(p, c, acts);
    OutcomesWorld(p, c, bcts);
    OnPlanAlike(p, q, Order(acts), Outcomes(p, c, acts), Order(bcts), Outcomes(p, c, bcts));
  }
}
