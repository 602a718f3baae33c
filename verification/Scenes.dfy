// Small processes step by step. A scene is what matters of a process of three
// threads; each action of the protocol is computed on scenes and proved to do the
// same to every process that looks like the scene.
module Scenes {
  import opened ListArrays
  import opened Clocks
  import opened Grants
  import opened TokenProtocol
  import opened Scheduling
  import D = Determinism

  // ---- what decisions see of the kernel ----

  // A clock group in which nobody sleeps or counts, as far as decisions go.
  datatype View = View(
    clock: seq<int>, waiting: seq<bool>, told: seq<bool>, made: seq<bool>, active: seq<int>, low: int, needed: bool)

  predicate Wide(v: View) {
    |v.clock| == |v.waiting| == |v.told| == |v.made|
  }

  predicate ShowsAt(g: Group, v: View, t: int)
    requires Wide(v) && 0 <= t < |v.clock| == |g.clocks| == |g.status|
  {
    var e := g.clocks[t];
    && ClockOf(e) == v.clock[t] && e.waiting == v.waiting[t] && e.initialized == v.made[t]
    && !e.sleeping && !e.counting
    && g.status[t].lowestClock == v.told[t] && !g.status[t].polled && !g.status[t].activatedLowest
  }

  ghost predicate Shows(g: Group, v: View) {
    && Wide(v) && |v.clock| == |g.clocks| == |g.status|
    && g.active == v.active && g.lowestTid == v.low && g.notificationNeeded == v.needed
    && forall t :: 0 <= t < |g.clocks| ==> ShowsAt(g, v, t)
  }

  predicate Least(v: View, t: int) {
    && Wide(v) && t in v.active && (forall u :: u in v.active ==> 0 <= u < |v.clock|)
    && forall u :: u in v.active && u != t ==> v.clock[t] < v.clock[u] || (v.clock[t] == v.clock[u] && t < u)
  }

  // A decision of cur while t is the least of several threads.
  function Decided(v: View, cur: int, t: int): View
    requires Wide(v) && 0 <= cur < |v.clock| && 0 <= t < |v.clock|
  {
    var low := if t == cur || v.waiting[t] then t else -1;
    var needed := v.needed || low != v.low;
    if low == cur then v.(waiting := v.waiting[cur := false], told := v.told[cur := true], low := low, needed := false)
    else
      var told := v.told[cur := false];
      if low >= 0 && needed then
        v.(waiting := v.waiting[cur := true], told := told[low := true], low := low, needed := false)
      else v.(waiting := v.waiting[cur := true], told := told, low := low, needed := needed)
  }

  lemma LeastShown(g: Group, v: View, t: int)
    requires Consistent(g) && Shows(g, v) && Least(v, t)
    ensures IsLeast(g, t) && Lowest(g) == t
  {
    forall u | u in g.active
      ensures Clock(g, u) == v.clock[u]
    {
      assert ShowsAt(g, v, u);
    }
    LowestIsLeast(g);
  }

  lemma ElectedShown(g: Group, v: View, cur: int, t: int)
    requires Consistent(g) && Shows(g, v) && Least(v, t) && Known(g, cur)
    requires cur in g.active || g.clocks[cur].inactive
    ensures
      var h := Elected(ShowTicks(g, cur), cur);
      && h.lowestTid == (if t == cur || v.waiting[t] then t else -1)
      && h.notificationNeeded == (v.needed || h.lowestTid != v.low)
      && h.clocks == g.clocks[cur := g.clocks[cur].(waiting := true)]
  {
    LeastShown(g, v, t);
    var g1 := Put(ShowTicks(g, cur), cur, g.clocks[cur].(waiting := true));
    assert SameClocks(g, g1);
    SameClocksKeeps(g, g1);
    assert ShowsAt(g, v, t);
  }

  // r is the decision of cur, while t is the least, before the notification goes
  // out.
  ghost predicate Determines(g: Group, v: View, cur: int, t: int, r: (Group, int)) {
    && Known(g, cur) && Wide(v) && 0 <= t < |v.clock|
    && var low := if t == cur || v.waiting[t] then t else -1;
    var tells := low >= 0 && (v.needed || low != v.low);
    && r.0.status == g.status[cur := g.status[cur].(ticks := Clock(g, cur), lowestClock := low == cur)]
    && r.0.active == g.active && r.0.lowestTid == low
    && r.0.clocks == g.clocks[cur := if low == cur then Cleared(g.clocks[cur]) else g.clocks[cur].(waiting := true)]
    && r.1 == (if low != cur && tells then low else -1)
    && r.0.notificationNeeded == (low != cur && !tells && (v.needed || low != v.low))
  }

  lemma DeterminedShown(g: Group, v: View, cur: int, t: int)
    requires Consistent(g) && Shows(g, v) && Least(v, t) && Known(g, cur)
    requires (|g.active| > 1 && cur in g.active) || g.clocks[cur].inactive
    ensures Determines(g, v, cur, t, Determine(g, cur))
  {
    ElectedShown(g, v, cur, t);
    assert ShowsAt(g, v, t);
  }

  lemma NotifiedShown(g: Group, v: View, cur: int, t: int, r: (Group, int))
    requires Shows(g, v) && Known(g, cur) && Known(g, t) && Determines(g, v, cur, t, r)
    ensures Shows(Notified(r), Decided(v, cur, t))
  {
    forall x | 0 <= x < |g.clocks|
      ensures |Notified(r).clocks| == |g.clocks| == |Notified(r).status| && ShowsAt(Notified(r), Decided(v, cur, t), x)
    {
      assert ShowsAt(g, v, x) && ShowsAt(g, v, cur) && ShowsAt(g, v, t);
    }
  }

  lemma DecideShown(g: Group, v: View, cur: int, t: int)
    requires Consistent(g) && Shows(g, v) && Least(v, t) && Known(g, cur)
    requires (|g.active| > 1 && cur in g.active) || g.clocks[cur].inactive
    ensures Shows(Decide(g, cur), Decided(v, cur, t))
  {
    DeterminedShown(g, v, cur, t);
    NotifiedShown(g, v, cur, t, Determine(g, cur));
  }

  function Later(v: View, cur: int, n: nat): View
    requires Wide(v) && 0 <= cur < |v.clock|
  {
    v.(clock := v.clock[cur := v.clock[cur] + n])
  }

  lemma AddShown(g: Group, v: View, cur: int, n: nat, t: int)
    requires Consistent(g) && Shows(g, v) && cur in g.active && |g.active| > 1 && Known(g, cur)
    requires Least(Later(v, cur, n), t)
    ensures Shows(Clocks.AddTicks(g, cur, n), Decided(Later(v, cur, n), cur, t))
  {
    var h, u := Ticked(g, cur, n), Later(v, cur, n);
    EntryConsistent(g, cur, h);
    forall x | 0 <= x < |g.clocks|
      ensures ShowsAt(h, u, x)
    {
      assert ShowsAt(g, v, x);
    }
    DecideShown(h, u, cur, t);
  }

  lemma StoppedShown(g: Group, v: View, cur: int, n: nat)
    requires Consistent(g) && Shows(g, v) && Known(g, cur)
    ensures Consistent(Stopped(g, cur, n)) && Shows(Stopped(g, cur, n), v)
  {
    var h := Stopped(g, cur, n);
    assert ShowsAt(g, v, cur);
    EntryConsistent(g, cur, h);
    forall x | 0 <= x < |g.clocks|
      ensures ShowsAt(h, v, x)
    {
      assert ShowsAt(g, v, x);
    }
  }

  lemma StopShown(g: Group, v: View, cur: int, t: int)
    requires Consistent(g) && Shows(g, v) && Least(v, t) && cur in g.active && |g.active| > 1 && Known(g, cur)
    ensures Shows(Clocks.Stop(g, cur, 0), Decided(v, cur, t))
  {
    StoppedShown(g, v, cur, 0);
    DecideShown(Stopped(g, cur, 0), v, cur, t);
  }

  lemma AloneShown(g: Group, v: View, cur: int)
    requires Consistent(g) && Shows(g, v) && g.active == [cur] && Known(g, cur)
    ensures Shows(Decide(g, cur), v.(waiting := v.waiting[cur := false], told := v.told[cur := true], needed := false))
  {
    assert cur in g.active;
    var h, u := Decide(g, cur), v.(waiting := v.waiting[cur := false], told := v.told[cur := true], needed := false);
    forall x | 0 <= x < |g.clocks|
      ensures ShowsAt(h, u, x)
    {
      assert ShowsAt(g, v, x);
    }
  }

  lemma WokenShown(g: Group, v: View, t: int)
    requires Shows(g, v) && Known(g, t)
    ensures Shows(Woken(g, t), v.(waiting := v.waiting[t := false], told := v.told[t := false]))
  {
    var h, u := Woken(g, t), v.(waiting := v.waiting[t := false], told := v.told[t := false]);
    forall x | 0 <= x < |g.clocks|
      ensures ShowsAt(h, u, x)
    {
      assert ShowsAt(g, v, x);
    }
  }

  function Roused(v: View, c: int, u: int): View
    requires Wide(v) && 0 <= c < |v.clock| && 0 <= u < |v.clock|
  {
    v.(clock := v.clock[u := if v.made[u] then v.clock[u] else v.clock[c] + 1],
       waiting := v.waiting[u := false], made := v.made[u := true], active := v.active + [u])
  }

  lemma RouseStores(g: Group, c: int, u: int)
    requires Shaped(g) && -1 <= g.lowestTid < |g.clocks| && Known(g, c) && Known(g, u)
    ensures
      var e := g.clocks[u];
      var e1 := if e.initialized then e else e.(baseTicks := Clock(g, c) + 1, ticks := 0);
      && Rouse(g, c, u).clocks == g.clocks[u := Cleared(e1).(initialized := true)]
      && Rouse(g, c, u).status == g.status[c := g.status[c].(activatedLowest := false)]
      && Rouse(g, c, u).notificationNeeded == g.notificationNeeded
  {
  }

  lemma RousedShown(g: Group, v: View, c: int, u: int)
    requires Shaped(g) && -1 <= g.lowestTid < |g.clocks| && Shows(g, v) && Known(g, c) && Known(g, u)
    ensures Shows(Rouse(g, c, u), Roused(v, c, u))
  {
    RouseStores(g, c, u);
    forall x | 0 <= x < |g.clocks|
      ensures ShowsAt(Rouse(g, c, u), Roused(v, c, u), x)
    {
      assert ShowsAt(g, v, x) && ShowsAt(g, v, c) && ShowsAt(g, v, u);
    }
  }

  // Halting is a decision among the others.
  function Halted(v: View, cur: int, t: int): View
    requires Wide(v) && 0 <= cur < |v.clock| && 0 <= t < |v.clock|
  {
    var u := Decided(v.(active := Without(v.active, cur)), cur, t);
    u.(waiting := u.waiting[cur := false])
  }

  // The group on which a halting thread decides.
  function Unlisted(g: Group, cur: int): Group
    requires Known(g, cur)
  {
    Put(g, cur, g.clocks[cur].(inactive := true)).(active := Without(g.active, cur))
  }

  lemma UnlistedShown(g: Group, v: View, cur: int)
    requires Consistent(g) && Shows(g, v) && cur in g.active && Known(g, cur)
    ensures Consistent(Unlisted(g, cur)) && Shows(Unlisted(g, cur), v.(active := Without(v.active, cur)))
  {
    UnlistedConsistent(g, cur);
    forall x | 0 <= x < |g.clocks|
      ensures ShowsAt(Unlisted(g, cur), v.(active := Without(v.active, cur)), x)
    {
      assert ShowsAt(g, v, x);
    }
  }

  lemma HaltIsDecision(g: Group, cur: int)
    requires Consistent(g) && cur in g.active && Known(g, cur) && Consistent(Unlisted(g, cur))
    ensures
      var h := Decide(Unlisted(g, cur), cur);
      Known(h, cur) && Clocks.Halt(g, cur) == Put(h, cur, h.clocks[cur].(waiting := false))
  {
  }

  lemma StoodDownShown(h: Group, u: View, cur: int)
    requires Shows(h, u) && Known(h, cur)
    ensures Shows(Put(h, cur, h.clocks[cur].(waiting := false)), u.(waiting := u.waiting[cur := false]))
  {
    var k, v := Put(h, cur, h.clocks[cur].(waiting := false)), u.(waiting := u.waiting[cur := false]);
    forall x | 0 <= x < |h.clocks|
      ensures ShowsAt(k, v, x)
    {
      assert ShowsAt(h, u, x);
    }
  }

  lemma HaltShown(g: Group, v: View, cur: int, t: int)
    requires Consistent(g) && Shows(g, v) && cur in g.active && Known(g, cur) && t != cur
    requires Least(v.(active := Without(v.active, cur)), t)
    ensures Shows(Clocks.Halt(g, cur), Halted(v, cur, t))
  {
    UnlistedShown(g, v, cur);
    HaltIsDecision(g, cur);
    DecideShown(Unlisted(g, cur), v.(active := Without(v.active, cur)), cur, t);
    StoodDownShown(Decide(Unlisted(g, cur), cur), Decided(v.(active := Without(v.active, cur)), cur, t), cur);
  }

  predicate Under(v: View, u: int, x: int)
    requires Wide(v) && 0 <= u < |v.clock| && 0 <= x < |v.clock|
  {
    v.clock[u] < v.clock[x] || (v.clock[u] == v.clock[x] && u < x)
  }

  lemma FlagShown(g: Group, v: View, c: int, u: int)
    requires Consistent(g) && Shows(g, v) && Known(g, c) && Known(g, u) && v.made[u]
    ensures RaisesFlag(g, c, u) <==> v.low < 0 || Under(v, u, v.low)
  {
    assert ShowsAt(g, v, c) && ShowsAt(g, v, u);
    if v.low >= 0 {
      assert ShowsAt(g, v, v.low);
    }
  }

  // ---- runs that grow at the end ----

  lemma {:induction false} FollowsMore<S, L>(p: D.Program<S, L>, c: Process<S, L>, acts: seq<Action>, a: Action)
    requires Formed(c) && Follows(p, c, acts)
    requires
      var d := Outcomes(p, c, acts);
      CanAct(d.w, a) && Obeys(p, d, a)
    ensures Follows(p, c, acts + [a]) && Outcomes(p, c, acts + [a]) == Next(p, Outcomes(p, c, acts), a)
    decreases |acts|
  {
    if acts == [] {
      assert acts + [a] == [a];
    } else {
      assert (acts + [a])[1..] == acts[1..] + [a];
      FollowsMore(p, Next(p, c, acts[0]), acts[1..], a);
    }
  }

  lemma {:induction false} HarmlessMore(w: World, acts: seq<Action>, a: Action)
    requires HarmlessRun(w, acts) && CanAct(AfterRun(w, acts), a) && Harmless(AfterRun(w, acts), a)
    ensures HarmlessRun(w, acts + [a]) && AfterRun(w, acts + [a]) == Act(AfterRun(w, acts), a)
    decreases |acts|
  {
    if acts == [] {
      assert acts + [a] == [a];
    } else {
      assert (acts + [a])[1..] == acts[1..] + [a];
      HarmlessMore(Act(w, acts[0]), acts[1..], a);
    }
  }

  lemma {:induction false} OrderMore(acts: seq<Action>, a: Action)
    ensures Order(acts + [a]) == Order(acts) + Taken(a)
    decreases |acts|
  {
    if acts == [] {
      assert acts + [a] == [a];
    } else {
      assert (acts + [a])[1..] == acts[1..] + [a];
      OrderMore(acts[1..], a);
    }
  }

  // ---- scenes ----

  // All that matters of a process of three threads of which none sleeps, counts
  // or has work between its operations.
  datatype Scene = Scene(v: View, token: int, counter: nat, phase: seq<Phase>, local: seq<int>, done: Effect)

  predicate Sound(sc: Scene) {
    && Wide(sc.v) && |sc.v.clock| == |sc.phase| == |sc.local| == 3
    && forall t :: t in sc.v.active ==> 0 <= t < 3
  }

  type Play = D.Program<int, int>

  ghost predicate Looks(c: Process<int, int>, sc: Scene) {
    && Sound(sc) && Formed(c) && Fits(c.w) && Shows(c.w.g, sc.v)
    && c.w.token == sc.token && c.w.counter == sc.counter && c.w.phase == sc.phase && c.w.queued == NONE
    && c.shared == 0 && c.left == [0, 0, 0] && c.local == sc.local && c.done == sc.done
  }

  // An action of thread cur, with the thread that is the least where the kernel
  // decides.
  datatype Cue =
    | Alone(cur: int)
    | Enter(cur: int, t: int)
    | Ask(cur: int, t: int)
    | Tick(cur: int, n: nat, t: int)
    | Create(cur: int, u: int)
    | Post(cur: int, u: int)
    | Quit(cur: int, t: int)
    | Look(cur: int)
    | Swap(cur: int)
    | Compare(cur: int, again: bool)
    | Give(cur: int)

  function ActionOf(q: Cue): Action {
    match q
    case Alone(cur) => BeginSync(cur, 0)
    case Enter(cur, _) => BeginSync(cur, 0)
    case Ask(cur, _) => Sys(Step.Wait(cur))
    case Tick(cur, n, _) => Sys(Step.AddTicks(cur, n))
    case Create(cur, u) => Spawn(cur, u)
    case Post(cur, u) => Signal(cur, u)
    case Quit(cur, _) => HaltSelf(cur)
    case Look(cur) => Observe(cur)
    case Swap(cur) => Cas(cur)
    case Compare(cur, again) => Check(cur, again)
    case Give(cur) => Release(cur)
  }

  // What the program says the operation of cur does.
  function Said(p: Play, sc: Scene, cur: int): D.Outcome<int, int>
    requires Sound(sc) && 0 <= cur < 3
  {
    p.sync(0, cur, sc.v.clock[cur] - sc.done.ticks, sc.local[cur])
  }

  predicate AsSaid(p: Play, sc: Scene, cur: int)
    requires Sound(sc) && 0 <= cur < 3
  {
    var o := Said(p, sc, cur);
    && o.shared == 0 && o.ticks == sc.done.ticks && o.halts == sc.done.halts && o.wakes == sc.done.wakes
    && o.births.Keys == sc.done.births.Keys && p.work(o.local) == 0
    && forall u :: u in o.births ==> o.births[u].ticks == sc.done.births[u] && p.work(o.births[u].local) == 0
  }

  predicate CanCue(p: Play, sc: Scene, q: Cue) {
    && Sound(sc) && 0 <= q.cur < 3 && (q.cur in sc.v.active || sc.phase[q.cur].Leave?)
    && match q
       case Alone(cur) => sc.v.active == [cur] && sc.phase[cur].Run?
       case Enter(cur, t) => sc.phase[cur].Run? && Least(sc.v, t) && |sc.v.active| > 1
       case Ask(cur, t) => sc.phase[cur].Spin? && Least(sc.v, t) && |sc.v.active| > 1
       case Tick(cur, n, t) => sc.phase[cur].Hold? && Least(Later(sc.v, cur, n), t) && |sc.v.active| > 1
       case Create(cur, u) =>
         sc.phase[cur] == Hold(true) && 0 <= u < 3 && sc.phase[u].Off? && u !in sc.v.active && !sc.v.made[u]
       case Post(cur, u) =>
         && sc.phase[cur] == Hold(false) && sc.v.low < 3
         && 0 <= u < 3 && sc.phase[u].Off? && u !in sc.v.active && sc.v.made[u]
       case Quit(cur, t) =>
         sc.phase[cur] == Hold(false) && t != cur && Least(sc.v.(active := Without(sc.v.active, cur)), t)
       case Look(cur) => sc.phase[cur].Spin? && sc.v.told[cur]
       case Swap(cur) => sc.phase[cur] == Seen(sc.counter) && sc.token == FREE
       case Compare(cur, _) => sc.phase[cur] == Cased(sc.counter)
       case Give(cur) => (sc.phase[cur].Hold? || sc.phase[cur].Leave?) && AsSaid(p, sc, cur)
  }

  // A signal is harmless if nobody above u has been told and not looked.
  predicate Gentle(sc: Scene, q: Cue)
    requires Sound(sc)
  {
    q.Post? && 0 <= q.u < 3 ==>
      forall x :: 0 <= x < 3 && sc.phase[x].Spin? && sc.v.told[x] ==> !Under(sc.v, q.u, x)
  }

  function Cued(p: Play, sc: Scene, q: Cue): Scene
    requires CanCue(p, sc, q)
  {
    match q
    case Alone(cur) =>
      sc.(v := sc.v.(waiting := sc.v.waiting[cur := false], told := sc.v.told[cur := true], needed := false),
          phase := sc.phase[cur := Spin])
    case Enter(cur, t) => sc.(v := Decided(sc.v, cur, t), phase := sc.phase[cur := Spin])
    case Ask(cur, t) => sc.(v := Decided(sc.v, cur, t))
    case Tick(cur, n, t) =>
      sc.(v := Decided(Later(sc.v, cur, n), cur, t), done := sc.done.(ticks := sc.done.ticks + n))
    case Create(cur, u) =>
      sc.(v := Roused(sc.v, cur, u), phase := sc.phase[u := Spin],
          done := sc.done.(births := sc.done.births[u := sc.done.ticks]))
    case Post(cur, u) =>
      sc.(v := Roused(sc.v, cur, u), phase := sc.phase[u := Spin],
          counter := if sc.v.low < 0 || Under(sc.v, u, sc.v.low) then sc.counter + 1 else sc.counter,
          done := sc.done.(wakes := sc.done.wakes + {u}))
    case Quit(cur, t) =>
      sc.(v := Halted(sc.v, cur, t), phase := sc.phase[cur := Leave], done := sc.done.(halts := true))
    case Look(cur) =>
      sc.(v := sc.v.(waiting := sc.v.waiting[cur := false], told := sc.v.told[cur := false]),
          phase := sc.phase[cur := Seen(sc.counter)])
    case Swap(cur) => sc.(token := cur, phase := sc.phase[cur := Cased(sc.counter)])
    case Compare(cur, again) => sc.(phase := sc.phase[cur := Hold(again)])
    case Give(cur) =>
      var o := Said(p, sc, cur);
      sc.(token := FREE, local := Locals(sc.local, o.births)[cur := o.local], done := NOTHING,
          phase := sc.phase[cur := match sc.phase[cur] case Hold(true) => Spin case Hold(false) => Run case _ => Off])
  }

  // q does to a process that looks like sc what it does to sc.
  ghost predicate Agrees(p: Play, c: Process<int, int>, sc: Scene, q: Cue) {
    && Looks(c, sc) && CanCue(p, sc, q)
    && var a := ActionOf(q);
    CanAct(c.w, a) && Obeys(p, c, a) && Looks(Next(p, c, a), Cued(p, sc, q))
  }

  lemma AskAgrees(p: Play, c: Process<int, int>, sc: Scene, cur: int, t: int)
    requires Good(c.w) && Looks(c, sc) && CanCue(p, sc, Ask(cur, t))
    ensures Agrees(p, c, sc, Ask(cur, t))
  {
    DecideShown(c.w.g, sc.v, cur, t);
    StepKeepsConsistent(c.w.g, Step.Wait(cur));
  }

  lemma TickAgrees(p: Play, c: Process<int, int>, sc: Scene, cur: int, n: nat, t: int)
    requires Good(c.w) && Looks(c, sc) && CanCue(p, sc, Tick(cur, n, t))
    ensures Agrees(p, c, sc, Tick(cur, n, t))
  {
    AddShown(c.w.g, sc.v, cur, n, t);
    StepKeepsConsistent(c.w.g, Step.AddTicks(cur, n));
  }

  lemma QuitAgrees(p: Play, c: Process<int, int>, sc: Scene, cur: int, t: int)
    requires Good(c.w) && Looks(c, sc) && CanCue(p, sc, Quit(cur, t))
    ensures Agrees(p, c, sc, Quit(cur, t))
  {
    HaltShown(c.w.g, sc.v, cur, t);
    StepKeepsConsistent(c.w.g, Step.Halt(cur));
  }

  // A thread stops its clock, whatever the decision is.
  lemma BeginLooks(p: Play, c: Process<int, int>, sc: Scene, cur: int, u: View)
    requires Good(c.w) && Looks(c, sc) && 0 <= cur < 3 && cur in sc.v.active && sc.phase[cur].Run?
    requires u.active == sc.v.active && Shows(Clocks.Stop(c.w.g, cur, 0), u)
    ensures CanAct(c.w, BeginSync(cur, 0)) && Obeys(p, c, BeginSync(cur, 0))
    ensures Looks(Next(p, c, BeginSync(cur, 0)), sc.(v := u, phase := sc.phase[cur := Spin]))
  {
    assert ShowsAt(c.w.g, sc.v, cur);
    StepKeepsConsistent(c.w.g, Step.Stop(cur, 0));
  }

  lemma AloneAgrees(p: Play, c: Process<int, int>, sc: Scene, cur: int)
    requires Good(c.w) && Looks(c, sc) && CanCue(p, sc, Alone(cur))
    ensures Agrees(p, c, sc, Alone(cur))
  {
    StoppedShown(c.w.g, sc.v, cur, 0);
    AloneShown(Stopped(c.w.g, cur, 0), sc.v, cur);
    BeginLooks(p, c, sc, cur, Cued(p, sc, Alone(cur)).v);
  }

  lemma EnterAgrees(p: Play, c: Process<int, int>, sc: Scene, cur: int, t: int)
    requires Good(c.w) && Looks(c, sc) && CanCue(p, sc, Enter(cur, t))
    ensures Agrees(p, c, sc, Enter(cur, t))
  {
    StopShown(c.w.g, sc.v, cur, t);
    BeginLooks(p, c, sc, cur, Decided(sc.v, cur, t));
  }

  lemma CreateAgrees(p: Play, c: Process<int, int>, sc: Scene, cur: int, u: int)
    requires Good(c.w) && Looks(c, sc) && CanCue(p, sc, Create(cur, u))
    ensures Agrees(p, c, sc, Create(cur, u))
  {
    assert ShowsAt(c.w.g, sc.v, u);
    RousedShown(c.w.g, sc.v, cur, u);
  }

  lemma PostAgrees(p: Play, c: Process<int, int>, sc: Scene, cur: int, u: int)
    requires Good(c.w) && Looks(c, sc) && CanCue(p, sc, Post(cur, u))
    ensures Agrees(p, c, sc, Post(cur, u))
  {
    assert ShowsAt(c.w.g, sc.v, u);
    RousedShown(c.w.g, sc.v, cur, u);
    FlagShown(c.w.g, sc.v, cur, u);
  }

  // The steps of __getToken and the release need nothing but the looks.
  lemma TokenAgrees(p: Play, c: Process<int, int>, sc: Scene, q: Cue)
    requires Looks(c, sc) && CanCue(p, sc, q) && (q.Look? || q.Swap? || q.Compare?)
    ensures Agrees(p, c, sc, q)
  {
    if q.Look? {
      assert ShowsAt(c.w.g, sc.v, q.cur);
      WokenShown(c.w.g, sc.v, q.cur);
    }
  }

  lemma GiveAgrees(p: Play, c: Process<int, int>, sc: Scene, cur: int)
    requires Looks(c, sc) && CanCue(p, sc, Give(cur))
    ensures Agrees(p, c, sc, Give(cur))
  {
    assert ShowsAt(c.w.g, sc.v, cur);
    assert Outcome(p, c, cur) == Said(p, sc, cur);
  }

  predicate Plain(q: Cue) {
    q.Look? || q.Swap? || q.Compare? || q.Give?
  }

  lemma CueAgrees(p: Play, c: Process<int, int>, sc: Scene, q: Cue)
    requires Looks(c, sc) && CanCue(p, sc, q) && (Plain(q) || Good(c.w))
    ensures Agrees(p, c, sc, q)
  {
    match q
    case Alone(cur) => AloneAgrees(p, c, sc, cur);
    case Enter(cur, t) => EnterAgrees(p, c, sc, cur, t);
    case Ask(cur, t) => AskAgrees(p, c, sc, cur, t);
    case Tick(cur, n, t) => TickAgrees(p, c, sc, cur, n, t);
    case Create(cur, u) => CreateAgrees(p, c, sc, cur, u);
    case Post(cur, u) => PostAgrees(p, c, sc, cur, u);
    case Quit(cur, t) => QuitAgrees(p, c, sc, cur, t);
    case Give(cur) => GiveAgrees(p, c, sc, cur);
    case _ => TokenAgrees(p, c, sc, q);
  }

  lemma GentleHarmless(p: Play, c: Process<int, int>, sc: Scene, q: Cue)
    requires Agrees(p, c, sc, q) && Gentle(sc, q)
    ensures Harmless(c.w, ActionOf(q))
  {
    if q.Post? {
      forall x | 0 <= x < 3 && c.w.phase[x].Spin? && c.w.g.status[x].lowestClock
        ensures !Lower(c.w.g, q.u, x)
      {
        assert ShowsAt(c.w.g, sc.v, q.u) && ShowsAt(c.w.g, sc.v, x);
      }
    }
  }

  // ---- runs through scenes ----

  // A run of p leads to c, which looks like sc; if `clean`, a harmless one.
  ghost predicate Staged(p: Play, log: seq<int>, sc: Scene, clean: bool, acts: seq<Action>, c: Process<int, int>) {
    && Executes(p, 3, 0, 0, acts) && Outcomes(p, Begin(p, 3, 0, 0), acts) == c
    && Order(acts) == log && Looks(c, sc)
    && (clean ==> HarmlessRun(Start(3), acts) && AfterRun(Start(3), acts) == c.w && Good(c.w))
  }

  ghost predicate Reached(p: Play, log: seq<int>, sc: Scene, clean: bool) {
    exists acts, c :: Staged(p, log, sc, clean, acts, c)
  }

  function Logged(log: seq<int>, q: Cue): seq<int> {
    if q.Compare? then log + [q.cur] else log
  }

  lemma StaysHarmless(p: Play, sc: Scene, acts: seq<Action>, c: Process<int, int>, q: Cue)
    requires Good(c.w) && HarmlessRun(Start(3), acts) && AfterRun(Start(3), acts) == c.w
    requires Agrees(p, c, sc, q) && Gentle(sc, q)
    ensures
      var w := Act(c.w, ActionOf(q));
      HarmlessRun(Start(3), acts + [ActionOf(q)]) && AfterRun(Start(3), acts + [ActionOf(q)]) == w && Good(w)
  {
    GentleHarmless(p, c, sc, q);
    HarmlessMore(Start(3), acts, ActionOf(q));
    ActionKeeps(c.w, ActionOf(q));
  }

  lemma Extend(p: Play, log: seq<int>, sc: Scene, clean: bool, acts: seq<Action>, c: Process<int, int>, q: Cue)
    requires Staged(p, log, sc, clean, acts, c) && Agrees(p, c, sc, q) && (clean ==> Gentle(sc, q))
    ensures Staged(p, Logged(log, q), Cued(p, sc, q), clean, acts + [ActionOf(q)], Next(p, c, ActionOf(q)))
  {
    FollowsMore(p, Begin(p, 3, 0, 0), acts, ActionOf(q));
    OrderMore(acts, ActionOf(q));
    assert log + Taken(ActionOf(q)) == Logged(log, q);
    if clean {
      StaysHarmless(p, sc, acts, c, q);
    }
  }

  lemma CueReached(p: Play, log: seq<int>, sc: Scene, clean: bool, q: Cue)
    requires Reached(p, log, sc, clean) && CanCue(p, sc, q)
    requires if clean then Gentle(sc, q) else Plain(q)
    ensures Reached(p, Logged(log, q), Cued(p, sc, q), clean)
  {
    var acts, c :| Staged(p, log, sc, clean, acts, c);
    CueAgrees(p, c, sc, q);
    Extend(p, log, sc, clean, acts, c, q);
  }

  // Through __getToken.
  function Passed(sc: Scene, cur: int, again: bool): Scene
    requires Sound(sc) && 0 <= cur < 3
  {
    sc.(v := sc.v.(waiting := sc.v.waiting[cur := false], told := sc.v.told[cur := false]),
        token := cur, phase := sc.phase[cur := Hold(again)])
  }

  lemma PassCues(p: Play, sc: Scene, cur: int, again: bool)
    requires CanCue(p, sc, Look(cur)) && sc.token == FREE
    ensures
      var s1 := Cued(p, sc, Look(cur));
      CanCue(p, s1, Swap(cur)) &&
      var s2 := Cued(p, s1, Swap(cur));
      CanCue(p, s2, Compare(cur, again)) && Cued(p, s2, Compare(cur, again)) == Passed(sc, cur, again)
  {
  }

  lemma PassReached(p: Play, log: seq<int>, sc: Scene, clean: bool, cur: int, again: bool)
    requires Reached(p, log, sc, clean) && CanCue(p, sc, Look(cur)) && sc.token == FREE
    ensures Reached(p, log + [cur], Passed(sc, cur, again), clean)
  {
    PassCues(p, sc, cur, again);
    var s1 := Cued(p, sc, Look(cur));
    var s2 := Cued(p, s1, Swap(cur));
    CueReached(p, log, sc, clean, Look(cur));
    CueReached(p, log, s1, clean, Swap(cur));
    CueReached(p, log, s2, clean, Compare(cur, again));
  }

  // A signal that may do harm.
  lemma HarmReached(p: Play, log: seq<int>, sc: Scene, q: Cue)
    requires Reached(p, log, sc, true) && CanCue(p, sc, q)
    ensures Reached(p, Logged(log, q), Cued(p, sc, q), false)
  {
    var acts, c :| Staged(p, log, sc, true, acts, c);
    CueAgrees(p, c, sc, q);
    assert Staged(p, log, sc, false, acts, c);
    Extend(p, log, sc, false, acts, c, q);
  }

  // Thread 0 alone, before its first operation.
  function First(): Scene {
    Scene(View([0, 0, 0], [false, false, false], [false, false, false], [true, false, false], [0], 0, false),
          FREE, 0, [Run, Off, Off], [0, 0, 0], NOTHING)
  }

  lemma FirstReached(p: Play)
    requires p.work(0) == 0
    ensures Reached(p, [], First(), true)
  {
    StartGood(3);
    var c := Begin(p, 3, 0, 0);
    forall t | 0 <= t < 3
      ensures ShowsAt(c.w.g, First().v, t)
    {
    }
    assert Staged(p, [], First(), true, [], c);
  }
}
