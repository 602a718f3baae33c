// The token protocol: the kernel's clock group, the single token, the
// activation counter and the place every thread has reached in its
// synchronization operation (src/thread_lib/include/determ.h,
// src/logical_clock/lib/determ_clock.c).
//
// The promise of the protocol is that a thread leaves __getToken with the
// token only while it is the least active thread. It is proved for every run,
// up to two kinds of step whose exact conditions are given by Harmless: where
// one of them is violated, the run can be continued to an acquisition by a
// thread that is not the least.
module TokenProtocol {
  import opened ListArrays
  import opened Clocks
  import opened Grants

  // Where a thread stands.
  //  Run      outside __getToken, clock possibly counting
  //  Spin     in the spin loop of __getToken
  //  Poll     in determ_task_clock_is_lowest_wait, with its snapshot of the counter
  //  Seen     told it is the lowest, spinning until the token is free
  //  Cased    swapped itself into the token, snapshot not yet compared
  //  Hold     holds the token; `again` if this section is followed by another
  //           __getToken without restarting the clock, as in spawn
  //  Leave    holds the token and has halted its clock
  //  Off      halted or never started
  datatype Phase =
    | Run | Spin | Poll(snap: nat) | Seen(snap: nat) | Cased(snap: nat)
    | Hold(again: bool) | Leave | Off

  const FREE := -1

  const NONE := -1

  // `queued` is the thread whose processor has the group's one deferred
  // notification to run, or none; `bare` says that the holder has done nothing yet
  // since it took the token.
  datatype World = World(g: Group, token: int, counter: nat, phase: seq<Phase>, queued: int, bare: bool)

  datatype Action =
    | Sys(s: Step)
    | BeginSync(t: int, n: nat)
    | GoPoll(t: int)
    | Observe(t: int)
    | Cas(t: int)
    | Check(t: int, again: bool)
    | Fail(t: int)
    | Spawn(t: int, u: int)
    | Signal(t: int, u: int)
    | Broadcast(t: int, us: seq<int>)
    | HaltSelf(t: int)
    | Release(t: int)
    | JoinReturn(t: int, p: int)
    | BarrierReturn(t: int, ps: seq<int>)

  predicate Fits(w: World) {
    Shaped(w.g) && |w.phase| == |w.g.clocks| && -1 <= w.g.lowestTid < |w.phase| && NONE <= w.queued < |w.phase|
  }

  // The system calls a thread makes without moving on in its operation.
  predicate SysAllowed(w: World, s: Step)
    requires Fits(w)
  {
    Grants.Enabled(w.g, s) && (!s.Notify? ==> Known(w.g, s.t)) &&
    match s
    case AddTicks(t, _) => w.phase[t].Hold?
    case Disable(t, _) => w.phase[t].Hold?
    case Enable(t) => w.phase[t].Run?
    case EntryInit(t) => w.phase[t].Run? || w.phase[t].Spin?
    case Overflow(t, _) => w.phase[t].Run?
    case OverflowCheck(t) => w.phase[t].Run?
    case Forget(t) => w.phase[t].Run? || w.phase[t].Spin?
    case Wait(t) => w.phase[t].Spin? || w.phase[t].Poll?
    case Sleep(t) => w.phase[t].Poll?
    case Reset(t) => w.phase[t].Leave?
    case Notify => w.queued != NONE
    case _ => false
  }

  predicate Sleeper(w: World, u: int)
    requires Fits(w)
  {
    Known(w.g, u) && w.phase[u].Off? && u !in w.g.active && w.g.clocks[u].initialized
  }

  predicate Distinct(us: seq<int>) {
    forall i, j :: 0 <= i < j < |us| ==> us[i] != us[j]
  }

  predicate CanAct(w: World, a: Action) {
    Fits(w) &&
    (a.Sys? || (Known(w.g, a.t) && (w.phase[a.t].Hold? ==> a.t in w.g.active))) &&
    match a
    case Sys(s) => SysAllowed(w, s)
    case BeginSync(t, n) => w.phase[t].Run? && t in w.g.active
    case GoPoll(t) => w.phase[t].Spin? && !w.g.status[t].lowestClock
    case Observe(t) =>
      (w.phase[t].Spin? && w.g.status[t].lowestClock) || (w.phase[t].Poll? && Told(w.g, t))
    case Cas(t) => w.phase[t].Seen? && w.token == FREE
    case Check(t, _) => w.phase[t].Cased? && w.phase[t].snap == w.counter && w.queued != t
    case Fail(t) => w.phase[t].Cased? && w.phase[t].snap != w.counter
    case Spawn(t, u) =>
      w.phase[t] == Hold(true) && Known(w.g, u) && w.phase[u].Off? && u !in w.g.active && !w.g.clocks[u].initialized
    case Signal(t, u) => w.phase[t] == Hold(false) && Sleeper(w, u)
    case Broadcast(t, us) => w.phase[t] == Hold(false) && Distinct(us) && forall u :: u in us ==> Sleeper(w, u)
    case HaltSelf(t) => w.phase[t] == Hold(false)
    case Release(t) => w.phase[t].Hold? || w.phase[t].Leave?
    case JoinReturn(t, p) => w.phase[t] == Hold(false) && Sleeper(w, p)
    case BarrierReturn(t, ps) =>
      w.phase[t] == Hold(false) && w.bare && Distinct(ps) && forall p :: p in ps ==> Sleeper(w, p)
  }

  function At(w: World, t: int, p: Phase): World
    requires 0 <= t < |w.phase|
  {
    w.(phase := w.phase[t := p])
  }

  function AllAt(w: World, us: seq<int>, p: Phase): World {
    w.(phase := seq(|w.phase|, i requires 0 <= i < |w.phase| => if i in us then p else w.phase[i]))
  }

  // The wrapper determ_task_clock_activate_other reads and resets the flag.
  function Rouse(g: Group, c: int, u: int): (h: Group)
    requires Shaped(g) && Known(g, c) && Known(g, u) && -1 <= g.lowestTid < |g.clocks|
    ensures Shaped(h) && |h.clocks| == |g.clocks| && h.lowestTid == g.lowestTid
    ensures h.active == g.active + [u]
  {
    var h := Clocks.ActivateOther(g, c, u);
    PutStatus(h, c, h.status[c].(activatedLowest := false))
  }

  predicate RaisesFlag(g: Group, c: int, u: int)
    requires Shaped(g) && Known(g, c) && Known(g, u) && -1 <= g.lowestTid < |g.clocks|
  {
    Clocks.ActivateOther(g, c, u).status[c].activatedLowest
  }

  function RouseAll(g: Group, c: int, us: seq<int>): (h: Group)
    requires Shaped(g) && Known(g, c) && -1 <= g.lowestTid < |g.clocks|
    requires forall u :: u in us ==> 0 <= u < |g.clocks|
    ensures Shaped(h) && |h.clocks| == |g.clocks| && h.lowestTid == g.lowestTid
    ensures h.active == g.active + us
    decreases |us|
  {
    if us == [] then g
    else
      assert us[0] in us && forall u :: u in us[1..] ==> u in us;
      RouseAll(Rouse(g, c, us[0]), c, us[1..])
  }

  // determ_task_clock_activate: forget any grant, then rejoin.
  function Return(g: Group, p: int): (h: Group)
    requires Shaped(g) && Known(g, p) && -1 <= g.lowestTid < |g.clocks|
    ensures Shaped(h) && |h.clocks| == |g.clocks| && -1 <= h.lowestTid < |h.clocks|
    ensures h.active == g.active + [p]
  {
    Clocks.Activate(Clocks.Forget(g, p), p)
  }

  function ReturnAll(g: Group, ps: seq<int>): (h: Group)
    requires Shaped(g) && -1 <= g.lowestTid < |g.clocks|
    requires forall p :: p in ps ==> 0 <= p < |g.clocks|
    ensures Shaped(h) && |h.clocks| == |g.clocks| && -1 <= h.lowestTid < |h.clocks|
    ensures h.active == g.active + ps
    decreases |ps|
  {
    if ps == [] then g
    else
      assert ps[0] in ps && forall p :: p in ps[1..] ==> p in ps;
      ReturnAll(Return(g, ps[0]), ps[1..])
  }

  // __woke_up, and the end of the poll
  function Woken(g: Group, t: int): Group
    requires Known(g, t)
  {
    var h := Clocks.WokeUp(g, t);
    PutStatus(h, t, h.status[t].(lowestClock := false, polled := false))
  }

  // The overflow handler queues the notification when it raises its flag. There is
  // one work item, so while it is queued it is not queued again; running it takes
  // it off.
  function Queued(w: World, s: Step): int
    requires Fits(w) && Grants.Enabled(w.g, s)
  {
    if s.Notify? then NONE
    else if s.OverflowCheck? && w.queued == NONE && !w.g.nmiNewLow && Apply(w.g, s).nmiNewLow then s.t
    else w.queued
  }

  function Act(w: World, a: Action): World
    requires CanAct(w, a)
  {
    match a
    case Sys(s) => w.(g := Apply(w.g, s), queued := Queued(w, s), bare := w.bare && !s.AddTicks? && !s.Disable?)
    case BeginSync(t, n) => At(w.(g := Clocks.Stop(w.g, t, n)), t, Spin)
    case GoPoll(t) => At(w, t, Poll(w.counter))
    case Observe(t) =>
      At(w.(g := Woken(w.g, t)), t, Seen(if w.phase[t].Spin? then w.counter else w.phase[t].snap))
    case Cas(t) => At(w.(token := t), t, Cased(w.phase[t].snap))
    case Check(t, again) => At(w.(bare := true), t, Hold(again))
    case Fail(t) => At(w.(g := Clocks.Forget(w.g, t), token := FREE), t, Spin)
    case Spawn(t, u) => At(w.(g := Rouse(w.g, t, u), bare := false), u, Spin)
    case Signal(t, u) =>
      var moved := if RaisesFlag(w.g, t, u) then w.counter + 1 else w.counter;
      At(w.(g := Rouse(w.g, t, u), counter := moved, bare := false), u, Spin)
    case Broadcast(t, us) =>
      AllAt(w.(g := RouseAll(w.g, t, us), counter := w.counter + 1, bare := false), us, Spin)
    case HaltSelf(t) => At(w.(g := Clocks.Halt(w.g, t)), t, Leave)
    case Release(t) =>
      At(w.(token := FREE), t, match w.phase[t] case Hold(true) => Spin case Hold(false) => Run case _ => Off)
    case JoinReturn(t, p) => At(w.(g := Return(w.g, p), bare := false), p, Spin)
    case BarrierReturn(t, ps) =>
      AllAt(w.(g := ReturnAll(w.g, ps), counter := w.counter + 1, bare := false), ps, Run)
  }

  // ---- the invariant ----

  // t can still walk through __getToken on the grant it has: the flag it will
  // see, or the snapshot it will compare, is good.
  predicate Armed(w: World, t: int)
    requires Fits(w) && Known(w.g, t)
  {
    match w.phase[t]
    case Spin => w.g.status[t].lowestClock
    case Poll(snap) => Told(w.g, t) && snap == w.counter
    case Seen(snap) => snap == w.counter
    case Cased(snap) => snap == w.counter
    case Hold(again) => again && w.g.status[t].lowestClock
    case _ => false
  }

  predicate OthersHold(w: World, t: int) {
    exists y :: 0 <= y < |w.phase| && y != t && w.phase[y].Hold?
  }

  // A grant still in force: t is the least thread, and if another thread is in
  // a position to activate threads, lowest_tid would catch a displacement.
  ghost predicate Backed(w: World, t: int)
    requires Fits(w)
  {
    IsLeast(w.g, t) && (w.g.lowestTid == t || w.g.lowestTid == -1 || !OthersHold(w, t))
  }

  predicate Owns(p: Phase) { p.Cased? || p.Hold? || p.Leave? }

  predicate Snapped(p: Phase) { p.Poll? || p.Seen? || p.Cased? }

  ghost predicate PlaceOk(w: World, t: int)
    requires Fits(w) && Known(w.g, t)
  {
    && (t in w.g.active <==> !w.phase[t].Off? && !w.phase[t].Leave?)
    && (w.token == t <==> Owns(w.phase[t]))
    && (Told(w.g, t) ==> !w.phase[t].Off? && !w.phase[t].Leave?)
    && (w.g.status[t].polled ==> w.phase[t].Poll?)
    && (w.g.clocks[t].sleeping ==> w.phase[t].Poll?)
    && (Snapped(w.phase[t]) ==> w.phase[t].snap <= w.counter)
  }

  ghost predicate Placed(w: World) {
    && Fits(w) && Consistent(w.g) && -1 <= w.token < |w.phase|
    && forall t :: 0 <= t < |w.phase| ==> PlaceOk(w, t)
  }

  ghost predicate Safe(w: World)
    requires Fits(w)
  {
    forall t :: 0 <= t < |w.phase| && Armed(w, t) ==> Backed(w, t)
  }

  // ---- what one action leaves alone ----

  // From g to h nothing was taken from x: it is where it was, it is told only
  // if it is the least, and its claim to be the least is intact.
  ghost predicate Kept(g: Group, h: Group, x: int)
    requires Shaped(g) && Shaped(h)
  {
    && Known(g, x) && Known(h, x)
    && (x in h.active <==> x in g.active)
    && (IsLeast(g, x) ==> IsLeast(h, x) && h.lowestTid in {g.lowestTid, -1, x})
    && (Told(h, x) ==> Told(g, x) || (IsLeast(h, x) && h.lowestTid == x))
    && (h.status[x].polled ==> g.status[x].polled || g.clocks[x].sleeping)
    && h.clocks[x].sleeping == g.clocks[x].sleeping
  }

  lemma OtherStep(w: World, v: World, x: int)
    requires Fits(w) && Fits(v) && |v.phase| == |w.phase|
    requires 0 <= x < |w.phase| && PlaceOk(w, x) && (Armed(w, x) ==> Backed(w, x))
    requires v.phase[x] == w.phase[x] && v.counter >= w.counter
    requires v.token == x <==> w.token == x
    requires Kept(w.g, v.g, x)
    requires forall y :: 0 <= y < |w.phase| && v.phase[y].Hold? ==> w.phase[y].Hold?
    ensures PlaceOk(v, x) && (Armed(v, x) ==> Backed(v, x))
  {
  }

  // A store to c's own entry and page that leaves its clock alone.
  lemma OwnStoreKept(g: Group, h: Group, c: int, x: int)
    requires Consistent(g) && Known(g, c) && Known(h, c) && Known(g, x) && x != c
    requires h.clocks == g.clocks[c := h.clocks[c]] && h.status == g.status[c := h.status[c]]
    requires h.active == g.active && h.lowestTid == g.lowestTid
    requires Clock(h, c) >= Clock(g, c)
    ensures Shaped(h) && Kept(g, h, x)
  {
    if IsLeast(g, x) {
      EntryLeast(g, c, h, x);
    }
  }

  // A kernel step that puts no one on the list keeps every other thread.
  lemma StepKept(g: Group, s: Step, x: int)
    requires Consistent(g) && Enabled(g, s) && Known(g, x)
    requires !s.Activate? && !s.ActivateOther? && (!s.Notify? ==> Known(g, s.t) && x != s.t)
    ensures Consistent(Apply(g, s)) && Kept(g, Apply(g, s), x)
  {
    StepKeepsConsistent(g, s);
    var h := Apply(g, s);
    if IsLeast(g, x) {
      LeastStays(g, s, x);
    }
    if Decides(s) {
      DecisionKept(g, s, x);
    } else if s.Notify? {
      NotifyFrame(g);
      SameClocksKeeps(g, h);
    } else {
      OwnStoreKept(g, h, s.t, x);
    }
  }

  lemma DecisionKept(g: Group, s: Step, x: int)
    requires Consistent(g) && Enabled(g, s) && Decides(s) && Known(g, x) && x != s.t
    ensures
      var h := Apply(g, s);
      && Shaped(h) && Known(h, x)
      && (x in h.active <==> x in g.active)
      && (Told(h, x) ==> Told(g, x) || (IsLeast(h, x) && h.lowestTid == x))
      && (h.status[x].polled ==> g.status[x].polled || g.clocks[x].sleeping)
      && h.clocks[x].sleeping == g.clocks[x].sleeping
  {
    BeforeConsistent(g, s);
    DecidingFrame(g, s);
    SameClocksKeeps(Before(g, s), Apply(g, s));
    WithoutMembers(g.active, s.t);
  }

  // ---- what an action does to its own thread ----

  lemma DeterminedSleeping(g: Group, cur: int)
    requires Shaped(g) && Known(g, cur)
    ensures Determine(g, cur).0.clocks[cur].sleeping ==> g.clocks[cur].sleeping
  {
  }

  lemma SleepingStays(g: Group, s: Step)
    requires Consistent(g) && Enabled(g, s) && Decides(s) && !s.Sleep?
    ensures Apply(g, s).clocks[s.t].sleeping ==> g.clocks[s.t].sleeping
  {
    BeforeConsistent(g, s);
    var b := Before(g, s);
    DeterminedSleeping(b, s.t);
    assert b.clocks[s.t].sleeping ==> g.clocks[s.t].sleeping;
    var r := Determine(b, s.t);
    assert Apply(g, s).clocks[s.t].sleeping ==> r.0.clocks[s.t].sleeping;
  }

  lemma OwnDecision(g: Group, s: Step)
    requires Consistent(g) && Enabled(g, s) && Decides(s) && !s.Halt?
    ensures
      var h := Apply(g, s);
      && Consistent(h) && Known(h, s.t) && s.t in h.active
      && h.status[s.t].polled == g.status[s.t].polled
      && (h.status[s.t].lowestClock ==> IsLeast(h, s.t) && (h.lowestTid == s.t || h.active == [s.t]))
      && (h.clocks[s.t].sleeping ==> g.clocks[s.t].sleeping || s.Sleep?)
  {
    StepKeepsConsistent(g, s);
    BeforeConsistent(g, s);
    DecidingFrame(g, s);
    SameClocksKeeps(Before(g, s), Apply(g, s));
    if !s.Sleep? {
      SleepingStays(g, s);
    }
  }

  // t's own grant, when it is the flag of a decision it has just made.
  lemma FlagBacked(w: World, t: int)
    requires Placed2(w) && Known(w.g, t) && IsLeast(w.g, t)
    requires w.g.lowestTid == t || w.g.active == [t]
    ensures Backed(w, t)
  {
  }

  ghost predicate Placed2(w: World) {
    Fits(w) && forall y :: 0 <= y < |w.phase| && w.phase[y].Hold? ==> y in w.g.active
  }

  lemma OwnSysDecides(w: World, s: Step)
    requires Placed(w) && Safe(w) && CanAct(w, Sys(s)) && Decides(s)
    ensures
      var v := Act(w, Sys(s));
      Fits(v) && PlaceOk(v, s.t) && (Armed(v, s.t) ==> Backed(v, s.t))
  {
    var v := Act(w, Sys(s));
    var t := s.t;
    OwnDecision(w.g, s);
    assert PlaceOk(w, t);
    if v.g.status[t].lowestClock {
      HoldersStayActive(w, s);
      FlagBacked(v, t);
    } else if Armed(v, t) {
      assert Armed(w, t);
      LeastStays(w.g, s, t);
      assert OthersHold(v, t) ==> OthersHold(w, t);
    }
  }

  lemma HoldersStayActive(w: World, s: Step)
    requires Placed(w) && CanAct(w, Sys(s)) && Decides(s)
    ensures Placed2(Act(w, Sys(s)))
  {
    StepKeepsConsistent(w.g, s);
    OwnDecision(w.g, s);
    forall y | 0 <= y < |w.phase| && w.phase[y].Hold?
      ensures y in Apply(w.g, s).active
    {
      assert PlaceOk(w, y);
      if y != s.t { StepKept(w.g, s, y); }
    }
  }

  lemma OwnSys(w: World, s: Step)
    requires Placed(w) && Safe(w) && CanAct(w, Sys(s)) && !s.Notify?
    ensures
      var v := Act(w, Sys(s));
      Fits(v) && PlaceOk(v, s.t) && (Armed(v, s.t) ==> Backed(v, s.t))
  {
    var v := Act(w, Sys(s));
    StepKeepsConsistent(w.g, s);
    assert PlaceOk(w, s.t);
    if Decides(s) {
      OwnSysDecides(w, s);
    } else if s.EntryInit? && Armed(v, s.t) {
      assert Armed(w, s.t);
      EntryLeast(w.g, s.t, v.g, s.t);
      assert OthersHold(v, s.t) ==> OthersHold(w, s.t);
    }
  }

  lemma SysKeeps(w: World, s: Step)
    requires Placed(w) && Safe(w) && CanAct(w, Sys(s))
    ensures Placed(Act(w, Sys(s))) && Safe(Act(w, Sys(s)))
  {
    var v := Act(w, Sys(s));
    StepKeepsConsistent(w.g, s);
    forall x | 0 <= x < |v.phase|
      ensures PlaceOk(v, x) && (Armed(v, x) ==> Backed(v, x))
    {
      assert PlaceOk(w, x);
      if !s.Notify? && x == s.t {
        OwnSys(w, s);
      } else {
        StepKept(w.g, s, x);
        OtherStep(w, v, x);
      }
    }
  }

  // ---- the other actions ----

  ghost predicate Good(w: World) { Placed(w) && Safe(w) }

  // An action of t that leaves the kernel state of every other thread alone,
  // lets no one new hold the token, and keeps t itself in order.
  lemma LocalKeeps(w: World, v: World, t: int)
    requires Good(w) && Fits(v) && Consistent(v.g) && |v.phase| == |w.phase| && Known(w.g, t)
    requires v.phase == w.phase[t := v.phase[t]] && (v.phase[t].Hold? ==> w.phase[t].Hold?)
    requires v.counter == w.counter && -1 <= v.token < |w.phase|
    requires forall x :: 0 <= x < |w.phase| && x != t ==> (v.token == x <==> w.token == x) && Kept(w.g, v.g, x)
    requires PlaceOk(v, t) && (Armed(v, t) ==> Backed(v, t))
    ensures Good(v)
  {
    forall x | 0 <= x < |v.phase|
      ensures PlaceOk(v, x) && (Armed(v, x) ==> Backed(v, x))
    {
      assert PlaceOk(w, x);
      if x != t {
        assert Kept(w.g, v.g, x);
        OtherStep(w, v, x);
      }
    }
  }

  lemma SameKept(g: Group, x: int)
    requires Shaped(g) && Known(g, x)
    ensures Kept(g, g, x)
  {
  }

  // Actions without a kernel effect.
  lemma QuietKeeps(w: World, a: Action)
    requires Good(w) && CanAct(w, a) && (a.GoPoll? || a.Cas? || a.Release?)
    ensures Good(Act(w, a))
  {
    var v := Act(w, a);
    var t := a.t;
    assert PlaceOk(w, t);
    forall x | 0 <= x < |w.phase| && x != t
      ensures (v.token == x <==> w.token == x) && Kept(w.g, v.g, x)
    {
      assert PlaceOk(w, x);
      SameKept(w.g, x);
    }
    if Armed(v, t) {
      assert Armed(w, t);
      assert OthersHold(v, t) ==> OthersHold(w, t);
    }
    LocalKeeps(w, v, t);
  }

  // Stores to t's own entry and page.
  lemma OwnStoreKeeps(w: World, a: Action)
    requires Good(w) && CanAct(w, a) && (a.Observe? || a.Fail?)
    ensures Good(Act(w, a))
  {
    var v := Act(w, a);
    var t := a.t;
    assert PlaceOk(w, t);
    EntryConsistent(w.g, t, v.g);
    forall x | 0 <= x < |w.phase| && x != t
      ensures (v.token == x <==> w.token == x) && Kept(w.g, v.g, x)
    {
      assert PlaceOk(w, x);
      OwnStoreKept(w.g, v.g, t, x);
    }
    if Armed(v, t) {
      assert Armed(w, t);
      EntryLeast(w.g, t, v.g, t);
      assert OthersHold(v, t) ==> OthersHold(w, t);
    }
    LocalKeeps(w, v, t);
  }

  lemma BeginKeeps(w: World, t: int, n: nat)
    requires Good(w) && CanAct(w, BeginSync(t, n))
    ensures Good(Act(w, BeginSync(t, n)))
  {
    var v := Act(w, BeginSync(t, n));
    var s := Step.Stop(t, n);
    assert PlaceOk(w, t);
    StepKeepsConsistent(w.g, s);
    OwnDecision(w.g, s);
    forall x | 0 <= x < |w.phase| && x != t
      ensures (v.token == x <==> w.token == x) && Kept(w.g, v.g, x)
    {
      assert PlaceOk(w, x);
      StepKept(w.g, s, x);
    }
    if Armed(v, t) {
      assert Placed2(v) by {
        forall y | 0 <= y < |v.phase| && v.phase[y].Hold?
          ensures y in v.g.active
        {
          assert PlaceOk(w, y) && Kept(w.g, v.g, y);
        }
      }
      FlagBacked(v, t);
    }
    LocalKeeps(w, v, t);
  }

  lemma HaltKeeps(w: World, t: int)
    requires Good(w) && CanAct(w, HaltSelf(t))
    ensures Good(Act(w, HaltSelf(t)))
  {
    var v := Act(w, HaltSelf(t));
    var s := Step.Halt(t);
    assert PlaceOk(w, t);
    StepKeepsConsistent(w.g, s);
    HaltedOwn(w.g, t);
    forall x | 0 <= x < |w.phase| && x != t
      ensures (v.token == x <==> w.token == x) && Kept(w.g, v.g, x)
    {
      assert PlaceOk(w, x);
      StepKept(w.g, s, x);
    }
    LocalKeeps(w, v, t);
  }

  lemma HaltedOwn(g: Group, t: int)
    requires Consistent(g) && t in g.active
    ensures
      var h := Clocks.Halt(g, t);
      && Known(h, t) && t !in h.active
      && !h.status[t].lowestClock && h.status[t].polled == g.status[t].polled
      && (h.clocks[t].sleeping ==> g.clocks[t].sleeping)
  {
    var s := Step.Halt(t);
    BeforeConsistent(g, s);
    DecidingFrame(g, s);
    SleepingStays(g, s);
    WithoutMembers(g.active, t);
  }

  // Passing the comparison: an armed thread takes the token. No other thread
  // can be armed, so no one relies on nobody else holding it.
  lemma CheckKeeps(w: World, t: int, again: bool)
    requires Good(w) && CanAct(w, Check(t, again))
    ensures Good(Act(w, Check(t, again)))
  {
    var v := Act(w, Check(t, again));
    assert PlaceOk(w, t) && Armed(w, t) && Backed(w, t);
    LowestIsLeast(w.g);
    forall x | 0 <= x < |v.phase|
      ensures PlaceOk(v, x) && (Armed(v, x) ==> Backed(v, x))
    {
      assert PlaceOk(w, x);
      if Armed(v, x) {
        assert Armed(w, x) && Backed(w, x);
        assert x == t;
        assert OthersHold(v, t) ==> OthersHold(w, t);
      }
    }
  }

  // ---- activations ----

  // h is g with the threads us put on the list and no clock changed, except
  // that a thread in us may have been given its first clock.
  ghost predicate Joined(g: Group, h: Group, us: seq<int>)
    requires Shaped(g)
  {
    && Consistent(h) && |h.clocks| == |g.clocks|
    && h.active == g.active + us
    && forall x :: 0 <= x < |g.clocks| && x !in us ==>
         && Clock(h, x) == Clock(g, x)
         && h.status[x].lowestClock == g.status[x].lowestClock
         && h.status[x].polled == g.status[x].polled
         && h.clocks[x].sleeping == g.clocks[x].sleeping
         && h.clocks[x].initialized == g.clocks[x].initialized
  }

  lemma RouseJoins(g: Group, c: int, u: int)
    requires Consistent(g) && c in g.active && Known(g, u) && u !in g.active
    ensures
      var h := Rouse(g, c, u);
      && Joined(g, h, [u])
      && !h.clocks[u].sleeping
      && h.status[u].lowestClock == g.status[u].lowestClock && h.status[u].polled == g.status[u].polled
      && Clock(h, u) == (if g.clocks[u].initialized then Clock(g, u) else Clock(g, c) + 1)
      && (g.clocks[u].initialized ==> h.clocks[u].initialized)
  {
    StepKeepsConsistent(g, Step.ActivateOther(c, u));
    var h1 := Clocks.ActivateOther(g, c, u);
    EntryConsistent(h1, c, Rouse(g, c, u));
  }

  lemma JoinedLeast(g: Group, h: Group, us: seq<int>, x: int)
    requires Shaped(g) && Joined(g, h, us) && IsLeast(g, x) && x !in us
    requires forall u :: u in us ==> Known(h, u) && Lower(h, x, u)
    ensures IsLeast(h, x)
  {
  }

  // The threads already in place, when others join.
  lemma JoinedPlaces(w: World, v: World, us: seq<int>, x: int)
    requires Good(w) && Fits(v) && |v.phase| == |w.phase|
    requires Joined(w.g, v.g, us) && 0 <= x < |w.phase| && x !in us
    requires v.phase[x] == w.phase[x] && v.counter >= w.counter && v.token == w.token
    ensures PlaceOk(v, x) && (Armed(v, x) ==> Armed(w, x) && Backed(w, x))
  {
    assert PlaceOk(w, x);
  }

  // Some thread above u has its flag set but has not looked at it yet.
  predicate UnseenAbove(w: World, u: int)
    requires Fits(w) && Known(w.g, u)
  {
    exists x :: 0 <= x < |w.phase| && w.phase[x].Spin? && w.g.status[x].lowestClock && Lower(w.g, u, x)
  }

  // p is below the recorded lowest_tid, and will grant itself the token, while
  // some other thread on the list is below p.
  predicate Misled(g: Group, p: int)
    requires Shaped(g) && Known(g, p) && -1 <= g.lowestTid < |g.clocks|
  {
    && g.lowestTid >= 0 && Lower(g, p, g.lowestTid)
    && exists y :: y in g.active && Lower(g, y, p)
  }

  // The condition on an activation under which no grant is left standing
  // that should not be.
  ghost predicate Harmless(w: World, a: Action)
    requires CanAct(w, a)
  {
    match a
    case Signal(t, u) => !UnseenAbove(w, u)
    case Broadcast(t, us) => forall u :: u in us ==> !UnseenAbove(w, u)
    case BarrierReturn(t, ps) => forall p :: p in ps ==> !UnseenAbove(w, p)
    case JoinReturn(t, p) =>
      && (forall x :: 0 <= x < |w.phase| && Armed(w, x) ==> !Lower(w.g, p, x))
      && !Misled(w.g, p)
    case _ => true
  }

  lemma SpawnKeeps(w: World, t: int, u: int)
    requires Good(w) && CanAct(w, Spawn(t, u))
    ensures Good(Act(w, Spawn(t, u)))
  {
    var v := Act(w, Spawn(t, u));
    RouseJoins(w.g, t, u);
    assert PlaceOk(w, u);
    forall x | 0 <= x < |v.phase|
      ensures PlaceOk(v, x) && (Armed(v, x) ==> Backed(v, x))
    {
      if x != u {
        JoinedPlaces(w, v, [u], x);
        if Armed(v, x) {
          JoinedLeast(w.g, v.g, [u], x);
          assert OthersHold(v, x) ==> OthersHold(w, x);
        }
      }
    }
  }

  // A grant the signalled thread undercuts is either unseen, which Harmless
  // excludes, or it makes the kernel raise the flag.
  lemma SignalDisarms(w: World, t: int, u: int, x: int)
    requires Good(w) && CanAct(w, Signal(t, u)) && !UnseenAbove(w, u)
    requires 0 <= x < |w.phase| && x != u && Armed(w, x) && Armed(Act(w, Signal(t, u)), x)
    requires Fits(Act(w, Signal(t, u)))
    ensures !Lower(w.g, u, x)
  {
    assert PlaceOk(w, x) && PlaceOk(w, t) && Backed(w, x);
    assert x != t && OthersHold(w, x);
    RouseJoins(w.g, t, u);
  }

  lemma SignalKeeps(w: World, t: int, u: int)
    requires Good(w) && CanAct(w, Signal(t, u)) && Harmless(w, Signal(t, u))
    ensures Good(Act(w, Signal(t, u)))
  {
    var v := Act(w, Signal(t, u));
    RouseJoins(w.g, t, u);
    assert PlaceOk(w, u);
    forall x | 0 <= x < |v.phase|
      ensures PlaceOk(v, x) && (Armed(v, x) ==> Backed(v, x))
    {
      if x != u {
        JoinedPlaces(w, v, [u], x);
        if Armed(v, x) {
          SignalDisarms(w, t, u, x);
          JoinedLeast(w.g, v.g, [u], x);
          assert OthersHold(v, x) ==> OthersHold(w, x);
        }
      }
    }
  }

  // Joining one more thread and then the rest.
  lemma JoinedMore(g: Group, h: Group, k: Group, p: int, ps: seq<int>)
    requires Consistent(g) && Shaped(h) && Joined(g, h, [p]) && Joined(h, k, ps) && p !in ps
    ensures Joined(g, k, [p] + ps)
  {
    assert forall x :: x in [p] + ps <==> x == p || x in ps;
    assert g.active + [p] + ps == g.active + ([p] + ps);
  }

  // A thread that was put on the list with its clock and flags as they were.
  predicate Joiner(g: Group, h: Group, u: int)
    requires Known(g, u) && Known(h, u)
  {
    && Clock(h, u) == Clock(g, u)
    && !h.clocks[u].sleeping
    && h.status[u].lowestClock == g.status[u].lowestClock
    && h.status[u].polled == g.status[u].polled
  }

  // A thread that joins among the first stays as it joined while the rest do.
  lemma JoinerStays(g: Group, h: Group, k: Group, u: int, us: seq<int>)
    requires Known(g, u) && Known(h, u) && Known(k, u) && Shaped(h) && u !in us
    requires Joiner(g, h, u) && Joined(h, k, us)
    ensures Joiner(g, k, u)
  {
  }

  // Threads that have a clock and are off the list.
  predicate Idle(g: Group, us: seq<int>) {
    Distinct(us) && forall u :: u in us ==> Known(g, u) && u !in g.active && g.clocks[u].initialized
  }

  lemma RestIdle(g: Group, h: Group, us: seq<int>)
    requires Shaped(g) && us != [] && Idle(g, us) && Joined(g, h, us[..1])
    ensures Idle(h, us[1..]) && us[0] !in us[1..] && us[..1] + us[1..] == us
  {
    assert forall y :: y in us[1..] ==> y in us && y !in us[..1];
  }

  lemma {:induction false} RouseAllJoins(g: Group, c: int, us: seq<int>)
    requires Consistent(g) && c in g.active && Idle(g, us)
    ensures Joined(g, RouseAll(g, c, us), us)
    ensures forall u :: u in us ==> Known(RouseAll(g, c, us), u) && Joiner(g, RouseAll(g, c, us), u)
    decreases |us|
  {
    if us != [] {
      var u, h := us[0], Rouse(g, c, us[0]);
      assert u in us && us[..1] == [u];
      RouseJoins(g, c, u);
      RestIdle(g, h, us);
      RouseAllJoins(h, c, us[1..]);
      var k := RouseAll(h, c, us[1..]);
      JoinedMore(g, h, k, u, us[1..]);
      JoinerStays(g, h, k, u, us[1..]);
      forall y | y in us[1..]
        ensures Joiner(g, k, y)
      {
        assert Joiner(h, k, y);
      }
    }
  }

  lemma BroadcastJoins(w: World, t: int, us: seq<int>)
    requires Consistent(w.g) && CanAct(w, Broadcast(t, us))
    ensures
      var h := Act(w, Broadcast(t, us)).g;
      Joined(w.g, h, us) && forall u :: u in us ==> Known(w.g, u) && Known(h, u) && Joiner(w.g, h, u)
  {
    assert Idle(w.g, us);
    RouseAllJoins(w.g, t, us);
  }

  // Once the counter has moved, only an unseen flag is still armed.
  lemma MovedArmed(w: World, v: World, t: int, x: int)
    requires Good(w) && Known(w.g, t) && w.phase[t] == Hold(false) && 0 <= x < |w.phase|
    requires Fits(v) && |v.phase| == |w.phase| && v.phase[x] == w.phase[x] && v.counter == w.counter + 1
    requires Armed(v, x)
    ensures w.phase[x].Spin?
  {
    assert PlaceOk(w, t) && PlaceOk(w, x);
  }

  lemma BroadcastKeeps(w: World, t: int, us: seq<int>)
    requires Good(w) && CanAct(w, Broadcast(t, us)) && Harmless(w, Broadcast(t, us))
    ensures Good(Act(w, Broadcast(t, us)))
  {
    var v := Act(w, Broadcast(t, us));
    BroadcastJoins(w, t, us);
    forall x | 0 <= x < |v.phase|
      ensures PlaceOk(v, x) && (Armed(v, x) ==> Backed(v, x))
    {
      assert PlaceOk(w, x);
      if x in us {
        assert Joiner(w.g, v.g, x);
      } else {
        JoinedPlaces(w, v, us, x);
        if Armed(v, x) {
          MovedArmed(w, v, t, x);
          UnseenStays(w, v, us, x);
        }
      }
    }
  }

  // After the counter has moved, only an unseen flag is still armed; Harmless
  // keeps those below every joining thread.
  lemma UnseenStays(w: World, v: World, us: seq<int>, x: int)
    requires Good(w) && Fits(v) && |v.phase| == |w.phase| && Joined(w.g, v.g, us)
    requires 0 <= x < |w.phase| && x !in us && v.phase[x] == w.phase[x] && w.phase[x].Spin?
    requires Armed(w, x) && v.g.lowestTid == w.g.lowestTid
    requires forall u :: u in us ==> 0 <= u < |w.phase| && Clock(v.g, u) == Clock(w.g, u) && !UnseenAbove(w, u)
    requires forall y :: 0 <= y < |w.phase| && v.phase[y].Hold? ==> w.phase[y].Hold?
    ensures Backed(v, x)
  {
    assert Backed(w, x);
    forall u | u in us
      ensures Known(v.g, u) && Lower(v.g, x, u)
    {
      assert !UnseenAbove(w, u);
    }
    JoinedLeast(w.g, v.g, us, x);
    assert OthersHold(v, x) ==> OthersHold(w, x);
  }

  lemma ReturnJoins(g: Group, p: int)
    requires Consistent(g) && Known(g, p) && p !in g.active && g.clocks[p].initialized
    ensures
      var h := Return(g, p);
      && Joined(g, h, [p])
      && Clock(h, p) == Clock(g, p) && !h.clocks[p].sleeping && h.status[p].polled == g.status[p].polled
      && h.clocks[p].initialized
  {
    EntryConsistent(g, p, Clocks.Forget(g, p));
    StepKeepsConsistent(Clocks.Forget(g, p), Step.Activate(p));
  }

  // While lowest_tid is a granted thread or none, a return that does not go
  // below that thread leaves it as it is.
  lemma ReturnKeepsLow(g: Group, p: int, x: int)
    requires Consistent(g) && Known(g, p) && p !in g.active && g.clocks[p].initialized
    requires Granted(g, x) && p != x && !Lower(g, p, x)
    ensures Consistent(Return(g, p)) && Granted(Return(g, p), x)
  {
    var f := Clocks.Forget(g, p);
    EntryConsistent(g, p, f);
    EntryLeast(g, p, f, x);
    GrantStays(f, Step.Activate(p), x);
  }

  lemma {:induction false} ReturnAllJoins(g: Group, ps: seq<int>)
    requires Consistent(g) && Idle(g, ps)
    ensures Joined(g, ReturnAll(g, ps), ps)
    ensures forall p :: p in ps ==> Known(ReturnAll(g, ps), p) && Returner(g, ReturnAll(g, ps), p)
    decreases |ps|
  {
    if ps != [] {
      var p, h := ps[0], Return(g, ps[0]);
      assert p in ps && ps[..1] == [p];
      ReturnJoins(g, p);
      RestIdle(g, h, ps);
      ReturnAllJoins(h, ps[1..]);
      var k := ReturnAll(h, ps[1..]);
      JoinedMore(g, h, k, p, ps[1..]);
      forall y | y in ps[1..]
        ensures Returner(g, k, y)
      {
        assert Returner(h, k, y);
      }
    }
  }

  predicate Returner(g: Group, h: Group, p: int)
    requires Known(g, p) && Known(h, p)
  {
    && Clock(h, p) == Clock(g, p)
    && !h.clocks[p].sleeping
    && h.status[p].polled == g.status[p].polled
  }

  lemma {:induction false} ReturnAllKeepsLow(g: Group, ps: seq<int>, x: int)
    requires Consistent(g) && Idle(g, ps)
    requires Granted(g, x) && forall p :: p in ps ==> !Lower(g, p, x)
    ensures Shaped(ReturnAll(g, ps)) && Granted(ReturnAll(g, ps), x)
    decreases |ps|
  {
    if ps != [] {
      var p, h := ps[0], Return(g, ps[0]);
      assert p in ps && ps[..1] == [p];
      ReturnJoins(g, p);
      ReturnKeepsLow(g, p, x);
      RestIdle(g, h, ps);
      assert forall q :: q in ps[1..] ==> q in ps && q != x;
      ReturnAllKeepsLow(h, ps[1..], x);
    }
  }

  // A grant that survives a barrier: the counter has moved, so it is an unseen
  // flag, and Harmless keeps that below everyone who returns.
  lemma BarrierBacks(w: World, t: int, ps: seq<int>, x: int)
    requires Good(w) && CanAct(w, BarrierReturn(t, ps)) && Harmless(w, BarrierReturn(t, ps))
    requires 0 <= x < |w.phase| && x !in ps && w.phase[x].Spin? && Armed(w, x) && Backed(w, x)
    ensures Granted(ReturnAll(w.g, ps), x)
  {
    assert PlaceOk(w, x) && PlaceOk(w, t) && OthersHold(w, x);
    forall p | p in ps
      ensures !Lower(w.g, p, x)
    {
      assert !UnseenAbove(w, p);
    }
    ReturnAllKeepsLow(w.g, ps, x);
  }

  lemma BarrierKeeps(w: World, t: int, ps: seq<int>)
    requires Good(w) && CanAct(w, BarrierReturn(t, ps)) && Harmless(w, BarrierReturn(t, ps))
    ensures Good(Act(w, BarrierReturn(t, ps)))
  {
    var v := Act(w, BarrierReturn(t, ps));
    ReturnAllJoins(w.g, ps);
    forall x | 0 <= x < |v.phase|
      ensures PlaceOk(v, x) && (Armed(v, x) ==> Backed(v, x))
    {
      assert PlaceOk(w, x);
      if x in ps {
        assert Returner(w.g, v.g, x);
      } else {
        JoinedPlaces(w, v, ps, x);
        if Armed(v, x) {
          MovedArmed(w, v, t, x);
          BarrierBacks(w, t, ps, x);
        }
      }
    }
  }

  lemma JoinKeeps(w: World, t: int, p: int)
    requires Good(w) && CanAct(w, JoinReturn(t, p)) && Harmless(w, JoinReturn(t, p))
    ensures Good(Act(w, JoinReturn(t, p)))
  {
    var v := Act(w, JoinReturn(t, p));
    ReturnJoins(w.g, p);
    forall x | 0 <= x < |v.phase|
      ensures PlaceOk(v, x) && (Armed(v, x) ==> Backed(v, x))
    {
      assert PlaceOk(w, x);
      if x == p {
        OwnReturn(w, t, p);
      } else {
        JoinedPlaces(w, v, [p], x);
        if Armed(v, x) {
          assert PlaceOk(w, t) && OthersHold(w, x);
          ReturnKeepsLow(w.g, p, x);
        }
      }
    }
  }

  // A return that sets its own flag is wrong to do so exactly if it is misled.
  lemma ReturnGrants(g: Group, p: int)
    requires Consistent(g) && Known(g, p) && p !in g.active && g.clocks[p].initialized
    ensures
      var h := Return(g, p);
      && (h.status[p].lowestClock && !Misled(g, p) ==> IsLeast(h, p) && h.lowestTid == p)
      && (Misled(g, p) ==> h.status[p].lowestClock && !IsLeast(h, p))
  {
    var f := Clocks.Forget(g, p);
    var g1 := Rejoined(f, p);
    EntryConsistent(g, p, f);
    RejoinedConsistent(f, p);
    assert forall y :: 0 <= y < |g.clocks| ==> Clock(g1, y) == Clock(g, y);
    LowestIsLeast(g1);
    SameClocksKeeps(g1, Return(g, p));
    ReturnLeast(g, g1, p);
  }

  lemma ReturnLeast(g: Group, g1: Group, p: int)
    requires Shaped(g) && Shaped(g1) && Known(g, p) && |g1.clocks| == |g.clocks| && g1.active == g.active + [p]
    requires forall y :: 0 <= y < |g.clocks| ==> Clock(g1, y) == Clock(g, y)
    ensures IsLeast(g1, p) <==> forall y :: y in g.active ==> !Lower(g, y, p)
  {
    assert forall y :: y in g1.active <==> y in g.active || y == p;
    forall y | y in g.active
      ensures Lower(g1, p, y) <==> Lower(g, p, y)
      ensures y != p ==> (Lower(g, p, y) <==> !Lower(g, y, p))
    {
    }
  }

  lemma OwnReturn(w: World, t: int, p: int)
    requires Good(w) && CanAct(w, JoinReturn(t, p)) && Harmless(w, JoinReturn(t, p))
    ensures
      var v := Act(w, JoinReturn(t, p));
      Fits(v) && (Armed(v, p) ==> Backed(v, p))
  {
    ReturnGrants(w.g, p);
  }

  // ---- the theorems ----

  // Every harmless action keeps the invariant: threads are where the kernel
  // thinks they are, and every grant that can still be used is in force.
  lemma ActionKeeps(w: World, a: Action)
    requires Good(w) && CanAct(w, a) && Harmless(w, a)
    ensures Good(Act(w, a))
  {
    match a
    case Sys(s) => SysKeeps(w, s);
    case BeginSync(t, n) => BeginKeeps(w, t, n);
    case GoPoll(_) => QuietKeeps(w, a);
    case Observe(_) => OwnStoreKeeps(w, a);
    case Cas(_) => QuietKeeps(w, a);
    case Check(t, again) => CheckKeeps(w, t, again);
    case Fail(_) => OwnStoreKeeps(w, a);
    case Spawn(t, u) => SpawnKeeps(w, t, u);
    case Signal(t, u) => SignalKeeps(w, t, u);
    case Broadcast(t, us) => BroadcastKeeps(w, t, us);
    case HaltSelf(t) => HaltKeeps(w, t);
    case Release(_) => QuietKeeps(w, a);
    case JoinReturn(t, p) => JoinKeeps(w, t, p);
    case BarrierReturn(t, ps) => BarrierKeeps(w, t, ps);
  }

  // The process after thread 0 has joined the group: everyone else is yet to
  // be created.
  function Start(n: nat): World
    requires n > 0
  {
    var idle := Entry(0, 0, false, false, false, false, false);
    var blank := Status(0, false, false, false, false);
    var g := Group(seq(n, _ => idle)[0 := idle.(initialized := true)], seq(n, _ => blank), [0], 0, false, false);
    World(g, FREE, 0, seq(n, _ => Off)[0 := Run], NONE, false)
  }

  lemma StartGood(n: nat)
    requires n > 0
    ensures Good(Start(n))
  {
  }

  ghost predicate HarmlessRun(w: World, acts: seq<Action>)
    decreases |acts|
  {
    acts == [] || (CanAct(w, acts[0]) && Harmless(w, acts[0]) && HarmlessRun(Act(w, acts[0]), acts[1..]))
  }

  ghost function AfterRun(w: World, acts: seq<Action>): World
    requires HarmlessRun(w, acts)
    decreases |acts|
  {
    if acts == [] then w else AfterRun(Act(w, acts[0]), acts[1..])
  }

  lemma {:induction false} RunGood(w: World, acts: seq<Action>)
    requires Good(w) && HarmlessRun(w, acts)
    ensures Good(AfterRun(w, acts))
    decreases |acts|
  {
    if acts != [] {
      ActionKeeps(w, acts[0]);
      RunGood(Act(w, acts[0]), acts[1..]);
    }
  }

  // The promise of __getToken: from the start of the process on, through any
  // run of harmless actions, a thread that passes the comparison is the least
  // active thread, and nobody else holds the token.
  lemma AcquiresOnlyLeast(n: nat, acts: seq<Action>, t: int, again: bool)
    requires n > 0 && HarmlessRun(Start(n), acts) && CanAct(AfterRun(Start(n), acts), Check(t, again))
    ensures
      var w := AfterRun(Start(n), acts);
      && IsLeast(w.g, t)
      && forall y :: 0 <= y < |w.phase| && y != t ==> !Owns(w.phase[y])
  {
    StartGood(n);
    RunGood(Start(n), acts);
    var w := AfterRun(Start(n), acts);
    assert PlaceOk(w, t) && Armed(w, t) && Backed(w, t);
    forall y | 0 <= y < |w.phase| && y != t
      ensures !Owns(w.phase[y])
    {
      assert PlaceOk(w, y);
    }
  }

  lemma SignalPlaced(w: World, t: int, u: int)
    requires Good(w) && CanAct(w, Signal(t, u))
    ensures Placed(Act(w, Signal(t, u)))
  {
    var v := Act(w, Signal(t, u));
    RouseJoins(w.g, t, u);
    forall x | 0 <= x < |v.phase|
      ensures PlaceOk(v, x)
    {
      assert PlaceOk(w, x);
      if x != u { JoinedPlaces(w, v, [u], x); }
    }
  }

  lemma BroadcastPlaced(w: World, t: int, us: seq<int>)
    requires Good(w) && CanAct(w, Broadcast(t, us))
    ensures Placed(Act(w, Broadcast(t, us)))
  {
    var v := Act(w, Broadcast(t, us));
    BroadcastJoins(w, t, us);
    forall x | 0 <= x < |v.phase|
      ensures PlaceOk(v, x)
    {
      assert PlaceOk(w, x);
      if x in us {
        assert Joiner(w.g, v.g, x);
      } else {
        JoinedPlaces(w, v, us, x);
      }
    }
  }

  lemma BarrierPlaced(w: World, t: int, ps: seq<int>)
    requires Good(w) && CanAct(w, BarrierReturn(t, ps))
    ensures Placed(Act(w, BarrierReturn(t, ps)))
  {
    var v := Act(w, BarrierReturn(t, ps));
    ReturnAllJoins(w.g, ps);
    forall x | 0 <= x < |v.phase|
      ensures PlaceOk(v, x)
    {
      assert PlaceOk(w, x);
      if x in ps {
        assert Returner(w.g, v.g, x);
      } else {
        JoinedPlaces(w, v, ps, x);
      }
    }
  }

  lemma JoinPlaced(w: World, t: int, p: int)
    requires Good(w) && CanAct(w, JoinReturn(t, p))
    ensures Placed(Act(w, JoinReturn(t, p)))
  {
    var v := Act(w, JoinReturn(t, p));
    ReturnJoins(w.g, p);
    forall x | 0 <= x < |v.phase|
      ensures PlaceOk(v, x)
    {
      assert PlaceOk(w, x);
      if x != p { JoinedPlaces(w, v, [p], x); }
    }
  }

  // The activations keep every thread in its place whether harmless or not.
  lemma ActivationPlaced(w: World, a: Action)
    requires Good(w) && CanAct(w, a) && (a.Signal? || a.Broadcast? || a.BarrierReturn? || a.JoinReturn?)
    ensures Placed(Act(w, a))
  {
    match a
    case Signal(t, u) => SignalPlaced(w, t, u);
    case Broadcast(t, us) => BroadcastPlaced(w, t, us);
    case BarrierReturn(t, ps) => BarrierPlaced(w, t, ps);
    case JoinReturn(t, p) => JoinPlaced(w, t, p);
  }

  // ---- what goes wrong where the condition fails ----

  // x walks out of __getToken with a grant that is no longer in force.
  ghost predicate Stale(w: World, x: int)
    requires Fits(w)
  {
    Known(w.g, x) && Armed(w, x) && !IsLeast(w.g, x)
  }

  lemma UndercutIsStale(w: World, v: World, us: seq<int>, u: int, x: int)
    requires Good(w) && Fits(v) && |v.phase| == |w.phase| && Joined(w.g, v.g, us)
    requires u in us && Known(w.g, u) && Clock(v.g, u) == Clock(w.g, u)
    requires 0 <= x < |w.phase| && x !in us && v.phase[x] == w.phase[x] && Lower(w.g, u, x)
    requires Armed(w, x) && (w.phase[x].Spin? || v.counter == w.counter)
    ensures Stale(v, x)
  {
    assert u in v.g.active;
  }

  // The threads an activation puts on the list.
  function Joiners(a: Action): seq<int> {
    match a
    case Signal(_, u) => [u]
    case Broadcast(_, us) => us
    case BarrierReturn(_, ps) => ps
    case JoinReturn(_, p) => [p]
    case _ => []
  }

  lemma ActivationJoins(w: World, a: Action)
    requires Good(w) && CanAct(w, a) && (a.Signal? || a.Broadcast? || a.BarrierReturn? || a.JoinReturn?)
    ensures Joined(w.g, Act(w, a).g, Joiners(a))
    ensures forall u :: u in Joiners(a) ==>
              Known(w.g, u) && Known(Act(w, a).g, u) && w.phase[u].Off? && Clock(Act(w, a).g, u) == Clock(w.g, u)
  {
    var v := Act(w, a);
    match a {
      case Signal(t, u) => RouseJoins(w.g, t, u);
      case Broadcast(t, us) =>
        RouseAllJoins(w.g, t, us);
        assert forall u :: u in us ==> Joiner(w.g, v.g, u);
      case BarrierReturn(_, ps) =>
        ReturnAllJoins(w.g, ps);
        assert forall p :: p in ps ==> Returner(w.g, v.g, p);
      case JoinReturn(_, p) => ReturnJoins(w.g, p);
    }
  }

  // The thread that an action harms, and the one that undercuts it.
  lemma UnseenHarmed(w: World, a: Action) returns (u: int, x: int)
    requires CanAct(w, a) && !Harmless(w, a) && !a.JoinReturn?
    ensures u in Joiners(a) && Known(w.g, u) && 0 <= x < |w.phase|
    ensures w.phase[x].Spin? && w.g.status[x].lowestClock && Lower(w.g, u, x)
  {
    u :| u in Joiners(a) && UnseenAbove(w, u);
    x :| 0 <= x < |w.phase| && w.phase[x].Spin? && w.g.status[x].lowestClock && Lower(w.g, u, x);
  }

  lemma UnseenIsStale(w: World, a: Action) returns (x: int)
    requires Good(w) && CanAct(w, a) && !Harmless(w, a) && !a.JoinReturn?
    ensures Fits(Act(w, a)) && Stale(Act(w, a), x) && x != a.t
  {
    ActivationJoins(w, a);
    var u;
    u, x := UnseenHarmed(w, a);
    UndercutIsStale(w, Act(w, a), Joiners(a), u, x);
  }

  lemma ReturnIsStale(w: World, t: int, p: int) returns (x: int)
    requires Good(w) && CanAct(w, JoinReturn(t, p)) && !Harmless(w, JoinReturn(t, p))
    ensures Fits(Act(w, JoinReturn(t, p))) && Stale(Act(w, JoinReturn(t, p)), x) && x != t
  {
    var v := Act(w, JoinReturn(t, p));
    ReturnJoins(w.g, p);
    if x0 :| 0 <= x0 < |w.phase| && Armed(w, x0) && Lower(w.g, p, x0) {
      x := x0;
      UndercutIsStale(w, v, [p], p, x);
    } else {
      x := p;
      ReturnGrants(w.g, p);
    }
  }

  // Harmless is exact: an enabled action keeps the invariant if and only if it
  // is harmless.
  lemma ExactlyHarmless(w: World, a: Action)
    requires Good(w) && CanAct(w, a)
    ensures Harmless(w, a) <==> Good(Act(w, a))
  {
    if Harmless(w, a) {
      ActionKeeps(w, a);
    } else {
      var x := HarmIsStale(w, a);
    }
  }

  // The rest of the run that a stale grant permits: an interrupt of its thread is
  // served first.
  function GoingOn(w: World, t: int, x: int): seq<Action>
    requires 0 <= x < |w.phase|
  {
    [Release(t)] + (if w.phase[x].Seen? then [] else [Observe(x)]) + [Cas(x), Check(x, false)]
  }

  function Overtaking(w: World, t: int, x: int): seq<Action>
    requires 0 <= x < |w.phase|
  {
    (if w.queued == x then [Sys(Step.Notify)] else []) + GoingOn(w, t, x)
  }

  ghost predicate CanRun(w: World, acts: seq<Action>)
    decreases |acts|
  {
    acts == [] || (CanAct(w, acts[0]) && CanRun(Act(w, acts[0]), acts[1..]))
  }

  ghost function RunOf(w: World, acts: seq<Action>): World
    requires CanRun(w, acts)
    decreases |acts|
  {
    if acts == [] then w else RunOf(Act(w, acts[0]), acts[1..])
  }

  lemma RunStep(w: World, a: Action, rest: seq<Action>)
    requires CanAct(w, a) && CanRun(Act(w, a), rest)
    ensures CanRun(w, [a] + rest) && RunOf(w, [a] + rest) == RunOf(Act(w, a), rest)
  {
    assert ([a] + rest)[1..] == rest;
  }

  // x has the token and is not the least thread.
  ghost predicate Broken(z: World, x: int) {
    Fits(z) && Known(z.g, x) && z.token == x && z.phase[x].Hold? && !IsLeast(z.g, x)
  }

  ghost predicate Breaks(w: World, acts: seq<Action>, x: int) {
    CanRun(w, acts) && Broken(RunOf(w, acts), x)
  }

  lemma StaleTakes(w: World, x: int)
    requires Fits(w) && Known(w.g, x) && w.phase[x] == Seen(w.counter) && w.token == FREE && !IsLeast(w.g, x)
    requires w.queued != x
    ensures Breaks(w, [Cas(x), Check(x, false)], x)
  {
    var w1 := Act(w, Cas(x));
    var w2 := Act(w1, Check(x, false));
    RunStep(w1, Check(x, false), []);
    RunStep(w, Cas(x), [Check(x, false)] + []);
    assert [Cas(x)] + ([Check(x, false)] + []) == [Cas(x), Check(x, false)];
  }

  lemma WokenLeast(g: Group, x: int)
    requires Consistent(g) && Known(g, x)
    ensures Shaped(Woken(g, x)) && (IsLeast(Woken(g, x), x) <==> IsLeast(g, x))
  {
    var h := Woken(g, x);
    assert forall y :: 0 <= y < |g.clocks| ==> Clock(h, y) == Clock(g, y);
  }

  // x, told but not yet in Seen, looks and takes the token.
  lemma StaleLooks(w: World, x: int)
    requires Fits(w) && Consistent(w.g) && Stale(w, x) && (w.phase[x].Spin? || w.phase[x].Poll?) && w.token == FREE
    requires w.queued != x
    ensures Breaks(w, [Observe(x), Cas(x), Check(x, false)], x)
  {
    WokenLeast(w.g, x);
    StaleTakes(Act(w, Observe(x)), x);
    RunStep(w, Observe(x), [Cas(x), Check(x, false)]);
    assert [Observe(x), Cas(x), Check(x, false)] == [Observe(x)] + [Cas(x), Check(x, false)];
  }

  // The holder lets go, and the stale thread goes on.
  lemma StaleGoes(w: World, t: int, x: int)
    requires Fits(w) && Consistent(w.g) && Known(w.g, t) && w.phase[t] == Hold(false) && t in w.g.active
    requires x != t && Stale(w, x) && !Owns(w.phase[x]) && w.queued != x
    ensures Breaks(w, GoingOn(w, t, x), x)
  {
    var w1 := Act(w, Release(t));
    if w.phase[x].Seen? {
      StaleTakes(w1, x);
      RunStep(w, Release(t), [Cas(x), Check(x, false)]);
      assert GoingOn(w, t, x) == [Release(t)] + [Cas(x), Check(x, false)];
    } else {
      StaleLooks(w1, x);
      RunStep(w, Release(t), [Observe(x), Cas(x), Check(x, false)]);
      assert GoingOn(w, t, x) == [Release(t)] + [Observe(x), Cas(x), Check(x, false)];
    }
  }

  // Serving the interrupt takes no grant away.
  lemma NotifyStale(w: World, x: int)
    requires Fits(w) && Consistent(w.g) && w.queued == x && Stale(w, x)
    ensures
      var v := Act(w, Sys(Step.Notify));
      && Fits(v) && Consistent(v.g) && v.queued != x && v.phase == w.phase && v.g.active == w.g.active
      && |v.g.clocks| == |w.g.clocks| && Stale(v, x)
  {
    NotifyFrame(w.g);
    SameClocksKeeps(w.g, Clocks.Notify(w.g));
  }

  // From a state with a stale grant, the holder releasing the token and the
  // stale thread going on is a legal run, and it ends with the token held by a
  // thread that is not the least.
  lemma StaleOvertakes(w: World, t: int, x: int)
    requires Placed(w) && Known(w.g, t) && w.phase[t] == Hold(false) && x != t && Stale(w, x)
    ensures Breaks(w, Overtaking(w, t, x), x)
  {
    assert PlaceOk(w, t) && PlaceOk(w, x);
    if w.queued == x {
      NotifyStale(w, x);
      var v := Act(w, Sys(Step.Notify));
      StaleGoes(v, t, x);
      RunStep(w, Sys(Step.Notify), GoingOn(v, t, x));
    } else {
      StaleGoes(w, t, x);
      assert Overtaking(w, t, x) == GoingOn(w, t, x);
    }
  }

  // Wherever an action is enabled and not harmless, some continuation breaks
  // the promise.
  lemma HarmBreaksPromise(w: World, a: Action)
    requires Good(w) && CanAct(w, a) && !Harmless(w, a)
    ensures exists acts, x :: Breaks(Act(w, a), acts, x)
  {
    var v := Act(w, a);
    var x := HarmIsStale(w, a);
    ActivationPlaced(w, a);
    HolderStays(w, a);
    StaleOvertakes(v, a.t, x);
  }

  lemma HarmIsStale(w: World, a: Action) returns (x: int)
    requires Good(w) && CanAct(w, a) && !Harmless(w, a)
    ensures Fits(Act(w, a)) && Stale(Act(w, a), x) && x != a.t
  {
    if a.JoinReturn? {
      x := ReturnIsStale(w, a.t, a.p);
    } else {
      x := UnseenIsStale(w, a);
    }
  }

  lemma HolderStays(w: World, a: Action)
    requires Good(w) && CanAct(w, a) && (a.Signal? || a.Broadcast? || a.BarrierReturn? || a.JoinReturn?)
    ensures |Act(w, a).phase| == |w.phase| && Act(w, a).phase[a.t] == w.phase[a.t] == Hold(false)
  {
  }

  // ---- what each action does to the token, the counter and the places ----

  // The thread a moves along, if it is not one of those it activates.
  predicate Steps(w: World, a: Action, p: Phase, q: Phase) {
    match a
    case BeginSync(_, _) => p.Run? && q.Spin?
    case GoPoll(_) => p.Spin? && q == Poll(w.counter)
    case Observe(_) => (p.Spin? && q == Seen(w.counter)) || (p.Poll? && q == Seen(p.snap))
    case Cas(_) => p.Seen? && q == Cased(p.snap)
    case Check(_, again) => p == Cased(w.counter) && q == Hold(again)
    case Fail(_) => p.Cased? && p.snap != w.counter && q.Spin?
    case HaltSelf(_) => p == Hold(false) && q.Leave?
    case Release(_) => (p == Hold(true) && q.Spin?) || (p == Hold(false) && q.Run?) || (p.Leave? && q.Off?)
    case _ => q == p
  }

  // The token is taken by the swap alone, when it is free, and let go where the
  // comparison fails or the section ends. The counter moves by one, for an
  // activation other than a creation or a join: always for a broadcast or a barrier,
  // and for a signal exactly if the thread is below the recorded lowest, or nobody is
  // recorded. The notification is queued where its flag goes up, and not twice, and
  // taken off when it runs; and a holder is bare until it adds ticks or activates a
  // thread.
  lemma ActStores(w: World, a: Action)
    requires Good(w) && FlagsDown(w.g) && CanAct(w, a)
    ensures
      var v := Act(w, a);
      && v.token == (if a.Cas? then a.t else if a.Fail? || a.Release? then FREE else w.token)
      && v.counter == w.counter + (
           if a.Broadcast? || a.BarrierReturn? then 1
           else if a.Signal? && (w.g.lowestTid == -1 || (a.u != w.g.lowestTid && Lower(w.g, a.u, w.g.lowestTid))) then 1
           else 0)
      && v.queued == (if a == Sys(Step.Notify) then NONE
                      else if a.Sys? && a.s.OverflowCheck? && w.queued == NONE && !w.g.nmiNewLow && v.g.nmiNewLow
                      then a.s.t else w.queued)
      && v.bare == (a.Check? || (w.bare && !a.Spawn? && Joiners(a) == [] && !a.Broadcast? && !a.BarrierReturn? &&
                                 !(a.Sys? && (a.s.AddTicks? || a.s.Disable?))))
  {
    if a.Signal? {
      SignalMoves(w, a.t, a.u);
    }
  }

  // A thread that is activated is in the spin loop, after a barrier it runs; the
  // actor moves along, and nobody else does.
  lemma ActMoves(w: World, a: Action, x: int)
    requires Good(w) && CanAct(w, a) && 0 <= x < |w.phase|
    ensures
      var v := Act(w, a);
      && |v.phase| == |w.phase|
      && if x in Joiners(a) || (a.Spawn? && x == a.u) then
           w.phase[x].Off? && (if a.BarrierReturn? then v.phase[x].Run? else v.phase[x].Spin?)
         else if !a.Sys? && x == a.t then Steps(w, a, w.phase[x], v.phase[x])
         else v.phase[x] == w.phase[x]
  {
    assert PlaceOk(w, x);
  }

  lemma SignalMoves(w: World, t: int, u: int)
    requires Good(w) && CanAct(w, Signal(t, u))
    ensures RaisesFlag(w.g, t, u) <==>
              w.g.status[t].activatedLowest || w.g.lowestTid == -1 ||
              (u != w.g.lowestTid && Lower(w.g, u, w.g.lowestTid))
  {
  }

  // The wrapper takes down the flag it reads, so none is ever left up.
  predicate FlagsDown(g: Group) {
    forall t :: 0 <= t < |g.status| ==> !g.status[t].activatedLowest
  }

  lemma DetermineDown(g: Group, cur: int)
    requires Shaped(g) && Known(g, cur) && FlagsDown(g)
    ensures FlagsDown(Determine(g, cur).0)
  {
    var g0 := ShowTicks(g, cur);
    assert FlagsDown(g0) && FlagsDown(Elected(g0, cur));
  }

  lemma ApplyDown(g: Group, s: Step)
    requires Consistent(g) && Enabled(g, s) && !s.ActivateOther? && FlagsDown(g)
    ensures FlagsDown(Apply(g, s))
  {
    if Decides(s) {
      DecisionDown(g, s);
    }
  }

  lemma DecisionDown(g: Group, s: Step)
    requires Consistent(g) && Enabled(g, s) && Decides(s) && FlagsDown(g)
    ensures FlagsDown(Apply(g, s))
  {
    BeforeConsistent(g, s);
    DetermineDown(Before(g, s), s.t);
  }

  lemma RouseDown(g: Group, c: int, u: int)
    requires Shaped(g) && Known(g, c) && Known(g, u) && -1 <= g.lowestTid < |g.clocks| && FlagsDown(g)
    ensures FlagsDown(Rouse(g, c, u))
  {
  }

  lemma {:induction false} RouseAllDown(g: Group, c: int, us: seq<int>)
    requires Shaped(g) && Known(g, c) && -1 <= g.lowestTid < |g.clocks| && FlagsDown(g)
    requires forall u :: u in us ==> 0 <= u < |g.clocks|
    ensures FlagsDown(RouseAll(g, c, us))
    decreases |us|
  {
    if us != [] {
      assert us[0] in us && forall u :: u in us[1..] ==> u in us;
      RouseDown(g, c, us[0]);
      RouseAllDown(Rouse(g, c, us[0]), c, us[1..]);
    }
  }

  lemma ReturnDown(g: Group, p: int)
    requires Shaped(g) && Known(g, p) && -1 <= g.lowestTid < |g.clocks| && FlagsDown(g)
    ensures FlagsDown(Return(g, p))
  {
  }

  lemma {:induction false} ReturnAllDown(g: Group, ps: seq<int>)
    requires Shaped(g) && -1 <= g.lowestTid < |g.clocks| && FlagsDown(g)
    requires forall p :: p in ps ==> 0 <= p < |g.clocks|
    ensures FlagsDown(ReturnAll(g, ps))
    decreases |ps|
  {
    if ps != [] {
      assert ps[0] in ps && forall p :: p in ps[1..] ==> p in ps;
      ReturnDown(g, ps[0]);
      ReturnAllDown(Return(g, ps[0]), ps[1..]);
    }
  }

  lemma ActDown(w: World, a: Action)
    requires Good(w) && CanAct(w, a) && FlagsDown(w.g)
    ensures FlagsDown(Act(w, a).g)
  {
    match a
    case Sys(s) => ApplyDown(w.g, s);
    case BeginSync(t, n) => ApplyDown(w.g, Step.Stop(t, n));
    case HaltSelf(t) => ApplyDown(w.g, Step.Halt(t));
    case Broadcast(t, us) => RouseAllDown(w.g, t, us);
    case BarrierReturn(_, ps) => ReturnAllDown(w.g, ps);
    case JoinReturn(_, p) => ReturnDown(w.g, p);
    case Spawn(t, u) => RouseDown(w.g, t, u);
    case Signal(t, u) => RouseDown(w.g, t, u);
    case _ =>
  }

  lemma RunDown(n: nat, acts: seq<Action>)
    requires n > 0 && HarmlessRun(Start(n), acts)
    ensures Good(AfterRun(Start(n), acts)) && FlagsDown(AfterRun(Start(n), acts).g)
  {
    StartGood(n);
    StaysDown(Start(n), acts);
  }

  lemma {:induction false} StaysDown(w: World, acts: seq<Action>)
    requires Good(w) && FlagsDown(w.g) && HarmlessRun(w, acts)
    ensures FlagsDown(AfterRun(w, acts).g) && Good(AfterRun(w, acts))
    decreases |acts|
  {
    if acts != [] {
      ActDown(w, acts[0]);
      ActionKeeps(w, acts[0]);
      StaysDown(Act(w, acts[0]), acts[1..]);
    }
  }

  // ---- what threads can do ----

  // A holder can halt, create a thread that has no clock yet in a section that another
  // one follows, and end the section.
  lemma HolderCan(w: World, t: int, u: int)
    requires Good(w) && 0 <= t < |w.phase| && w.phase[t].Hold?
    ensures CanAct(w, Release(t)) && forall n: nat :: CanAct(w, Sys(Step.AddTicks(t, n)))
    ensures w.phase[t] == Hold(false) ==> CanAct(w, HaltSelf(t))
    ensures w.phase[t] == Hold(true) && 0 <= u < |w.phase| && w.phase[u].Off? && !w.g.clocks[u].initialized ==>
              CanAct(w, Spawn(t, u))
  {
    assert PlaceOk(w, t);
    assert 0 <= u < |w.phase| ==> PlaceOk(w, u);
  }

  // It can activate any threads that are off the list and have a clock, one or several
  // at once, as a signal, a broadcast, for a join, or at a barrier it has just come to.
  lemma HolderActivates(w: World, t: int, us: seq<int>)
    requires Good(w) && 0 <= t < |w.phase| && w.phase[t] == Hold(false) && Distinct(us)
    requires forall u :: u in us ==> 0 <= u < |w.phase| && w.phase[u].Off? && w.g.clocks[u].initialized
    ensures CanAct(w, Broadcast(t, us)) && (w.bare ==> CanAct(w, BarrierReturn(t, us)))
    ensures forall u :: u in us ==> CanAct(w, Signal(t, u)) && CanAct(w, JoinReturn(t, u))
  {
    assert PlaceOk(w, t);
    forall u | u in us
      ensures Sleeper(w, u)
    {
      assert PlaceOk(w, u);
    }
  }

  // A running thread can count, be interrupted, turn its counter on and begin an
  // operation; a waiting one can ask again, and sleep once it polls; and a thread that
  // has swapped itself in can pass or has to give the token back, as the counter says,
  // unless its own notification is still to run.
  lemma ThreadCan(w: World, t: int, n: nat)
    requires Good(w) && 0 <= t < |w.phase|
    ensures w.phase[t].Run? ==>
              && CanAct(w, BeginSync(t, n)) && CanAct(w, Sys(Step.Enable(t)))
              && CanAct(w, Sys(Step.Overflow(t, n))) && CanAct(w, Sys(Step.OverflowCheck(t)))
    ensures w.phase[t].Spin? || w.phase[t].Poll? ==> CanAct(w, Sys(Step.Wait(t)))
    ensures w.phase[t].Poll? ==> CanAct(w, Sys(Step.Sleep(t)))
    ensures w.phase[t].Cased? && w.queued != t ==> (CanAct(w, Check(t, false)) <==> !CanAct(w, Fail(t)))
  {
    assert PlaceOk(w, t);
  }
}
