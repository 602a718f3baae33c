// No wakeup is lost: through every harmless run, when all active threads sleep in
// the kernel, the least of them has been told
// (src/logical_clock/module/clock_main.c:86-246).
module Wakeups {
  import opened ListArrays
  import opened Clocks
  import opened Grants
  import opened TokenProtocol

  // ---- what the kernel owes to sleepers ----

  // A thread asleep is waiting, and if it is the recorded lowest, it has been told
  // or a notification is still to be sent.
  predicate SleeperOk(g: Group, t: int)
    requires Known(g, t)
  {
    g.clocks[t].waiting && (g.lowestTid == t && !g.notificationNeeded ==> Told(g, t))
  }

  predicate AllAsleep(g: Group)
    requires Shaped(g)
  {
    forall t :: t in g.active ==> g.clocks[t].sleeping
  }

  ghost predicate Attentive(g: Group)
    requires Shaped(g)
  {
    && (forall t :: 0 <= t < |g.clocks| && g.clocks[t].sleeping ==> SleeperOk(g, t))
    && (AllAsleep(g) ==> forall t :: IsLeast(g, t) ==> Told(g, t))
  }

  predicate SleepersListed(g: Group)
    requires Shaped(g)
  {
    forall t :: 0 <= t < |g.clocks| && g.clocks[t].sleeping ==> t in g.active
  }

  // ---- decisions ----

  // r is the outcome of a decision of cur among several threads: the least of
  // them is elected if it is waiting or cur itself, and a thread elected is woken
  // unless it was recorded already and nothing was outstanding.
  ghost predicate Elects(b: Group, cur: int, r: (Group, int))
    requires Shaped(b) && Known(b, cur)
  {
    var low := r.0.lowestTid;
    && |r.0.clocks| == |b.clocks| == |r.0.status|
    && -1 <= low < |b.clocks| && -1 <= r.1 < |b.clocks| && r.1 != cur
    && (low >= 0 && low != cur ==> r.1 == low || (r.1 == -1 && low == b.lowestTid && !b.notificationNeeded))
    && (low == cur ==> !r.0.clocks[cur].waiting && !r.0.clocks[cur].sleeping)
    && (r.0.clocks[cur].sleeping ==> b.clocks[cur].sleeping && r.0.clocks[cur].waiting)
    && (forall t :: IsLeast(b, t) && (t == cur || b.clocks[t].waiting) ==> low == t)
    && (forall t :: 0 <= t < |b.clocks| && t != cur ==> r.0.clocks[t] == b.clocks[t] && r.0.status[t] == b.status[t])
  }

  lemma WaitingLeast(b: Group, cur: int)
    requires Consistent(b) && Known(b, cur)
    ensures
      var low := Lowest(Put(b, cur, b.clocks[cur].(waiting := true)));
      -1 <= low < |b.clocks| && forall t :: IsLeast(b, t) ==> low == t
  {
    var g1 := Put(b, cur, b.clocks[cur].(waiting := true));
    assert SameClocks(b, g1);
    SameClocksKeeps(b, g1);
    LowestIsLeast(g1);
  }

  lemma ContendElects(b: Group, cur: int)
    requires Consistent(b) && Known(b, cur) && (cur in b.active || b.clocks[cur].inactive)
    ensures Elects(b, cur, Contend(b, cur))
  {
    WaitingLeast(b, cur);
  }

  lemma DetermineElects(b: Group, cur: int)
    requires Consistent(b) && Known(b, cur) && (cur in b.active || b.clocks[cur].inactive) && !Alone(b, cur)
    ensures Elects(b, cur, Determine(b, cur))
  {
    var g0 := ShowTicks(b, cur);
    SameClocksKeeps(b, g0);
    ContendElects(g0, cur);
  }

  // What a decision of cur leaves behind: h against g before the step, b being the
  // group it decides on.
  ghost predicate Wakes(g: Group, b: Group, cur: int, h: Group)
    requires Shaped(g) && Shaped(b) && Known(g, cur) && |b.clocks| == |g.clocks|
  {
    var low := h.lowestTid;
    && |h.clocks| == |h.status| == |g.clocks| && -1 <= low < |h.clocks|
    && (low >= 0 && low != cur ==> Told(h, low) || (low == g.lowestTid && !g.notificationNeeded))
    && (h.clocks[cur].sleeping ==> h.clocks[cur].waiting && low != cur)
    && (forall t :: IsLeast(b, t) && (t == cur || g.clocks[t].waiting) ==> low == t)
    && (forall t :: 0 <= t < |g.clocks| && t != cur ==>
          h.clocks[t] == g.clocks[t] && (Told(g, t) ==> Told(h, t)))
  }

  // Sending the notification, with or without a last store to cur's entry.
  lemma NotifiedWakes(g: Group, b: Group, cur: int, r: (Group, int), q: Group, e: Entry)
    requires Shaped(g) && Shaped(b) && Known(b, cur) && |b.clocks| == |g.clocks| && Elects(b, cur, r)
    requires b.lowestTid == g.lowestTid && (g.notificationNeeded ==> b.notificationNeeded)
    requires forall t :: 0 <= t < |g.clocks| && t != cur ==> b.clocks[t] == g.clocks[t] && b.status[t] == g.status[t]
    requires q.clocks == r.0.clocks && q.status == r.0.status && q.lowestTid == r.0.lowestTid
    requires e.sleeping ==> e.waiting && r.0.lowestTid != cur
    ensures Wakes(g, b, cur, Notified((Put(q, cur, e), r.1)))
  {
  }

  // The last store of s to the entry of its own thread.
  function LastStore(g: Group, s: Step, r: (Group, int)): Group
    requires Enabled(g, s) && Decides(s) && Known(r.0, s.t)
  {
    var e := r.0.clocks[s.t];
    match s
    case Enable(t) =>
      var q := if r.0.lowestTid == t then r.0.(notificationNeeded := true, nmiNewLow := false) else r.0;
      Put(q, t, Cleared(e))
    case Sleep(t) => Put(r.0, t, if e.waiting then e.(sleeping := true) else e)
    case Halt(t) => Put(r.0, t, e.(waiting := false))
    case _ => r.0
  }

  lemma AppliesLast(g: Group, s: Step)
    requires Enabled(g, s) && Decides(s) && Shaped(Before(g, s)) && Known(Before(g, s), s.t)
    ensures
      var r := Determine(Before(g, s), s.t);
      Known(r.0, s.t) && Apply(g, s) == Notified((LastStore(g, s, r), r.1))
  {
  }

  lemma DecidingWakes(g: Group, s: Step)
    requires Consistent(g) && Enabled(g, s) && Decides(s) && (s.Halt? ==> !g.clocks[s.t].sleeping)
    requires Shaped(Before(g, s)) && Known(Before(g, s), s.t) && !Alone(Before(g, s), s.t)
    ensures |Before(g, s).clocks| == |g.clocks| && Wakes(g, Before(g, s), s.t, Apply(g, s))
  {
    BeforeConsistent(g, s);
    AppliesLast(g, s);
    DetermineElects(Before(g, s), s.t);
    LastStoreWakes(g, s, Before(g, s), Determine(Before(g, s), s.t));
  }

  lemma LastStoreWakes(g: Group, s: Step, b: Group, r: (Group, int))
    requires Shaped(g) && Enabled(g, s) && Decides(s)
    requires Shaped(b) && Known(b, s.t) && |b.clocks| == |g.clocks| && Elects(b, s.t, r)
    requires s.Halt? ==> !b.clocks[s.t].sleeping
    requires b.lowestTid == g.lowestTid && (g.notificationNeeded ==> b.notificationNeeded)
    requires forall t :: 0 <= t < |g.clocks| && t != s.t ==> b.clocks[t] == g.clocks[t] && b.status[t] == g.status[t]
    ensures Wakes(g, b, s.t, Notified((LastStore(g, s, r), r.1)))
  {
    var k := LastStore(g, s, r);
    assert k.clocks == r.0.clocks[s.t := k.clocks[s.t]];
    assert Put(k, s.t, k.clocks[s.t]) == k;
    var q := k.(clocks := r.0.clocks);
    assert Put(q, s.t, k.clocks[s.t]) == k;
    NotifiedWakes(g, b, s.t, r, q, k.clocks[s.t]);
  }

  // A thread that decides on its own is granted the token and does not sleep.
  lemma AloneAwake(g: Group, s: Step)
    requires Consistent(g) && Enabled(g, s) && Decides(s)
    requires Shaped(Before(g, s)) && Known(Before(g, s), s.t) && Alone(Before(g, s), s.t)
    ensures
      var h := Apply(g, s);
      && Shaped(h) && |h.clocks| == |g.clocks| && h.active == g.active == [s.t]
      && !h.clocks[s.t].sleeping && h.status[s.t].lowestClock
      && (h.notificationNeeded ==> s.Enable?)
      && forall t :: 0 <= t < |g.clocks| && t != s.t ==> h.clocks[t] == g.clocks[t]
  {
  }

  lemma DecidingSleepers(g: Group, s: Step, t: int)
    requires Consistent(g) && Enabled(g, s) && Decides(s) && (s.Halt? ==> !g.clocks[s.t].sleeping)
    requires Attentive(g) && SleepersListed(g) && Known(g, t)
    ensures
      var h := Apply(g, s);
      Known(h, t) && (h.clocks[t].sleeping ==> SleeperOk(h, t))
  {
    BeforeConsistent(g, s);
    if Alone(Before(g, s), s.t) {
      AloneAwake(g, s);
    } else {
      DecidingWakes(g, s);
    }
  }

  lemma DecidingLeast(g: Group, s: Step, t: int)
    requires Consistent(g) && Enabled(g, s) && Decides(s) && (s.Halt? ==> !g.clocks[s.t].sleeping)
    requires Attentive(g) && Shaped(Apply(g, s)) && AllAsleep(Apply(g, s)) && IsLeast(Apply(g, s), t)
    ensures Told(Apply(g, s), t)
  {
    var h := Apply(g, s);
    BeforeConsistent(g, s);
    DecidingFrame(g, s);
    SameClocksKeeps(Before(g, s), h);
    if Alone(Before(g, s), s.t) {
      AloneAwake(g, s);
    } else {
      DecidingWakes(g, s);
    }
  }

  lemma DecidingAttends(g: Group, s: Step)
    requires Consistent(g) && Enabled(g, s) && Decides(s) && (s.Halt? ==> !g.clocks[s.t].sleeping)
    requires Attentive(g) && SleepersListed(g)
    ensures Shaped(Apply(g, s)) && Attentive(Apply(g, s))
  {
    StepKeepsConsistent(g, s);
    var h := Apply(g, s);
    forall t | 0 <= t < |h.clocks| && h.clocks[t].sleeping
      ensures SleeperOk(h, t)
    {
      DecidingSleepers(g, s, t);
    }
    forall t | AllAsleep(h) && IsLeast(h, t)
      ensures Told(h, t)
    {
      DecidingLeast(g, s, t);
    }
  }

  // ---- the other steps ----

  // From g to h nobody falls asleep or is forgotten while asleep.
  ghost predicate Calm(g: Group, h: Group) {
    && |h.clocks| == |h.status| == |g.clocks| == |g.status|
    && forall t :: 0 <= t < |g.clocks| && h.clocks[t].sleeping ==>
         && g.clocks[t].sleeping && h.clocks[t].waiting == g.clocks[t].waiting && (Told(g, t) ==> Told(h, t))
         && (h.lowestTid == t && !h.notificationNeeded ==> g.lowestTid == t && !g.notificationNeeded)
  }

  lemma CalmAttends(g: Group, h: Group)
    requires Shaped(g) && Shaped(h) && Attentive(g) && Calm(g, h)
    requires AllAsleep(h) ==> forall t :: IsLeast(h, t) ==> Told(h, t)
    ensures Attentive(h)
  {
  }

  lemma RouseCalm(g: Group, c: int, u: int)
    requires Shaped(g) && Known(g, c) && Known(g, u) && -1 <= g.lowestTid < |g.clocks|
    ensures Calm(g, Rouse(g, c, u))
  {
  }

  lemma ReturnCalm(g: Group, p: int)
    requires Shaped(g) && Known(g, p) && -1 <= g.lowestTid < |g.clocks|
    ensures Calm(g, Return(g, p))
  {
  }

  lemma {:induction false} RouseAllCalm(g: Group, c: int, us: seq<int>)
    requires Shaped(g) && Known(g, c) && -1 <= g.lowestTid < |g.clocks|
    requires forall u :: u in us ==> 0 <= u < |g.clocks|
    ensures Calm(g, RouseAll(g, c, us))
    decreases |us|
  {
    if us != [] {
      assert us[0] in us && forall u :: u in us[1..] ==> u in us;
      RouseCalm(g, c, us[0]);
      RouseAllCalm(Rouse(g, c, us[0]), c, us[1..]);
    }
  }

  lemma {:induction false} ReturnAllCalm(g: Group, ps: seq<int>)
    requires Shaped(g) && -1 <= g.lowestTid < |g.clocks|
    requires forall p :: p in ps ==> 0 <= p < |g.clocks|
    ensures Calm(g, ReturnAll(g, ps))
    decreases |ps|
  {
    if ps != [] {
      assert ps[0] in ps && forall p :: p in ps[1..] ==> p in ps;
      ReturnCalm(g, ps[0]);
      ReturnAllCalm(Return(g, ps[0]), ps[1..]);
    }
  }

  // A listed thread that is not polling keeps the others company.
  lemma OneAwake(v: World, t: int)
    requires Good(v) && t in v.g.active && !v.phase[t].Poll?
    ensures !AllAsleep(v.g)
  {
    assert PlaceOk(v, t);
  }

  lemma GoodListed(w: World)
    requires Good(w)
    ensures SleepersListed(w.g)
  {
    forall t | 0 <= t < |w.g.clocks| && w.g.clocks[t].sleeping
      ensures t in w.g.active
    {
      assert PlaceOk(w, t);
    }
  }

  // The deferred notification records a lowest thread even when neither of its
  // flags is up any more, and then tells it nothing: that is wrong if the thread
  // sleeps and has not been told.
  predicate Silent(g: Group)
    requires Shaped(g)
  {
    var low := LowestWaiting(g);
    !g.notificationNeeded && !g.nmiNewLow && low >= 0 && g.clocks[low].sleeping && !Told(g, low)
  }

  // A notification keeps what is owed if and only if it is not silent.
  lemma NotifyAttends(g: Group)
    requires Consistent(g) && Attentive(g)
    ensures Shaped(Clocks.Notify(g))
    ensures Attentive(Clocks.Notify(g)) <==> !Silent(g)
  {
    var h := Clocks.Notify(g);
    NotifyFrame(g);
    SameClocksKeeps(g, h);
    if Silent(g) {
      assert !SleeperOk(h, LowestWaiting(g));
    }
  }

  lemma SysAttends(w: World, s: Step)
    requires Good(w) && Attentive(w.g) && CanAct(w, Sys(s))
    requires s.Notify? ==> !Silent(w.g)
    ensures Shaped(Act(w, Sys(s)).g) && Attentive(Act(w, Sys(s)).g)
  {
    var v := Act(w, Sys(s));
    GoodListed(w);
    if Decides(s) {
      DecidingAttends(w.g, s);
    } else if s.Notify? {
      NotifyAttends(w.g);
    } else {
      StepKeepsConsistent(w.g, s);
      assert PlaceOk(w, s.t);
      if !s.Reset? {
        SysKeeps(w, s);
        OneAwake(v, s.t);
      }
      CalmAttends(w.g, v.g);
    }
  }

  predicate Joins(a: Action) {
    a.Spawn? || a.Signal? || a.Broadcast? || a.JoinReturn? || a.BarrierReturn?
  }

  lemma JoinsCalm(w: World, a: Action)
    requires CanAct(w, a) && Joins(a)
    ensures Calm(w.g, Act(w, a).g)
  {
    match a
    case Spawn(t, u) => RouseCalm(w.g, t, u);
    case Signal(t, u) => RouseCalm(w.g, t, u);
    case Broadcast(t, us) => RouseAllCalm(w.g, t, us);
    case JoinReturn(_, p) => ReturnCalm(w.g, p);
    case BarrierReturn(_, ps) => ReturnAllCalm(w.g, ps);
  }

  lemma JoinsAttend(w: World, a: Action)
    requires Good(w) && Attentive(w.g) && CanAct(w, a) && Joins(a) && Good(Act(w, a))
    ensures Attentive(Act(w, a).g)
  {
    JoinsCalm(w, a);
    assert a.t in Act(w, a).g.active;
    OneAwake(Act(w, a), a.t);
    CalmAttends(w.g, Act(w, a).g);
  }

  // Every harmless action keeps what is owed, a notification if it is not silent.
  lemma ActionAttends(w: World, a: Action)
    requires Good(w) && Attentive(w.g) && CanAct(w, a) && Harmless(w, a)
    requires a == Sys(Step.Notify) ==> !Silent(w.g)
    ensures Good(Act(w, a)) && Attentive(Act(w, a).g)
  {
    var v := Act(w, a);
    ActionKeeps(w, a);
    GoodListed(w);
    if a.Sys? {
      SysAttends(w, a.s);
    } else if Joins(a) {
      JoinsAttend(w, a);
    } else {
      assert PlaceOk(w, a.t);
      if a.BeginSync? {
        DecidingAttends(w.g, Step.Stop(a.t, a.n));
      } else if a.HaltSelf? {
        DecidingAttends(w.g, Step.Halt(a.t));
      } else if a.Observe? || a.Fail? {
        OneAwake(v, a.t);
        CalmAttends(w.g, v.g);
      }
    }
  }

  // ---- a queued notification is not silent ----

  // The two flags and lowest_tid after a decision of cur among several threads.
  lemma DetermineFlags(b: Group, cur: int)
    requires Consistent(b) && Known(b, cur) && (cur in b.active || b.clocks[cur].inactive) && !Alone(b, cur)
    ensures
      var h := Determine(b, cur).0;
      var low := h.lowestTid;
      && (low == -1 ==>
            h.nmiNewLow == b.nmiNewLow && (b.notificationNeeded || b.lowestTid != -1 ==> h.notificationNeeded))
      && (low >= 0 ==> !h.notificationNeeded && Known(b, low) && (low == cur || b.clocks[low].waiting))
  {
  }

  lemma DecidingFlags(g: Group, s: Step)
    requires Consistent(g) && Enabled(g, s) && Decides(s)
    requires Shaped(Before(g, s)) && Known(Before(g, s), s.t) && !Alone(Before(g, s), s.t)
    ensures
      var h := Apply(g, s);
      var low := h.lowestTid;
      && (low == -1 ==>
            h.nmiNewLow == g.nmiNewLow && (g.notificationNeeded || g.lowestTid != -1 ==> h.notificationNeeded))
      && (low >= 0 ==> Shaped(h) && IsLeast(h, low) && (low == s.t || g.clocks[low].waiting))
      && (low >= 0 ==> (h.notificationNeeded <==> s.Enable? && low == s.t))
  {
    var b := Before(g, s);
    BeforeConsistent(g, s);
    AppliesLast(g, s);
    DetermineFlags(b, s.t);
    DecidingFrame(g, s);
    SameClocksKeeps(b, Apply(g, s));
  }

  // A thread that counts is out of __getToken and not waiting, and one that has
  // seen its flag is not waiting any more.
  predicate TidyAt(w: World, x: int)
    requires Fits(w) && Known(w.g, x)
  {
    && (w.g.clocks[x].counting ==> w.phase[x].Run? && !w.g.clocks[x].waiting)
    && (w.phase[x].Seen? || w.phase[x].Cased? ==> !w.g.clocks[x].waiting)
  }

  // The thread whose processor has the notification to run is active and has not
  // taken the token since.
  predicate QueuedOk(w: World)
    requires Fits(w)
  {
    w.queued != NONE ==> w.queued in w.g.active && !w.phase[w.queued].Hold?
  }

  // Whoever could come to wait below the recorded thread without a decision, or
  // sleeps untold.
  predicate Restless(g: Group, x: int)
    requires Known(g, x)
  {
    g.clocks[x].counting || (g.clocks[x].sleeping && !Told(g, x))
  }

  // A thread on the list is recorded, and no one restless is at or below it.
  ghost predicate Anchored(g: Group)
    requires Shaped(g)
  {
    g.lowestTid in g.active && forall x :: x in g.active && Restless(g, x) ==> Lower(g, g.lowestTid, x)
  }

  // While a notification is queued, one of its flags is up, or nobody can have come
  // to need it unnoticed.
  ghost predicate Watched(w: World)
    requires Fits(w)
  {
    w.queued != NONE ==>
      w.g.notificationNeeded || w.g.nmiNewLow || Anchored(w.g) || w.g.active == [w.queued]
  }

  // A thread has been recorded as the lowest that went on to count.
  predicate Outstanding(g: Group) { g.notificationNeeded && g.lowestTid >= 0 }

  // x holds the token and has done nothing yet.
  predicate BareHold(w: World, x: int)
    requires 0 <= x < |w.phase|
  {
    w.bare && w.phase[x].Hold?
  }

  // Who is at the start of an operation is still the least.
  ghost predicate BareLeast(w: World, x: int) {
    Fits(w) && Known(w.g, x) && (BareHold(w, x) ==> IsLeast(w.g, x) && !w.g.clocks[x].waiting)
  }

  // No one who is, or has a usable grant, is there while something is outstanding.
  ghost predicate SettledAt(w: World, x: int)
    requires Fits(w) && Known(w.g, x)
  {
    BareLeast(w, x) && (Armed(w, x) || BareHold(w, x) ==> !Outstanding(w.g))
  }

  ghost predicate Sound(w: World) {
    && Good(w) && Attentive(w.g) && QueuedOk(w) && Watched(w)
    && (forall x :: 0 <= x < |w.phase| ==> TidyAt(w, x))
    && (forall x :: 0 <= x < |w.phase| ==> SettledAt(w, x))
  }

  lemma SilentRestless(g: Group, q: int)
    requires Consistent(g) && Silent(g)
    ensures
      var low := LowestWaiting(g);
      IsLeast(g, low) && Restless(g, low) && (g.active == [q] ==> AllAsleep(g))
  {
    LowestIsLeast(g);
    assert LowestWaiting(g) in g.active;
  }

  // So the notification, when it runs, finds a flag up or tells whom it records.
  lemma NeverSilent(w: World)
    requires Sound(w) && w.queued != NONE
    ensures !Silent(w.g)
  {
    if Silent(w.g) {
      SilentRestless(w.g, w.queued);
    }
  }

  // ---- decisions keep it ----

  // a is the decision s.
  predicate IsDecision(w: World, a: Action, s: Step)
    requires CanAct(w, a)
  {
    && Decides(s)
    && (a == Sys(s) || (a.BeginSync? && s == Step.Stop(a.t, a.n)) || (a.HaltSelf? && s == Step.Halt(a.t)))
  }

  lemma DecisionApplies(w: World, a: Action, s: Step)
    requires Good(w) && CanAct(w, a) && IsDecision(w, a, s)
    ensures Enabled(w.g, s) && Act(w, a).g == Apply(w.g, s) && Known(w.g, s.t)
    ensures s.Halt? ==> !w.g.clocks[s.t].sleeping
    ensures Shaped(Before(w.g, s)) && Known(Before(w.g, s), s.t)
    ensures Act(w, a).queued == w.queued
  {
    assert PlaceOk(w, if a.Sys? then s.t else a.t);
    BeforeConsistent(w.g, s);
  }

  lemma OwnCounting(g: Group, s: Step)
    requires Consistent(g) && Enabled(g, s) && Decides(s)
    ensures Known(Apply(g, s), s.t)
    ensures Apply(g, s).clocks[s.t].counting ==> !s.Stop? && !s.Disable? && (s.Enable? || g.clocks[s.t].counting)
    ensures s.Enable? ==> !Apply(g, s).clocks[s.t].waiting
  {
    BeforeConsistent(g, s);
    AppliesLast(g, s);
    DecidingFrame(g, s);
  }

  lemma OthersSame(g: Group, s: Step, x: int)
    requires Consistent(g) && Enabled(g, s) && Decides(s) && (s.Halt? ==> !g.clocks[s.t].sleeping)
    requires Known(g, x) && x != s.t
    ensures Known(Apply(g, s), x) && Apply(g, s).clocks[x] == g.clocks[x]
  {
    BeforeConsistent(g, s);
    if Alone(Before(g, s), s.t) {
      AloneAwake(g, s);
    } else {
      DecidingWakes(g, s);
    }
  }

  lemma DecisionTidy(w: World, a: Action, s: Step, x: int)
    requires Good(w) && CanAct(w, a) && IsDecision(w, a, s) && 0 <= x < |w.phase| && TidyAt(w, x)
    ensures Fits(Act(w, a)) && TidyAt(Act(w, a), x)
  {
    DecisionApplies(w, a, s);
    ActionKeeps(w, a);
    if x == s.t {
      OwnCounting(w.g, s);
    } else {
      OthersSame(w.g, s, x);
    }
  }

  // A thread that decides among several is not alone with the interrupted one.
  lemma NotSole(w: World, a: Action, s: Step)
    requires Good(w) && QueuedOk(w) && CanAct(w, a) && IsDecision(w, a, s)
    requires Known(Before(w.g, s), s.t) && !Alone(Before(w.g, s), s.t) && w.queued != NONE
    ensures w.g.active != [w.queued]
  {
  }

  // After a decision that leaves no flag up, the elected thread is not restless.
  lemma ElectedRests(w: World, a: Action, s: Step)
    requires Good(w) && CanAct(w, a) && IsDecision(w, a, s) && Good(Act(w, a)) && Attentive(Act(w, a).g)
    requires Known(Before(w.g, s), s.t) && !Alone(Before(w.g, s), s.t)
    requires forall x :: 0 <= x < |w.phase| ==> TidyAt(w, x)
    ensures
      var h := Act(w, a).g;
      var low := h.lowestTid;
      low >= 0 && !h.notificationNeeded ==> Known(h, low) && !Restless(h, low)
  {
    DecisionApplies(w, a, s);
    DecidingFlags(w.g, s);
    OwnCounting(w.g, s);
    var low := Act(w, a).g.lowestTid;
    if low >= 0 {
      assert TidyAt(w, low);
      if low != s.t { OthersSame(w.g, s, low); }
    }
  }

  lemma DecisionWatched(w: World, a: Action, s: Step)
    requires Sound(w) && CanAct(w, a) && IsDecision(w, a, s)
    requires Good(Act(w, a)) && Attentive(Act(w, a).g)
    ensures Watched(Act(w, a))
  {
    DecisionApplies(w, a, s);
    if Alone(Before(w.g, s), s.t) {
      AloneAwake(w.g, s);
    } else if w.queued != NONE {
      NotSole(w, a, s);
      DecidingFlags(w.g, s);
      ElectedRests(w, a, s);
    }
  }

  // Only a thread that starts to count leaves something outstanding, and it is the
  // least.
  lemma DecisionOutstanding(w: World, a: Action, s: Step)
    requires Good(w) && CanAct(w, a) && IsDecision(w, a, s) && Good(Act(w, a))
    ensures Outstanding(Act(w, a).g) ==> s.Enable? && IsLeast(Act(w, a).g, s.t)
  {
    DecisionApplies(w, a, s);
    if Alone(Before(w.g, s), s.t) {
      AloneAwake(w.g, s);
    } else {
      DecidingFlags(w.g, s);
    }
  }

  lemma DecisionArmed(w: World, a: Action, s: Step, x: int)
    requires Good(w) && CanAct(w, a) && IsDecision(w, a, s) && Good(Act(w, a)) && 0 <= x < |w.phase|
    ensures Armed(Act(w, a), x) ==> !Outstanding(Act(w, a).g)
  {
    DecisionOutstanding(w, a, s);
    LowestIsLeast(Act(w, a).g);
  }

  lemma OtherLeast(g: Group, s: Step, x: int)
    requires Consistent(g) && Enabled(g, s) && Decides(s) && (s.Halt? ==> !g.clocks[s.t].sleeping)
    requires IsLeast(g, x) && x != s.t && !g.clocks[x].waiting
    ensures Shaped(Apply(g, s)) && IsLeast(Apply(g, s), x) && !Apply(g, s).clocks[x].waiting
  {
    StepKept(g, s, x);
    OthersSame(g, s, x);
  }

  lemma DecisionBare(w: World, a: Action, s: Step, x: int)
    requires Good(w) && BareLeast(w, x) && CanAct(w, a) && IsDecision(w, a, s) && Good(Act(w, a))
    ensures BareLeast(Act(w, a), x) && (BareHold(Act(w, a), x) ==> x != s.t)
  {
    DecisionApplies(w, a, s);
    if x != s.t && BareHold(w, x) {
      OtherLeast(w.g, s, x);
    }
  }

  lemma DecisionSettled(w: World, a: Action, s: Step, x: int)
    requires Good(w) && 0 <= x < |w.phase| && SettledAt(w, x)
    requires CanAct(w, a) && IsDecision(w, a, s) && Good(Act(w, a))
    ensures SettledAt(Act(w, a), x)
  {
    DecisionArmed(w, a, s, x);
    DecisionBare(w, a, s, x);
    DecisionOutstanding(w, a, s);
    LowestIsLeast(Act(w, a).g);
  }

  // ---- stores to a thread's own entry and page ----

  // Everything but t's own entry and page is as it was, lowest_tid included.
  ghost predicate OwnStore(g: Group, h: Group, t: int) {
    && Known(g, t) && Known(h, t)
    && h.clocks == g.clocks[t := h.clocks[t]] && h.status == g.status[t := h.status[t]]
    && h.active == g.active && h.lowestTid == g.lowestTid && h.notificationNeeded == g.notificationNeeded
    && Clock(h, t) >= Clock(g, t) && (Clock(h, t) > Clock(g, t) ==> g.clocks[t].counting)
    && (h.clocks[t].counting ==> g.clocks[t].counting)
    && (h.clocks[t].waiting ==> g.clocks[t].waiting) && (h.clocks[t].sleeping ==> g.clocks[t].sleeping)
    && (g.nmiNewLow ==> h.nmiNewLow)
  }

  predicate Stores(a: Action) {
    a.Observe? || a.Fail? ||
    (a.Sys? && (a.s.EntryInit? || a.s.Overflow? || a.s.OverflowCheck? || a.s.Forget? || a.s.Reset?))
  }

  function Actor(a: Action): int
    requires a.Sys? ==> !a.s.Notify?
  {
    if a.Sys? then a.s.t else a.t
  }

  lemma SysStores(w: World, s: Step)
    requires Good(w) && CanAct(w, Sys(s)) && Stores(Sys(s))
    ensures OwnStore(w.g, Apply(w.g, s), s.t) && !w.phase[s.t].Hold?
  {
  }

  lemma StoreOwn(w: World, a: Action)
    requires Good(w) && CanAct(w, a) && Stores(a)
    ensures OwnStore(w.g, Act(w, a).g, Actor(a))
    ensures Act(w, a).phase == w.phase[Actor(a) := Act(w, a).phase[Actor(a)]]
    ensures Act(w, a).bare == w.bare && Act(w, a).counter == w.counter
    ensures !w.phase[Actor(a)].Hold? && !Act(w, a).phase[Actor(a)].Hold?
  {
    if a.Sys? {
      SysStores(w, a.s);
    }
  }

  lemma StoreTidy(w: World, a: Action, x: int)
    requires Good(w) && CanAct(w, a) && Stores(a) && 0 <= x < |w.phase| && TidyAt(w, x) && Fits(Act(w, a))
    ensures TidyAt(Act(w, a), x)
  {
  }

  // A store cannot make its thread restless, nor bring it below the anchor.
  lemma StoreAnchored(w: World, a: Action)
    requires Good(w) && CanAct(w, a) && Stores(a) && Good(Act(w, a)) && Anchored(w.g)
    ensures Anchored(Act(w, a).g)
  {
    var h, t := Act(w, a).g, Actor(a);
    StoreOwn(w, a);
    assert PlaceOk(w, t);
    forall x | x in h.active && Restless(h, x)
      ensures Lower(h, h.lowestTid, x)
    {
      assert x != t ==> Restless(w.g, x);
    }
  }

  lemma StoreQueued(w: World, a: Action)
    requires Good(w) && QueuedOk(w) && Watched(w) && CanAct(w, a) && Stores(a) && Good(Act(w, a))
    ensures QueuedOk(Act(w, a)) && Watched(Act(w, a))
  {
    StoreOwn(w, a);
    assert PlaceOk(w, Actor(a));
    if Anchored(w.g) {
      StoreAnchored(w, a);
    }
  }

  lemma StoreSettled(w: World, a: Action, x: int)
    requires Good(w) && 0 <= x < |w.phase| && SettledAt(w, x) && CanAct(w, a) && Stores(a) && Good(Act(w, a))
    ensures SettledAt(Act(w, a), x)
  {
    StoreOwn(w, a);
    var t := Actor(a);
    assert PlaceOk(w, x);
    if x != t {
      OwnStoreKept(w.g, Act(w, a).g, t, x);
    }
  }

  // ---- the notification and the steps in user space ----

  lemma NotifySound(w: World)
    requires Sound(w) && CanAct(w, Sys(Step.Notify))
    ensures
      var v := Act(w, Sys(Step.Notify));
      && Fits(v) && QueuedOk(v) && Watched(v)
      && forall x :: 0 <= x < |v.phase| ==> TidyAt(v, x) && SettledAt(v, x)
  {
    var v := Act(w, Sys(Step.Notify));
    NotifyFrame(w.g);
    SameClocksKeeps(w.g, v.g);
    forall x | 0 <= x < |v.phase|
      ensures TidyAt(v, x) && SettledAt(v, x)
    {
      assert TidyAt(w, x) && SettledAt(w, x);
    }
  }

  predicate InUser(a: Action) {
    a.GoPoll? || a.Cas? || a.Check? || a.Release?
  }

  lemma UserQueued(w: World, a: Action)
    requires Good(w) && QueuedOk(w) && Watched(w) && CanAct(w, a) && InUser(a)
    ensures QueuedOk(Act(w, a)) && Watched(Act(w, a))
  {
  }

  lemma UserSettled(w: World, a: Action, x: int)
    requires Good(w) && 0 <= x < |w.phase| && SettledAt(w, x) && TidyAt(w, x) && CanAct(w, a) && InUser(a)
    requires a.Check? ==> SettledAt(w, a.t)
    ensures TidyAt(Act(w, a), x) && SettledAt(Act(w, a), x)
  {
    assert PlaceOk(w, x) && PlaceOk(w, a.t);
    if a.Check? {
      assert Armed(w, a.t) && Backed(w, a.t);
    }
  }

  // ---- activations ----

  // h is g with the threads us put on the list, awake.
  ghost predicate Listed(g: Group, h: Group, us: seq<int>) {
    && |h.clocks| == |h.status| == |g.clocks| == |g.status| && h.nmiNewLow == g.nmiNewLow
    && h.active == g.active + us
    && forall x :: 0 <= x < |g.clocks| ==>
         if x in us then h.clocks[x].counting == g.clocks[x].counting && !h.clocks[x].waiting && !h.clocks[x].sleeping
         else h.clocks[x] == g.clocks[x] && h.status[x].lowestClock == g.status[x].lowestClock
              && h.status[x].polled == g.status[x].polled
  }

  lemma ListedMore(g: Group, h: Group, k: Group, u: int, us: seq<int>)
    requires Listed(g, h, [u]) && Listed(h, k, us)
    ensures Listed(g, k, [u] + us)
  {
  }

  lemma RouseListed(g: Group, c: int, u: int)
    requires Shaped(g) && Known(g, c) && Known(g, u) && -1 <= g.lowestTid < |g.clocks|
    ensures Listed(g, Rouse(g, c, u), [u])
    ensures Rouse(g, c, u).notificationNeeded == g.notificationNeeded
  {
  }

  lemma ReturnListed(g: Group, p: int)
    requires Shaped(g) && Known(g, p) && -1 <= g.lowestTid < |g.clocks|
    ensures Listed(g, Return(g, p), [p])
    ensures Return(g, p).notificationNeeded ==> g.notificationNeeded && Return(g, p).lowestTid == g.lowestTid
    ensures Return(g, p).status[p].lowestClock ==> !Return(g, p).notificationNeeded
  {
  }

  lemma {:induction false} RouseAllListed(g: Group, c: int, us: seq<int>)
    requires Shaped(g) && Known(g, c) && -1 <= g.lowestTid < |g.clocks|
    requires forall u :: u in us ==> 0 <= u < |g.clocks|
    ensures Listed(g, RouseAll(g, c, us), us)
    ensures RouseAll(g, c, us).notificationNeeded == g.notificationNeeded
    decreases |us|
  {
    if us != [] {
      assert us[0] in us && forall u :: u in us[1..] ==> u in us;
      assert [us[0]] + us[1..] == us;
      RouseListed(g, c, us[0]);
      RouseAllListed(Rouse(g, c, us[0]), c, us[1..]);
      ListedMore(g, Rouse(g, c, us[0]), RouseAll(g, c, us), us[0], us[1..]);
    }
  }

  lemma {:induction false} ReturnAllListed(g: Group, ps: seq<int>)
    requires Shaped(g) && -1 <= g.lowestTid < |g.clocks|
    requires forall p :: p in ps ==> 0 <= p < |g.clocks|
    ensures Listed(g, ReturnAll(g, ps), ps)
    ensures ReturnAll(g, ps).notificationNeeded ==> g.notificationNeeded && ReturnAll(g, ps).lowestTid == g.lowestTid
    decreases |ps|
  {
    if ps != [] {
      assert ps[0] in ps && forall p :: p in ps[1..] ==> p in ps;
      assert [ps[0]] + ps[1..] == ps;
      ReturnListed(g, ps[0]);
      ReturnAllListed(Return(g, ps[0]), ps[1..]);
      ListedMore(g, Return(g, ps[0]), ReturnAll(g, ps), ps[0], ps[1..]);
    }
  }

  // What a return cannot undo: a flag that no return takes down, an anchor, or no
  // thread recorded.
  ghost predicate Afloat(g: Group)
    requires Shaped(g)
  {
    g.nmiNewLow || Anchored(g) || (g.notificationNeeded && g.lowestTid == -1)
  }

  lemma ReturnAfloat(g: Group, p: int)
    requires Consistent(g) && Known(g, p) && p !in g.active && g.clocks[p].initialized && !g.clocks[p].counting
    requires Afloat(g)
    ensures Afloat(Return(g, p))
  {
    var h := Return(g, p);
    ReturnListed(g, p);
    ReturnJoins(g, p);
    ReturnGrants(g, p);
    if !g.nmiNewLow && Anchored(g) {
      ReturnAnchored(g, p);
    }
  }

  lemma ReturnAnchored(g: Group, p: int)
    requires Consistent(g) && Known(g, p) && p !in g.active && g.clocks[p].initialized && !g.clocks[p].counting
    requires Anchored(g)
    ensures Anchored(Return(g, p))
  {
  }

  lemma {:induction false} ReturnAllAfloat(g: Group, ps: seq<int>)
    requires Consistent(g) && Idle(g, ps) && Afloat(g)
    requires forall p :: p in ps ==> !g.clocks[p].counting
    ensures Shaped(ReturnAll(g, ps)) && Afloat(ReturnAll(g, ps))
    decreases |ps|
  {
    if ps != [] {
      var p, h := ps[0], Return(g, ps[0]);
      assert p in ps && ps[..1] == [p];
      ReturnJoins(g, p);
      ReturnListed(g, p);
      ReturnAfloat(g, p);
      RestIdle(g, h, ps);
      ReturnAllAfloat(h, ps[1..]);
    }
  }

  function Entrants(a: Action): seq<int> {
    if a.Spawn? then [a.u] else Joiners(a)
  }

  lemma JoinsListed(w: World, a: Action)
    requires CanAct(w, a) && Joins(a)
    ensures
      var v := Act(w, a);
      && Listed(w.g, v.g, Entrants(a))
      && (v.g.notificationNeeded ==> w.g.notificationNeeded && v.g.lowestTid == w.g.lowestTid)
  {
    match a
    case Spawn(t, u) => RouseListed(w.g, t, u);
    case Signal(t, u) => RouseListed(w.g, t, u);
    case Broadcast(t, us) => RouseAllListed(w.g, t, us);
    case JoinReturn(_, p) => ReturnListed(w.g, p);
    case BarrierReturn(_, ps) => ReturnAllListed(w.g, ps);
  }

  lemma JoinsPlaces(w: World, a: Action, x: int)
    requires Good(w) && CanAct(w, a) && Joins(a) && 0 <= x < |w.phase|
    ensures |Act(w, a).phase| == |w.phase| && Act(w, a).queued == w.queued && !Act(w, a).bare
    ensures
      var q := Act(w, a).phase[x];
      if x in Entrants(a) then w.phase[x].Off? && (q.Spin? || q.Run?) && x !in w.g.active else q == w.phase[x]
    ensures x == a.t ==> x in w.g.active && w.phase[x].Hold?
  {
  }

  lemma JoinsTidy(w: World, a: Action, x: int)
    requires Good(w) && CanAct(w, a) && Joins(a) && 0 <= x < |w.phase| && TidyAt(w, x) && Fits(Act(w, a))
    ensures TidyAt(Act(w, a), x)
  {
    JoinsListed(w, a);
    JoinsPlaces(w, a, x);
  }

  lemma EntrantUnarmed(w: World, a: Action, x: int)
    requires Good(w) && CanAct(w, a) && Joins(a) && x in Entrants(a) && Good(Act(w, a))
    ensures 0 <= x < |w.phase| && (Armed(Act(w, a), x) ==> !Act(w, a).g.notificationNeeded)
  {
    match a {
      case Spawn(t, u) => RouseJoins(w.g, t, u);
      case Signal(t, u) => RouseJoins(w.g, t, u);
      case Broadcast(t, us) => BroadcastJoins(w, t, us);
      case JoinReturn(_, p) => ReturnListed(w.g, p);
      case BarrierReturn(_, _) =>
    }
    assert PlaceOk(w, x);
  }

  lemma BystanderUnarmed(w: World, a: Action, x: int)
    requires Good(w) && CanAct(w, a) && Joins(a) && 0 <= x < |w.phase| && x !in Entrants(a) && Good(Act(w, a))
    ensures Armed(Act(w, a), x) ==> Armed(w, x)
  {
    JoinsListed(w, a);
    JoinsPlaces(w, a, x);
    assert PlaceOk(w, x);
  }

  lemma JoinsSettled(w: World, a: Action, x: int)
    requires Good(w) && 0 <= x < |w.phase| && SettledAt(w, x)
    requires CanAct(w, a) && Joins(a) && Good(Act(w, a))
    ensures SettledAt(Act(w, a), x)
  {
    JoinsListed(w, a);
    JoinsPlaces(w, a, x);
    if x in Entrants(a) {
      EntrantUnarmed(w, a, x);
    } else {
      BystanderUnarmed(w, a, x);
    }
  }

  // While the holder activates, the interrupted thread is not alone on the list.
  lemma JoinsCompany(w: World, a: Action)
    requires Good(w) && QueuedOk(w) && CanAct(w, a) && Joins(a) && w.queued != NONE
    ensures w.g.active != [w.queued] && w.queued in Act(w, a).g.active && !Act(w, a).phase[w.queued].Hold?
  {
  }

  lemma RouseAnchored(g: Group, h: Group, us: seq<int>)
    requires Shaped(g) && Shaped(h) && Listed(g, h, us) && h.lowestTid == g.lowestTid && Anchored(g)
    requires forall u :: u in us ==> Known(g, u) && u !in g.active && !g.clocks[u].counting
    requires forall x :: 0 <= x < |g.clocks| && x !in us ==> Clock(h, x) == Clock(g, x)
    ensures Anchored(h)
  {
  }

  // Rousing leaves the flags, lowest_tid and the other clocks alone.
  lemma RouseFrame(w: World, a: Action)
    requires Good(w) && CanAct(w, a) && (a.Spawn? || a.Signal? || a.Broadcast?)
    ensures
      var h := Act(w, a).g;
      && h.lowestTid == w.g.lowestTid && h.notificationNeeded == w.g.notificationNeeded
      && |h.clocks| == |w.g.clocks| == |h.status|
      && forall x :: 0 <= x < |w.g.clocks| && x !in Entrants(a) ==> Clock(h, x) == Clock(w.g, x)
  {
    match a
    case Spawn(t, u) => RouseJoins(w.g, t, u); RouseListed(w.g, t, u);
    case Signal(t, u) => RouseJoins(w.g, t, u); RouseListed(w.g, t, u);
    case Broadcast(t, us) => BroadcastJoins(w, t, us); RouseAllListed(w.g, t, us);
  }

  lemma RouseAfloat(w: World, a: Action)
    requires Sound(w) && CanAct(w, a) && (a.Spawn? || a.Signal? || a.Broadcast?) && Good(Act(w, a)) && w.queued != NONE
    ensures
      var h := Act(w, a).g;
      h.notificationNeeded || h.nmiNewLow || Anchored(h)
  {
    JoinsListed(w, a);
    JoinsCompany(w, a);
    RouseFrame(w, a);
    if Anchored(w.g) {
      forall u | u in Entrants(a)
        ensures Known(w.g, u) && u !in w.g.active && !w.g.clocks[u].counting
      {
        assert TidyAt(w, u);
      }
      RouseAnchored(w.g, Act(w, a).g, Entrants(a));
    }
  }

  lemma BarrierAfloat(w: World, t: int, ps: seq<int>)
    requires Sound(w) && CanAct(w, BarrierReturn(t, ps)) && w.queued != NONE
    ensures
      var h := Act(w, BarrierReturn(t, ps)).g;
      Shaped(h) && Afloat(h)
  {
    JoinsCompany(w, BarrierReturn(t, ps));
    assert SettledAt(w, t) && BareHold(w, t);
    assert Idle(w.g, ps);
    forall p | p in ps
      ensures !w.g.clocks[p].counting
    {
      assert TidyAt(w, p);
    }
    ReturnAllAfloat(w.g, ps);
  }

  lemma JoinAfloat(w: World, t: int, p: int)
    requires Sound(w) && CanAct(w, JoinReturn(t, p)) && Harmless(w, JoinReturn(t, p)) && w.queued != NONE
    ensures
      var h := Act(w, JoinReturn(t, p)).g;
      Shaped(h) && (h.notificationNeeded || h.nmiNewLow || Anchored(h))
  {
    var h := Act(w, JoinReturn(t, p)).g;
    JoinsCompany(w, JoinReturn(t, p));
    assert TidyAt(w, p);
    ReturnJoins(w.g, p);
    ReturnListed(w.g, p);
    ReturnGrants(w.g, p);
    if Anchored(w.g) {
      ReturnAnchored(w.g, p);
    }
  }

  lemma JoinsWatched(w: World, a: Action)
    requires Sound(w) && CanAct(w, a) && Joins(a) && Harmless(w, a) && Good(Act(w, a))
    ensures QueuedOk(Act(w, a)) && Watched(Act(w, a))
  {
    if w.queued != NONE {
      JoinsCompany(w, a);
      match a
      case JoinReturn(t, p) => JoinAfloat(w, t, p);
      case BarrierReturn(t, ps) => BarrierAfloat(w, t, ps);
      case _ => RouseAfloat(w, a);
    }
  }

  // ---- runs ----

  // The places and the settled state after any action, thread by thread.
  lemma ActionAt(w: World, a: Action, s: Step, x: int)
    requires Sound(w) && CanAct(w, a) && Good(Act(w, a)) && 0 <= x < |w.phase|
    requires IsDecision(w, a, s) || Stores(a) || InUser(a) || Joins(a)
    ensures TidyAt(Act(w, a), x) && SettledAt(Act(w, a), x)
  {
    assert TidyAt(w, x) && SettledAt(w, x);
    if IsDecision(w, a, s) {
      DecisionTidy(w, a, s, x);
      DecisionSettled(w, a, s, x);
    } else if Stores(a) {
      StoreTidy(w, a, x);
      StoreSettled(w, a, x);
    } else if InUser(a) {
      assert SettledAt(w, if a.Check? then a.t else x);
      UserSettled(w, a, x);
    } else {
      JoinsTidy(w, a, x);
      JoinsSettled(w, a, x);
    }
  }

  lemma DecisionQueued(w: World, a: Action, s: Step)
    requires Good(w) && QueuedOk(w) && CanAct(w, a) && IsDecision(w, a, s) && Good(Act(w, a))
    ensures QueuedOk(Act(w, a))
  {
    var v := Act(w, a);
    DecisionApplies(w, a, s);
    if w.queued != NONE {
      assert PlaceOk(w, w.queued) && PlaceOk(v, w.queued);
    }
  }

  lemma ActionWatched(w: World, a: Action, s: Step)
    requires Sound(w) && CanAct(w, a) && Harmless(w, a) && Good(Act(w, a)) && Attentive(Act(w, a).g)
    requires IsDecision(w, a, s) || Stores(a) || InUser(a) || Joins(a)
    ensures QueuedOk(Act(w, a)) && Watched(Act(w, a))
  {
    if IsDecision(w, a, s) {
      DecisionQueued(w, a, s);
      DecisionWatched(w, a, s);
    } else if Stores(a) {
      StoreQueued(w, a);
    } else if InUser(a) {
      UserQueued(w, a);
    } else {
      JoinsWatched(w, a);
    }
  }

  // What kind of action a is; for a decision, s is it.
  lemma KindOf(w: World, a: Action) returns (s: Step)
    requires CanAct(w, a) && a != Sys(Step.Notify)
    ensures IsDecision(w, a, s) || Stores(a) || InUser(a) || Joins(a)
  {
    s := match a
      case Sys(d) => d
      case BeginSync(t, n) => Step.Stop(t, n)
      case HaltSelf(t) => Step.Halt(t)
      case _ => Step.Halt(0);
  }

  // Every harmless action keeps what the kernel owes, and every queued
  // notification able to pay it.
  lemma ActionSound(w: World, a: Action)
    requires Sound(w) && CanAct(w, a) && Harmless(w, a)
    ensures Sound(Act(w, a))
  {
    var v := Act(w, a);
    if a == Sys(Step.Notify) {
      NeverSilent(w);
      ActionAttends(w, a);
      NotifySound(w);
    } else {
      ActionAttends(w, a);
      var s := KindOf(w, a);
      ActionWatched(w, a, s);
      forall x | 0 <= x < |v.phase|
        ensures TidyAt(v, x) && SettledAt(v, x)
      {
        ActionAt(w, a, s, x);
      }
    }
  }

  lemma StartSound(n: nat)
    requires n > 0
    ensures Sound(Start(n))
  {
  }

  lemma {:induction false} RunSound(w: World, acts: seq<Action>)
    requires Sound(w) && HarmlessRun(w, acts)
    ensures Sound(AfterRun(w, acts))
    decreases |acts|
  {
    if acts != [] {
      ActionSound(w, acts[0]);
      RunSound(Act(w, acts[0]), acts[1..]);
    }
  }

  // Through every harmless run from the start of the process on: whenever all
  // active threads sleep in the kernel, the least of them has been told, and a
  // queued notification is never silent.
  lemma NoLostWakeup(n: nat, acts: seq<Action>)
    requires n > 0 && HarmlessRun(Start(n), acts)
    ensures
      var w := AfterRun(Start(n), acts);
      && Good(w)
      && (AllAsleep(w.g) ==> forall t :: IsLeast(w.g, t) ==> Told(w.g, t))
      && (w.queued != NONE ==> !Silent(w.g))
  {
    StartSound(n);
    RunSound(Start(n), acts);
    var w := AfterRun(Start(n), acts);
    if w.queued != NONE {
      NeverSilent(w);
    }
  }
}
