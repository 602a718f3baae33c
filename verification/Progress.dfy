// The protocol does not get stuck: while all active threads are in __getToken and
// nobody is in an operation, whatever they do by themselves ends, after a bounded
// number of steps, with one of them taking the token
// (src/thread_lib/include/determ.h:634-692, src/logical_clock/lib/determ_clock.c:222-290).
module Progress {
  import opened ListArrays
  import opened Clocks
  import opened Grants
  import opened TokenProtocol
  import opened Wakeups

  // A step the process takes by itself while all are in __getToken: a queued
  // notification, or a step of a thread that is not blocked in the kernel. A
  // thread asks to be told only while it has not been told, first by waiting and
  // then by sleeping, and each only once.
  predicate Busy(w: World, a: Action) {
    CanAct(w, a) &&
    match a
    case Sys(s) =>
      || s.Notify?
      || (s.Wait? && !Told(w.g, s.t) && !w.g.clocks[s.t].waiting)
      || (s.Sleep? && !Told(w.g, s.t) && !w.g.clocks[s.t].sleeping)
    case GoPoll(_) => true
    case Observe(_) => true
    case Cas(_) => true
    case Check(_, _) => true
    case Fail(_) => true
    case _ => false
  }

  // Everyone on the list is in __getToken, and the token is free or about to be
  // checked.
  predicate AllInside(w: World) {
    && Fits(w)
    && (w.token != FREE ==> w.token in w.g.active)
    && forall t :: t in w.g.active ==> w.phase[t].Spin? || w.phase[t].Poll? || w.phase[t].Seen? || w.phase[t].Cased?
  }

  // ---- how far a thread is from the token ----

  function Asking(g: Group, t: int): nat
    requires Known(g, t)
  {
    if Told(g, t) then 0 else if g.clocks[t].sleeping then 1 else if g.clocks[t].waiting then 2 else 3
  }

  function Rank(w: World, t: int): (r: nat)
    requires Fits(w) && Known(w.g, t)
    ensures r < 30
  {
    (match w.phase[t]
     case Spin => 10 + Asking(w.g, t)
     case Poll(_) => 6 + Asking(w.g, t)
     case Seen(_) => 5
     case Cased(_) => 4
     case _ => 0)
    + (if Snapped(w.phase[t]) && w.phase[t].snap != w.counter then 20 else 0)
  }

  function Total(w: World, ts: seq<int>): nat
    requires Fits(w) && forall t :: t in ts ==> Known(w.g, t)
  {
    if ts == [] then 0 else assert ts[0] in ts; Rank(w, ts[0]) + Total(w, ts[1..])
  }

  function Distance(w: World): nat
    requires Fits(w)
  {
    Total(w, w.g.active) + (if w.queued != NONE then 1 else 0)
  }

  lemma {:induction false} TotalBound(w: World, ts: seq<int>)
    requires Fits(w) && forall t :: t in ts ==> Known(w.g, t)
    ensures Total(w, ts) <= 30 * |ts|
  {
    if ts != [] {
      assert forall t :: t in ts[1..] ==> t in ts;
      TotalBound(w, ts[1..]);
    }
  }

  lemma {:induction false} TotalFalls(w: World, v: World, ts: seq<int>, x: int)
    requires Fits(w) && Fits(v) && forall t :: t in ts ==> Known(w.g, t) && Known(v.g, t) && Rank(v, t) <= Rank(w, t)
    ensures Total(v, ts) <= Total(w, ts)
    ensures x in ts && Rank(v, x) < Rank(w, x) ==> Total(v, ts) < Total(w, ts)
  {
    if ts != [] {
      assert ts[0] in ts && forall t :: t in ts[1..] ==> t in ts;
      TotalFalls(w, v, ts[1..], x);
    }
  }

  // ---- a busy step brings its thread closer and no one further away ----

  predicate Asks(s: Step) { s.Wait? || s.Sleep? }

  lemma DeterminedOwn(g: Group, t: int)
    requires Shaped(g) && Known(g, t)
    ensures
      var r := Determine(g, t);
      Known(r.0, t) && r.1 != t && (r.0.status[t].lowestClock || r.0.clocks[t].waiting)
  {
  }

  // A thread that asks is told, or is marked as waiting, or asleep.
  lemma AskedOwn(g: Group, s: Step)
    requires Consistent(g) && Enabled(g, s) && Asks(s)
    ensures
      var h := Apply(g, s);
      && Known(h, s.t)
      && (h.status[s.t].lowestClock || (h.clocks[s.t].waiting && (s.Sleep? ==> h.clocks[s.t].sleeping)))
  {
    DeterminedOwn(g, s.t);
    AppliesLast(g, s);
  }

  lemma OthersTold(g: Group, s: Step, x: int)
    requires Consistent(g) && Enabled(g, s) && Asks(s) && Known(g, x) && x != s.t
    ensures Known(Apply(g, s), x) && (Told(g, x) ==> Told(Apply(g, s), x))
  {
  }

  lemma AskRanks(w: World, s: Step, x: int)
    requires Good(w) && Attentive(w.g) && Busy(w, Sys(s)) && Asks(s) && 0 <= x < |w.phase|
    ensures
      var v := Act(w, Sys(s));
      Fits(v) && Known(v.g, x) && Rank(v, x) <= Rank(w, x) && (x == s.t ==> Rank(v, x) < Rank(w, x))
  {
    StepKeepsConsistent(w.g, s);
    if x == s.t {
      AskedOwn(w.g, s);
    } else {
      OthersSame(w.g, s, x);
      OthersTold(w.g, s, x);
    }
  }

  lemma NotifyRanks(w: World, x: int)
    requires Good(w) && Busy(w, Sys(Step.Notify)) && 0 <= x < |w.phase|
    ensures
      var v := Act(w, Sys(Step.Notify));
      Fits(v) && Known(v.g, x) && Rank(v, x) <= Rank(w, x)
  {
  }

  lemma UserRanks(w: World, a: Action, x: int)
    requires Good(w) && Busy(w, a) && !a.Sys? && !a.Check? && 0 <= x < |w.phase|
    ensures
      var v := Act(w, a);
      Fits(v) && Known(v.g, x) && Rank(v, x) <= Rank(w, x) && (x == a.t ==> Rank(v, x) < Rank(w, x))
  {
  }

  lemma BusyRanks(w: World, a: Action, x: int)
    requires Good(w) && Attentive(w.g) && Busy(w, a) && !a.Check? && 0 <= x < |w.phase|
    ensures
      var v := Act(w, a);
      && Fits(v) && Known(v.g, x) && Rank(v, x) <= Rank(w, x)
      && (a != Sys(Step.Notify) && x == Actor(a) ==> Rank(v, x) < Rank(w, x))
  {
    if a == Sys(Step.Notify) {
      NotifyRanks(w, x);
    } else if a.Sys? {
      AskRanks(w, a.s, x);
    } else {
      UserRanks(w, a, x);
    }
  }

  lemma BusyInside(w: World, a: Action)
    requires Good(w) && AllInside(w) && Busy(w, a) && !a.Check? && Good(Act(w, a))
    ensures AllInside(Act(w, a)) && Act(w, a).g.active == w.g.active
    ensures a != Sys(Step.Notify) ==> Actor(a) in w.g.active && Act(w, a).queued == w.queued
  {
    if a.Sys? && !a.s.Notify? {
      DecidingFrame(w.g, a.s);
    } else if a.Sys? {
      NotifyFrame(w.g);
    } else {
      assert PlaceOk(w, a.t);
    }
  }

  lemma BusyCloser(w: World, a: Action)
    requires Sound(w) && AllInside(w) && Busy(w, a) && !a.Check?
    ensures Sound(Act(w, a)) && AllInside(Act(w, a)) && Distance(Act(w, a)) < Distance(w)
    ensures Act(w, a).g.active == w.g.active
  {
    var v := Act(w, a);
    ActionSound(w, a);
    BusyInside(w, a);
    forall x | x in w.g.active
      ensures Known(w.g, x) && Known(v.g, x) && Rank(v, x) <= Rank(w, x)
      ensures a != Sys(Step.Notify) && x == Actor(a) ==> Rank(v, x) < Rank(w, x)
    {
      BusyRanks(w, a, x);
    }
    TotalFalls(w, v, w.g.active, if a == Sys(Step.Notify) then 0 else Actor(a));
  }

  // ---- and there always is one ----

  lemma SomeoneBusy(w: World) returns (a: Action)
    requires Sound(w) && AllInside(w) && w.g.active != []
    ensures Busy(w, a)
  {
    if w.queued != NONE {
      a := Sys(Step.Notify);
    } else if w.token != FREE {
      assert PlaceOk(w, w.token);
      a := if w.phase[w.token].snap == w.counter then Check(w.token, false) else Fail(w.token);
    } else {
      LowestIsLeast(w.g);
      var t := if AllAsleep(w.g) then Lowest(w.g) else Awakened(w.g);
      assert PlaceOk(w, t);
      if w.phase[t].Seen? {
        a := Cas(t);
      } else if w.phase[t].Spin? {
        a := if w.g.status[t].lowestClock then Observe(t) else GoPoll(t);
      } else {
        a := if Told(w.g, t) then Observe(t) else Sys(Step.Sleep(t));
      }
    }
  }

  ghost function Awakened(g: Group): (t: int)
    requires Shaped(g) && !AllAsleep(g)
    ensures t in g.active && !g.clocks[t].sleeping
  {
    var t :| t in g.active && !g.clocks[t].sleeping;
    t
  }

  // ---- runs ----

  ghost predicate BusyRun(w: World, acts: seq<Action>)
    decreases |acts|
  {
    acts == [] || (Busy(w, acts[0]) && BusyRun(Act(w, acts[0]), acts[1..]))
  }

  ghost function AfterBusy(w: World, acts: seq<Action>): World
    requires BusyRun(w, acts)
    decreases |acts|
  {
    if acts == [] then w else AfterBusy(Act(w, acts[0]), acts[1..])
  }

  predicate NoCheck(acts: seq<Action>) {
    forall i :: 0 <= i < |acts| ==> !acts[i].Check?
  }

  lemma {:induction false} BusyRunCloser(w: World, acts: seq<Action>)
    requires Sound(w) && AllInside(w) && BusyRun(w, acts) && NoCheck(acts)
    ensures Sound(AfterBusy(w, acts)) && AllInside(AfterBusy(w, acts))
    ensures AfterBusy(w, acts).g.active == w.g.active
    ensures Distance(AfterBusy(w, acts)) + |acts| <= Distance(w)
    decreases |acts|
  {
    if acts != [] {
      BusyCloser(w, acts[0]);
      BusyRunCloser(Act(w, acts[0]), acts[1..]);
    }
  }

  // From every state a harmless run reaches in which all active threads are in
  // __getToken and nobody is in an operation, whatever they do by themselves: as
  // long as no one has taken the token they have taken at most 30 steps for each
  // thread and one more, and some step is left. So they always come to the point
  // where one of them takes it.
  lemma EveryRunPasses(n: nat, acts: seq<Action>, more: seq<Action>)
    requires n > 0 && HarmlessRun(Start(n), acts)
    requires
      var w := AfterRun(Start(n), acts);
      AllInside(w) && w.g.active != [] && BusyRun(w, more) && NoCheck(more)
    ensures
      var w := AfterRun(Start(n), acts);
      |more| <= 30 * |w.g.active| + 1 && exists a :: Busy(AfterBusy(w, more), a)
  {
    var w := AfterRun(Start(n), acts);
    StartSound(n);
    RunSound(Start(n), acts);
    BusyRunCloser(w, more);
    TotalBound(w, w.g.active);
    var a := SomeoneBusy(AfterBusy(w, more));
  }

  // Steps that end with a thread taking the token.
  ghost predicate Passes(w: World, acts: seq<Action>) {
    BusyRun(w, acts) && acts != [] && NoCheck(acts[..|acts| - 1]) && acts[|acts| - 1].Check?
  }

  lemma PassesFirst(w: World, a: Action, acts: seq<Action>)
    requires Busy(w, a) && !a.Check? && Passes(Act(w, a), acts)
    ensures Passes(w, [a] + acts)
  {
    var all := [a] + acts;
    assert all[1..] == acts && all[..|all| - 1] == [a] + acts[..|acts| - 1];
  }

  lemma {:induction false} Proceeds(w: World) returns (acts: seq<Action>)
    requires Sound(w) && AllInside(w) && w.g.active != []
    ensures Passes(w, acts)
    decreases Distance(w)
  {
    var a := SomeoneBusy(w);
    if a.Check? {
      acts := [a];
    } else {
      BusyCloser(w, a);
      var rest := Proceeds(Act(w, a));
      PassesFirst(w, a, rest);
      acts := [a] + rest;
    }
  }

  // In particular they can.
  lemma SomeoneProceeds(n: nat, acts: seq<Action>)
    requires n > 0 && HarmlessRun(Start(n), acts)
    requires AllInside(AfterRun(Start(n), acts)) && AfterRun(Start(n), acts).g.active != []
    ensures exists more :: Passes(AfterRun(Start(n), acts), more)
  {
    StartSound(n);
    RunSound(Start(n), acts);
    var more := Proceeds(AfterRun(Start(n), acts));
  }
}
