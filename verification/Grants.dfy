// Runs of the clock group: what every handler keeps, who is told that it is
// the lowest, and how long that stays true (src/logical_clock/module/clock_main.c).
module Grants {
  import opened ListArrays
  import opened Clocks

  // One critical section of the kernel module, or one store of user space to
  // its own status page. The first argument is the thread that makes it.
  datatype Step =
    | AddTicks(t: int, n: nat)
    | Stop(t: int, n: nat)
    | Disable(t: int, n: nat)
    | Enable(t: int)
    | Wait(t: int)
    | Sleep(t: int)
    | WokeUp(t: int)
    | Halt(t: int)
    | Activate(t: int)
    | ActivateOther(t: int, u: int)
    | Reset(t: int)
    | EntryInit(t: int)
    | Overflow(t: int, n: nat)
    | OverflowCheck(t: int)
    | Forget(t: int)
    | Notify

  // What the module demands of its callers: decisions are made by listed
  // threads, and only unlisted threads are put on the list.
  predicate Enabled(g: Group, s: Step) {
    Shaped(g) && -1 <= g.lowestTid < |g.clocks| &&
    match s
    case AddTicks(t, _) => t in g.active
    case Stop(t, _) => t in g.active
    case Disable(t, _) => t in g.active
    case Enable(t) => t in g.active
    case Wait(t) => t in g.active
    case Sleep(t) => t in g.active
    case WokeUp(t) => t in g.active
    case Halt(t) => t in g.active
    case Activate(t) => Known(g, t) && t !in g.active && g.clocks[t].initialized
    case ActivateOther(t, u) => t in g.active && Known(g, u) && u !in g.active
    case Reset(t) => Known(g, t) && t !in g.active
    case EntryInit(t) => t in g.active
    case Overflow(t, _) => Known(g, t)
    case OverflowCheck(t) => Known(g, t)
    case Forget(t) => Known(g, t)
    case Notify => true
  }

  function Apply(g: Group, s: Step): Group
    requires Enabled(g, s)
  {
    match s
    case AddTicks(t, n) => Clocks.AddTicks(g, t, n)
    case Stop(t, n) => Clocks.Stop(g, t, n)
    case Disable(t, n) => Clocks.Disable(g, t, n)
    case Enable(t) => Clocks.Enable(g, t)
    case Wait(t) => Clocks.Wait(g, t)
    case Sleep(t) => Clocks.Sleep(g, t)
    case WokeUp(t) => Clocks.WokeUp(g, t)
    case Halt(t) => Clocks.Halt(g, t)
    case Activate(t) => Clocks.Activate(g, t)
    case ActivateOther(t, u) => Clocks.ActivateOther(g, t, u)
    case Reset(t) => Clocks.Reset(g, t)
    case EntryInit(t) => Clocks.EntryInit(g, t)
    case Overflow(t, n) => Clocks.Overflow(g, t, n)
    case OverflowCheck(t) => Clocks.OverflowCheck(g, t)
    case Forget(t) => Clocks.Forget(g, t)
    case Notify => Clocks.Notify(g)
  }

  // The steps that end in a decision of their thread.
  predicate Decides(s: Step) {
    s.AddTicks? || s.Stop? || s.Disable? || s.Enable? || s.Wait? || s.Sleep? || s.Halt?
  }

  // The group on which a deciding step decides.
  function Before(g: Group, s: Step): Group
    requires Enabled(g, s) && Decides(s)
  {
    match s
    case AddTicks(t, n) => Ticked(g, t, n)
    case Stop(t, n) => Stopped(g, t, n)
    case Disable(t, n) => Disabled(g, t, n)
    case Enable(t) => Put(g, t, g.clocks[t].(counting := true))
    case Halt(t) => Put(g, t, g.clocks[t].(inactive := true)).(active := Without(g.active, t))
    case _ => g
  }

  lemma BeforeConsistent(g: Group, s: Step)
    requires Consistent(g) && Enabled(g, s) && Decides(s)
    ensures
      var b := Before(g, s);
      && Consistent(b) && Known(b, s.t) && b.lowestTid == g.lowestTid
      && (s.t in b.active || b.clocks[s.t].inactive)
      && |b.status| == |g.status|
      && (forall x :: 0 <= x < |g.status| && x != s.t ==>
            b.status[x] == g.status[x] && b.clocks[x] == g.clocks[x])
      && b.status[s.t].polled == g.status[s.t].polled
  {
    if s.Halt? {
      UnlistedConsistent(g, s.t);
    } else {
      EntryConsistent(g, s.t, Before(g, s));
    }
  }

  lemma UnlistedConsistent(g: Group, t: int)
    requires Consistent(g) && t in g.active
    ensures Consistent(Put(g, t, g.clocks[t].(inactive := true)).(active := Without(g.active, t)))
  {
    WithoutMembers(g.active, t);
  }

  // Stores to one thread's entry and status that leave it as eligible as it was.
  lemma EntryConsistent(g: Group, t: int, h: Group)
    requires Consistent(g) && Known(g, t) && Known(h, t)
    requires h.clocks == g.clocks[t := h.clocks[t]] && h.status == g.status[t := h.status[t]]
    requires Eligible(h.clocks[t]) == Eligible(g.clocks[t])
    requires h.active == g.active && h.lowestTid == g.lowestTid
    ensures Consistent(h)
  {
  }

  // A later store to the deciding thread's own entry does not change what the
  // decision told anyone.
  lemma AfterwardsFrame(g: Group, cur: int, r: (Group, int), q: Group, e: Entry)
    requires Shaped(g) && Known(g, cur)
    requires |r.0.clocks| == |g.clocks| && |r.0.status| == |g.status|
    requires r.1 >= 0 ==> Known(r.0, r.1) && r.1 != cur
    requires DecisionOf(g, cur, Notified(r))
    requires q.clocks == r.0.clocks && q.status == r.0.status && q.active == r.0.active && q.lowestTid == r.0.lowestTid
    requires
      var d := r.0.clocks[cur];
      e.ticks == d.ticks && e.baseTicks == d.baseTicks && e.initialized == d.initialized
      && e.inactive == d.inactive && e.counting == d.counting
    ensures DecisionOf(g, cur, Notified((Put(q, cur, e), r.1)))
  {
    var h := Notified(r);
    var k := Notified((Put(q, cur, e), r.1));
    assert forall x :: 0 <= x < |h.clocks| ==> k.status[x] == h.status[x] && (x != cur ==> k.clocks[x] == h.clocks[x]);
    assert h.clocks[cur] == r.0.clocks[cur] && k.clocks[cur] == e;
  }

  lemma DecidingFrame(g: Group, s: Step)
    requires Consistent(g) && Enabled(g, s) && Decides(s)
    ensures Shaped(Before(g, s)) && Known(Before(g, s), s.t) && DecisionOf(Before(g, s), s.t, Apply(g, s))
  {
    var b := Before(g, s);
    BeforeConsistent(g, s);
    DecideFrame(b, s.t);
    var r := Determine(b, s.t);
    DeterminedEntry(b, s.t);
    match s
    case Enable(t) =>
      var q := if r.0.lowestTid == t then r.0.(notificationNeeded := true, nmiNewLow := false) else r.0;
      AfterwardsFrame(b, t, r, q, Cleared(q.clocks[t]));
    case Sleep(t) =>
      var e := r.0.clocks[t];
      AfterwardsFrame(b, t, r, r.0, if e.waiting then e.(sleeping := true) else e);
    case Halt(t) =>
      AfterwardsFrame(b, t, r, r.0, r.0.clocks[t].(waiting := false));
    case _ =>
  }

  lemma DeterminedEntry(g: Group, cur: int)
    requires Consistent(g) && Known(g, cur) && (cur in g.active || g.clocks[cur].inactive)
    ensures Determine(g, cur).0.clocks[cur].inactive == g.clocks[cur].inactive
  {
    DecideFrame(g, cur);
  }

  // Every handler keeps the list equal to the initialized, not inactive threads.
  lemma StepKeepsConsistent(g: Group, s: Step)
    requires Consistent(g) && Enabled(g, s)
    ensures Consistent(Apply(g, s)) && |Apply(g, s).clocks| == |g.clocks|
  {
    if Decides(s) {
      BeforeConsistent(g, s);
      DecidingFrame(g, s);
      SameClocksKeeps(Before(g, s), Apply(g, s));
    } else if s.Notify? {
      NotifyFrame(g);
      SameClocksKeeps(g, Apply(g, s));
    } else if s.Activate? {
      RejoinedConsistent(g, s.t);
    } else if s.ActivateOther? {
      AdmittedConsistent(g, s.t, s.u);
    } else {
      EntryConsistent(g, s.t, Apply(g, s));
    }
  }

  lemma RejoinedConsistent(g: Group, u: int)
    requires Consistent(g) && Known(g, u) && u !in g.active && g.clocks[u].initialized
    ensures Consistent(Rejoined(g, u))
  {
  }

  lemma AdmittedConsistent(g: Group, c: int, u: int)
    requires Consistent(g) && Known(g, c) && Known(g, u) && u !in g.active
    ensures Consistent(Admitted(g, c, u))
  {
  }

  lemma NotifyFrame(g: Group)
    requires Consistent(g)
    ensures
      var h := Clocks.Notify(g);
      && SameClocks(g, h) && -1 <= h.lowestTid < |h.clocks|
      && (h.lowestTid == g.lowestTid || IsLeast(g, h.lowestTid))
      && (forall t :: 0 <= t < |g.status| ==>
            && (Told(h, t) ==> Told(g, t) || (IsLeast(g, t) && h.lowestTid == t))
            && (h.status[t].polled ==> g.status[t].polled || g.clocks[t].sleeping)
            && h.clocks[t] == g.clocks[t])
  {
    LowestIsLeast(g);
  }

  // ---- grants ----

  // t holds a grant the token protocol may rely on.
  ghost predicate Granted(g: Group, t: int)
    requires Shaped(g)
  {
    IsLeast(g, t) && (g.lowestTid == t || g.lowestTid == -1)
  }

  // The step s tells t, through a decision among several threads or through
  // the deferred notification, that it is the lowest.
  ghost predicate Tells(g: Group, s: Step, t: int)
    requires Consistent(g) && Enabled(g, s) && Known(g, t)
  {
    StepKeepsConsistent(g, s);
    var h := Apply(g, s);
    Known(h, t) &&
    ((Decides(s) && !Alone(Before(g, s), s.t)
      && (if t == s.t then h.status[t].lowestClock else Told(h, t) && !Told(g, t)))
     || (s.Notify? && Told(h, t) && !Told(g, t)))
  }

  lemma GrantSound(g: Group, s: Step, t: int)
    requires Consistent(g) && Enabled(g, s) && Known(g, t) && Tells(g, s, t)
    ensures Consistent(Apply(g, s)) && Granted(Apply(g, s), t)
  {
    StepKeepsConsistent(g, s);
    if Decides(s) {
      BeforeConsistent(g, s);
      DecidingFrame(g, s);
      SameClocksKeeps(Before(g, s), Apply(g, s));
    } else {
      NotifyFrame(g);
      SameClocksKeeps(g, Apply(g, s));
    }
  }

  // The steps that can end t's claim: its own ticks, its own halt, and the
  // return of a thread below it.
  ghost predicate Disturbs(g: Group, s: Step, t: int)
    requires Enabled(g, s) && t in g.active
  {
    match s
    case AddTicks(c, _) => c == t
    case Stop(c, _) => c == t
    case Disable(c, _) => c == t
    case Overflow(c, _) => c == t
    case Halt(c) => c == t
    case Activate(u) => u != t && Lower(Rejoined(g, u), u, t)
    case ActivateOther(c, u) => u != t && Lower(Admitted(g, c, u), u, t)
    case _ => false
  }

  lemma LeastAfterBefore(g: Group, s: Step, t: int)
    requires Consistent(g) && Enabled(g, s) && Decides(s) && IsLeast(g, t) && !Disturbs(g, s, t)
    ensures Shaped(Before(g, s)) && IsLeast(Before(g, s), t)
  {
    BeforeConsistent(g, s);
    var b := Before(g, s);
    if s.Halt? {
      WithoutMembers(g.active, s.t);
    } else {
      assert b.active == g.active && Clock(b, s.t) >= Clock(g, s.t);
    }
  }

  // Being the least survives every step that does not disturb it, and
  // lowest_tid keeps its value, is dropped, or becomes the least thread. A
  // return to the list is the one step that may record another thread, and not
  // while lowest_tid is the least thread or none.
  lemma LeastStays(g: Group, s: Step, t: int)
    requires Consistent(g) && Enabled(g, s) && IsLeast(g, t) && !Disturbs(g, s, t)
    ensures Consistent(Apply(g, s)) && IsLeast(Apply(g, s), t)
    ensures
      var low := Apply(g, s).lowestTid;
      low == g.lowestTid || low == -1 || low == t || (s.Activate? && g.lowestTid != t && g.lowestTid != -1)
  {
    StepKeepsConsistent(g, s);
    if Decides(s) {
      LeastStaysOnDecision(g, s, t);
    } else if s.Activate? {
      LeastStaysOnReturn(g, s.t, t);
    } else {
      LeastStaysElse(g, s, t);
    }
  }

  lemma LeastStaysElse(g: Group, s: Step, t: int)
    requires Consistent(g) && Enabled(g, s) && IsLeast(g, t) && !Disturbs(g, s, t) && !Decides(s) && !s.Activate?
    ensures Shaped(Apply(g, s)) && IsLeast(Apply(g, s), t)
    ensures Apply(g, s).lowestTid in {g.lowestTid, -1, t}
  {
    if s.Notify? {
      NotifyLeast(g, t);
    } else if s.ActivateOther? {
      AdmittedLeast(g, s.t, s.u, t);
    } else {
      EntryLeast(g, s.t, Apply(g, s), t);
    }
  }

  lemma NotifyLeast(g: Group, t: int)
    requires Consistent(g) && Enabled(g, Notify) && IsLeast(g, t)
    ensures Shaped(Apply(g, Notify)) && IsLeast(Apply(g, Notify), t)
    ensures Apply(g, Notify).lowestTid in {g.lowestTid, -1, t}
  {
    NotifyFrame(g);
    SameClocksKeeps(g, Apply(g, Notify));
    LowestIsLeast(g);
  }

  lemma AdmittedLeast(g: Group, c: int, u: int, t: int)
    requires Consistent(g) && Enabled(g, ActivateOther(c, u)) && IsLeast(g, t) && !Disturbs(g, ActivateOther(c, u), t)
    ensures
      var h := Apply(g, ActivateOther(c, u));
      Shaped(h) && IsLeast(h, t) && h.lowestTid == g.lowestTid
  {
    AdmittedConsistent(g, c, u);
  }

  lemma LeastStaysOnDecision(g: Group, s: Step, t: int)
    requires Consistent(g) && Enabled(g, s) && Decides(s) && IsLeast(g, t) && !Disturbs(g, s, t)
    ensures Shaped(Apply(g, s)) && IsLeast(Apply(g, s), t)
    ensures Apply(g, s).lowestTid in {g.lowestTid, -1, t}
  {
    BeforeConsistent(g, s);
    LeastAfterBefore(g, s, t);
    DecidingFrame(g, s);
    var b := Before(g, s);
    SameClocksKeeps(b, Apply(g, s));
    LowestIsLeast(b);
  }

  lemma LeastStaysOnReturn(g: Group, u: int, t: int)
    requires Consistent(g) && Enabled(g, Activate(u)) && IsLeast(g, t) && !Disturbs(g, Activate(u), t)
    ensures
      var h := Apply(g, Activate(u));
      && Shaped(h) && IsLeast(h, t)
      && (g.lowestTid == t || g.lowestTid == -1 ==> h.lowestTid == g.lowestTid)
  {
    var g1 := Rejoined(g, u);
    RejoinedConsistent(g, u);
    assert IsLeast(g1, t);
    LowestIsLeast(g1);
  }

  lemma EntryLeast(g: Group, c: int, h: Group, t: int)
    requires Consistent(g) && Known(g, c) && Known(h, c) && IsLeast(g, t)
    requires h.clocks == g.clocks[c := h.clocks[c]] && h.status == g.status[c := h.status[c]]
    requires h.active == g.active
    requires Clock(h, c) == Clock(g, c) || (Clock(h, c) > Clock(g, c) && c != t)
    ensures Shaped(h) && IsLeast(h, t)
  {
  }

  lemma GrantStays(g: Group, s: Step, t: int)
    requires Consistent(g) && Enabled(g, s) && Granted(g, t) && !Disturbs(g, s, t)
    ensures Consistent(Apply(g, s)) && Granted(Apply(g, s), t)
  {
    LeastStays(g, s, t);
  }

  // ---- runs ----

  ghost predicate Legal(g: Group, ss: seq<Step>)
    decreases |ss|
  {
    ss == [] || (Enabled(g, ss[0]) && Legal(Apply(g, ss[0]), ss[1..]))
  }

  ghost function Exec(g: Group, ss: seq<Step>): Group
    requires Legal(g, ss)
    decreases |ss|
  {
    if ss == [] then g else Exec(Apply(g, ss[0]), ss[1..])
  }

  // The run is legal and no step of it disturbs t.
  ghost predicate Undisturbed(g: Group, ss: seq<Step>, t: int)
    decreases |ss|
  {
    ss == [] ||
    (&& Enabled(g, ss[0]) && t in g.active && !Disturbs(g, ss[0], t)
     && Undisturbed(Apply(g, ss[0]), ss[1..], t))
  }

  lemma {:induction false} RunKeepsConsistent(g: Group, ss: seq<Step>)
    requires Consistent(g) && Legal(g, ss)
    ensures Consistent(Exec(g, ss)) && |Exec(g, ss).clocks| == |g.clocks|
    decreases |ss|
  {
    if ss != [] {
      StepKeepsConsistent(g, ss[0]);
      RunKeepsConsistent(Apply(g, ss[0]), ss[1..]);
    }
  }

  // A grant outlives any run that does not disturb it.
  lemma {:induction false} GrantStable(g: Group, ss: seq<Step>, t: int)
    requires Consistent(g) && Granted(g, t) && Undisturbed(g, ss, t)
    ensures Legal(g, ss) && Consistent(Exec(g, ss)) && Granted(Exec(g, ss), t)
    decreases |ss|
  {
    if ss != [] {
      GrantStays(g, ss[0], t);
      GrantStable(Apply(g, ss[0]), ss[1..], t);
    }
  }

  // From the grant of t on, through any run that does not disturb t, the first
  // activation that puts a thread below t raises the activator's flag, and an
  // activation that does not leaves t the least thread.
  lemma NoMissedDisplacement(g: Group, s: Step, ss: seq<Step>, t: int, c: int, u: int)
    requires Consistent(g) && Enabled(g, s) && Known(g, t) && Tells(g, s, t)
    requires Legal(Apply(g, s), ss) && Undisturbed(Apply(g, s), ss, t)
    requires
      var k := Exec(Apply(g, s), ss);
      Enabled(k, ActivateOther(c, u))
    ensures
      var k := Exec(Apply(g, s), ss);
      var h := Apply(k, ActivateOther(c, u));
      && Consistent(h) && t in k.active && Known(h, c)
      && (Disturbs(k, ActivateOther(c, u), t) ==> h.status[c].activatedLowest)
      && (!Disturbs(k, ActivateOther(c, u), t) ==> IsLeast(h, t))
  {
    GrantSound(g, s, t);
    GrantStable(Apply(g, s), ss, t);
    var k := Exec(Apply(g, s), ss);
    StepKeepsConsistent(k, ActivateOther(c, u));
    if !Disturbs(k, ActivateOther(c, u), t) {
      GrantStays(k, ActivateOther(c, u), t);
    }
  }

  // A thread that is not initialized starts above its creator, hence above a
  // granted thread: creation never displaces anyone, so its caller may ignore
  // the flag. The flag itself can still be raised, when no lowest is recorded.
  lemma CreationNeverDisplaces(g: Group, t: int, c: int, u: int)
    requires Consistent(g) && Granted(g, t) && Enabled(g, ActivateOther(c, u)) && !g.clocks[u].initialized
    ensures !Disturbs(g, ActivateOther(c, u), t)
    ensures Consistent(Apply(g, ActivateOther(c, u))) && Granted(Apply(g, ActivateOther(c, u)), t)
  {
    GrantStays(g, ActivateOther(c, u), t);
  }

  // Halting and then resetting is what makes a recycled id start afresh.
  lemma ExitForgetsClock(g: Group, t: int)
    requires Consistent(g) && Enabled(g, Halt(t))
    ensures
      var h := Apply(g, Halt(t));
      && Consistent(h) && Enabled(h, Reset(t))
      && !Apply(h, Reset(t)).clocks[t].initialized && t !in Apply(h, Reset(t)).active
  {
    StepKeepsConsistent(g, Halt(t));
    DecidingFrame(g, Halt(t));
    WithoutMembers(g.active, t);
  }
}
