// What every handler of the kernel module does to a consistent group: the whole
// state after it, said through the least active thread instead of the searches and
// branches that find it (src/logical_clock/module/clock_main.c,
// src/logical_clock/module/utility.h).
module Handlers {
  import opened ListArrays
  import opened Clocks
  import opened Grants

  // ---- decisions ----

  // The thread a decision of cur makes the recorded lowest: the least active one,
  // if it is cur or is waiting.
  ghost predicate Elects(g: Group, cur: int, t: int)
    requires Shaped(g)
  {
    IsLeast(g, t) && (t == cur || g.clocks[t].waiting)
  }

  // A thread is told through the poll it sleeps on, or through its flag.
  function Telling(e: Entry, s: Status): Status {
    if e.sleeping then s.(polled := true) else s.(lowestClock := true)
  }

  function Unmarked(e: Entry): Entry {
    e.(inactive := false, waiting := false, sleeping := false)
  }

  // h is g after a decision of cur, when another thread may be the least.
  ghost predicate Contested(g: Group, cur: int, h: Group)
    requires Shaped(g) && Known(g, cur)
  {
    var low := h.lowestTid;
    var news := g.notificationNeeded || low != g.lowestTid;
    && |h.clocks| == |g.clocks| && |h.status| == |g.status| && h.active == g.active
    && -1 <= low < |g.clocks| && (forall t :: 0 <= t ==> (low == t <==> Elects(g, cur, t)))
    && h.notificationNeeded == (news && low == -1)
    && h.nmiNewLow == (g.nmiNewLow && (low == cur || low == -1 || !news))
    && h.clocks == g.clocks[cur := if low == cur then Unmarked(g.clocks[cur]) else g.clocks[cur].(waiting := true)]
    && h.status[cur] == g.status[cur].(ticks := Clock(g, cur), lowestClock := low == cur)
    && forall t :: 0 <= t < |g.status| && t != cur ==>
         h.status[t] == if low == t && news then Telling(g.clocks[t], g.status[t]) else g.status[t]
  }

  // The only active thread always gets the grant; nothing is recorded.
  ghost predicate Uncontested(g: Group, cur: int, h: Group)
    requires Shaped(g) && Known(g, cur)
  {
    h == g.(clocks := g.clocks[cur := Unmarked(g.clocks[cur])],
            status := g.status[cur := g.status[cur].(
                                 ticks := Clock(g, cur), lowestClock := true, singleActive := true)],
            notificationNeeded := false)
  }

  ghost predicate Decision(g: Group, cur: int, h: Group)
    requires Shaped(g) && Known(g, cur)
  {
    if g.active == [cur] then Uncontested(g, cur, h) else Contested(g, cur, h)
  }

  lemma ElectedExact(g: Group, cur: int)
    requires Consistent(g) && Known(g, cur)
    ensures
      var h := Elected(g, cur);
      && -1 <= h.lowestTid < |g.clocks|
      && (forall t :: 0 <= t ==> (h.lowestTid == t <==> Elects(g, cur, t)))
      && h.notificationNeeded == (g.notificationNeeded || h.lowestTid != g.lowestTid)
      && h == g.(clocks := g.clocks[cur := g.clocks[cur].(waiting := true)],
                 lowestTid := h.lowestTid, notificationNeeded := h.notificationNeeded)
  {
    var g1 := Put(g, cur, g.clocks[cur].(waiting := true));
    assert SameClocks(g, g1);
    SameClocksKeeps(g, g1);
    LowestIsLeast(g1);
  }

  lemma SameLeast(g: Group, h: Group)
    requires Consistent(g) && SameClocks(g, h) && -1 <= h.lowestTid < |h.clocks|
    ensures Consistent(h) && forall t :: IsLeast(h, t) <==> IsLeast(g, t)
  {
    SameClocksKeeps(g, h);
  }

  // cur's own part and the flags, before the notification goes out.
  lemma ContendExact(g: Group, cur: int)
    requires Consistent(g) && Known(g, cur)
    ensures
      var r := Contend(g, cur);
      var low := r.0.lowestTid;
      var news := g.notificationNeeded || low != g.lowestTid;
      && -1 <= low < |g.clocks| && (forall t :: 0 <= t ==> (low == t <==> Elects(g, cur, t)))
      && r.1 == (if low != cur && low >= 0 && news then low else -1)
      && r.0 == g.(
           clocks := g.clocks[cur := if low == cur then Unmarked(g.clocks[cur]) else g.clocks[cur].(waiting := true)],
           status := g.status[cur := g.status[cur].(lowestClock := low == cur)],
           lowestTid := low, notificationNeeded := news && low == -1,
           nmiNewLow := g.nmiNewLow && (low == cur || low == -1 || !news))
  {
    ElectedExact(g, cur);
  }

  lemma ContestedExact(g: Group, cur: int)
    requires Consistent(g) && Known(g, cur) && (g.clocks[cur].inactive || (cur in g.active && |g.active| != 1))
    ensures Contested(g, cur, Decide(g, cur))
  {
    var g0 := ShowTicks(g, cur);
    SameLeast(g, g0);
    ContendExact(g0, cur);
    assert forall t :: 0 <= t ==> (Elects(g0, cur, t) <==> Elects(g, cur, t));
  }

  // A decision, with the notification it sends.
  lemma DecisionExact(g: Group, cur: int)
    requires Consistent(g) && Known(g, cur) && (cur in g.active || g.clocks[cur].inactive)
    ensures Decision(g, cur, Decide(g, cur))
  {
    if |g.active| == 1 && cur in g.active {
      assert g.active == [cur];
    } else {
      ContestedExact(g, cur);
    }
  }

  // ---- the handlers that decide ----

  // g with cur's clock n later and its counter on or off.
  function Later(g: Group, cur: int, n: int, counting: bool): Group
    requires Known(g, cur)
  {
    g.(clocks := g.clocks[cur := g.clocks[cur].(ticks := g.clocks[cur].ticks + n, counting := counting)])
  }

  // The ticks a reading adds: none while the counter is off.
  function Read(g: Group, cur: int, n: int): int
    requires Known(g, cur)
  {
    if g.clocks[cur].counting then n else 0
  }

  lemma LaterConsistent(g: Group, cur: int, n: int, counting: bool)
    requires Consistent(g) && cur in g.active
    ensures Consistent(Later(g, cur, n, counting))
  {
  }

  lemma AddTicksExact(g: Group, cur: int, n: nat)
    requires Consistent(g) && cur in g.active
    ensures Decision(Later(g, cur, n, g.clocks[cur].counting), cur, Apply(g, Step.AddTicks(cur, n)))
  {
    LaterConsistent(g, cur, n, g.clocks[cur].counting);
    DecisionExact(Later(g, cur, n, g.clocks[cur].counting), cur);
  }

  // Publishing the clock first makes no difference to a decision.
  lemma ShownFirst(b: Group, cur: int)
    requires Consistent(b) && cur in b.active
    ensures Decision(b, cur, Decide(ShowTicks(b, cur), cur))
  {
    var b1 := ShowTicks(b, cur);
    SameLeast(b, b1);
    DecisionExact(b1, cur);
    assert forall t :: 0 <= t ==> (Elects(b1, cur, t) <==> Elects(b, cur, t));
  }

  lemma StopExact(g: Group, cur: int, n: nat)
    requires Consistent(g) && cur in g.active
    ensures Decision(Later(g, cur, Read(g, cur, n), false), cur, Apply(g, Step.Stop(cur, n)))
  {
    var b := Later(g, cur, Read(g, cur, n), false);
    LaterConsistent(g, cur, Read(g, cur, n), false);
    if g.clocks[cur].counting {
      assert Stopped(g, cur, n).clocks == b.clocks && Stopped(g, cur, n) == ShowTicks(b, cur);
      ShownFirst(b, cur);
    } else {
      assert Stopped(g, cur, n) == b;
      DecisionExact(b, cur);
    }
  }

  // Turning the counter off by itself also asks for a notification.
  lemma DisableExact(g: Group, cur: int, n: nat)
    requires Consistent(g) && cur in g.active
    ensures Decision(Later(g, cur, Read(g, cur, n), false).(notificationNeeded := true),
                     cur, Apply(g, Step.Disable(cur, n)))
  {
    var b := Later(g, cur, Read(g, cur, n), false).(notificationNeeded := true);
    LaterConsistent(g, cur, Read(g, cur, n), false);
    assert Disabled(g, cur, n).clocks == b.clocks && Disabled(g, cur, n) == b;
    DecisionExact(b, cur);
  }

  // A thread that turns its counter on runs: it is neither waiting nor asleep, and
  // if it is the recorded lowest, a notification is due as soon as it is not.
  lemma EnableExact(g: Group, cur: int)
    requires Consistent(g) && cur in g.active
    ensures exists d :: Decision(Later(g, cur, 0, true), cur, d) && Apply(g, Step.Enable(cur)) == Running(d, cur)
  {
    var b := Later(g, cur, 0, true);
    LaterConsistent(g, cur, 0, true);
    DecisionExact(b, cur);
    EnabledAfter(g, cur);
    assert Decision(b, cur, Decide(b, cur));
  }

  function Running(d: Group, cur: int): Group
    requires Known(d, cur)
  {
    d.(clocks := d.clocks[cur := Unmarked(d.clocks[cur])],
       notificationNeeded := d.notificationNeeded || d.lowestTid == cur,
       nmiNewLow := d.nmiNewLow && d.lowestTid != cur)
  }

  lemma EnabledAfter(g: Group, cur: int)
    requires Shaped(g) && Known(g, cur)
    ensures Shaped(Later(g, cur, 0, true)) && Known(Decide(Later(g, cur, 0, true), cur), cur)
    ensures Clocks.Enable(g, cur) == Running(Decide(Later(g, cur, 0, true), cur), cur)
  {
    assert Put(g, cur, g.clocks[cur].(counting := true)) == Later(g, cur, 0, true);
  }

  lemma WaitExact(g: Group, cur: int)
    requires Consistent(g) && cur in g.active
    ensures Decision(g, cur, Apply(g, Step.Wait(cur)))
  {
    DecisionExact(g, cur);
  }

  // A thread goes to sleep exactly if it is not the one elected.
  lemma SleepExact(g: Group, cur: int)
    requires Consistent(g) && cur in g.active
    ensures exists d :: Decision(g, cur, d) && Apply(g, Step.Sleep(cur)) == Resting(g, d, cur)
  {
    DecisionExact(g, cur);
    AsleepAfter(g, cur);
    assert Decision(g, cur, Decide(g, cur));
  }

  function Resting(g: Group, d: Group, cur: int): Group
    requires Known(d, cur)
  {
    d.(clocks := d.clocks[cur := d.clocks[cur].(sleeping := !(d.lowestTid == cur || g.active == [cur]))])
  }

  lemma AsleepAfter(g: Group, cur: int)
    requires Consistent(g) && cur in g.active && Decision(g, cur, Decide(g, cur))
    ensures Clocks.Sleep(g, cur) == Resting(g, Decide(g, cur), cur)
  {
  }

  // A thread that halts is off the list and inactive when the others are looked at,
  // and is not waiting afterwards.
  lemma HaltExact(g: Group, cur: int)
    requires Consistent(g) && cur in g.active
    ensures exists b, d ::
              && Shaped(b) && Known(b, cur) && Contested(b, cur, d)
              && b == g.(active := b.active, clocks := g.clocks[cur := g.clocks[cur].(inactive := true)])
              && (forall t :: t in b.active <==> t in g.active && t != cur) && |b.active| == |g.active| - 1
              && Apply(g, Step.Halt(cur)) == d.(clocks := d.clocks[cur := d.clocks[cur].(waiting := false)])
  {
    var b := Put(g, cur, g.clocks[cur].(inactive := true)).(active := Without(g.active, cur));
    UnlistedExact(g, cur, b);
    var d := Decide(b, cur);
    ContestedExact(b, cur);
    assert Apply(g, Step.Halt(cur)) == d.(clocks := d.clocks[cur := d.clocks[cur].(waiting := false)]);
  }

  lemma UnlistedExact(g: Group, cur: int, b: Group)
    requires Consistent(g) && cur in g.active
    requires b == Put(g, cur, g.clocks[cur].(inactive := true)).(active := Without(g.active, cur))
    ensures Consistent(b) && |b.active| == |g.active| - 1
    ensures forall t :: t in b.active <==> t in g.active && t != cur
  {
    WithoutMembers(g.active, cur);
  }

  // ---- the others ----

  // The interrupt takes what the counter saw, and only while it is on.
  lemma OverflowExact(g: Group, cur: int, n: nat)
    requires Consistent(g) && Known(g, cur)
    ensures Apply(g, Step.Overflow(cur, n)) == Later(g, cur, Read(g, cur, n), g.clocks[cur].counting)
  {
    assert g.clocks[cur := g.clocks[cur]] == g.clocks;
  }

  // It asks for a notification exactly if the interrupted thread counts, nobody
  // else is recorded as lowest, and the least thread is another one that waits.
  lemma OverflowAsks(g: Group, cur: int)
    requires Consistent(g) && Known(g, cur)
    ensures
      var h := Apply(g, Step.OverflowCheck(cur));
      && h == g.(nmiNewLow := h.nmiNewLow)
      && (h.nmiNewLow <==>
            || g.nmiNewLow
            || (g.clocks[cur].counting && (g.lowestTid == -1 || g.lowestTid == cur) &&
                exists u :: u != cur && IsLeast(g, u) && g.clocks[u].waiting))
  {
    LowestIsLeast(g);
  }

  // The deferred notification records the least thread if that one waits, and tells
  // it exactly if either flag is up; otherwise it does nothing.
  lemma NotifyExact(g: Group)
    requires Consistent(g)
    ensures
      var h := Apply(g, Step.Notify);
      if exists u :: IsLeast(g, u) && g.clocks[u].waiting then
        var u :| IsLeast(g, u) && g.clocks[u].waiting;
        h == g.(lowestTid := u, notificationNeeded := false, nmiNewLow := false,
                status := if g.notificationNeeded || g.nmiNewLow
                          then g.status[u := Telling(g.clocks[u], g.status[u])] else g.status)
      else h == g
  {
    LowestIsLeast(g);
  }

  // The stores of one thread to its own entry: waking takes the marks of a wait, a
  // reset makes the id free, and starting on an id that a creator has activated
  // keeps its clock but turns the counter off.
  lemma StoresExact(g: Group, cur: int)
    requires Consistent(g) && Known(g, cur)
    ensures Apply(g, Step.Forget(cur)) == g.(status := g.status[cur := g.status[cur].(lowestClock := false)])
    ensures
      cur in g.active ==>
        && Apply(g, Step.WokeUp(cur)) ==
             g.(clocks := g.clocks[cur := g.clocks[cur].(waiting := false, sleeping := false)])
        && var e := Apply(g, Step.EntryInit(cur)).clocks[cur];
        && Apply(g, Step.EntryInit(cur)) == g.(clocks := g.clocks[cur := e])
        && e.initialized && !e.counting && e == Unmarked(e) && ClockOf(e) == Clock(g, cur)
    ensures
      cur !in g.active ==>
        Apply(g, Step.Reset(cur)) == g.(clocks := g.clocks[cur := g.clocks[cur].(initialized := false)])
  {
  }

  // On an id that no creator has activated a thread starts from nothing.
  lemma FreshEntry(g: Group, cur: int)
    requires Known(g, cur) && !g.clocks[cur].initialized
    ensures Clock(Clocks.EntryInit(g, cur), cur) == 0 && Clocks.EntryInit(g, cur).clocks[cur].initialized
  {
  }

  // A thread that puts itself back grants itself the token exactly if it is below
  // the recorded lowest, or nobody is recorded and it is the least.
  lemma ActivateExact(g: Group, cur: int)
    requires Consistent(g) && Known(g, cur) && cur !in g.active && g.clocks[cur].initialized
    ensures
      var b := g.(active := g.active + [cur], clocks := g.clocks[cur := Unmarked(g.clocks[cur])]);
      && Consistent(b)
      && Apply(g, Step.Activate(cur)) ==
           if (if g.lowestTid == -1 then IsLeast(b, cur) else g.lowestTid != cur && Lower(g, cur, g.lowestTid)) then
             b.(lowestTid := cur, notificationNeeded := false,
                status := g.status[cur := g.status[cur].(lowestClock := true)])
           else b
  {
    var b := g.(active := g.active + [cur], clocks := g.clocks[cur := Unmarked(g.clocks[cur])]);
    assert b == Rejoined(g, cur);
    RejoinedConsistent(g, cur);
    LowestIsLeast(b);
  }

  lemma RejoinedConsistent(g: Group, cur: int)
    requires Consistent(g) && Known(g, cur) && cur !in g.active && g.clocks[cur].initialized
    ensures Consistent(Rejoined(g, cur))
  {
  }

  // A thread put on the list by another: it keeps its clock, or starts one tick
  // after its creator, and the activator is told exactly if the new thread is below
  // the recorded lowest or nobody is recorded.
  lemma ActivateOtherExact(g: Group, cur: int, u: int)
    requires Consistent(g) && cur in g.active && Known(g, u) && u !in g.active
    ensures
      var h := Apply(g, Step.ActivateOther(cur, u));
      && h.active == g.active + [u] && h.lowestTid == g.lowestTid
      && h.notificationNeeded == g.notificationNeeded && h.nmiNewLow == g.nmiNewLow
      && h.clocks == g.clocks[u := h.clocks[u]] && h.clocks[u].initialized
      && h.clocks[u].counting == g.clocks[u].counting && h.clocks[u] == Unmarked(h.clocks[u])
      && Clock(h, u) == (if g.clocks[u].initialized then Clock(g, u) else Clock(g, cur) + 1)
      && h.status == g.status[cur := g.status[cur].(activatedLowest := h.status[cur].activatedLowest)]
      && (h.status[cur].activatedLowest <==>
            g.status[cur].activatedLowest || g.lowestTid == -1 ||
            (if u == g.lowestTid then false else Clock(h, u) < Clock(g, g.lowestTid) ||
                                                 (Clock(h, u) == Clock(g, g.lowestTid) && u < g.lowestTid)))
  {
  }
}
