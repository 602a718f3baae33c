// The clock group kept by the kernel module: one logical clock per thread, the
// active list, and the bookkeeping that decides which thread may take the
// token (src/logical_clock/module/utility.h, search_entries.h, clock_main.c).
//
// Everything here is on values: a Group is a snapshot of `group_info`, and each
// handler is a function from the group before its critical section to the
// group after it, including the notification it sends. The class in
// ClockGroup.dfy runs the same handlers in place and is proved to agree.
module Clocks {
  import opened ListArrays

  datatype Entry = Entry(
    ticks: int, baseTicks: int,
    initialized: bool, inactive: bool, waiting: bool, sleeping: bool, counting: bool)

  // The page shared with user space. `polled` stands for the poll event that
  // wakes a sleeping thread.
  datatype Status = Status(
    ticks: int, lowestClock: bool, polled: bool, activatedLowest: bool, singleActive: bool)

  datatype Group = Group(
    clocks: seq<Entry>, status: seq<Status>, active: seq<int>,
    lowestTid: int, notificationNeeded: bool, nmiNewLow: bool)

  predicate Known(g: Group, t: int) {
    0 <= t < |g.clocks| && t < |g.status|
  }

  predicate Shaped(g: Group) {
    |g.clocks| == |g.status| && forall t :: t in g.active ==> Known(g, t)
  }

  function ClockOf(e: Entry): int { e.ticks + e.baseTicks }

  function Clock(g: Group, t: int): int
    requires Known(g, t)
  {
    ClockOf(g.clocks[t])
  }

  // __clock_is_lower: smaller clock first, thread id breaks ties.
  predicate Lower(g: Group, a: int, b: int)
    requires Known(g, a) && Known(g, b)
  {
    Clock(g, a) < Clock(g, b) || (Clock(g, a) == Clock(g, b) && a < b)
  }

  predicate Eligible(e: Entry) { e.initialized && !e.inactive }

  // ---- the searches ----

  function Scan(g: Group, s: seq<int>, best: int): (r: int)
    requires forall t :: t in s ==> Known(g, t)
    requires best >= 0 ==> Known(g, best)
    ensures r >= 0 ==> Known(g, r)
  {
    if s == [] then best
    else
      assert s[0] in s && Known(g, s[0]);
      Scan(g, s[1..], if Eligible(g.clocks[s[0]]) && (best < 0 || Lower(g, s[0], best)) then s[0] else best)
  }

  function Lowest(g: Group): int
    requires Shaped(g)
  {
    Scan(g, g.active, -1)
  }

  function LowestWaiting(g: Group): int
    requires Shaped(g)
  {
    var low := Lowest(g);
    if low >= 0 && g.clocks[low].waiting then low else -1
  }

  // t is the one active thread below every other.
  ghost predicate IsLeast(g: Group, t: int)
    requires Shaped(g)
  {
    t in g.active && forall u :: u in g.active && u != t ==> Lower(g, t, u)
  }

  // The list holds exactly the initialized threads that are not inactive.
  ghost predicate Consistent(g: Group) {
    && Shaped(g)
    && NoDup(g.active)
    && -1 <= g.lowestTid < |g.clocks|
    && forall t :: 0 <= t < |g.clocks| ==> (t in g.active <==> Eligible(g.clocks[t]))
  }

  // A scan returns the least eligible thread of the sequence, or the thread it
  // started from when nothing beats it.
  lemma {:induction false} ScanIsLeast(g: Group, s: seq<int>, best: int)
    requires forall t :: t in s ==> Known(g, t)
    requires best >= 0 ==> Known(g, best) && Eligible(g.clocks[best])
    ensures
      var r := Scan(g, s, best);
      && (r < 0 <==> best < 0 && forall t :: t in s ==> !Eligible(g.clocks[t]))
      && (r >= 0 ==> Eligible(g.clocks[r]) && (r == best || r in s))
      && (r >= 0 ==> forall t :: t in s && Eligible(g.clocks[t]) && t != r ==> Lower(g, r, t))
      && (r >= 0 && best >= 0 && r != best ==> Lower(g, r, best))
  {
    if s != [] {
      var x := s[0];
      assert x in s;
      var b := if Eligible(g.clocks[x]) && (best < 0 || Lower(g, x, best)) then x else best;
      ScanIsLeast(g, s[1..], b);
      assert forall t :: t in s <==> t == x || t in s[1..];
    }
  }

  lemma LowestIsLeast(g: Group)
    requires Consistent(g)
    ensures Lowest(g) < 0 <==> g.active == []
    ensures Lowest(g) >= 0 ==> IsLeast(g, Lowest(g))
    ensures forall t :: IsLeast(g, t) ==> t == Lowest(g)
  {
    ScanIsLeast(g, g.active, -1);
    if g.active != [] {
      assert g.active[0] in g.active;
    }
  }

  function Upto(n: nat): (s: seq<int>)
    ensures |s| == n && forall i :: 0 <= i < n ==> s[i] == i
  {
    seq(n, i => i)
  }

  // The walk over the list and the scan of every slot up to the high-water
  // mark, which the interrupt handler uses because it may not trust the links,
  // find the same thread.
  lemma TwoSearchesAgree(g: Group, maxIndex: nat)
    requires Consistent(g) && maxIndex < |g.clocks|
    requires forall t :: t in g.active ==> t <= maxIndex
    ensures Scan(g, Upto(maxIndex + 1), -1) == (if g.active == [] then -1 else Lowest(g))
  {
    var s := Upto(maxIndex + 1);
    ScanIsLeast(g, s, -1);
    LowestIsLeast(g);
    forall t | t in g.active
      ensures t in s
    {
      assert s[t] == t;
    }
    if g.active == [] {
      ScanNone(g, s, -1);
    } else {
      assert g.active[0] in s;
      assert Scan(g, s, -1) >= 0;
      assert IsLeast(g, Scan(g, s, -1));
    }
  }

  // A waiting thread other than tid.
  predicate Rival(g: Group, t: int, tid: int) {
    Known(g, t) && Eligible(g.clocks[t]) && g.clocks[t].waiting && t != tid
  }

  // r is the least rival of tid among s, or -1 when there is none.
  ghost predicate LeastRival(g: Group, s: seq<int>, tid: int, r: int) {
    if r == -1 then forall t :: t in s ==> !Rival(g, t, tid)
    else r in s && Rival(g, r, tid) && forall t :: t in s && Rival(g, t, tid) && t != r ==> Lower(g, r, t)
  }

  // The search that leaves a thread out finds the same rival over the list and
  // over all slots.
  lemma RivalSearchesAgree(g: Group, maxIndex: nat, tid: int, r: int, q: int)
    requires Consistent(g) && forall t :: t in g.active ==> t <= maxIndex
    requires LeastRival(g, g.active, tid, r) && LeastRival(g, Upto(maxIndex + 1), tid, q)
    ensures r == q
  {
    var all := Upto(maxIndex + 1);
    forall t | t in g.active
      ensures t in all
    {
      assert all[t] == t;
    }
    assert q >= 0 ==> q in g.active;
  }

  lemma {:induction false} ScanNone(g: Group, s: seq<int>, best: int)
    requires forall t :: t in s ==> Known(g, t) && !Eligible(g.clocks[t])
    requires best >= 0 ==> Known(g, best)
    ensures Scan(g, s, best) == best
  {
    if s != [] {
      ScanNone(g, s[1..], best);
    }
  }

  // ---- the pieces of the handlers ----

  function Put(g: Group, t: int, e: Entry): Group
    requires Known(g, t)
  {
    g.(clocks := g.clocks[t := e])
  }

  function PutStatus(g: Group, t: int, s: Status): Group
    requires Known(g, t)
  {
    g.(status := g.status[t := s])
  }

  function Cleared(e: Entry): Entry {
    e.(inactive := false, waiting := false, sleeping := false)
  }

  function ShowTicks(g: Group, t: int): Group
    requires Known(g, t)
  {
    PutStatus(g, t, g.status[t].(ticks := Clock(g, t)))
  }

  // __set_current_thread_to_lowest
  function GrantSelf(g: Group, cur: int): Group
    requires Known(g, cur)
  {
    var g1 := PutStatus(g, cur, g.status[cur].(lowestClock := true));
    Put(g1, cur, Cleared(g1.clocks[cur])).(notificationNeeded := false)
  }

  // __wake_up_waiting_thread
  function Wake(g: Group, t: int): Group
    requires Known(g, t)
  {
    PutStatus(g, t,
              if g.clocks[t].sleeping then g.status[t].(polled := true)
              else g.status[t].(lowestClock := true))
  }

  predicate Alone(g: Group, cur: int)
    requires Known(g, cur)
  {
    |g.active| == 1 && !g.clocks[cur].inactive
  }

  // cur starts waiting and the lowest waiting thread, if the lowest thread is
  // waiting, is recorded.
  function Elected(g: Group, cur: int): (h: Group)
    requires Shaped(g) && Known(g, cur)
    ensures |h.clocks| == |g.clocks| && h.status == g.status && h.active == g.active
    ensures h.lowestTid >= 0 ==> Known(h, h.lowestTid)
  {
    var g1 := Put(g, cur, g.clocks[cur].(waiting := true));
    var low := LowestWaiting(g1);
    if low != g1.lowestTid then g1.(notificationNeeded := true, lowestTid := low) else g1
  }

  // The several-threads branch of __determine_lowest_and_notify_or_wait: the
  // group after it and the thread to wake, or -1.
  function Contend(g: Group, cur: int): (r: (Group, int))
    requires Shaped(g) && Known(g, cur)
    ensures |r.0.clocks| == |g.clocks| && |r.0.status| == |g.status| && r.0.active == g.active
    ensures r.1 >= 0 ==> Known(r.0, r.1) && r.1 != cur
  {
    var g2 := Elected(g, cur);
    if g2.lowestTid == cur then
      (GrantSelf(g2, cur), -1)
    else
      var g3 := PutStatus(g2, cur, g2.status[cur].(lowestClock := false));
      if g3.lowestTid >= 0 && g3.clocks[g3.lowestTid].waiting && g3.notificationNeeded then
        (g3.(nmiNewLow := false, notificationNeeded := false), g3.lowestTid)
      else
        (g3, -1)
  }

  // __determine_lowest_and_notify_or_wait
  function Determine(g: Group, cur: int): (r: (Group, int))
    requires Shaped(g) && Known(g, cur)
    ensures |r.0.clocks| == |g.clocks| && |r.0.status| == |g.status| && r.0.active == g.active
    ensures r.1 >= 0 ==> Known(r.0, r.1) && r.1 != cur
  {
    var g0 := ShowTicks(g, cur);
    if Alone(g0, cur) then
      (GrantSelf(PutStatus(g0, cur, g0.status[cur].(singleActive := true)), cur), -1)
    else
      Contend(g0, cur)
  }

  function Notified(r: (Group, int)): Group
    requires r.1 >= 0 ==> Known(r.0, r.1)
  {
    if r.1 >= 0 then Wake(r.0, r.1) else r.0
  }

  function Decide(g: Group, cur: int): Group
    requires Shaped(g) && Known(g, cur)
  {
    Notified(Determine(g, cur))
  }

  // ---- the handlers ----

  function Ticked(g: Group, t: int, n: int): Group
    requires Known(g, t)
  {
    Put(g, t, g.clocks[t].(ticks := g.clocks[t].ticks + n))
  }

  // task_clock_add_ticks
  function AddTicks(g: Group, cur: int, n: int): Group
    requires Shaped(g) && Known(g, cur)
  {
    Decide(Ticked(g, cur, n), cur)
  }

  // The counter is read and turned off; what it saw only counts while it was on.
  function Stopped(g: Group, cur: int, n: int): Group
    requires Known(g, cur)
  {
    var g1 := Put(g, cur, g.clocks[cur].(counting := false));
    if g.clocks[cur].counting then ShowTicks(Ticked(g1, cur, n), cur) else g1
  }

  // task_clock_entry_stop
  function Stop(g: Group, cur: int, n: int): Group
    requires Shaped(g) && Known(g, cur)
  {
    Decide(Stopped(g, cur, n), cur)
  }

  function Disabled(g: Group, cur: int, n: int): Group
    requires Known(g, cur)
  {
    var e := g.clocks[cur];
    var g1 := if e.counting then Put(g, cur, e.(ticks := e.ticks + n, counting := false)) else g;
    g1.(notificationNeeded := true)
  }

  // task_clock_on_disable
  function Disable(g: Group, cur: int, n: int): Group
    requires Shaped(g) && Known(g, cur)
  {
    Decide(Disabled(g, cur, n), cur)
  }

  // task_clock_on_enable, also reached through task_clock_entry_start
  function Enable(g: Group, cur: int): Group
    requires Shaped(g) && Known(g, cur)
  {
    var r := Determine(Put(g, cur, g.clocks[cur].(counting := true)), cur);
    var g2 := if r.0.lowestTid == cur then r.0.(notificationNeeded := true, nmiNewLow := false) else r.0;
    Notified((Put(g2, cur, Cleared(g2.clocks[cur])), r.1))
  }

  // task_clock_entry_wait
  function Wait(g: Group, cur: int): Group
    requires Shaped(g) && Known(g, cur)
  {
    Decide(g, cur)
  }

  // task_clock_entry_sleep
  function Sleep(g: Group, cur: int): Group
    requires Shaped(g) && Known(g, cur)
  {
    var r := Determine(g, cur);
    var e := r.0.clocks[cur];
    Notified((Put(r.0, cur, if e.waiting then e.(sleeping := true) else e), r.1))
  }

  // task_clock_entry_woke_up
  function WokeUp(g: Group, cur: int): Group
    requires Known(g, cur)
  {
    Put(g, cur, g.clocks[cur].(sleeping := false, waiting := false))
  }

  // task_clock_entry_halt
  function Halt(g: Group, cur: int): Group
    requires Shaped(g) && Known(g, cur)
  {
    WithoutSubset(g.active, cur);
    var g1 := Put(g, cur, g.clocks[cur].(inactive := true)).(active := Without(g.active, cur));
    var r := Determine(g1, cur);
    Notified((Put(r.0, cur, r.0.clocks[cur].(waiting := false)), r.1))
  }

  // __new_lowest
  function NewLowest(g: Group, t: int): int
    requires Shaped(g) && Known(g, t) && -1 <= g.lowestTid < |g.clocks|
  {
    if g.lowestTid == -1 then Lowest(g)
    else if t == g.lowestTid && Lowest(g) != t then Lowest(g)
    else if t != g.lowestTid && Lower(g, t, g.lowestTid) then t
    else -1
  }

  // The group once cur has put itself back on the list.
  function Rejoined(g: Group, cur: int): Group
    requires Known(g, cur)
  {
    Put(g, cur, Cleared(g.clocks[cur])).(active := g.active + [cur])
  }

  // task_clock_entry_activate
  function Activate(g: Group, cur: int): Group
    requires Shaped(g) && Known(g, cur) && -1 <= g.lowestTid < |g.clocks|
  {
    var g1 := Rejoined(g, cur);
    if NewLowest(g1, cur) == cur then
      PutStatus(g1, cur, g1.status[cur].(lowestClock := true)).(notificationNeeded := false, lowestTid := cur)
    else g1
  }

  // The group once cur has put u on the list. A thread that is not initialized
  // starts one tick after its creator.
  function Admitted(g: Group, cur: int, u: int): Group
    requires Known(g, cur) && Known(g, u)
  {
    var e := g.clocks[u];
    var e1 := if e.initialized then e else e.(baseTicks := Clock(g, cur) + 1, ticks := 0);
    Put(g, u, Cleared(e1).(initialized := true)).(active := g.active + [u])
  }

  predicate Displaces(g: Group, u: int)
    requires Known(g, u) && -1 <= g.lowestTid < |g.clocks| == |g.status|
  {
    g.lowestTid < 0 || Lower(g, u, g.lowestTid)
  }

  // task_clock_entry_activate_other
  function ActivateOther(g: Group, cur: int, u: int): Group
    requires Shaped(g) && Known(g, cur) && Known(g, u) && -1 <= g.lowestTid < |g.clocks|
  {
    var g1 := Admitted(g, cur, u);
    if Displaces(g1, u) then PutStatus(g1, cur, g1.status[cur].(activatedLowest := true)) else g1
  }

  // task_clock_entry_reset
  function Reset(g: Group, cur: int): Group
    requires Known(g, cur)
  {
    Put(g, cur, g.clocks[cur].(initialized := false))
  }

  // task_clock_entry_init, for a thread its creator has activated
  function EntryInit(g: Group, cur: int): Group
    requires Known(g, cur)
  {
    var e := g.clocks[cur];
    var e1 := if e.initialized then e else e.(ticks := 0, baseTicks := 0);
    Put(g, cur, Cleared(e1).(initialized := true, counting := false))
  }

  // task_clock_entry_overflow_update_period: ticks taken in the interrupt
  function Overflow(g: Group, cur: int, n: int): Group
    requires Known(g, cur)
  {
    if g.clocks[cur].counting then Ticked(g, cur, n) else g
  }

  // task_clock_overflow_handler: asks for a notification outside the interrupt
  function OverflowCheck(g: Group, cur: int): Group
    requires Shaped(g) && Known(g, cur) && -1 <= g.lowestTid < |g.clocks|
  {
    if !g.clocks[cur].counting then g
    else
      var low := NewLowest(g, cur);
      if low >= 0 && low != cur && !g.nmiNewLow && g.clocks[low].waiting then g.(nmiNewLow := true) else g
  }

  // __task_clock_notify_waiting_threads: the group and the thread to wake
  function NotifyChoice(g: Group): (r: (Group, int))
    requires Shaped(g)
    ensures r.1 >= 0 ==> Known(r.0, r.1)
  {
    var low := LowestWaiting(g);
    if low >= 0 then
      var g1 := g.(lowestTid := low);
      if g.notificationNeeded || g.nmiNewLow then
        (g1.(nmiNewLow := false, notificationNeeded := false), low)
      else (g1, -1)
    else (g, -1)
  }

  function Notify(g: Group): Group
    requires Shaped(g)
  {
    Notified(NotifyChoice(g))
  }

  // User space forgets a grant (determ_task_clock_on_wakeup and the stores at
  // the head of determ_task_clock_start and determ_task_clock_activate).
  function Forget(g: Group, cur: int): Group
    requires Known(g, cur)
  {
    PutStatus(g, cur, g.status[cur].(lowestClock := false))
  }

  lemma {:induction false} WithoutSubset(s: seq<int>, x: int)
    ensures forall y :: y in Without(s, x) ==> y in s
  {
    if s != [] && s[0] != x {
      WithoutSubset(s[1..], x);
    }
  }

  // ---- what a decision may change ----

  // h has the same threads on the list, the same clocks and the same state
  // apart from who is waiting and who is told what.
  ghost predicate SameClocks(g: Group, h: Group) {
    && |h.clocks| == |g.clocks| && |h.status| == |g.status|
    && h.active == g.active
    && forall t :: 0 <= t < |g.clocks| ==>
         && h.clocks[t].ticks == g.clocks[t].ticks
         && h.clocks[t].baseTicks == g.clocks[t].baseTicks
         && h.clocks[t].initialized == g.clocks[t].initialized
         && h.clocks[t].inactive == g.clocks[t].inactive
         && h.clocks[t].counting == g.clocks[t].counting
  }

  predicate Told(g: Group, t: int)
    requires Known(g, t)
  {
    g.status[t].lowestClock || g.status[t].polled
  }

  lemma SameClocksKeeps(g: Group, h: Group)
    requires Consistent(g) && SameClocks(g, h) && -1 <= h.lowestTid < |h.clocks|
    ensures Consistent(h)
    ensures Lowest(h) == Lowest(g)
    ensures forall t :: IsLeast(h, t) <==> IsLeast(g, t)
  {
    assert forall t :: Known(g, t) <==> Known(h, t);
    forall t
      ensures IsLeast(h, t) <==> IsLeast(g, t)
    {
    }
    LowestIsLeast(g);
    LowestIsLeast(h);
    ScanIsLeast(g, g.active, -1);
    if g.active == [] {
      assert Scan(g, g.active, -1) == -1 == Scan(h, h.active, -1);
    }
  }

  // Who can be told what by a decision of cur. The last two clauses are what
  // the displacement flag rests on: a decision leaves lowest_tid alone, or sets
  // it to the least thread or to none.
  ghost predicate DecisionOf(g: Group, cur: int, h: Group)
    requires Shaped(g) && Known(g, cur)
  {
    && SameClocks(g, h)
    && -1 <= h.lowestTid < |h.clocks|
    && (forall t :: 0 <= t < |g.status| && t != cur ==>
          && (Told(h, t) ==> Told(g, t) || (IsLeast(g, t) && h.lowestTid == t))
          && (h.status[t].polled ==> g.status[t].polled || g.clocks[t].sleeping)
          && h.clocks[t].waiting == g.clocks[t].waiting
          && h.clocks[t].sleeping == g.clocks[t].sleeping)
    && (h.status[cur].lowestClock ==> IsLeast(g, cur) && (Alone(g, cur) || h.lowestTid == cur))
    && h.status[cur].polled == g.status[cur].polled
    && (h.lowestTid == g.lowestTid || h.lowestTid == -1 || IsLeast(g, h.lowestTid))
    && (!Alone(g, cur) ==> h.lowestTid == -1 || IsLeast(g, h.lowestTid))
  }

  // The decision before the notification goes out.
  lemma ContendTells(g: Group, cur: int)
    requires Consistent(g) && Known(g, cur)
    requires cur in g.active || g.clocks[cur].inactive
    ensures
      var r := Contend(g, cur);
      var low := r.0.lowestTid;
      && SameClocks(g, r.0)
      && -1 <= low < |g.clocks| && (r.1 >= 0 ==> r.1 == low && r.1 != cur)
      && (low >= 0 ==> IsLeast(g, low))
      && (forall t :: 0 <= t < |g.status| && t != cur ==>
            r.0.status[t] == g.status[t] && r.0.clocks[t] == g.clocks[t])
      && (r.0.status[cur].lowestClock ==> low == cur)
      && r.0.status[cur].polled == g.status[cur].polled
  {
    WaitingLowest(g, cur);
  }

  lemma WaitingLowest(g: Group, cur: int)
    requires Consistent(g) && Known(g, cur)
    ensures
      var g1 := Put(g, cur, g.clocks[cur].(waiting := true));
      var low := LowestWaiting(g1);
      -1 <= low < |g.clocks| && (low >= 0 ==> IsLeast(g, low))
  {
    var g1 := Put(g, cur, g.clocks[cur].(waiting := true));
    assert SameClocks(g, g1);
    SameClocksKeeps(g, g1);
    LowestIsLeast(g1);
  }

  lemma ContendFrame(g: Group, cur: int)
    requires Consistent(g) && Known(g, cur)
    requires cur in g.active || g.clocks[cur].inactive
    ensures
      var h := Notified(Contend(g, cur));
      DecisionOf(g, cur, h) && (h.lowestTid == -1 || IsLeast(g, h.lowestTid))
  {
    ContendTells(g, cur);
    var r := Contend(g, cur);
    NotifiedFrame(g, cur, r);
  }

  // Sending the notification keeps what the decision established.
  lemma NotifiedFrame(g: Group, cur: int, r: (Group, int))
    requires Shaped(g) && Known(g, cur) && SameClocks(g, r.0) && -1 <= r.0.lowestTid < |g.clocks|
    requires r.1 >= 0 ==> Known(g, r.1) && r.1 != cur && r.1 == r.0.lowestTid
    requires forall t :: 0 <= t < |g.status| && t != cur ==>
               r.0.status[t] == g.status[t] && r.0.clocks[t] == g.clocks[t]
    requires r.0.status[cur].lowestClock ==> IsLeast(g, cur) && r.0.lowestTid == cur
    requires r.0.status[cur].polled == g.status[cur].polled
    requires r.0.lowestTid == -1 || IsLeast(g, r.0.lowestTid)
    ensures DecisionOf(g, cur, Notified(r))
  {
  }

  lemma AloneFrame(g: Group, cur: int)
    requires Consistent(g) && Known(g, cur) && cur in g.active && |g.active| == 1
    ensures DecisionOf(g, cur, GrantSelf(PutStatus(g, cur, g.status[cur].(singleActive := true)), cur))
  {
    assert g.active == [cur];
  }

  lemma DecideFrame(g: Group, cur: int)
    requires Consistent(g) && Known(g, cur)
    requires cur in g.active || g.clocks[cur].inactive
    ensures DecisionOf(g, cur, Decide(g, cur))
  {
    var g0 := ShowTicks(g, cur);
    SameClocksKeeps(g, g0);
    if Alone(g0, cur) {
      AloneFrame(g0, cur);
    } else {
      ContendFrame(g0, cur);
    }
    ShowTicksFrame(g, cur, Decide(g, cur));
  }

  lemma ShowTicksFrame(g: Group, cur: int, h: Group)
    requires Consistent(g) && Known(g, cur) && DecisionOf(ShowTicks(g, cur), cur, h)
    ensures DecisionOf(g, cur, h)
  {
    SameClocksKeeps(g, ShowTicks(g, cur));
  }
}
