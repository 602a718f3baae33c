// `group_info` as the kernel module updates it: arrays of entries and status
// pages, the linked active list, and the handlers running in place
// (src/logical_clock/module/clock_main.c, search_entries.h). Each method is one
// critical section under the group lock, with the notification it decides on,
// and is proved to compute the function of Clocks.dfy.
module ClockGroups {
  import opened ListArrays
  import opened Clocks

  lemma {:induction false} ScanStep(g: Group, s: seq<int>, k: nat, best: int)
    requires forall t :: t in s ==> Known(g, t)
    requires k < |s| && (best >= 0 ==> Known(g, best))
    ensures Known(g, s[k])
    ensures Scan(g, s[k..], best)
         == Scan(g, s[k + 1..],
                 if Eligible(g.clocks[s[k]]) && (best < 0 || Lower(g, s[k], best)) then s[k] else best)
  {
  }

  class TaskClockGroup {
    const clocks: array<Entry>
    const status: array<Status>
    const active: ListArray
    var lowestTid: int
    var notificationNeeded: bool
    var nmiNewLow: bool

    ghost predicate Valid()
      reads this, clocks, status, active, active.next, active.prev
    {
      && active.Valid()
      && 0 < clocks.Length == status.Length <= MAX_SIZE
      && (forall t :: t in active.items ==> t < clocks.Length)
      && active.maxIndex < clocks.Length
      && -1 <= lowestTid < clocks.Length
    }

    ghost function M(): (g: Group)
      reads this, clocks, status, active, active.next, active.prev
      requires Valid()
      ensures Shaped(g)
    {
      LinkedKnown();
      Group(clocks[..], status[..], active.items, lowestTid, notificationNeeded, nmiNewLow)
    }

    lemma LinkedKnown()
      requires Valid()
      ensures forall t :: t in active.items ==> 0 <= t < clocks.Length
    {
    }

    // task_clock_group_init for a group of n threads
    constructor (n: nat)
      requires 0 < n <= MAX_SIZE
      ensures Valid() && fresh(clocks) && fresh(status) && fresh(active) && fresh(active.next) && fresh(active.prev)
      ensures M() == Group(seq(n, _ => Entry(0, 0, false, false, false, false, false)),
                           seq(n, _ => Status(0, false, false, false, false)), [], -1, true, false)
      ensures Consistent(M())
    {
      clocks := new Entry[n](_ => Entry(0, 0, false, false, false, false, false));
      status := new Status[n](_ => Status(0, false, false, false, false));
      active := new ListArray();
      lowestTid, notificationNeeded, nmiNewLow := -1, true, false;
    }

    // __search_for_lowest outside an interrupt
    method SearchForLowest() returns (minTid: int)
      requires Valid()
      ensures minTid == Lowest(M())
    {
      minTid := -1;
      var i := active.head;
      ghost var k := 0;
      ghost var s := active.items;
      while i != NULL
        invariant 0 <= k <= |s|
        invariant i == if k < |s| then s[k] else NULL
        invariant minTid >= 0 ==> Known(M(), minTid)
        invariant Scan(M(), s[k..], minTid) == Lowest(M())
        decreases |s| - k
      {
        ScanStep(M(), s, k, minTid);
        assert LinkedAt(active.next[..], active.prev[..], s, k);
        if Eligible(clocks[i]) && (minTid < 0 || ClockIsLower(i, minTid)) {
          minTid := i;
        }
        i := active.next[i];
        k := k + 1;
      }
    }

    // __search_for_lowest inside an interrupt: every slot up to the highest
    // index ever linked.
    method SearchAllElements() returns (minTid: int)
      requires Valid()
      ensures minTid == Scan(M(), Upto(active.maxIndex + 1), -1)
    {
      minTid := -1;
      var i := 0;
      ghost var s := Upto(active.maxIndex + 1);
      while i <= active.maxIndex
        invariant 0 <= i <= |s|
        invariant minTid >= 0 ==> Known(M(), minTid)
        invariant Scan(M(), s[i..], minTid) == Scan(M(), s, -1)
      {
        ScanStep(M(), s, i, minTid);
        if Eligible(clocks[i]) && (minTid < 0 || ClockIsLower(i, minTid)) {
          minTid := i;
        }
        i := i + 1;
      }
    }

    predicate ClockIsLower(a: int, b: int)
      requires 0 <= a < clocks.Length && 0 <= b < clocks.Length
      reads clocks
    {
      ClockOf(clocks[a]) < ClockOf(clocks[b]) || (ClockOf(clocks[a]) == ClockOf(clocks[b]) && a < b)
    }

    predicate RivalOf(i: int, tid: int)
      requires 0 <= i < clocks.Length
      reads clocks
    {
      Eligible(clocks[i]) && clocks[i].waiting && i != tid
    }

    // __search_for_lowest_waiting_exclude_current outside an interrupt
    method SearchRival(tid: int) returns (minTid: int)
      requires Valid()
      ensures LeastRival(M(), active.items, tid, minTid)
    {
      minTid := -1;
      var i := active.head;
      ghost var k := 0;
      ghost var s := active.items;
      while i != NULL
        invariant 0 <= k <= |s|
        invariant i == if k < |s| then s[k] else NULL
        invariant LeastRival(M(), s[..k], tid, minTid)
        decreases |s| - k
      {
        assert LinkedAt(active.next[..], active.prev[..], s, k);
        assert s[..k + 1] == s[..k] + [i];
        if RivalOf(i, tid) && (minTid < 0 || ClockIsLower(i, minTid)) {
          minTid := i;
        }
        i := active.next[i];
        k := k + 1;
      }
      assert s[..k] == s;
    }

    // The same inside an interrupt.
    method SearchRivalAllElements(tid: int) returns (minTid: int)
      requires Valid()
      ensures LeastRival(M(), Upto(active.maxIndex + 1), tid, minTid)
    {
      minTid := -1;
      var i := 0;
      ghost var s := Upto(active.maxIndex + 1);
      while i <= active.maxIndex
        invariant 0 <= i <= |s|
        invariant LeastRival(M(), s[..i], tid, minTid)
      {
        assert s[..i + 1] == s[..i] + [i];
        if RivalOf(i, tid) && (minTid < 0 || ClockIsLower(i, minTid)) {
          minTid := i;
        }
        i := i + 1;
      }
      assert s[..i] == s;
    }

    // __search_for_lowest_waiting, with the marks it reads cleared first
    method SearchForLowestWaiting() returns (low: int)
      requires Valid()
      ensures low == LowestWaiting(M())
    {
      var marks := new bool[clocks.Length](_ => false);
      var i := active.head;
      ghost var k := 0;
      ghost var s := active.items;
      while i != NULL
        invariant 0 <= k <= |s|
        invariant i == if k < |s| then s[k] else NULL
        invariant forall x :: x in s[..k] ==> 0 <= x < clocks.Length && marks[x] == clocks[x].waiting
        invariant forall x :: 0 <= x < clocks.Length && marks[x] ==> clocks[x].waiting
        decreases |s| - k
      {
        assert LinkedAt(active.next[..], active.prev[..], s, k);
        assert s[k] in s && s[..k + 1] == s[..k] + [s[k]];
        if clocks[i].waiting {
          marks[i] := true;
        }
        i := active.next[i];
        k := k + 1;
      }
      low := SearchForLowest();
      ScanMember(M(), s, -1);
      assert s[..k] == s;
      if !(low >= 0 && marks[low]) {
        low := -1;
      }
    }

    method SetCurrentThreadToLowest(cur: int)
      requires Valid() && 0 <= cur < clocks.Length
      modifies this`notificationNeeded, clocks, status
      ensures Valid() && M() == GrantSelf(old(M()), cur)
    {
      status[cur] := status[cur].(lowestClock := true);
      notificationNeeded := false;
      clocks[cur] := Cleared(clocks[cur]);
    }

    method WakeUpWaitingThread(t: int)
      requires Valid() && 0 <= t < clocks.Length
      modifies status
      ensures Valid() && M() == Wake(old(M()), t)
    {
      if clocks[t].sleeping {
        status[t] := status[t].(polled := true);
      } else {
        status[t] := status[t].(lowestClock := true);
      }
    }

    method NotifyIfAny(t: int)
      requires Valid() && -1 <= t < clocks.Length
      modifies status
      ensures Valid() && M() == Notified((old(M()), t))
    {
      if t >= 0 {
        WakeUpWaitingThread(t);
      }
    }

    method Elect(cur: int) returns (newLow: int)
      requires Valid() && 0 <= cur < clocks.Length
      modifies this`notificationNeeded, this`lowestTid, clocks
      ensures Valid() && M() == Elected(old(M()), cur) && newLow == lowestTid
    {
      clocks[cur] := clocks[cur].(waiting := true);
      newLow := SearchForLowestWaiting();
      LowestRange(M());
      if newLow != lowestTid {
        notificationNeeded := true;
        lowestTid := newLow;
      }
    }

    // The several-threads branch of __determine_lowest_and_notify_or_wait
    method Compete(cur: int) returns (wake: int)
      requires Valid() && 0 <= cur < clocks.Length
      modifies this`notificationNeeded, this`nmiNewLow, this`lowestTid, clocks, status
      ensures Valid() && (M(), wake) == Contend(old(M()), cur)
    {
      wake := -1;
      var newLow := Elect(cur);
      if newLow >= 0 && lowestTid == cur {
        SetCurrentThreadToLowest(cur);
      } else {
        status[cur] := status[cur].(lowestClock := false);
        if lowestTid >= 0 && clocks[lowestTid].waiting && notificationNeeded {
          nmiNewLow, notificationNeeded := false, false;
          wake := lowestTid;
        }
      }
    }

    // __determine_lowest_and_notify_or_wait
    method DetermineLowest(cur: int) returns (wake: int)
      requires Valid() && 0 <= cur < clocks.Length
      modifies this`notificationNeeded, this`nmiNewLow, this`lowestTid, clocks, status
      ensures Valid() && (M(), wake) == Determine(old(M()), cur)
    {
      status[cur] := status[cur].(ticks := ClockOf(clocks[cur]));
      if active.count == 1 && !clocks[cur].inactive {
        status[cur] := status[cur].(singleActive := true);
        SetCurrentThreadToLowest(cur);
        wake := -1;
      } else {
        wake := Compete(cur);
      }
    }

    // task_clock_add_ticks
    method AddTicks(cur: int, n: nat)
      requires Valid() && 0 <= cur < clocks.Length
      modifies this, clocks, status
      ensures Valid() && M() == Clocks.AddTicks(old(M()), cur, n)
    {
      clocks[cur] := clocks[cur].(ticks := clocks[cur].ticks + n);
      assert M() == Ticked(old(M()), cur, n);
      status[cur] := status[cur].(ticks := ClockOf(clocks[cur]));
      ShowTwice(Ticked(old(M()), cur, n), cur);
      var wake := DetermineLowest(cur);
      NotifyIfAny(wake);
    }

    // task_clock_entry_stop
    method Stop(cur: int, n: nat)
      requires Valid() && 0 <= cur < clocks.Length
      modifies this, clocks, status
      ensures Valid() && M() == Clocks.Stop(old(M()), cur, n)
    {
      var wasOn := clocks[cur].counting;
      clocks[cur] := clocks[cur].(counting := false);
      if wasOn {
        clocks[cur] := clocks[cur].(ticks := clocks[cur].ticks + n);
        status[cur] := status[cur].(ticks := ClockOf(clocks[cur]));
      }
      assert M() == Stopped(old(M()), cur, n);
      var wake := DetermineLowest(cur);
      NotifyIfAny(wake);
    }

    // task_clock_on_disable
    method Disable(cur: int, n: nat)
      requires Valid() && 0 <= cur < clocks.Length
      modifies this, clocks, status
      ensures Valid() && M() == Clocks.Disable(old(M()), cur, n)
    {
      if clocks[cur].counting {
        clocks[cur] := clocks[cur].(ticks := clocks[cur].ticks + n);
        clocks[cur] := clocks[cur].(counting := false);
      }
      notificationNeeded := true;
      assert M() == Disabled(old(M()), cur, n);
      var wake := DetermineLowest(cur);
      NotifyIfAny(wake);
    }

    // task_clock_on_enable
    method Enable(cur: int)
      requires Valid() && 0 <= cur < clocks.Length
      modifies this, clocks, status
      ensures Valid() && M() == Clocks.Enable(old(M()), cur)
    {
      clocks[cur] := clocks[cur].(counting := true);
      assert M() == Put(old(M()), cur, old(clocks[cur]).(counting := true));
      var wake := DetermineLowest(cur);
      ghost var r := M();
      if lowestTid == cur {
        notificationNeeded := true;
        nmiNewLow := false;
      }
      ghost var q := if r.lowestTid == cur then r.(notificationNeeded := true, nmiNewLow := false) else r;
      assert M() == q;
      clocks[cur] := Cleared(clocks[cur]);
      NotifyIfAny(wake);
    }

    // task_clock_entry_wait
    method Wait(cur: int)
      requires Valid() && 0 <= cur < clocks.Length
      modifies this, clocks, status
      ensures Valid() && M() == Clocks.Wait(old(M()), cur)
    {
      var wake := DetermineLowest(cur);
      NotifyIfAny(wake);
    }

    // task_clock_entry_sleep
    method Sleep(cur: int)
      requires Valid() && 0 <= cur < clocks.Length
      modifies this, clocks, status
      ensures Valid() && M() == Clocks.Sleep(old(M()), cur)
    {
      var wake := DetermineLowest(cur);
      if clocks[cur].waiting {
        clocks[cur] := clocks[cur].(sleeping := true);
      }
      NotifyIfAny(wake);
    }

    // task_clock_entry_woke_up
    method WokeUp(cur: int)
      requires Valid() && 0 <= cur < clocks.Length
      modifies clocks
      ensures Valid() && M() == Clocks.WokeUp(old(M()), cur)
    {
      clocks[cur] := clocks[cur].(sleeping := false);
      clocks[cur] := clocks[cur].(waiting := false);
    }

    // __mark_as_inactive
    method MarkAsInactive(cur: int)
      requires Valid() && cur in active.items
      modifies clocks, active, active.next, active.prev
      ensures Valid() && active.next == old(active.next) && active.prev == old(active.prev)
      ensures
        var g := old(M());
        M() == g.(clocks := g.clocks[cur := g.clocks[cur].(inactive := true)], active := Without(g.active, cur))
    {
      WithoutSubset(active.items, cur);
      clocks[cur] := clocks[cur].(inactive := true);
      active.Remove(cur);
    }

    // task_clock_entry_halt
    method Halt(cur: int)
      requires Valid() && cur in active.items
      modifies this, clocks, status, active, active.next, active.prev
      ensures Valid() && M() == Clocks.Halt(old(M()), cur)
      ensures active.next == old(active.next) && active.prev == old(active.prev)
    {
      MarkAsInactive(cur);
      var wake := DetermineLowest(cur);
      clocks[cur] := clocks[cur].(waiting := false);
      NotifyIfAny(wake);
    }

    // __new_lowest
    method NewLowestClock(t: int, inNmi: bool) returns (newLow: int)
      requires Valid() && 0 <= t < clocks.Length
      requires inNmi ==> Consistent(M())
      ensures newLow == NewLowest(M(), t)
    {
      newLow := -1;
      var low := -1;
      if inNmi {
        low := SearchAllElements();
        TwoSearchesAgree(M(), active.maxIndex);
      } else {
        low := SearchForLowest();
      }
      if lowestTid == -1 {
        newLow := low;
      } else if t == lowestTid && low != t {
        newLow := low;
      } else if t != lowestTid && ClockIsLower(t, lowestTid) {
        newLow := t;
      }
    }

    // __mark_as_active
    method MarkAsActive(t: int)
      requires Valid() && 0 <= t < clocks.Length && t !in active.items
      modifies clocks, active, active.next, active.prev
      ensures Valid() && M() == Put(old(M()), t, old(clocks[t]).(inactive := false)).(active := old(active.items) + [t])
      ensures active.next == old(active.next) && active.prev == old(active.prev)
    {
      clocks[t] := clocks[t].(inactive := false);
      var ok := active.Insert(t);
    }

    // task_clock_entry_activate. A thread already on the list is a kernel bug.
    method Activate(cur: int)
      requires Valid() && 0 <= cur < clocks.Length && cur !in active.items
      modifies this, clocks, status, active, active.next, active.prev
      ensures Valid() && M() == Clocks.Activate(old(M()), cur)
      ensures active.next == old(active.next) && active.prev == old(active.prev)
    {
      clocks[cur] := Cleared(clocks[cur]);
      MarkAsActive(cur);
      assert M() == Rejoined(old(M()), cur);
      var newLow := NewLowestClock(cur, false);
      if newLow >= 0 && newLow == cur {
        notificationNeeded := false;
        lowestTid := newLow;
        status[cur] := status[cur].(lowestClock := true);
      }
    }

    // The stores of task_clock_entry_activate_other to the new thread's entry
    method PrepareEntry(cur: int, id: int)
      requires Valid() && 0 <= cur < clocks.Length && 0 <= id < clocks.Length
      modifies clocks
      ensures Valid() && M() == Put(old(M()), id, Admitted(old(M()), cur, id).clocks[id])
    {
      if !clocks[id].initialized {
        clocks[id] := clocks[id].(baseTicks := ClockOf(clocks[cur]) + 1);
        clocks[id] := clocks[id].(ticks := 0);
      }
      clocks[id] := clocks[id].(initialized := true);
      clocks[id] := Cleared(clocks[id]);
    }

    // task_clock_entry_activate_other
    method ActivateOther(cur: int, id: int)
      requires Valid() && 0 <= cur < clocks.Length && 0 <= id < clocks.Length && id !in active.items
      modifies this, clocks, status, active, active.next, active.prev
      ensures Valid() && M() == Clocks.ActivateOther(old(M()), cur, id)
      ensures active.next == old(active.next) && active.prev == old(active.prev)
    {
      ghost var was := M();
      PrepareEntry(cur, id);
      MarkAsActive(id);
      assert M() == Admitted(was, cur, id);
      if lowestTid < 0 || ClockIsLower(id, lowestTid) {
        status[cur] := status[cur].(activatedLowest := true);
      }
    }

    // task_clock_entry_reset
    method Reset(cur: int)
      requires Valid() && 0 <= cur < clocks.Length
      modifies clocks
      ensures Valid() && M() == Clocks.Reset(old(M()), cur)
    {
      clocks[cur] := clocks[cur].(initialized := false);
    }

    // task_clock_entry_init
    method EntryInit(cur: int)
      requires Valid() && 0 <= cur < clocks.Length
      modifies clocks
      ensures Valid() && M() == Clocks.EntryInit(old(M()), cur)
    {
      if !clocks[cur].initialized {
        clocks[cur] := clocks[cur].(ticks := 0, baseTicks := 0);
      }
      clocks[cur] := Cleared(clocks[cur].(initialized := true));
      clocks[cur] := clocks[cur].(counting := false);
    }

    // task_clock_entry_overflow_update_period
    method Overflow(cur: int, n: nat)
      requires Valid() && 0 <= cur < clocks.Length
      modifies clocks
      ensures Valid() && M() == Clocks.Overflow(old(M()), cur, n)
    {
      if clocks[cur].counting {
        clocks[cur] := clocks[cur].(ticks := clocks[cur].ticks + n);
      }
    }

    // task_clock_overflow_handler: runs in an interrupt, so it scans every slot
    method OverflowHandler(cur: int)
      requires Valid() && 0 <= cur < clocks.Length && Consistent(M())
      modifies this`nmiNewLow
      ensures Valid() && M() == Clocks.OverflowCheck(old(M()), cur)
    {
      if clocks[cur].counting {
        var newLow := NewLowestClock(cur, true);
        if newLow >= 0 && newLow != cur && !nmiNewLow {
          if clocks[newLow].waiting {
            nmiNewLow := true;
          }
        }
      }
    }

    // __task_clock_notify_waiting_threads
    method NotifyWaitingThreads()
      requires Valid()
      modifies this, status
      ensures Valid() && M() == Clocks.Notify(old(M()))
    {
      var wake := -1;
      var newLow := SearchForLowestWaiting();
      LowestRange(M());
      if newLow >= 0 && clocks[newLow].waiting {
        lowestTid := newLow;
        if notificationNeeded || nmiNewLow {
          nmiNewLow := false;
          notificationNeeded := false;
          wake := lowestTid;
        }
      }
      NotifyIfAny(wake);
    }
  }

  // Publishing the clock twice is publishing it once.
  lemma ShowTwice(g: Group, t: int)
    requires Shaped(g) && Known(g, t)
    ensures Determine(ShowTicks(g, t), t) == Determine(g, t)
  {
    assert ShowTicks(ShowTicks(g, t), t) == ShowTicks(g, t);
  }

  lemma {:induction false} ScanMember(g: Group, s: seq<int>, best: int)
    requires forall t :: t in s ==> Known(g, t)
    requires best >= 0 ==> Known(g, best)
    ensures Scan(g, s, best) == best || Scan(g, s, best) in s
  {
    if s != [] {
      assert s[0] in s;
      ScanMember(g, s[1..], if Eligible(g.clocks[s[0]]) && (best < 0 || Lower(g, s[0], best)) then s[0] else best);
    }
  }

  lemma LowestRange(g: Group)
    requires Shaped(g)
    ensures -1 <= LowestWaiting(g) < |g.clocks|
  {
  }
}
