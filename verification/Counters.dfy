// Reading the instruction counter. The hardware shows the low 48 bits of a count
// that only grows; the kernel and the user-space library each turn two readings
// into a difference
// (src/logical_clock/module/logical_clock_instruction_counting.h,
// src/logical_clock/lib/determ_clock.c).
module Counters {
  const TWO16 := 0x1_0000
  const TWO31 := 0x8000_0000
  const TWO32 := 0x1_0000_0000
  const TWO47 := 0x8000_0000_0000
  const TWO48 := 0x1_0000_0000_0000
  const TWO63 := 0x8000_0000_0000_0000
  const TWO64 := 0x1_0000_0000_0000_0000

  // Conversion to a signed 32- or 64-bit word.
  function ToInt32(x: int): int {
    var y := x % TWO32;
    if y < TWO31 then y else y - TWO32
  }

  function ToInt64(x: int): int {
    var y := x % TWO64;
    if y < TWO63 then y else y - TWO64
  }

  // A reading shows the true count n in its low 48 bits. What is in the bits
  // above does not matter: the kernel itself stores sign-extended values there.
  predicate Shows(raw: nat, n: nat) {
    raw < TWO64 && raw % TWO48 == n % TWO48
  }

  // Both readings shifted left by 16 and subtracted as 64-bit words ...
  function Shifted(now: nat, before: nat): nat {
    (now * TWO16 - before * TWO16) % TWO64
  }

  // ... then shifted back: as a signed word in the kernel,
  function KernelDelta(now: nat, before: nat): int {
    ToInt64(Shifted(now, before)) / TWO16
  }

  // as an unsigned word in user space.
  function UserDelta(now: nat, before: nat): nat {
    Shifted(now, before) / TWO16
  }

  lemma ShiftKeepsLowBits(a: int)
    ensures (a * TWO16) % TWO64 == (a % TWO48) * TWO16
  {
  }

  lemma DifferenceMod(now: nat, before: nat, n: nat, p: nat)
    requires Shows(now, n) && Shows(before, p)
    ensures (now - before) % TWO48 == (n - p) % TWO48
  {
  }

  // What either side computes from two readings of true counts p and then n.
  lemma DeltaMeans(now: nat, before: nat, n: nat, p: nat)
    requires Shows(now, n) && Shows(before, p)
    ensures UserDelta(now, before) == (n - p) % TWO48
    ensures
      var d := (n - p) % TWO48;
      KernelDelta(now, before) == if d < TWO47 then d else d - TWO48
  {
    DifferenceMod(now, before, n, p);
    ShiftKeepsLowBits(now - before);
    assert now * TWO16 - before * TWO16 == (now - before) * TWO16;
    var d := (n - p) % TWO48;
    assert Shifted(now, before) == d * TWO16;
  }

  // ---- a history of readings ----

  // Readings raws of the growing true counts ns.
  predicate History(raws: seq<nat>, ns: seq<nat>) {
    && |raws| == |ns| > 0
    && (forall i :: 0 <= i < |ns| ==> Shows(raws[i], ns[i]))
    && (forall i :: 0 < i < |ns| ==> ns[i - 1] <= ns[i])
  }

  function KernelTotal(raws: seq<nat>): int {
    if |raws| <= 1 then 0
    else KernelTotal(raws[..|raws| - 1]) + KernelDelta(raws[|raws| - 1], raws[|raws| - 2])
  }

  function UserTotal(raws: seq<nat>): int {
    if |raws| <= 1 then 0
    else UserTotal(raws[..|raws| - 1]) + UserDelta(raws[|raws| - 1], raws[|raws| - 2])
  }

  // Fewer than `bound` events between any two readings.
  predicate Gaps(ns: seq<nat>, bound: nat) {
    forall i :: 0 < i < |ns| ==> GapAt(ns, i, bound)
  }

  predicate GapAt(ns: seq<nat>, i: nat, bound: nat)
    requires 0 < i < |ns|
  {
    ns[i] - ns[i - 1] < bound
  }

  lemma OneGap(now: nat, before: nat, n: nat, p: nat)
    requires Shows(now, n) && Shows(before, p) && p <= n
    ensures KernelDelta(now, before) <= n - p && (KernelDelta(now, before) == n - p <==> n - p < TWO47)
    ensures UserDelta(now, before) <= n - p && (UserDelta(now, before) == n - p <==> n - p < TWO48)
  {
    DeltaMeans(now, before, n, p);
  }

  lemma GapsSplit(ns: seq<nat>, bound: nat)
    requires |ns| > 1
    ensures Gaps(ns, bound) <==> Gaps(ns[..|ns| - 1], bound) && GapAt(ns, |ns| - 1, bound)
  {
    var ms := ns[..|ns| - 1];
    assert forall i :: 0 < i < |ms| ==> (GapAt(ms, i, bound) <==> GapAt(ns, i, bound));
  }

  // The kernel's differences add up to what was really counted exactly when
  // every gap between readings is below 2^47; otherwise they fall short.
  lemma {:induction false} KernelConserves(raws: seq<nat>, ns: seq<nat>)
    requires History(raws, ns)
    ensures ns[0] + KernelTotal(raws) <= ns[|ns| - 1]
    ensures ns[0] + KernelTotal(raws) == ns[|ns| - 1] <==> Gaps(ns, TWO47)
    decreases |ns|
  {
    var n := |ns|;
    if n > 1 {
      KernelConserves(raws[..n - 1], ns[..n - 1]);
      OneGap(raws[n - 1], raws[n - 2], ns[n - 1], ns[n - 2]);
      GapsSplit(ns, TWO47);
    }
  }

  // In user space the bound is 2^48.
  lemma {:induction false} UserConserves(raws: seq<nat>, ns: seq<nat>)
    requires History(raws, ns)
    ensures ns[0] + UserTotal(raws) <= ns[|ns| - 1]
    ensures ns[0] + UserTotal(raws) == ns[|ns| - 1] <==> Gaps(ns, TWO48)
    decreases |ns|
  {
    var n := |ns|;
    if n > 1 {
      UserConserves(raws[..n - 1], ns[..n - 1]);
      OneGap(raws[n - 1], raws[n - 2], ns[n - 1], ns[n - 2]);
      GapsSplit(ns, TWO48);
    }
  }

  // The two sides agree on every history the kernel reads without loss.
  lemma SidesAgree(raws: seq<nat>, ns: seq<nat>)
    requires History(raws, ns) && Gaps(ns, TWO47)
    ensures KernelTotal(raws) == UserTotal(raws)
  {
    assert forall i :: 0 < i < |ns| ==> (GapAt(ns, i, TWO47) ==> GapAt(ns, i, TWO48));
    KernelConserves(raws, ns);
    UserConserves(raws, ns);
  }

  // ---- the kernel's side ----

  class KernelCounter {
    var previous: nat
    var missed: int
    var counting: bool
    var ticks: int

    constructor (raw: nat)
      ensures previous == raw && missed == 0 && !counting && ticks == 0
    {
      previous, missed, counting, ticks := raw, 0, false, 0;
    }

    // logical_clock_read_clock_and_update: the reading always takes the place of
    // the previous one, and what it adds only counts while the counter is on.
    method ReadAndUpdate(raw: nat)
      modifies this
      ensures previous == raw && missed == 0 && !counting
      ensures ticks == old(ticks) + if old(counting) then KernelDelta(raw, old(previous)) + old(missed) else 0
    {
      var on := counting;
      var delta := KernelDelta(raw, previous);
      previous := raw;
      counting := false;
      delta := delta + missed;
      missed := 0;
      if on {
        ticks := ticks + delta;
      }
    }
  }

  // ---- user space ----

  class TaskClock {
    var ticks: int
    var coarsened: nat
    var inCoarsenedTx: bool
    var lastRaw: nat
    var currentRaw: nat

    constructor ()
      ensures Read() == 0 && !inCoarsenedTx && coarsened == 0
    {
      ticks, coarsened, inCoarsenedTx, lastRaw, currentRaw := 0, 0, false, 0, 0;
    }

    // determ_task_clock_read
    function Read(): int
      reads this
    {
      ticks + coarsened
    }

    // determ_task_clock_add_ticks, whose parameter is a 32-bit int
    method AddTicks(n: int)
      modifies this`ticks
      ensures ticks == old(ticks) + ToInt32(n)
    {
      ticks := ticks + ToInt32(n);
    }

    // determ_task_clock_start_no_notify
    method StartNoNotify(raw: nat)
      modifies this`inCoarsenedTx, this`lastRaw
      ensures inCoarsenedTx && lastRaw == raw
    {
      inCoarsenedTx := true;
      lastRaw := raw;
    }

    // determ_task_clock_stop_with_id_no_notify
    method StopNoNotify(raw: nat)
      modifies this`coarsened, this`currentRaw
      ensures currentRaw == raw && coarsened == old(coarsened) + UserDelta(raw, lastRaw)
      ensures Read() == old(Read()) + UserDelta(raw, lastRaw)
    {
      coarsened := coarsened + UserDelta(raw, lastRaw);
      currentRaw := raw;
    }

    // determ_task_clock_end_coarsened_tx: the clock reads the same afterwards
    // exactly when the count fits the parameter of add_ticks.
    method EndCoarsenedTx()
      modifies this
      ensures !inCoarsenedTx && coarsened == 0
      ensures ticks == old(ticks) + ToInt32(old(coarsened))
      ensures Read() == old(Read()) <==> old(coarsened) < TWO31
    {
      if coarsened > 0 {
        AddTicks(coarsened);
      }
      inCoarsenedTx := false;
      coarsened := 0;
    }
  }

  // A whole coarsened stretch, started and stopped at the given readings.
  method CoarsenedStretch(clock: TaskClock, starts: seq<nat>, stops: seq<nat>)
    requires |starts| == |stops| && clock.coarsened == 0
    modifies clock
    ensures clock.coarsened == 0 && !clock.inCoarsenedTx
    ensures clock.Read() == old(clock.Read()) + StretchTotal(starts, stops) <==> StretchTotal(starts, stops) < TWO31
  {
    for i := 0 to |starts|
      invariant clock.coarsened == StretchTotal(starts[..i], stops[..i])
      invariant clock.ticks == old(clock.ticks)
    {
      clock.StartNoNotify(starts[i]);
      clock.StopNoNotify(stops[i]);
      assert starts[..i + 1][..i] == starts[..i] && stops[..i + 1][..i] == stops[..i];
    }
    assert starts[..|starts|] == starts && stops[..|stops|] == stops;
    clock.EndCoarsenedTx();
  }

  function StretchTotal(starts: seq<nat>, stops: seq<nat>): nat
    requires |starts| == |stops|
  {
    if starts == [] then 0
    else
      StretchTotal(starts[..|starts| - 1], stops[..|stops| - 1]) + UserDelta(stops[|stops| - 1], starts[|starts| - 1])
  }
}
