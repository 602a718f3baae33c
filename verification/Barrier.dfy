// The parallel commit inside a barrier (src/thread_lib/include/determ.h:
// barrier_wait, src/thread_lib/include/xpersist.h: commit_parallel). Threads
// arrive one at a time, holding the token; each notes the version it has to wait
// for in both memory segments, lets the token go and commits when it sees that
// version. A commit makes a version only when the thread has dirty pages there.
module Barriers {
  // The version fields of a barrier entry are 16 bits wide.
  const WIDTH := 65536

  // One memory segment during one barrier: the barrier's own version field, the
  // segment's version, for every arrival what it waits for, whether it is dirty
  // and whether it has committed, and the dirty commits in the order they were
  // made.
  datatype Seg = Seg(field: nat, version: nat, waits: seq<nat>, dirty: seq<bool>, done: seq<bool>, log: seq<nat>)

  datatype State = State(heap: Seg, globals: Seg)

  datatype Step = Arrive(heapDirty: bool, globalsDirty: bool) | CommitHeap(k: nat) | CommitGlobals(k: nat)

  function Fresh(version: nat): Seg {
    Seg(0, version, [], [], [], [])
  }

  function Start(heapVersion: nat, globalsVersion: nat): State {
    State(Fresh(heapVersion), Fresh(globalsVersion))
  }

  function Bump(d: bool): nat { if d then 1 else 0 }

  // The first to arrive takes the segment's version as the base.
  function Arrived(g: Seg, d: bool): Seg {
    var w := if |g.dirty| == 0 then g.version % WIDTH else g.field;
    Seg((w + Bump(d)) % WIDTH, g.version, g.waits + [w], g.dirty + [d], g.done + [false], g.log)
  }

  predicate CanCommit(g: Seg, k: nat) {
    k < |g.dirty| && |g.dirty| == |g.done| == |g.waits| && !g.done[k] && g.version >= g.waits[k]
  }

  function Committed(g: Seg, k: nat): Seg
    requires CanCommit(g, k)
  {
    Seg(g.field, g.version + Bump(g.dirty[k]), g.waits, g.dirty, g.done[k := true],
        if g.dirty[k] then g.log + [k] else g.log)
  }

  // A thread commits the heap first and the globals after that.
  predicate Enabled(s: State, x: Step) {
    match x
    case Arrive(_, _) => true
    case CommitHeap(k) => CanCommit(s.heap, k)
    case CommitGlobals(k) => CanCommit(s.globals, k) && k < |s.heap.done| && s.heap.done[k]
  }

  function Do(s: State, x: Step): State
    requires Enabled(s, x)
  {
    match x
    case Arrive(h, g) => State(Arrived(s.heap, h), Arrived(s.globals, g))
    case CommitHeap(k) => State(Committed(s.heap, k), s.globals)
    case CommitGlobals(k) => State(s.heap, Committed(s.globals, k))
  }

  predicate Runs(s: State, xs: seq<Step>)
    decreases |xs|, 0
  {
    xs == [] || (Runs(s, xs[..|xs| - 1]) && Enabled(After(s, xs[..|xs| - 1]), xs[|xs| - 1]))
  }

  function After(s: State, xs: seq<Step>): State
    requires Runs(s, xs)
    decreases |xs|, 1
  {
    if xs == [] then s else Do(After(s, xs[..|xs| - 1]), xs[|xs| - 1])
  }

  // ---- counting ----

  // How many of the first k arrivals are dirty.
  function Count(dirty: seq<bool>, k: nat): nat
    requires k <= |dirty|
  {
    if k == 0 then 0 else Count(dirty, k - 1) + Bump(dirty[k - 1])
  }

  // How many of the first k arrivals are dirty and have committed.
  function Tally(dirty: seq<bool>, done: seq<bool>, k: nat): nat
    requires k <= |dirty| == |done|
  {
    if k == 0 then 0 else Tally(dirty, done, k - 1) + Bump(dirty[k - 1] && done[k - 1])
  }

  lemma {:induction false} CountGrows(dirty: seq<bool>, j: nat, k: nat)
    requires j <= k <= |dirty|
    ensures Count(dirty, j) <= Count(dirty, k)
    ensures j < k && dirty[j] ==> Count(dirty, j) < Count(dirty, k)
    decreases k
  {
    if j < k {
      CountGrows(dirty, j, k - 1);
    }
  }

  // Two dirty arrivals with as many dirty ones before them are the same.
  lemma CountInjective(dirty: seq<bool>, j: nat, k: nat)
    requires j < |dirty| && k < |dirty| && dirty[j] && dirty[k] && Count(dirty, j) == Count(dirty, k)
    ensures j == k
  {
    if j < k { CountGrows(dirty, j, k); }
    if k < j { CountGrows(dirty, k, j); }
  }

  lemma {:induction false} CountPrefix(dirty: seq<bool>, d: bool, k: nat)
    requires k <= |dirty|
    ensures Count(dirty + [d], k) == Count(dirty, k)
  {
    if k > 0 {
      CountPrefix(dirty, d, k - 1);
    }
  }

  lemma {:induction false} TallyPrefix(dirty: seq<bool>, done: seq<bool>, d: bool, k: nat)
    requires k <= |dirty| == |done|
    ensures Tally(dirty + [d], done + [false], k) == Tally(dirty, done, k)
  {
    if k > 0 {
      TallyPrefix(dirty, done, d, k - 1);
    }
  }

  lemma {:induction false} TallyCommit(dirty: seq<bool>, done: seq<bool>, i: nat, k: nat)
    requires k <= |dirty| == |done| && i < |dirty| && !done[i]
    ensures Tally(dirty, done[i := true], k) == Tally(dirty, done, k) + (if i < k then Bump(dirty[i]) else 0)
  {
    if k > 0 {
      TallyCommit(dirty, done, i, k - 1);
    }
  }

  // When the first j arrivals have all committed, all their dirty commits count.
  lemma {:induction false} TallyDone(dirty: seq<bool>, done: seq<bool>, j: nat, k: nat)
    requires j <= k <= |dirty| == |done|
    requires forall i :: 0 <= i < j ==> done[i]
    ensures Tally(dirty, done, k) >= Count(dirty, j)
    ensures j == k ==> Tally(dirty, done, k) == Count(dirty, k)
  {
    if k > 0 {
      if j < k {
        TallyDone(dirty, done, j, k - 1);
      } else {
        TallyDone(dirty, done, j - 1, k - 1);
      }
    }
  }

  // ---- what every step keeps ----

  predicate WaitAt(g: Seg, base: nat, k: nat)
    requires k < |g.dirty| == |g.waits|
  {
    g.waits[k] == (base + Count(g.dirty, k)) % WIDTH
  }

  predicate SegInv(g: Seg, base: nat) {
    && |g.dirty| == |g.done| == |g.waits|
    && (|g.dirty| > 0 ==> g.field == (base + Count(g.dirty, |g.dirty|)) % WIDTH)
    && (forall k :: 0 <= k < |g.dirty| ==> WaitAt(g, base, k))
    && g.version == base + |g.log|
    && |g.log| == Tally(g.dirty, g.done, |g.dirty|)
    && (forall k :: 0 <= k < |g.dirty| && g.done[k] && g.dirty[k] ==> k in g.log)
    && (forall k :: k in g.log ==> k < |g.dirty| && g.done[k] && g.dirty[k])
  }

  predicate Inv(s: State, heapBase: nat, globalsBase: nat) {
    && SegInv(s.heap, heapBase) && SegInv(s.globals, globalsBase)
    && |s.heap.dirty| == |s.globals.dirty|
    && (forall k :: 0 <= k < |s.heap.dirty| && s.globals.done[k] ==> s.heap.done[k])
  }

  lemma ArriveField(g: Seg, base: nat, d: bool)
    requires SegInv(g, base)
    ensures
      var n, r := |g.dirty|, Arrived(g, d);
      && r.waits[n] == (base + Count(g.dirty, n)) % WIDTH
      && r.field == (base + Count(g.dirty, n) + Bump(d)) % WIDTH
  {
  }

  lemma ArriveKeeps(g: Seg, base: nat, d: bool)
    requires SegInv(g, base)
    ensures SegInv(Arrived(g, d), base)
  {
    var n := |g.dirty|;
    var r := Arrived(g, d);
    ArriveField(g, base, d);
    CountPrefix(g.dirty, d, n);
    TallyPrefix(g.dirty, g.done, d, n);
    assert Tally(r.dirty, r.done, n + 1) == Tally(r.dirty, r.done, n);
    assert Count(r.dirty, n + 1) == Count(r.dirty, n) + Bump(d);
    forall k | 0 <= k < n + 1
      ensures WaitAt(r, base, k)
    {
      CountPrefix(g.dirty, d, k);
      assert k < n ==> WaitAt(g, base, k);
    }
  }

  lemma CommitKeeps(g: Seg, base: nat, k: nat)
    requires SegInv(g, base) && CanCommit(g, k)
    ensures SegInv(Committed(g, k), base)
  {
    TallyCommit(g.dirty, g.done, k, |g.dirty|);
    var r := Committed(g, k);
    forall i | 0 <= i < |r.dirty|
      ensures WaitAt(r, base, i)
    {
      assert WaitAt(g, base, i);
    }
  }

  lemma {:induction false} RunKeeps(heapBase: nat, globalsBase: nat, xs: seq<Step>)
    requires Runs(Start(heapBase, globalsBase), xs)
    ensures Inv(After(Start(heapBase, globalsBase), xs), heapBase, globalsBase)
    decreases |xs|
  {
    if xs != [] {
      RunKeeps(heapBase, globalsBase, xs[..|xs| - 1]);
      var s := After(Start(heapBase, globalsBase), xs[..|xs| - 1]);
      match xs[|xs| - 1]
      case Arrive(h, g) =>
        ArriveKeeps(s.heap, heapBase, h);
        ArriveKeeps(s.globals, globalsBase, g);
      case CommitHeap(k) => CommitKeeps(s.heap, heapBase, k);
      case CommitGlobals(k) => CommitKeeps(s.globals, globalsBase, k);
    }
  }

  // ---- commits in arrival order ----

  // The i-th dirty commit is that of the i-th dirty arrival.
  predicate InOrder(g: Seg) {
    forall i :: 0 <= i < |g.log| ==>
      g.log[i] < |g.dirty| && g.dirty[g.log[i]] && Count(g.dirty, g.log[i]) == i
  }

  // The last dirty arrival's version fits the 16-bit field, or only one is dirty.
  predicate Fits(base: nat, dirty: seq<bool>) {
    Count(dirty, |dirty|) <= 1 || base + Count(dirty, |dirty|) - 1 < WIDTH
  }

  // A dirty arrival that is allowed to commit is the next one in order.
  lemma NextInOrder(g: Seg, base: nat, k: nat)
    requires SegInv(g, base) && Fits(base, g.dirty) && InOrder(g) && CanCommit(g, k) && g.dirty[k]
    ensures Count(g.dirty, k) == |g.log|
  {
    var c := Count(g.dirty, k);
    CountGrows(g.dirty, k, |g.dirty|);
    assert WaitAt(g, base, k);
    assert c >= 1 ==> g.waits[k] == base + c;
    if c < |g.log| {
      assert g.log[c] in g.log;
      CountInjective(g.dirty, g.log[c], k);
      assert false;
    }
  }

  lemma OrderCommit(g: Seg, base: nat, k: nat)
    requires SegInv(g, base) && Fits(base, g.dirty) && InOrder(g) && CanCommit(g, k)
    ensures InOrder(Committed(g, k))
  {
    if g.dirty[k] {
      NextInOrder(g, base, k);
    }
  }

  lemma OrderArrive(g: Seg, d: bool)
    requires InOrder(g)
    ensures InOrder(Arrived(g, d))
  {
    forall i | 0 <= i < |g.log|
      ensures Count(g.dirty + [d], g.log[i]) == i
    {
      CountPrefix(g.dirty, d, g.log[i]);
    }
  }

  lemma FitsBefore(base: nat, dirty: seq<bool>, d: bool)
    requires Fits(base, dirty + [d])
    ensures Fits(base, dirty)
  {
    CountPrefix(dirty, d, |dirty|);
    assert Count(dirty + [d], |dirty| + 1) == Count(dirty + [d], |dirty|) + Bump((dirty + [d])[|dirty|]);
  }

  // Whatever the interleaving, the heap's dirty commits are made in the order of
  // arrival as long as the versions fit.
  lemma {:induction false} HeapOrdered(heapBase: nat, globalsBase: nat, xs: seq<Step>)
    requires Runs(Start(heapBase, globalsBase), xs)
    requires Fits(heapBase, After(Start(heapBase, globalsBase), xs).heap.dirty)
    ensures InOrder(After(Start(heapBase, globalsBase), xs).heap)
    decreases |xs|
  {
    if xs != [] {
      var s := After(Start(heapBase, globalsBase), xs[..|xs| - 1]);
      RunKeeps(heapBase, globalsBase, xs[..|xs| - 1]);
      match xs[|xs| - 1]
      case Arrive(h, _) =>
        FitsBefore(heapBase, s.heap.dirty, h);
        HeapOrdered(heapBase, globalsBase, xs[..|xs| - 1]);
        OrderArrive(s.heap, h);
      case CommitHeap(k) =>
        HeapOrdered(heapBase, globalsBase, xs[..|xs| - 1]);
        OrderCommit(s.heap, heapBase, k);
      case CommitGlobals(_) =>
        HeapOrdered(heapBase, globalsBase, xs[..|xs| - 1]);
    }
  }

  lemma {:induction false} GlobalsOrdered(heapBase: nat, globalsBase: nat, xs: seq<Step>)
    requires Runs(Start(heapBase, globalsBase), xs)
    requires Fits(globalsBase, After(Start(heapBase, globalsBase), xs).globals.dirty)
    ensures InOrder(After(Start(heapBase, globalsBase), xs).globals)
    decreases |xs|
  {
    if xs != [] {
      var s := After(Start(heapBase, globalsBase), xs[..|xs| - 1]);
      RunKeeps(heapBase, globalsBase, xs[..|xs| - 1]);
      match xs[|xs| - 1]
      case Arrive(_, g) =>
        FitsBefore(globalsBase, s.globals.dirty, g);
        GlobalsOrdered(heapBase, globalsBase, xs[..|xs| - 1]);
        OrderArrive(s.globals, g);
      case CommitHeap(_) =>
        GlobalsOrdered(heapBase, globalsBase, xs[..|xs| - 1]);
      case CommitGlobals(k) =>
        GlobalsOrdered(heapBase, globalsBase, xs[..|xs| - 1]);
        OrderCommit(s.globals, globalsBase, k);
    }
  }

  // ---- nobody waits for ever ----

  // A version wait is never above base plus the dirty arrivals before it, even
  // when the field has wrapped, so the first to have everyone before it done
  // may commit.
  lemma FirstCanCommit(g: Seg, base: nat, k: nat)
    requires SegInv(g, base) && k < |g.dirty| && !g.done[k]
    requires forall i :: 0 <= i < k ==> g.done[i]
    ensures CanCommit(g, k)
  {
    assert WaitAt(g, base, k);
    TallyDone(g.dirty, g.done, k, |g.dirty|);
  }

  predicate Finished(s: State, k: nat) {
    k < |s.heap.done| && k < |s.globals.done| && s.heap.done[k] && s.globals.done[k]
  }

  lemma AllFinished(s: State, k: nat)
    requires |s.heap.done| >= k && |s.globals.done| >= k
    requires forall i :: 0 <= i < k ==> Finished(s, i)
    ensures forall i :: 0 <= i < k ==> s.heap.done[i] && s.globals.done[i]
  {
    forall i | 0 <= i < k
      ensures s.heap.done[i] && s.globals.done[i]
    {
      assert Finished(s, i);
    }
  }

  // In every reachable state the earliest arrival that is not finished can take
  // its next step.
  lemma EarliestEnabled(heapBase: nat, globalsBase: nat, xs: seq<Step>, k: nat)
    requires Runs(Start(heapBase, globalsBase), xs)
    requires
      var s := After(Start(heapBase, globalsBase), xs);
      k < |s.heap.dirty| && !Finished(s, k) && forall i :: 0 <= i < k ==> Finished(s, i)
    ensures
      var s := After(Start(heapBase, globalsBase), xs);
      Enabled(s, CommitHeap(k)) || Enabled(s, CommitGlobals(k))
  {
    RunKeeps(heapBase, globalsBase, xs);
    var s := After(Start(heapBase, globalsBase), xs);
    AllFinished(s, k);
    if !s.heap.done[k] {
      FirstCanCommit(s.heap, heapBase, k);
    } else {
      FirstCanCommit(s.globals, globalsBase, k);
    }
  }

  lemma SegAddsUp(g: Seg, base: nat)
    requires SegInv(g, base) && forall k :: 0 <= k < |g.dirty| ==> g.done[k]
    ensures g.version == base + Count(g.dirty, |g.dirty|)
    ensures forall k :: 0 <= k < |g.dirty| ==> (g.dirty[k] <==> k in g.log)
  {
    TallyDone(g.dirty, g.done, |g.dirty|, |g.dirty|);
  }

  // When all have finished, each segment has one version more for every thread
  // that was dirty in it, and those threads are what was committed.
  lemma VersionsAddUp(heapBase: nat, globalsBase: nat, xs: seq<Step>)
    requires Runs(Start(heapBase, globalsBase), xs)
    requires
      var s := After(Start(heapBase, globalsBase), xs);
      forall k :: 0 <= k < |s.heap.dirty| ==> Finished(s, k)
    ensures
      var s := After(Start(heapBase, globalsBase), xs);
      && s.heap.version == heapBase + Count(s.heap.dirty, |s.heap.dirty|)
      && s.globals.version == globalsBase + Count(s.globals.dirty, |s.globals.dirty|)
      && (forall k :: 0 <= k < |s.heap.dirty| ==> (s.heap.dirty[k] <==> k in s.heap.log))
      && (forall k :: 0 <= k < |s.globals.dirty| ==> (s.globals.dirty[k] <==> k in s.globals.log))
  {
    RunKeeps(heapBase, globalsBase, xs);
    var s := After(Start(heapBase, globalsBase), xs);
    AllFinished(s, |s.heap.dirty|);
    SegAddsUp(s.heap, heapBase);
    SegAddsUp(s.globals, globalsBase);
  }

  // ---- when the versions do not fit ----

  // The arrivals of a run, and the run that only arrives.
  function Arrivals(xs: seq<Step>): seq<(bool, bool)> {
    if xs == [] then []
    else
      var x := xs[|xs| - 1];
      Arrivals(xs[..|xs| - 1]) + if x.Arrive? then [(x.heapDirty, x.globalsDirty)] else []
  }

  function ArriveRun(ds: seq<(bool, bool)>): seq<Step> {
    if ds == [] then [] else ArriveRun(ds[..|ds| - 1]) + [Arrive(ds[|ds| - 1].0, ds[|ds| - 1].1)]
  }

  function Heaps(ds: seq<(bool, bool)>): seq<bool> {
    if ds == [] then [] else Heaps(ds[..|ds| - 1]) + [ds[|ds| - 1].0]
  }

  function Globals(ds: seq<(bool, bool)>): seq<bool> {
    if ds == [] then [] else Globals(ds[..|ds| - 1]) + [ds[|ds| - 1].1]
  }

  lemma Extend(s: State, ys: seq<Step>, x: Step)
    requires Runs(s, ys) && Enabled(After(s, ys), x)
    ensures Runs(s, ys + [x]) && After(s, ys + [x]) == Do(After(s, ys), x)
    ensures !x.Arrive? ==> Arrivals(ys + [x]) == Arrivals(ys)
  {
  }

  lemma {:induction false} DirtyOf(heapBase: nat, globalsBase: nat, xs: seq<Step>)
    requires Runs(Start(heapBase, globalsBase), xs)
    ensures
      var s := After(Start(heapBase, globalsBase), xs);
      s.heap.dirty == Heaps(Arrivals(xs)) && s.globals.dirty == Globals(Arrivals(xs))
    decreases |xs|
  {
    if xs != [] {
      DirtyOf(heapBase, globalsBase, xs[..|xs| - 1]);
      var x, before := xs[|xs| - 1], Arrivals(xs[..|xs| - 1]);
      if x.Arrive? {
        assert (before + [(x.heapDirty, x.globalsDirty)])[..|before|] == before;
      } else {
        assert before + [] == before;
      }
    }
  }

  lemma {:induction false} ArriveAll(heapBase: nat, globalsBase: nat, ds: seq<(bool, bool)>)
    ensures Runs(Start(heapBase, globalsBase), ArriveRun(ds)) && Arrivals(ArriveRun(ds)) == ds
    ensures
      var s := After(Start(heapBase, globalsBase), ArriveRun(ds));
      && |s.heap.done| == |s.globals.done| == |ds|
      && s.heap.log == s.globals.log == []
      && forall k :: 0 <= k < |ds| ==> !s.heap.done[k] && !s.globals.done[k]
    decreases |ds|
  {
    if ds != [] {
      ArriveAll(heapBase, globalsBase, ds[..|ds| - 1]);
      var xs, ys := ArriveRun(ds), ArriveRun(ds[..|ds| - 1]);
      assert xs[..|xs| - 1] == ys;
      assert ds[..|ds| - 1] + [ds[|ds| - 1]] == ds;
    }
  }

  // The dirty arrival with c dirty ones before it.
  lemma {:induction false} NthDirty(dirty: seq<bool>, c: nat, n: nat) returns (k: nat)
    requires n <= |dirty| && c < Count(dirty, n)
    ensures k < n && dirty[k] && Count(dirty, k) == c
  {
    if dirty[n - 1] && Count(dirty, n - 1) == c {
      k := n - 1;
    } else {
      k := NthDirty(dirty, c, n - 1);
    }
  }

  // Some dirty arrival other than the first waits for no commit at all.
  lemma Overtaker(g: Seg, base: nat) returns (k: nat)
    requires SegInv(g, base) && !Fits(base, g.dirty)
    ensures k < |g.dirty| && g.dirty[k] && Count(g.dirty, k) >= 1 && g.waits[k] <= base
  {
    var c := if base >= WIDTH then 1 else WIDTH - base;
    k := NthDirty(g.dirty, c, |g.dirty|);
    assert WaitAt(g, base, k);
  }

  lemma HeapOvertaken(heapBase: nat, globalsBase: nat, ds: seq<(bool, bool)>) returns (xs: seq<Step>)
    requires !Fits(heapBase, Heaps(ds))
    ensures Runs(Start(heapBase, globalsBase), xs) && Arrivals(xs) == ds
    ensures !InOrder(After(Start(heapBase, globalsBase), xs).heap)
  {
    var ys := ArriveRun(ds);
    ArriveAll(heapBase, globalsBase, ds);
    DirtyOf(heapBase, globalsBase, ys);
    RunKeeps(heapBase, globalsBase, ys);
    var s := After(Start(heapBase, globalsBase), ys);
    var k := Overtaker(s.heap, heapBase);
    xs := ys + [CommitHeap(k)];
    Extend(Start(heapBase, globalsBase), ys, CommitHeap(k));
    assert Committed(s.heap, k).log[0] == k;
  }

  // Exactly when the versions fit does every interleaving of these arrivals
  // commit the heap in order.
  lemma HeapOrderExact(heapBase: nat, globalsBase: nat, ds: seq<(bool, bool)>)
    ensures Fits(heapBase, Heaps(ds)) <==>
              forall xs :: Runs(Start(heapBase, globalsBase), xs) && Arrivals(xs) == ds ==>
                InOrder(After(Start(heapBase, globalsBase), xs).heap)
  {
    if Fits(heapBase, Heaps(ds)) {
      forall xs | Runs(Start(heapBase, globalsBase), xs) && Arrivals(xs) == ds
        ensures InOrder(After(Start(heapBase, globalsBase), xs).heap)
      {
        DirtyOf(heapBase, globalsBase, xs);
        HeapOrdered(heapBase, globalsBase, xs);
      }
    } else {
      var xs := HeapOvertaken(heapBase, globalsBase, ds);
    }
  }

  // The run after the arrivals in which the first n commit the heap in order.
  function DrainRun(n: nat): seq<Step> {
    if n == 0 then [] else DrainRun(n - 1) + [CommitHeap(n - 1)]
  }

  // m have arrived and exactly the first n have committed the heap.
  predicate Drained(s: State, m: nat, n: nat) {
    && |s.heap.done| == |s.globals.done| == m && s.globals.log == []
    && (forall k :: 0 <= k < m ==> !s.globals.done[k] && (s.heap.done[k] <==> k < n))
  }

  lemma DrainStep(s: State, heapBase: nat, globalsBase: nat, m: nat, n: nat)
    requires Inv(s, heapBase, globalsBase) && Drained(s, m, n) && n < m
    ensures Enabled(s, CommitHeap(n)) && Drained(Do(s, CommitHeap(n)), m, n + 1)
  {
    FirstCanCommit(s.heap, heapBase, n);
  }

  lemma {:induction false} Drain(heapBase: nat, globalsBase: nat, ds: seq<(bool, bool)>, n: nat)
    requires n <= |ds|
    ensures
      var xs := ArriveRun(ds) + DrainRun(n);
      && Runs(Start(heapBase, globalsBase), xs) && Arrivals(xs) == ds
      && Drained(After(Start(heapBase, globalsBase), xs), |ds|, n)
  {
    if n == 0 {
      ArriveAll(heapBase, globalsBase, ds);
      assert ArriveRun(ds) + DrainRun(0) == ArriveRun(ds);
    } else {
      Drain(heapBase, globalsBase, ds, n - 1);
      var ys := ArriveRun(ds) + DrainRun(n - 1);
      assert ArriveRun(ds) + DrainRun(n) == ys + [CommitHeap(n - 1)];
      RunKeeps(heapBase, globalsBase, ys);
      DrainStep(After(Start(heapBase, globalsBase), ys), heapBase, globalsBase, |ds|, n - 1);
      Extend(Start(heapBase, globalsBase), ys, CommitHeap(n - 1));
    }
  }

  lemma GlobalsOvertaken(heapBase: nat, globalsBase: nat, ds: seq<(bool, bool)>) returns (xs: seq<Step>)
    requires !Fits(globalsBase, Globals(ds))
    ensures Runs(Start(heapBase, globalsBase), xs) && Arrivals(xs) == ds
    ensures !InOrder(After(Start(heapBase, globalsBase), xs).globals)
  {
    var ys := ArriveRun(ds) + DrainRun(|ds|);
    Drain(heapBase, globalsBase, ds, |ds|);
    DirtyOf(heapBase, globalsBase, ys);
    RunKeeps(heapBase, globalsBase, ys);
    var s := After(Start(heapBase, globalsBase), ys);
    var k := Overtaker(s.globals, globalsBase);
    assert s.heap.done[k] && !s.globals.done[k];
    xs := ys + [CommitGlobals(k)];
    Extend(Start(heapBase, globalsBase), ys, CommitGlobals(k));
    assert Committed(s.globals, k).log[0] == k;
  }

  lemma GlobalsOrderExact(heapBase: nat, globalsBase: nat, ds: seq<(bool, bool)>)
    ensures Fits(globalsBase, Globals(ds)) <==>
              forall xs :: Runs(Start(heapBase, globalsBase), xs) && Arrivals(xs) == ds ==>
                InOrder(After(Start(heapBase, globalsBase), xs).globals)
  {
    if Fits(globalsBase, Globals(ds)) {
      forall xs | Runs(Start(heapBase, globalsBase), xs) && Arrivals(xs) == ds
        ensures InOrder(After(Start(heapBase, globalsBase), xs).globals)
      {
        DirtyOf(heapBase, globalsBase, xs);
        GlobalsOrdered(heapBase, globalsBase, xs);
      }
    } else {
      var xs := GlobalsOvertaken(heapBase, globalsBase, ds);
    }
  }

  // The barrier entry's fields and the section of barrier_wait that holds the
  // token.
  class BarrierEntry {
    var counter: nat
    var heapVersion: nat
    var globalsVersion: nat

    constructor ()
      ensures counter == heapVersion == globalsVersion == 0
    {
      counter, heapVersion, globalsVersion := 0, 0, 0;
    }

    // The entry agrees with a barrier at which everyone in s has arrived.
    ghost predicate Shows(s: State)
      reads this
    {
      && counter == |s.heap.dirty| == |s.globals.dirty|
      && (counter > 0 ==> heapVersion == s.heap.field && globalsVersion == s.globals.field)
    }

    method BarrierArrive(heapNow: nat, globalsNow: nat, heapDirtyPages: nat, globalsDirtyPages: nat, ghost s: State)
      returns (heapWait: nat, globalsWait: nat)
      requires Shows(s) && heapNow == s.heap.version && globalsNow == s.globals.version
      modifies this
      ensures
        var r := Do(s, Arrive(heapDirtyPages > 0, globalsDirtyPages > 0));
        && Shows(r)
        && r.heap.waits == s.heap.waits + [heapWait]
        && r.globals.waits == s.globals.waits + [globalsWait]
    {
      counter := counter + 1;
      if counter == 1 {
        heapVersion := heapNow % WIDTH;
        heapWait := heapVersion;
        globalsVersion := globalsNow % WIDTH;
        globalsWait := globalsVersion;
      } else {
        heapWait := heapVersion;
        globalsWait := globalsVersion;
      }
      heapVersion := (heapVersion + if heapDirtyPages > 0 then 1 else 0) % WIDTH;
      globalsVersion := (globalsVersion + if globalsDirtyPages > 0 then 1 else 0) % WIDTH;
    }
  }
}
