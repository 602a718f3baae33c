// The logical clock of the last token holder, and the fast forward that brings
// the next holder up to it (src/thread_lib/include/xrun.h: fast_forward_clock,
// waitToken, putToken; src/thread_lib/include/determ.h: __putToken).
module FastForward {
  import opened Counters

  const FREE := -1

  // How far a thread whose clock reads c is behind the last holder.
  function Behind(last: int, c: int): nat {
    if last > c then last - c else 0
  }

  // The clock after the fast forward, which goes through a 32-bit parameter.
  function Forwarded(last: int, c: int): int {
    c + ToInt32(Behind(last, c))
  }

  // ---- sections ----

  // Thread t runs for `before` ticks, takes the token, works for `work` ticks
  // and lets the token go. `forwards` tells waitToken and join, which fast
  // forward, from barrier_wait, which takes the token directly. `considered`
  // tells an ordinary release from the one in spawn.
  datatype Section = Section(t: nat, forwards: bool, considered: bool, before: nat, work: nat)

  datatype Clocks = Clocks(last: int, clocks: seq<int>)

  function AtRelease(s: Clocks, x: Section): int
    requires x.t < |s.clocks|
  {
    var c := s.clocks[x.t] + x.before;
    (if x.forwards then Forwarded(s.last, c) else c) + x.work
  }

  function Do(s: Clocks, x: Section): Clocks
    requires x.t < |s.clocks|
  {
    Clocks(if x.considered then AtRelease(s, x) else s.last, s.clocks[x.t := AtRelease(s, x)])
  }

  // What t can see before it takes the token: it is not behind, or it is about
  // to be brought forward by an amount that fits the 32-bit parameter.
  predicate Guard(s: Clocks, x: Section)
    requires x.t < |s.clocks|
  {
    var c := s.clocks[x.t] + x.before;
    s.last <= c || (x.forwards && s.last - c < TWO31)
  }

  // Exactly then does the holder release at or above the last value, however
  // little it does while it holds the token.
  lemma GuardExact(s: Clocks, x: Section)
    requires x.t < |s.clocks|
    ensures Guard(s, x) <==> forall w: nat :: AtRelease(s, x.(work := w)) >= s.last
  {
    assert AtRelease(s, x.(work := 0)) >= s.last ==> Guard(s, x);
  }

  // What a section leaves: the holder works on from the larger of its own clock and
  // the last value, or from its own clock if it does not fast forward, as long as
  // the distance fits the 32-bit parameter; the value becomes the clock it releases
  // at, if that is considered; and no other clock moves.
  lemma SectionExact(s: Clocks, x: Section)
    requires x.t < |s.clocks|
    ensures
      var c := s.clocks[x.t] + x.before;
      var r := Do(s, x);
      && |r.clocks| == |s.clocks| && (forall u :: 0 <= u < |s.clocks| && u != x.t ==> r.clocks[u] == s.clocks[u])
      && (!x.forwards || s.last <= c ==> r.clocks[x.t] == c + x.work)
      && (x.forwards && c <= s.last < c + TWO31 ==> r.clocks[x.t] == s.last + x.work)
      && r.last == if x.considered then r.clocks[x.t] else s.last
  {
  }

  // Farther behind, the parameter wraps: the clock that is left differs from the
  // last value by a multiple of 2^32, and by at least one turn.
  lemma WrapsExact(s: Clocks, x: Section)
    requires x.t < |s.clocks| && x.forwards && s.last - (s.clocks[x.t] + x.before) >= TWO31
    ensures
      var d := s.last + x.work - Do(s, x).clocks[x.t];
      d % TWO32 == 0 && d > 0
      && -TWO31 <= Do(s, x).clocks[x.t] - x.work - (s.clocks[x.t] + x.before) < TWO31
  {
  }

  // A barrier's direct getToken by a thread that is behind takes the value back.
  lemma BarrierSlips(s: Clocks, t: nat)
    requires t < |s.clocks| && s.clocks[t] < s.last
    ensures Do(s, Section(t, false, true, 0, 0)).last < s.last
    ensures !Guard(s, Section(t, false, true, 0, 0))
  {
  }

  ghost predicate Guarded(s: Clocks, xs: seq<Section>)
    decreases |xs|, 0
  {
    xs == [] ||
    (var ys, x := xs[..|xs| - 1], xs[|xs| - 1];
     Guarded(s, ys) && x.t < |After(s, ys).clocks| && Guard(After(s, ys), x))
  }

  ghost function After(s: Clocks, xs: seq<Section>): Clocks
    requires Guarded(s, xs)
    decreases |xs|, 1
  {
    if xs == [] then s else Do(After(s, xs[..|xs| - 1]), xs[|xs| - 1])
  }

  // Along any run of guarded sections the value never goes down, so every holder
  // releases at or above every value there was before.
  lemma {:induction false} NeverDecreases(s: Clocks, xs: seq<Section>, i: nat)
    requires Guarded(s, xs) && i <= |xs|
    ensures Guarded(s, xs[..i]) && After(s, xs[..i]).last <= After(s, xs).last
    decreases |xs|
  {
    if i == |xs| {
      assert xs[..i] == xs;
    } else {
      var ys, x := xs[..|xs| - 1], xs[|xs| - 1];
      NeverDecreases(s, ys, i);
      assert ys[..i] == xs[..i];
      GuardExact(After(s, ys), x);
      assert x.(work := x.work) == x && AtRelease(After(s, ys), x.(work := x.work)) >= After(s, ys).last;
    }
  }

  // The shared token fields of determ and, for each process, its clock and its
  // own flag that it holds the token.
  class TokenClocks {
    var lastTokenValue: int
    var tokenPos: int
    const clocks: array<int>
    const holding: array<bool>

    ghost predicate Valid()
      reads this
    {
      clocks.Length == holding.Length && clocks as object != holding as object
    }

    ghost function M(): Clocks
      reads this, clocks
    {
      Clocks(lastTokenValue, clocks[..])
    }

    constructor (n: nat)
      ensures Valid() && clocks.Length == n && tokenPos == FREE
      ensures M() == Clocks(0, seq(n, i => 0)) && fresh(clocks) && fresh(holding)
    {
      lastTokenValue, tokenPos := 0, FREE;
      clocks := new int[n](i => 0);
      holding := new bool[n](i => false);
    }

    // Ticks that pass by themselves: what a thread counts, or adds piece by piece.
    method Count(t: int, n: nat)
      requires 0 <= t < clocks.Length
      modifies clocks
      ensures clocks[..] == old(clocks[..])[t := old(clocks[t]) + n]
    {
      clocks[t] := clocks[t] + n;
    }

    method AddTicks(t: int, n: int)
      requires 0 <= t < clocks.Length
      modifies clocks
      ensures clocks[..] == old(clocks[..])[t := old(clocks[t]) + ToInt32(n)]
    {
      clocks[t] := clocks[t] + ToInt32(n);
    }

    method FastForwardClock(t: int) returns (n: nat)
      requires 0 <= t < clocks.Length
      ensures n == Behind(lastTokenValue, clocks[t])
    {
      n := 0;
      var diff := lastTokenValue - clocks[t];
      if diff > 0 {
        n := diff;
      }
    }

    // getToken, once the token is free
    method GetToken(t: int)
      requires 0 <= t < clocks.Length && tokenPos == FREE
      modifies this`tokenPos
      ensures tokenPos == t
    {
      tokenPos := t;
    }

    method WaitToken(t: int)
      requires Valid() && 0 <= t < clocks.Length && tokenPos == if holding[t] then t else FREE
      modifies this`tokenPos, clocks, holding
      ensures tokenPos == t && holding[t]
      ensures clocks[..] == if old(holding[t]) then old(clocks[..])
                            else old(clocks[..])[t := Forwarded(lastTokenValue, old(clocks[t]))]
      ensures !old(holding[t]) && lastTokenValue - old(clocks[t]) < TWO31 ==>
                clocks[t] == if lastTokenValue > old(clocks[t]) then lastTokenValue else old(clocks[t])
    {
      if !holding[t] {
        GetToken(t);
        var n := FastForwardClock(t);
        AddTicks(t, n);
        holding[t] := true;
      }
    }

    // __putToken: with `consider`, the holder's clock is what the next holder is
    // brought up to.
    method PutTokenInner(t: int, consider: bool)
      requires 0 <= t < clocks.Length && tokenPos == t
      modifies this`tokenPos, this`lastTokenValue
      ensures tokenPos == FREE
      ensures lastTokenValue == if consider then clocks[t] else old(lastTokenValue)
    {
      if consider {
        lastTokenValue := clocks[t];
      }
      tokenPos := FREE;
    }

    // putToken and putTokenNoFastForward
    method PutToken(t: int, consider: bool)
      requires Valid() && 0 <= t < clocks.Length && (holding[t] ==> tokenPos == t)
      modifies this`tokenPos, this`lastTokenValue, holding
      ensures !holding[t]
      ensures old(holding[t]) ==> tokenPos == FREE
      ensures old(holding[t]) ==> lastTokenValue == if consider then clocks[t] else old(lastTokenValue)
      ensures !old(holding[t]) ==> tokenPos == old(tokenPos) && lastTokenValue == old(lastTokenValue)
    {
      if holding[t] {
        PutTokenInner(t, consider);
        holding[t] := false;
      }
    }

    // One section from start to end.
    method RunSection(x: Section)
      requires Valid() && x.t < clocks.Length && tokenPos == FREE && !holding[x.t]
      modifies this`tokenPos, this`lastTokenValue, clocks, holding
      ensures Valid() && tokenPos == FREE && !holding[x.t]
      ensures M() == Do(old(M()), x)
    {
      Count(x.t, x.before);
      if x.forwards {
        WaitToken(x.t);
        Count(x.t, x.work);
        PutToken(x.t, x.considered);
      } else {
        GetToken(x.t);
        Count(x.t, x.work);
        PutTokenInner(x.t, x.considered);
      }
    }
  }
}
