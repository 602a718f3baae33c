// Kingsley's power-of-two size classes
// (src/thread_lib/include/heaplayers/kingsleyheap.h).
module Kingsley {
  const NUMBINS := 29

  // The largest size that has a class.
  const MAXOBJECT := 0x8000_0000

  function Pow2(k: nat): (r: nat)
    ensures r >= 1
  {
    if k == 0 then 1 else 2 * Pow2(k - 1)
  }

  // class2Size
  function Class2Size(c: nat): nat {
    Pow2(c + 3)
  }

  lemma {:induction false} Pow2Monotone(a: nat, b: nat)
    requires a <= b
    ensures Pow2(a) <= Pow2(b)
    ensures a < b ==> 2 * Pow2(a) <= Pow2(b)
    decreases b
  {
    if a < b {
      Pow2Monotone(a, b - 1);
    }
  }

  lemma ClassSizes()
    ensures Class2Size(0) == 8 && Class2Size(1) == 16 && Class2Size(2) == 32 && Class2Size(3) == 64
    ensures Class2Size(4) == 128 && Class2Size(5) == 256
  {
    assert Pow2(3) == 8 && Pow2(4) == 16 && Pow2(5) == 32 && Pow2(6) == 64;
    assert Pow2(7) == 128 && Pow2(8) == 256;
  }

  lemma LargestClass()
    ensures Class2Size(NUMBINS - 1) == MAXOBJECT
  {
    assert Pow2(8) == 256 by { ClassSizes(); }
    assert Pow2(12) == 16 * Pow2(8) && Pow2(16) == 16 * Pow2(12);
    assert Pow2(20) == 16 * Pow2(16) && Pow2(24) == 16 * Pow2(20);
    assert Pow2(28) == 16 * Pow2(24) && Pow2(31) == 8 * Pow2(28);
  }

  // c is the least class that sz fits in.
  predicate IsLeastClass(sz: nat, c: nat) {
    sz <= Class2Size(c) && (c > 0 ==> Class2Size(c - 1) < sz)
  }

  // The least class, by halving.
  function LeastClass(sz: nat): (c: nat)
    ensures IsLeastClass(sz, c)
  {
    if sz <= 8 then 0
    else
      var d := LeastClass((sz + 1) / 2);
      d + 1
  }

  lemma LeastClassUnique(sz: nat, c: nat)
    requires IsLeastClass(sz, c)
    ensures LeastClass(sz) == c
    ensures forall d :: 0 <= d < c ==> Class2Size(d) < sz
  {
    var e := LeastClass(sz);
    if e < c { Pow2Monotone(e + 3, c - 1 + 3); }
    if c < e { Pow2Monotone(c + 3, e - 1 + 3); }
    forall d | 0 <= d < c
      ensures Class2Size(d) < sz
    {
      Pow2Monotone(d + 3, c - 1 + 3);
    }
  }

  // A size up to the largest class has a bin, and a class size is in its class.
  lemma LeastClassBounded(sz: nat)
    requires sz <= MAXOBJECT
    ensures LeastClass(sz) < NUMBINS
  {
    LargestClass();
    var c := LeastClass(sz);
    if c >= NUMBINS { Pow2Monotone(NUMBINS - 1 + 3, c - 1 + 3); }
  }

  lemma ClassOfClassSize(c: nat)
    ensures LeastClass(Class2Size(c)) == c
  {
    LeastClassUnique(Class2Size(c), c);
  }

  // The table for sizes up to 128, indexed by the number of 8-byte units.
  const CL: seq<nat> := [0, 1, 2, 2, 3, 3, 3, 3, 4, 4, 4, 4, 4, 4, 4, 4]

  lemma HalvingStep(x: nat, sz1: nat, c: nat)
    requires sz1 > 7 && sz1 * Pow2(c) <= x < (sz1 + 1) * Pow2(c)
    ensures (sz1 / 2) * Pow2(c + 1) <= x < (sz1 / 2 + 1) * Pow2(c + 1)
  {
    var p := Pow2(c);
    assert Pow2(c + 1) == 2 * p;
    var h := sz1 / 2;
    assert sz1 == 2 * h || sz1 == 2 * h + 1;
    assert h * (2 * p) == (2 * h) * p && (h + 1) * (2 * p) == (2 * h + 2) * p;
    MulLe(2 * h, sz1, p);
    MulLe(sz1 + 1, 2 * h + 2, p);
  }

  lemma MulLe(a: int, b: int, p: nat)
    requires a <= b
    ensures a * p <= b * p
  {
    assert (b - a) * p >= 0;
  }

  lemma HalvingEnd(sz: nat, sz1: nat, c: nat)
    requires sz > 0 && 4 <= sz1 <= 7 && sz1 * Pow2(c) <= sz - 1 < (sz1 + 1) * Pow2(c)
    ensures IsLeastClass(sz, c)
  {
    var p := Pow2(c);
    assert Pow2(c + 1) == 2 * p && Pow2(c + 2) == 4 * p && Pow2(c + 3) == 8 * p;
    MulLe(4, sz1, p);
    MulLe(sz1 + 1, 8, p);
    if c > 0 { assert Class2Size(c - 1) == Pow2(c + 2); }
  }

  // size2Class
  method Size2Class(size: nat) returns (c: nat)
    ensures IsLeastClass(size, c)
    ensures c == LeastClass(size)
  {
    var sz := if size < 8 then 8 else size;
    ClassSizes();
    if sz <= 128 {
      var index := (sz - 1) / 8;
      c := CL[index];
      assert IsLeastClass(size, c);
    } else {
      c := 5;
      var sz1 := (sz - 1) / 32;
      assert Pow2(5) == 32;
      while sz1 > 7
        invariant 4 <= sz1
        invariant sz1 * Pow2(c) <= sz - 1 < (sz1 + 1) * Pow2(c)
        decreases sz1
      {
        HalvingStep(sz - 1, sz1, c);
        sz1 := sz1 / 2;
        c := c + 1;
      }
      HalvingEnd(sz, sz1, c);
    }
    LeastClassUnique(size, c);
  }
}
