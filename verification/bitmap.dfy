/** Bin maps: sets of bin indices below 32 as the bits of a word, and the bit arithmetic that finds the next bin in
    use (lib/dlmalloc.c, operations on bin maps). */
module Bitmap {

  /** Bin i is marked in map m. */
  predicate Has(m: bv32, i: bv32) { (m >> (i & 31) as bv6) & 1 == 1 }

  function Idx2Bit(i: bv32): bv32 { 1 << ((i & 31) as bv6) }

  function LeastBit(x: bv32): bv32 { x & -x }

  function LeftBits(x: bv32): bv32 { (x << 1) | -(x << 1) }

  /** mark_treemap and clear_treemap add and remove one index. */
  lemma Marks(m: bv32, i: bv32, j: bv32)
    requires i < 32 && j < 32
    ensures Has(m | Idx2Bit(i), j) <==> Has(m, j) || i == j
    ensures Has(m & !Idx2Bit(i), j) <==> Has(m, j) && i != j
  {
  }

  /** left_bits(idx2bit(i)) & m keeps the indices above i. */
  lemma Left(m: bv32, i: bv32, j: bv32)
    requires i < 32 && j < 32
    ensures Has(LeftBits(Idx2Bit(i)) & m, j) <==> j > i && Has(m, j)
  {
  }

  lemma LeastOfShifted(m: bv32, i: bv32, j: bv32)
    requires i < 32 && j < 32 && Has(m, i)
    requires i > 0 ==> m << ((32 - i) as bv6) == 0
    ensures Has(LeastBit(m), j) <==> i == j
  {
  }

  lemma NoLower(m: bv32, i: bv32)
    requires 0 < i < 32 && forall j: bv32 :: j < i ==> !Has(m, j)
    ensures m << ((32 - i) as bv6) == 0
  {
    var z := m << ((32 - i) as bv6);
    forall k: bv32 | k < 32 ensures !Has(z, k) {
      ShiftHas(m, i, k);
      if k >= 32 - i { assert !Has(m, k - (32 - i)); }
    }
    NoBits(z);
  }

  lemma ShiftHas(m: bv32, i: bv32, k: bv32)
    requires 0 < i < 32 && k < 32
    ensures k < 32 - i ==> !Has(m << ((32 - i) as bv6), k)
    ensures k >= 32 - i ==> (Has(m << ((32 - i) as bv6), k) <==> Has(m, k - (32 - i)))
  {
  }

  lemma NoBits(m: bv32)
    requires forall k: bv32 :: k < 32 ==> !Has(m, k)
    ensures m == 0
  {
    assert !Has(m, 0) && !Has(m, 1) && !Has(m, 2) && !Has(m, 3) && !Has(m, 4) && !Has(m, 5) && !Has(m, 6) && !Has(m, 7);
    assert !Has(m, 8) && !Has(m, 9) && !Has(m, 10) && !Has(m, 11) && !Has(m, 12) && !Has(m, 13) && !Has(m, 14) && !Has(m, 15);
    assert !Has(m, 16) && !Has(m, 17) && !Has(m, 18) && !Has(m, 19) && !Has(m, 20) && !Has(m, 21) && !Has(m, 22) && !Has(m, 23);
    assert !Has(m, 24) && !Has(m, 25) && !Has(m, 26) && !Has(m, 27) && !Has(m, 28) && !Has(m, 29) && !Has(m, 30) && !Has(m, 31);
  }

  /** least_bit keeps exactly the lowest index of a map. */
  lemma Least(m: bv32, i: bv32, j: bv32)
    requires i < 32 && j < 32 && Has(m, i) && forall k: bv32 :: k < i ==> !Has(m, k)
    ensures Has(LeastBit(m), j) <==> i == j
  {
    if i > 0 { NoLower(m, i); }
    LeastOfShifted(m, i, j);
  }

  /* ---------- bins and bits ---------- */

  /** A bin index as a shift count. */
  function BvOf(i: nat): (b: bv32)
    requires i < 32
    ensures b < 32
  {
    if i == 0 then 0 else if i == 1 then 1 else if i == 2 then 2 else if i == 3 then 3 else if i == 4 then 4 else if i == 5 then 5 else
    if i == 6 then 6 else if i == 7 then 7 else if i == 8 then 8 else if i == 9 then 9 else if i == 10 then 10 else if i == 11 then 11 else
    if i == 12 then 12 else if i == 13 then 13 else if i == 14 then 14 else if i == 15 then 15 else if i == 16 then 16 else if i == 17 then 17 else
    if i == 18 then 18 else if i == 19 then 19 else if i == 20 then 20 else if i == 21 then 21 else if i == 22 then 22 else if i == 23 then 23 else
    if i == 24 then 24 else if i == 25 then 25 else if i == 26 then 26 else if i == 27 then 27 else if i == 28 then 28 else if i == 29 then 29 else
    if i == 30 then 30 else 31
  }

  lemma BvOrder(i: nat, j: nat)
    requires i < 32 && j < 32
    ensures i < j <==> BvOf(i) < BvOf(j)
    ensures i == j <==> BvOf(i) == BvOf(j)
  {
  }

  function NatOf(b: bv32): (i: nat)
    requires b < 32
    ensures i < 32 && BvOf(i) == b
  {
    if b == 0 then 0 else if b == 1 then 1 else if b == 2 then 2 else if b == 3 then 3 else if b == 4 then 4 else if b == 5 then 5 else
    if b == 6 then 6 else if b == 7 then 7 else if b == 8 then 8 else if b == 9 then 9 else if b == 10 then 10 else if b == 11 then 11 else
    if b == 12 then 12 else if b == 13 then 13 else if b == 14 then 14 else if b == 15 then 15 else if b == 16 then 16 else if b == 17 then 17 else
    if b == 18 then 18 else if b == 19 then 19 else if b == 20 then 20 else if b == 21 then 21 else if b == 22 then 22 else if b == 23 then 23 else
    if b == 24 then 24 else if b == 25 then 25 else if b == 26 then 26 else if b == 27 then 27 else if b == 28 then 28 else if b == 29 then 29 else
    if b == 30 then 30 else 31
  }

  /** Bin i is marked; marking, clearing, and the part of a map above i. */
  predicate Marked(m: bv32, i: nat)
    requires i < 32
  {
    Has(m, BvOf(i))
  }

  function Mark(m: bv32, i: nat): bv32
    requires i < 32
  {
    m | Idx2Bit(BvOf(i))
  }

  function Clear(m: bv32, i: nat): bv32
    requires i < 32
  {
    m & !Idx2Bit(BvOf(i))
  }

  function Above(m: bv32, i: nat): bv32
    requires i < 32
  {
    LeftBits(Idx2Bit(BvOf(i))) & m
  }

  lemma MarksOr(m: bv32, a: bv32, b: bv32)
    requires a < 32 && b < 32
    ensures Has(m | Idx2Bit(a), b) <==> (a == b || Has(m, b))
  {
    Marks(m, a, b);
  }

  lemma MarkedMark(m: bv32, k: nat, i: nat)
    requires k < 32 && i < 32
    ensures Marked(Mark(m, k), i) <==> Marked(m, i) || i == k
  {
    hide Has, Idx2Bit, BvOf;
    var a, b := BvOf(k), BvOf(i);
    MarksOr(m, a, b);
    BvOrder(k, i);
  }

  lemma MarkedClear(m: bv32, k: nat, i: nat)
    requires k < 32 && i < 32
    ensures Marked(Clear(m, k), i) <==> Marked(m, i) && i != k
  {
    hide Has, Idx2Bit, BvOf;
    var a, b := BvOf(k), BvOf(i);
    Marks(m, a, b);
    BvOrder(k, i);
  }

  lemma MarkedAbove(m: bv32, k: nat, i: nat)
    requires k < 32 && i < 32
    ensures Marked(Above(m, k), i) <==> Marked(m, i) && i > k
  {
    hide Has, Idx2Bit, LeftBits, BvOf;
    var a, b := BvOf(k), BvOf(i);
    Left(m, a, b);
    BvOrder(k, i);
  }

  /** The map marks the bins in use. */
  ghost predicate MapOk(m: bv32, used: seq<bool>)
  {
    |used| == 32 && forall i :: 0 <= i < 32 ==> (Marked(m, i) <==> used[i])
  }

  lemma MarkOk(m: bv32, used: seq<bool>, k: nat)
    requires MapOk(m, used) && k < 32
    ensures MapOk(Mark(m, k), used[k := true]) && MapOk(Clear(m, k), used[k := false])
  {
    hide Marked, Mark, Clear, Above;
    forall i | 0 <= i < 32
      ensures Marked(Mark(m, k), i) <==> used[k := true][i]
      ensures Marked(Clear(m, k), i) <==> used[k := false][i]
    {
      MarkedMark(m, k, i);
      MarkedClear(m, k, i);
    }
  }

  lemma NoneMarked(m: bv32)
    requires forall i :: 0 <= i < 32 ==> !Marked(m, i)
    ensures m == 0
  {
    hide BvOf, Has;
    forall k: bv32 | k < 32 ensures !Has(m, k) { assert !Marked(m, NatOf(k)); }
    NoBits(m);
  }

  lemma ZeroMarked(i: nat)
    requires i < 32
    ensures !Marked(0, i)
  {
    hide BvOf;
    ZeroHas(BvOf(i));
  }

  lemma ZeroHas(i: bv32)
    requires i < 32
    ensures !Has(0, i)
  {
  }

  /** bsf: i is the lowest index that is set. */
  predicate Lowest(m: bv32, i: nat)
  {
    i < 32 && Marked(m, i) && forall j :: 0 <= j < i ==> !Marked(m, j)
  }

  /** The index compute_bit2idx finds in a map with a single bit, which is the lowest of a larger one. */
  method Bit2Idx(x: bv32) returns (i: nat)
    requires x != 0
    ensures Lowest(x, i)
  {
    hide Marked;
    i := 0;
    while i < 32 && !Marked(x, i)
      invariant i <= 32 && forall j :: 0 <= j < i ==> !Marked(x, j)
    {
      i := i + 1;
    }
    if i == 32 { NoneMarked(x); }
  }

  lemma LeastMarked(m: bv32, i: nat, j: nat)
    requires Lowest(m, i) && j < 32
    ensures Marked(LeastBit(m), j) <==> i == j
  {
    hide BvOf, Has, LeastBit;
    forall k: bv32 | k < BvOf(i) ensures !Has(m, k) {
      BvOrder(NatOf(k), i);
      assert !Marked(m, NatOf(k));
    }
    Least(m, BvOf(i), BvOf(j));
    BvOrder(i, j);
  }

  /** least_bit and compute_bit2idx together find the lowest marked index. */
  method LeastIndex(m: bv32) returns (i: nat)
    requires m != 0
    ensures Lowest(m, i)
  {
    hide Marked, LeastBit;
    SomeLowest(m);
    ghost var l: nat :| Lowest(m, l);
    LeastMarked(m, l, l);
    var x := LeastBit(m);
    if x == 0 { ZeroMarked(l); }
    i := Bit2Idx(x);
    LeastMarked(m, l, i);
  }

  lemma SomeLowest(m: bv32)
    requires m != 0
    ensures exists i: nat :: Lowest(m, i)
  {
    hide Marked;
    if forall i :: 0 <= i < 32 ==> !Marked(m, i) {
      NoneMarked(m);
    } else {
      var i: nat :| i < 32 && Marked(m, i);
      LowestBelow(m, i);
    }
  }

  lemma {:induction false} LowestBelow(m: bv32, i: nat)
    requires i < 32 && Marked(m, i)
    ensures exists k: nat :: Lowest(m, k)
    decreases i
  {
    hide Marked;
    if j: nat :| j < i && Marked(m, j) {
      LowestBelow(m, j);
    } else {
      assert Lowest(m, i);
    }
  }

  /** The lowest bin in use above idx, if the map is not empty there. */
  method NextMarked(m: bv32, idx: nat, ghost used: seq<bool>) returns (i: nat)
    requires MapOk(m, used) && idx < 32
    ensures idx < i <= 32 && (i < 32 ==> used[i]) && forall j :: idx < j < i ==> !used[j]
  {
    hide Marked, Above;
    ghost var left := Above(m, idx);
    forall j | 0 <= j < 32 ensures Marked(left, j) <==> used[j] && j > idx { MarkedAbove(m, idx, j); }
    if Above(m, idx) == 0 {
      forall j | 0 <= j < 32 ensures !Marked(left, j) { ZeroMarked(j); }
      return 32;
    }
    i := LeastIndex(Above(m, idx));
    forall j | idx < j < i ensures !used[j] { assert !Marked(left, j); }
  }

  /** The lowest bin in use, if the map is not empty. */
  method FirstMarked(m: bv32, ghost used: seq<bool>) returns (i: nat)
    requires MapOk(m, used)
    ensures i <= 32 && (i < 32 <==> m != 0) && (i < 32 ==> used[i]) && forall j :: 0 <= j < i ==> !used[j]
  {
    hide Marked;
    if m == 0 {
      forall j | 0 <= j < 32 ensures !used[j] { ZeroMarked(j); }
      return 32;
    }
    i := LeastIndex(m);
    forall j | 0 <= j < i ensures !used[j] { assert !Marked(m, j); }
  }

  lemma Shifted(m: bv32, i: bv32)
    requires i < 31
    ensures (m >> (i as bv6)) & 3 != 0 <==> Has(m, i) || Has(m, i + 1)
    ensures !(m >> (i as bv6)) & 1 == (if Has(m, i) then 0 else 1)
  {
  }

  lemma ShiftedHas(m: bv32, i: bv32, k: bv32)
    requires i < 32 && k < 32
    ensures k < 32 - i ==> (Has(m >> (i as bv6), k) <==> Has(m, k + i))
    ensures k >= 32 - i ==> !Has(m >> (i as bv6), k)
  {
  }

  lemma BvNext(i: nat)
    requires i < 31
    ensures BvOf(i + 1) == BvOf(i) + 1
  {
    hide BvOf, NatOf;
    BvOrder(i, i + 1);
    var j := NatOf(BvOf(i) + 1);
    BvOrder(i, j);
    BvOrder(i + 1, j);
  }

  /** smallbits = smallmap >> idx */
  function SmallBits(m: bv32, idx: nat): bv32
    requires idx < 31
  {
    ShiftDown(m, BvOf(idx))
  }

  function ShiftDown(m: bv32, i: bv32): bv32
    requires i < 32
  {
    m >> (i as bv6)
  }

  /** Its two lowest bits are those of bin idx and the next one, it is zero exactly if no bin from idx on is in use, and
      shifting it back loses only lower bits. */
  lemma SmallBitsAre(m: bv32, used: seq<bool>, idx: nat)
    requires MapOk(m, used) && idx < 31
    ensures (SmallBits(m, idx) & 3 != 0 <==> used[idx] || used[idx + 1]) && (!SmallBits(m, idx) & 1 == 1 <==> !used[idx])
    ensures SmallBits(m, idx) == 0 <==> forall j :: idx <= j < 32 ==> !used[j]
    ensures LeftOf(SmallBits(m, idx), BvOf(idx)) == Above(m, idx)
  {
    hide SmallBits, Above, Marked, BvOf, NatOf, LeftBits, Idx2Bit, LeftOf;
    SmallLow(m, idx);
    ShiftBack(m, idx);
    if forall j :: idx <= j < 32 ==> !used[j] {
      forall k: bv32 | k < 32 ensures !Has(SmallBits(m, idx), k) { NothingShifted(m, used, idx, k); }
      NoBits(SmallBits(m, idx));
    }
    if SmallBits(m, idx) == 0 {
      forall j | idx <= j < 32 ensures !used[j] { ZeroShifted(m, idx, j); }
    }
  }

  lemma SmallLow(m: bv32, idx: nat)
    requires idx < 31
    ensures SmallBits(m, idx) & 3 != 0 <==> Marked(m, idx) || Marked(m, idx + 1)
    ensures !SmallBits(m, idx) & 1 == 1 <==> !Marked(m, idx)
  {
    hide Has, BvOf, NatOf, LeftBits, Idx2Bit, ShiftDown;
    BvNext(idx);
    BelowTop(idx);
    LowDown(m, BvOf(idx));
  }

  /** (smallbits << idx) & left_bits(idx2bit(idx)) */
  function LeftOf(sb: bv32, i: bv32): bv32
    requires i < 32
  {
    (sb << (i as bv6)) & LeftBits(Idx2Bit(i))
  }

  lemma BackBits(m: bv32, i: bv32)
    requires i < 31
    ensures LeftOf(ShiftDown(m, i), i) == LeftBits(Idx2Bit(i)) & m
  {
  }

  lemma BelowTop(idx: nat)
    requires idx < 31
    ensures BvOf(idx) < 31
  {
    hide BvOf, NatOf;
    BvOrder(idx, 31);
    TopIndex();
  }

  lemma ShiftBack(m: bv32, idx: nat)
    requires idx < 31
    ensures LeftOf(SmallBits(m, idx), BvOf(idx)) == Above(m, idx)
  {
    hide Has, BvOf, NatOf, LeftBits, Idx2Bit, LeftOf, ShiftDown;
    BelowTop(idx);
    BackBits(m, BvOf(idx));
  }

  lemma TopIndex()
    ensures BvOf(31) == 31
  {
  }

  /** Bit k of smallbits is bit k + idx of the map. */
  lemma SmallHas(m: bv32, idx: nat, k: bv32)
    requires idx < 31 && k < 32
    ensures Has(SmallBits(m, idx), k) <==> k < 32 - BvOf(idx) && Has(m, k + BvOf(idx))
  {
    hide Has, BvOf, NatOf, ShiftDown;
    DownHas(m, BvOf(idx), k);
  }

  lemma DownHas(m: bv32, i: bv32, k: bv32)
    requires i < 32 && k < 32
    ensures Has(ShiftDown(m, i), k) <==> k < 32 - i && Has(m, k + i)
  {
    hide Has;
    ShiftedHas(m, i, k);
  }

  lemma LowDown(m: bv32, i: bv32)
    requires i < 31
    ensures ShiftDown(m, i) & 3 != 0 <==> Has(m, i) || Has(m, i + 1)
    ensures !ShiftDown(m, i) & 1 == 1 <==> !Has(m, i)
  {
    Shifted(m, i);
  }

  lemma NothingShifted(m: bv32, used: seq<bool>, idx: nat, k: bv32)
    requires MapOk(m, used) && idx < 31 && k < 32 && forall j :: idx <= j < 32 ==> !used[j]
    ensures !Has(SmallBits(m, idx), k)
  {
    hide Has, BvOf, NatOf, Marked, SmallBits, MapOk;
    SmallHas(m, idx, k);
    if k < 32 - BvOf(idx) {
      NotWrapped(BvOf(idx), k);
      FromIndex(m, used, idx, k + BvOf(idx));
    }
  }

  lemma FromIndex(m: bv32, used: seq<bool>, idx: nat, b: bv32)
    requires MapOk(m, used) && idx < 31 && b < 32 && b >= BvOf(idx) && forall j :: idx <= j < 32 ==> !used[j]
    ensures !Has(m, b)
  {
    hide Has, BvOf, NatOf;
    var j := NatOf(b);
    BvOrder(j, idx);
    assert !Marked(m, j);
  }

  lemma NotWrapped(i: bv32, k: bv32)
    requires i < 32 && k < 32 - i
    ensures k + i < 32 && k + i >= i
  {
  }

  lemma ZeroShifted(m: bv32, idx: nat, j: nat)
    requires idx <= j < 32 && idx < 31 && SmallBits(m, idx) == 0
    ensures !Marked(m, j)
  {
    hide Has, BvOf, NatOf, SmallBits;
    BvOrder(idx, j);
    Difference(BvOf(idx), BvOf(j));
    SmallHas(m, idx, BvOf(j) - BvOf(idx));
    ZeroHas(BvOf(j) - BvOf(idx));
  }

  lemma Difference(i: bv32, b: bv32)
    requires i <= b < 32
    ensures b - i < 32 - i && b - i < 32 && (b - i) + i == b
  {
  }
}
