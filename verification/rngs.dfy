/** Lehmer random number streams (lib/rngs.c): Schrage's method without overflow, and 256 streams far apart on one
    cycle. */
module Rngs {

  const MODULUS: int := 2147483647
  const MULTIPLIER: int := 48271
  const CHECK: int := 399268537
  const STREAMS: nat := 256
  const A256: int := 22925
  const DEFAULT: int := 123456789

  /** Calls of Random between the seeds that PlantSeeds plants. */
  function Jump(): nat { 8367782 }

  /** Calls of Random that TestRandom makes. */
  function Calls(): nat { 10000 }

  /** A state of a stream that the generator never leaves. */
  predicate State(x: int) { 0 < x < MODULUS }

  /** a * x mod MODULUS, computed as Random and PlantSeeds do. */
  function Schrage(a: int, x: int): int
    requires 0 < a < MODULUS
  {
    var q, r := MODULUS / a, MODULUS % a;
    assert q > 0;
    var t := a * (x % q) - r * (x / q);
    if t > 0 then t else t + MODULUS
  }

  lemma ModUnique(n: int, k: int, r: int)
    requires n == MODULUS * k + r && 0 <= r < MODULUS
    ensures n % MODULUS == r
  {
  }

  /** Every intermediate fits in 32 bits, and the result is the product's residue or MODULUS in its place. */
  lemma SchrageFits(a: int, x: int)
    requires (a == MULTIPLIER || a == A256) && State(x)
    ensures var q, r := MODULUS / a, MODULUS % a;
      && r < q && 0 <= a * (x % q) < MODULUS && 0 <= r * (x / q) < MODULUS
      && -MODULUS < a * (x % q) - r * (x / q) < MODULUS
      && a * x == MODULUS * (x / q) + (a * (x % q) - r * (x / q))
  {
    if a == MULTIPLIER {
      assert MODULUS / a == 44488 && MODULUS % a == 3399;
      assert 3399 * (x / 44488) < MODULUS;
    } else {
      assert MODULUS / a == 93674 && MODULUS % a == 7197;
      assert 7197 * (x / 93674) < MODULUS;
    }
  }

  /** The multipliers have inverses, so no state is mapped to zero. */
  lemma NotZero(a: int, b: int, x: int)
    requires State(x) && a * b % MODULUS == 1
    ensures a * x % MODULUS != 0
  {
    if a * x % MODULUS == 0 {
      Cross(a, b, x, a * x / MODULUS, a * b / MODULUS);
      NoMultiple(x, b * (a * x / MODULUS) - a * b / MODULUS * x);
    }
  }

  lemma NoMultiple(x: int, z: int)
    requires x == MODULUS * z
    ensures !State(x)
  {
  }

  lemma Cross(a: int, b: int, x: int, k: int, j: int)
    requires a * x == MODULUS * k && a * b == MODULUS * j + 1
    ensures x == MODULUS * (b * k - j * x)
  {
    assert a * b * x == (MODULUS * j + 1) * x;
    assert b * (a * x) == b * (MODULUS * k);
    assert a * b * x == b * (a * x);
  }

  lemma Inverses()
    ensures MULTIPLIER * 1899818559 % MODULUS == 1 && A256 * 130394645 % MODULUS == 1
  {
  }

  /** Schrage's method computes the Lehmer step exactly, and never leaves the states. */
  lemma SchrageIs(a: int, x: int)
    requires (a == MULTIPLIER || a == A256) && State(x)
    ensures Schrage(a, x) == a * x % MODULUS && State(Schrage(a, x))
  {
    SchrageFits(a, x);
    Inverses();
    NotZero(a, if a == MULTIPLIER then 1899818559 else 130394645, x);
    var q, r := MODULUS / a, MODULUS % a;
    SchrageCases(a * x, x / q, a * (x % q) - r * (x / q));
  }

  lemma SchrageCases(n: int, k: int, t: int)
    requires n == MODULUS * k + t && -MODULUS < t < MODULUS && n % MODULUS != 0
    ensures n % MODULUS == if t > 0 then t else t + MODULUS
    ensures State(if t > 0 then t else t + MODULUS)
  {
    if t >= 0 { ModUnique(n, k, t); } else { ModUnique(n, k - 1, t + MODULUS); }
  }

  /* ---------- powers of the multiplier ---------- */

  function PowMod(n: nat): (p: nat)
    ensures p < MODULUS
  {
    if n == 0 then 1 else MULTIPLIER * PowMod(n - 1) % MODULUS
  }

  /** The state n calls of Random after x. */
  function Ahead(x: int, n: nat): (y: int)
    requires State(x)
    decreases n
    ensures n == 0 ==> y == x
  {
    if n == 0 then x else MULTIPLIER * Ahead(x, n - 1) % MODULUS
  }

  lemma MulMod(a: int, b: int)
    ensures a * b % MODULUS == a * (b % MODULUS) % MODULUS
  {
    var k := b / MODULUS;
    assert b == MODULUS * k + b % MODULUS;
    Spread(a, k, b % MODULUS);
    ModShift(a * (b % MODULUS), a * k);
  }

  lemma Spread(a: int, k: int, r: int)
    ensures a * (MODULUS * k + r) == MODULUS * (a * k) + a * r
  {
  }

  lemma ModShift(n: int, k: int)
    ensures (MODULUS * k + n) % MODULUS == n % MODULUS
  {
    ModUnique(MODULUS * k + n, k + n / MODULUS, n % MODULUS);
  }

  /** n steps multiply by the n-th power. */
  lemma {:induction false} AheadIs(x: int, n: nat)
    requires State(x)
    ensures Ahead(x, n) == x * PowMod(n) % MODULUS
  {
    if n == 0 {
      ModUnique(x, 0, x);
    } else {
      AheadIs(x, n - 1);
      var p := PowMod(n - 1);
      MulMod(MULTIPLIER, x * p);
      Swap(x, p);
      MulMod(x, MULTIPLIER * p);
    }
  }

  lemma Swap(x: int, p: int)
    ensures MULTIPLIER * (x * p) == x * (MULTIPLIER * p)
  {
  }

  /** Steps add up. */
  lemma {:induction false} AheadSum(x: int, m: nat, n: nat)
    requires State(x) && State(Ahead(x, m))
    ensures Ahead(x, m + n) == Ahead(Ahead(x, m), n)
    decreases n
  {
    if n > 0 { AheadSum(x, m, n - 1); }
  }

  /** Going n steps ahead is n calls of Schrage's method, and stays among the states. */
  lemma {:induction false} AheadState(x: int, n: nat)
    requires State(x)
    ensures State(Ahead(x, n))
    ensures n > 0 ==> Ahead(x, n) == Schrage(MULTIPLIER, Ahead(x, n - 1))
  {
    if n > 0 {
      AheadState(x, n - 1);
      SchrageIs(MULTIPLIER, Ahead(x, n - 1));
    }
  }

  lemma {:induction false} PowSum(m: nat, n: nat)
    ensures PowMod(m + n) == PowMod(m) * PowMod(n) % MODULUS
    decreases n
  {
    if n == 0 {
      ModUnique(PowMod(m), 0, PowMod(m));
    } else {
      PowSum(m, n - 1);
      var p, q := PowMod(m), PowMod(n - 1);
      MulMod(MULTIPLIER, p * q);
      Swap(p, q);
      MulMod(p, MULTIPLIER * q);
    }
  }

  /** p is the n-th power. */
  predicate IsPow(n: nat, p: int) { PowMod(n) == p }

  lemma Twice(n: nat, v: int, m: nat, w: int)
    requires IsPow(n, v) && m == 2 * n && w == v * v % MODULUS
    ensures IsPow(m, w)
  {
    PowSum(n, n);
  }

  lemma Next(n: nat, v: int, m: nat, w: int)
    requires IsPow(n, v) && m == n + 1 && w == MULTIPLIER * v % MODULUS
    ensures IsPow(m, w)
  {
  }

  /** The jump multiplier is the power of the multiplier that its comment promises. */
  lemma JumpIs()
    ensures IsPow(Jump(), A256)
  {
    hide IsPow, PowMod;
    First();
    var n0: nat := 1;
    var n1: nat := 2 * n0;  Twice(n0, 48271, n1, 182605794);
    var n2: nat := n1 + 1;  Next(n1, 182605794, n2, 1291394886);
    var n3: nat := 2 * n2;  Twice(n2, 1291394886, n3, 407355683);
    var n4: nat := n3 + 1;  Next(n3, 407355683, n4, 1105902161);
    var n5: nat := 2 * n4;  Twice(n4, 1105902161, n5, 1738531149);
    var n6: nat := n5 + 1;  Next(n5, 1738531149, n6, 1271135913);
    var n7: nat := 2 * n6;  Twice(n6, 1271135913, n7, 631416347);
    var n8: nat := n7 + 1;  Next(n7, 631416347, n8, 2010567813);
    var n9: nat := 2 * n8;  Twice(n8, 2010567813, n9, 352020689);
    var n10: nat := n9 + 1;  Next(n9, 352020689, n10, 1500063655);
    var n11: nat := 2 * n10;  Twice(n10, 1500063655, n11, 1771495544);
    var n12: nat := n11 + 1;  Next(n11, 1771495544, n12, 1210064531);
    var n13: nat := 2 * n12;  Twice(n12, 1210064531, n13, 17494750);
    var n14: nat := n13 + 1;  Next(n13, 17494750, n14, 528003979);
    var n15: nat := 2 * n14;  Twice(n14, 528003979, n15, 33068610);
    var n16: nat := 2 * n15;  Twice(n15, 33068610, n16, 2082024995);
    var n17: nat := n16 + 1;  Next(n16, 2082024995, n17, 1341337692);
    var n18: nat := 2 * n17;  Twice(n17, 1341337692, n18, 1371184843);
    var n19: nat := 2 * n18;  Twice(n18, 1371184843, n19, 1269462536);
    var n20: nat := n19 + 1;  Next(n19, 1269462536, n20, 1927691758);
    var n21: nat := 2 * n20;  Twice(n20, 1927691758, n21, 902235579);
    var n22: nat := n21 + 1;  Next(n21, 902235579, n22, 845272749);
    var n23: nat := 2 * n22;  Twice(n22, 845272749, n23, 183790441);
    var n24: nat := n23 + 1;  Next(n23, 183790441, n24, 493431754);
    var n25: nat := 2 * n24;  Twice(n24, 493431754, n25, 1039366565);
    var n26: nat := 2 * n25;  Twice(n25, 1039366565, n26, 1762083690);
    var n27: nat := n26 + 1;  Next(n26, 1762083690, n27, 9509614);
    var n28: nat := 2 * n27;  Twice(n27, 9509614, n28, 74570179);
    var n29: nat := 2 * n28;  Twice(n28, 74570179, n29, 260681065);
    var n30: nat := n29 + 1;  Next(n29, 260681065, n30, 1229000842);
    var n31: nat := 2 * n30;  Twice(n30, 1229000842, n31, 1158799956);
    var n32: nat := 2 * n31;  Twice(n31, 1158799956, n32, 1149613586);
    var n33: nat := 2 * n32;  Twice(n32, 1149613586, n33, 1692415588);
    var n34: nat := n33 + 1;  Next(n33, 1692415588, n34, 19949174);
    var n35: nat := 2 * n34;  Twice(n34, 19949174, n35, 21303883);
    var n36: nat := n35 + 1;  Next(n35, 21303883, n36, 1862553027);
    var n37: nat := 2 * n36;  Twice(n36, 1862553027, n37, 22925);
  }

  lemma First()
    ensures IsPow(1, MULTIPLIER)
  {
    assert PowMod(0) == 1;
  }

  /** The check value of TestRandom: the state 10000 calls after state 1. */
  lemma CheckIs()
    ensures Ahead(1, Calls()) == CHECK
  {
    hide Ahead, PowMod, IsPow, Calls;
    AheadIs(1, Calls());
    CheckPow();
    UsePow(Calls(), CHECK);
  }

  lemma UsePow(n: nat, p: int)
    requires IsPow(n, p)
    ensures PowMod(n) == p
  {
  }

  lemma CheckPow()
    ensures IsPow(Calls(), CHECK)
  {
    hide IsPow, PowMod;
    First();
    var n0: nat := 1;
    var n1: nat := 2 * n0;  Twice(n0, 48271, n1, 182605794);
    var n2: nat := 2 * n1;  Twice(n1, 182605794, n2, 1914720637);
    var n3: nat := 2 * n2;  Twice(n2, 1914720637, n3, 854716505);
    var n4: nat := n3 + 1;  Next(n3, 854716505, n4, 564586691);
    var n5: nat := 2 * n4;  Twice(n4, 564586691, n5, 2136927794);
    var n6: nat := n5 + 1;  Next(n5, 2136927794, n6, 1559527823);
    var n7: nat := 2 * n6;  Twice(n6, 1559527823, n7, 1168816941);
    var n8: nat := n7 + 1;  Next(n7, 1168816941, n8, 1272185027);
    var n9: nat := 2 * n8;  Twice(n8, 1272185027, n9, 837051536);
    var n10: nat := 2 * n9;  Twice(n9, 837051536, n10, 2071152004);
    var n11: nat := 2 * n10;  Twice(n10, 2071152004, n11, 1451777401);
    var n12: nat := 2 * n11;  Twice(n11, 1451777401, n12, 2033250834);
    var n13: nat := n12 + 1;  Next(n12, 2033250834, n13, 605889173);
    var n14: nat := 2 * n13;  Twice(n13, 605889173, n14, 1285444814);
    var n15: nat := 2 * n14;  Twice(n14, 1285444814, n15, 1211932242);
    var n16: nat := 2 * n15;  Twice(n15, 1211932242, n16, 1629331733);
    var n17: nat := 2 * n16;  Twice(n16, 1629331733, n17, 399268537);
  }

  /* ---------- the streams ---------- */

  /** What PutSeed makes of a number. */
  function SeedOf(x: int, time: nat): (s: int)
    ensures 0 <= s < MODULUS && (State(s) <==> s != 0)
  {
    if x > 0 && x % MODULUS != 0 then x % MODULUS else time % MODULUS
  }

  class Streams {
    const seed: array<int>
    var stream: nat
    var initialized: bool

    ghost predicate Valid()
      reads this, seed
    {
      stream < STREAMS && seed.Length == STREAMS && State(seed[0])
      && (initialized || stream != 0 ==> forall j :: 0 <= j < STREAMS ==> State(seed[j]))
    }

    constructor ()
      ensures Valid() && seed[0] == DEFAULT && stream == 0 && !initialized && fresh(seed)
    {
      seed := new int[STREAMS](i => if i == 0 then DEFAULT else 0);
      stream, initialized := 0, false;
    }

    /** Random */
    method Random() returns (u: real)
      requires Valid()
      modifies seed
      ensures Valid() && seed[stream] == MULTIPLIER * old(seed[stream]) % MODULUS == Ahead(old(seed[stream]), 1)
      ensures u == seed[stream] as real / MODULUS as real && 0.0 < u < 1.0
      ensures forall j :: 0 <= j < STREAMS && j != stream ==> seed[j] == old(seed[j])
    {
      SchrageIs(MULTIPLIER, seed[stream]);
      var q, r := MODULUS / MULTIPLIER, MODULUS % MULTIPLIER;
      var t := MULTIPLIER * (seed[stream] % q) - r * (seed[stream] / q);
      assert Ahead(seed[stream], 0) == seed[stream];
      if t > 0 {
        seed[stream] := t;
      } else {
        seed[stream] := t + MODULUS;
      }
      u := seed[stream] as real / MODULUS as real;
    }

    /** PutSeed, with the time the clock would show; the seed is a state unless the clock has to supply it and shows a
        multiple of MODULUS. */
    method PutSeed(x: int, time: nat)
      requires stream < STREAMS && seed.Length == STREAMS
      modifies seed
      ensures seed[stream] == SeedOf(x, time)
      ensures State(seed[stream]) <==> (x > 0 && x % MODULUS != 0) || time % MODULUS != 0
      ensures forall j :: 0 <= j < STREAMS && j != stream ==> seed[j] == old(seed[j])
    {
      var y := x;
      if y > 0 {
        y := y % MODULUS;
      }
      if y <= 0 {
        y := time % MODULUS;
      }
      seed[stream] := y;
    }

    /** PlantSeeds: stream j starts Jump() * j calls ahead of stream 0, if stream 0 has a state; otherwise no stream has. */
    method PlantSeeds(x: int, time: nat)
      requires Valid()
      modifies this`stream, this`initialized, seed
      ensures stream == old(stream) && initialized && (Valid() <==> SeedOf(x, time) != 0)
      ensures SeedOf(x, time) != 0 ==> forall j :: 0 <= j < STREAMS ==> seed[j] == Ahead(SeedOf(x, time), Jump() * j)
      ensures SeedOf(x, time) == 0 ==> seed[0] == 0 && forall j :: 1 <= j < STREAMS ==> seed[j] == MODULUS
    {
      hide Jump, Schrage;
      initialized := true;
      var s := stream;
      stream := 0;
      PutSeed(x, time);
      stream := s;
      ghost var x0 := seed[0];
      if x0 != 0 { SeedAhead(x0); }
      var j := 1;
      while j < STREAMS
        invariant 1 <= j <= STREAMS && seed.Length == STREAMS && stream == old(stream) && initialized && seed[0] == x0
        invariant x0 != 0 ==> forall i :: 0 <= i < j ==> State(seed[i]) && seed[i] == Ahead(x0, Jump() * i)
        invariant x0 == 0 ==> forall i :: 1 <= i < j ==> seed[i] == MODULUS
      {
        OneMore(Jump(), j);
        if x0 != 0 { Planted(x0, Jump() * (j - 1)); } else { Stuck(A256); }
        var q, r := MODULUS / A256, MODULUS % A256;
        var t := A256 * (seed[j - 1] % q) - r * (seed[j - 1] / q);
        SchrageDef(A256, seed[j - 1]);
        if t > 0 {
          seed[j] := t;
        } else {
          seed[j] := t + MODULUS;
        }
        j := j + 1;
      }
    }

    /** SelectStream */
    method SelectStream(index: int)
      requires Valid()
      modifies this, seed
      ensures Valid() && stream == index % STREAMS
      ensures old(initialized) || stream == 0 ==> forall j :: 0 <= j < STREAMS ==> seed[j] == old(seed[j])
      ensures !old(initialized) && stream != 0 ==> forall j :: 0 <= j < STREAMS ==> seed[j] == Ahead(DEFAULT, Jump() * j)
    {
      var i := index % STREAMS;
      if !initialized && i != 0 {
        stream := 0;
        PlantSeeds(DEFAULT, 0);         // the seed is positive: the clock is not read
      }
      stream := i;
    }
  }

  lemma SeedAhead(x: int)
    requires State(x)
    ensures Ahead(x, Jump() * 0) == x
  {
  }

  /** Outside the states the generator never comes back: 0 leads to MODULUS, which leads to itself. */
  lemma Stuck(a: int)
    requires a == MULTIPLIER || a == A256
    ensures Schrage(a, 0) == MODULUS && Schrage(a, MODULUS) == MODULUS
  {
    if a == MULTIPLIER {
      assert MODULUS / a == 44488 && MODULUS % a == 3399;
      assert MODULUS / 44488 == 48271 && MODULUS % 44488 == 3399;
    } else {
      assert MODULUS / a == 93674 && MODULUS % a == 7197;
      assert MODULUS / 93674 == 22925 && MODULUS % 93674 == 7197;
    }
  }

  lemma SchrageDef(a: int, x: int)
    requires 0 < a < MODULUS
    ensures MODULUS / a > 0
    ensures Schrage(a, x) == var q, r := MODULUS / a, MODULUS % a;
                             var t := a * (x % q) - r * (x / q); if t > 0 then t else t + MODULUS
  {
  }

  /** A256 * y is as far ahead as the jump. */
  lemma JumpFrom(y: int)
    requires State(y)
    ensures Ahead(y, Jump()) == Schrage(A256, y)
  {
    hide Ahead, Schrage, PowMod, IsPow, Jump;
    AheadIs(y, Jump());
    JumpIs();
    UsePow(Jump(), A256);
    SchrageIs(A256, y);
  }

  /** One step of the planting loop jumps from one stream to the next. */
  lemma Planted(x: int, k: nat)
    requires State(x)
    ensures State(Ahead(x, k)) && State(Ahead(x, k + Jump())) && Ahead(x, k + Jump()) == Schrage(A256, Ahead(x, k))
  {
    hide Ahead, Schrage, PowMod, IsPow, Jump;
    AheadState(x, k);
    AheadState(x, k + Jump());
    AheadSum(x, k, Jump());
    JumpFrom(Ahead(x, k));
  }

  lemma OneMore(n: nat, j: nat)
    requires j >= 1
    ensures n * j == n * (j - 1) + n && n * (j - 1) >= 0
  {
  }
}
