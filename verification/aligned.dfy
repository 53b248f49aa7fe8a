/** mspace_memalign (lib/dlmalloc.c): a block at an aligned address, cut out of a larger one whose rest is given
    back. */
module Aligned {
  import Trie
  import opened BestFit
  import opened Tiling
  import opened Binning
  import opened Mspaces
  import opened Resizing

  const ALIGNMENT: nat := 16          // MALLOC_ALIGNMENT
  const HIGHBIT: nat := 0x8000_0000_0000_0000

  /** n & (n - 1) == 0, for n > 0. */
  predicate IsPower(n: nat): (b: bool)
    ensures b ==> n > 0
  {
    n == 1 || (n > 0 && n % 2 == 0 && IsPower(n / 2))
  }

  /** The least a * 2^k that is at least n. */
  function Doubled(a: nat, n: nat): (r: nat)
    requires a > 0
    ensures r >= a
    decreases n - a
  {
    if a >= n then a else Doubled(2 * a, n)
  }

  /** The alignment that is provided for the one asked for. */
  function Provided(alignment: nat): nat { Doubled(ALIGNMENT, alignment) }

  lemma {:induction false} DoubledIs(a: nat, n: nat)
    requires IsPower(a)
    ensures IsPower(Doubled(a, n)) && Doubled(a, n) >= n && Doubled(a, n) >= a && (Doubled(a, n) == a || Doubled(a, n) < 2 * n)
    decreases n - a
  {
    if a < n { DoubledIs(2 * a, n); }
  }

  /** Of two powers of two the larger is a multiple of the smaller. */
  lemma {:induction false} PowersDivide(a: nat, b: nat)
    requires IsPower(a) && IsPower(b) && a <= b
    ensures b % a == 0
    decreases b
  {
    if a > 1 {
      PowersDivide(a / 2, b / 2);
      var k := b / 2 / (a / 2);
      assert b == a * k;
      Multiple(a, k);
    }
  }

  lemma Multiple(a: nat, k: nat)
    requires a > 0
    ensures a * k % a == 0
  {
    var q, r := a * k / a, a * k % a;
    Distribute(a, k, q);
    if k > q { AtLeast(a, k - q); } else if k < q { AtLeast(a, q - k); }
  }

  lemma Distribute(a: int, k: int, q: int)
    ensures a * (k - q) == a * k - a * q && a * (q - k) == a * q - a * k
  {
  }

  lemma AtLeast(a: nat, d: nat)
    requires d > 0
    ensures a * d >= a
  {
  }

  /** A power of two is its own doubling. */
  lemma {:induction false} PowerStays(a: nat, n: nat)
    requires IsPower(a) && IsPower(n) && a <= n
    ensures Doubled(a, n) == n
    decreases n - a
  {
    hide IsPower;
    if a < n {
      PowersDivide(a, n);
      TwiceOf(a, n);
      PowerStays(2 * a, n);
    }
  }

  lemma TwiceOf(a: nat, n: nat)
    requires 0 < a < n && n % a == 0
    ensures 2 * a <= n && (IsPower(a) ==> IsPower(2 * a))
  {
  }

  /** (mem + alignment - 1) & -alignment */
  function RoundUp(mem: Addr, a: nat): Addr
    requires a > 0
  {
    a * ((mem + a - 1) / a)
  }

  /** The chunk that is used, when the block at mem = p + MEM is not aligned: far enough from p for a chunk before it. */
  function Position(p: Addr, a: nat): (pos: Addr)
    requires a >= MINCHUNK
  {
    var br := RoundUp(p + MEM, a) - MEM;
    if br - p >= MINCHUNK then br else br + a
  }

  lemma Rounds(mem: Addr, a: nat)
    requires a > 0
    ensures mem <= RoundUp(mem, a) < mem + a && RoundUp(mem, a) % a == 0
  {
    var k := (mem + a - 1) / a;
    Multiple(a, k);
    assert mem + a - 1 == a * k + (mem + a - 1) % a;
  }

  lemma NextMultiple(x: nat, a: nat)
    requires a > 0 && x % a == 0
    ensures (x + a) % a == 0
  {
    var k := x / a;
    assert x == a * k;
    assert a * (k + 1) == x + a;
    Multiple(a, k + 1);
  }

  lemma Divides(x: nat, a: nat, d: nat)
    requires d > 0 && a % d == 0 && a > 0 && x % a == 0
    ensures x % d == 0
  {
    Exactly(a, d);
    Exactly(x, a);
    MultipleOf(d, a / d, x / a);
  }

  lemma Exactly(x: nat, a: nat)
    requires a > 0 && x % a == 0
    ensures x == a * (x / a)
  {
  }

  lemma MultipleOf(d: nat, j: nat, k: nat)
    requires d > 0
    ensures d * j * k % d == 0
  {
    Regroup(d, j, k);
    Multiple(d, j * k);
  }

  lemma Regroup(d: int, j: int, k: int)
    ensures d * j * k == d * (j * k)
  {
  }

  /** The place is aligned, leaves a chunk before it, and is near enough that the room asked for suffices. */
  lemma PositionIs(p: Addr, a: nat)
    requires Even(p) && IsPower(a) && a >= MINCHUNK && (p + MEM) % a != 0
    ensures var pos := Position(p, a); (pos + MEM) % a == 0 && p + MINCHUNK <= pos <= p + a + MEM && Even(pos - p)
  {
    hide IsPower, RoundUp, Even;
    var r := RoundUp(p + MEM, a);
    Rounds(p + MEM, a);
    ThirtyTwo();
    PowersDivide(ALIGNMENT, a);
    Divides(r, a, ALIGNMENT);
    NextMultiple(r, a);
    FarEnough(p, a, r);
  }

  lemma FarEnough(p: Addr, a: nat, r: Addr)
    requires Even(p) && a % ALIGNMENT == 0 && a > 0 && r % ALIGNMENT == 0 && p + MEM <= r < p + MEM + a && r != p + MEM
    ensures r >= p + 32 && Even(r - MEM - p) && Even(r - MEM + a - p)
  {
  }

  /** From live to live', a block of at least nb bytes came into use at q. */
  predicate Placed(live: map<Addr, nat>, live': map<Addr, nat>, q: Addr, nb: nat)
  {
    q !in live && q in live' && live' == live[q := live'[q]] && nb <= live'[q] <= nb + MINCHUNK
  }

  /** Give back what lies before the first aligned place in the block, and what lies behind the nb bytes needed. */
  method TrimBlock(ms: Mspace, mem0: Addr, a: nat, nb: nat) returns (mem: Addr)
    requires ms.Valid() && mem0 >= MEM && mem0 - MEM in ms.Live() && Even(mem0 - MEM) && IsPower(a) && a >= MINCHUNK
    requires Even(nb) && nb >= MINCHUNK && ms.Live()[mem0 - MEM] >= nb + a + MINCHUNK
    modifies ms
    ensures ms.Valid() && mem >= MEM && mem % a == 0
    ensures mem == mem0 || mem - MEM !in old(ms.Live())
    ensures mem - MEM in ms.Live() && nb <= ms.Live()[mem - MEM] <= nb + MINCHUNK
    ensures ms.Live() == old(ms.Live() - {mem0 - MEM})[mem - MEM := ms.Live()[mem - MEM]]
  {
    hide TagsOk, FreeChunks, LiveChunks, BinningOk, Even, IsPower, Position, Mspace.Valid, Mspace.FreeMap, Mspace.Live;
    var p, leader, trailer := mem0 - MEM, 0, 0;
    ghost var live, p0 := ms.Live(), p;
    if mem0 % a != 0 {
      PositionIs(p, a);
      var pos := Position(p, a);
      CutTail(ms, p, pos - p);
      leader := mem0;
      p := pos;
    }
    ChunkFacts(ms, p);
    var size := ms.heads[p].size;
    ghost var led := ms.Live();
    if size > nb + MINCHUNK {
      CutTail(ms, p, nb);
      trailer := p + nb + MEM;
    }
    ghost var cut := ms.Live();
    if leader != 0 {
      ms.MspaceFree(leader);
    }
    if trailer != 0 {
      ms.MspaceFree(trailer);
    }
    Trimmed(live, led, cut, ms.Live(), p0, p, nb, leader != 0, trailer != 0);
    mem := p + MEM;
  }

  /** What cutting and giving back amounts to. */
  lemma Trimmed(live: map<Addr, nat>, led: map<Addr, nat>, cut: map<Addr, nat>, live': map<Addr, nat>,
                p0: Addr, p: Addr, nb: nat, lead: bool, trail: bool)
    requires p0 in live && p in led && p in cut && p0 <= p && (if lead then p0 < p && p !in live else p == p0)
    requires led == (if lead then live[p0 := p - p0][p := led[p]] else live)
    requires trail ==> nb > 0 && p + nb !in led && p + nb in cut && cut == led[p := nb][p + nb := cut[p + nb]]
    requires !trail ==> cut == led
    requires live' == cut - (if lead then {p0} else {}) - (if trail then {p + nb} else {})
    ensures p in live' && live' == (live - {p0})[p := live'[p]] && live'[p] == if trail then nb else led[p]
  {
  }

  lemma DoubledStep(b: nat, n: nat)
    requires b > 0
    ensures Doubled(b, n) == if b >= n then b else Doubled(2 * b, n)
  {
  }

  lemma HighBit()
    ensures IsPower(HIGHBIT)
  {
    hide IsPower, Trie.Pow2;
    Pow64();
    PowIsPower(63);
  }

  /** Doubling a power of two below a word's highest bit does not overflow. */
  lemma NoOverflow(b: nat)
    requires IsPower(b) && b < HIGHBIT
    ensures 2 * b <= HIGHBIT && IsPower(2 * b)
  {
    hide IsPower;
    HighBit();
    PowersDivide(b, HIGHBIT);
    TwiceOf(b, HIGHBIT);
  }

  lemma {:induction false} PowIsPower(k: nat)
    ensures IsPower(Trie.Pow2(k))
  {
    if k > 0 { PowIsPower(k - 1); }
  }

  lemma Small(alignment: nat, mem: Addr)
    requires alignment <= ALIGNMENT && (mem != 0 ==> Even(mem))
    ensures mem % Provided(alignment) == 0
  {
  }

  /** The alignment worked out is the one to provide. */
  lemma ProvidedIs(alignment: nat, a0: nat, a: nat)
    requires alignment > ALIGNMENT && a0 == (if alignment < MINCHUNK then MINCHUNK else alignment)
    requires if IsPower(a0) then a == a0 else a == Doubled(2 * ALIGNMENT, a0)
    ensures a == Provided(alignment) && IsPower(a) && a >= MINCHUNK
  {
    ThirtyTwo();
    DoubledStep(ALIGNMENT, alignment);
    DoubledStep(ALIGNMENT * 2, alignment);
    DoubledIs(32, a0);
    if IsPower(a0) { PowerStays(32, a0); }
  }

  /** The request from which the aligned block is cut. */
  function Asked(alignment: nat, bytes: nat): nat
  {
    if alignment <= ALIGNMENT then bytes else RequestSize(bytes) + Provided(alignment) + MINCHUNK - OVERHEAD
  }

  /** mspace_memalign: address 0 if there is no room. */
  method MspaceMemalign(ms: Mspace, alignment: nat, bytes: nat) returns (mem: Addr)
    requires ms.Valid() && alignment <= HIGHBIT && bytes < WORD
    modifies ms
    ensures ms.Valid()
    ensures mem != 0 ==> mem >= MEM && mem % Provided(alignment) == 0 && bytes + OVERHEAD <= RequestSize(bytes)
                         && Placed(old(ms.Live()), ms.Live(), mem - MEM, RequestSize(bytes))
    ensures mem == 0 ==> ms.Live() == old(ms.Live())
    ensures mem == 0 ==> (alignment > ALIGNMENT && bytes + Provided(alignment) >= MAXREQUEST)
                         || (ms.topsize <= RequestSize(Asked(alignment, bytes))
                             && forall c :: c in ms.FreeMap() ==> ms.FreeMap()[c] < RequestSize(Asked(alignment, bytes)))
  {
    hide TagsOk, FreeChunks, LiveChunks, BinningOk, Even, IsPower, Doubled, Position, Mspace.Valid, Mspace.FreeMap, Mspace.Live;
    if alignment <= ALIGNMENT {
      mem := ms.MspaceMalloc(bytes);
      Small(alignment, mem);
      return;
    }
    var a := if alignment < MINCHUNK then MINCHUNK else alignment;
    ghost var a0 := a;
    if !IsPower(a) {
      a := RoundedUp(a);
    }
    ProvidedIs(alignment, a0, a);
    if bytes >= MAXREQUEST - a {
      return 0;
    }
    RequestFits(bytes);
    var nb := RequestSize(bytes);
    var req := nb + a + MINCHUNK - OVERHEAD;
    mem := ms.MspaceMalloc(req);
    if mem != 0 {
      MemBack(mem);
      mem := TrimBlock(ms, mem, a, nb);
    }
  }

  lemma MemBack(mem: Addr)
    requires mem >= MEM && Even(mem)
    ensures Even(mem - MEM)
  {
  }

  /** while (a < alignment) a <<= 1; */
  method RoundedUp(n: nat) returns (b: nat)
    requires n <= HIGHBIT
    ensures b == Doubled(2 * ALIGNMENT, n) && b <= HIGHBIT
  {
    hide IsPower, Doubled;
    b := 2 * ALIGNMENT;
    assert IsPower(b) by { ThirtyTwo(); }
    while b < n
      invariant IsPower(b) && 0 < b <= HIGHBIT && Doubled(b, n) == Doubled(2 * ALIGNMENT, n)
      decreases n - b
    {
      NoOverflow(b);
      DoubledStep(b, n);
      b := 2 * b;
    }
    DoubledStep(b, n);
  }

  lemma ThirtyTwo()
    ensures IsPower(16) && IsPower(32)
  {
    assert IsPower(2) && IsPower(4) && IsPower(8);
  }

  /** Whoever asks for a power of two gets a multiple of it. */
  lemma AsAsked(alignment: nat, mem: Addr)
    requires IsPower(alignment) && mem % Provided(alignment) == 0
    ensures mem % alignment == 0
  {
    hide IsPower, Doubled;
    ThirtyTwo();
    DoubledIs(ALIGNMENT, alignment);
    PowersDivide(alignment, Provided(alignment));
    Divides(mem, Provided(alignment), alignment);
  }

  /** The rounding loop in a 64-bit word: a after k turns. */
  function Shifted(k: nat): nat
  {
    if k == 0 then 2 * ALIGNMENT else 2 * Shifted(k - 1) % WORD
  }

  lemma {:induction false} ShiftedIs(k: nat)
    ensures Shifted(k) == 0 || (IsPower(Shifted(k)) && Shifted(k) <= HIGHBIT)
  {
    hide IsPower;
    ThirtyTwo();
    if k > 0 {
      ShiftedIs(k - 1);
      if 0 < Shifted(k - 1) < HIGHBIT { NoOverflow(Shifted(k - 1)); }
    }
  }

  lemma {:induction false} ShiftedReaches(k: nat, n: nat) returns (j: nat)
    requires n <= HIGHBIT && Shifted(k) > 0
    ensures Shifted(j) >= n
    decreases n - Shifted(k)
  {
    hide IsPower;
    j := k;
    if Shifted(k) < n {
      ShiftedIs(k);
      NoOverflow(Shifted(k));
      assert Shifted(k + 1) == 2 * Shifted(k);
      j := ShiftedReaches(k + 1, n);
    }
  }

  /** The loop ends exactly if the alignment is at most 2^63: beyond, a becomes 0 and stays so. */
  lemma RoundingEnds(n: nat)
    ensures (exists k :: Shifted(k) >= n) <==> n <= HIGHBIT
  {
    if n <= HIGHBIT {
      var j := ShiftedReaches(0, n);
    } else {
      forall k ensures Shifted(k) < n { ShiftedIs(k); }
    }
  }
}
