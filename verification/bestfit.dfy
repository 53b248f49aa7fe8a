/** The index of tree bins and the search for the best fitting chunk (lib/dlmalloc.c), in the size_t arithmetic of the
    original. */
module BestFit {
  import opened Trie
  import opened Bitmap

  const NTREEBINS: nat := 32
  const MINLARGE: nat := 256          // MIN_LARGE_SIZE
  const LIMIT: nat := 0x100_0000_0000 // sizes from here on do not fit the 32-bit word of compute_tree_index
  const WORD: nat := 0x1_0000_0000_0000_0000

  /* ---------- compute_tree_index ---------- */

  /** The instruction BSR. */
  function Bsr(x: nat): (k: nat)
    ensures x > 0 ==> Pow2(k) <= x < 2 * Pow2(k)
  {
    if x <= 1 then 0 else 1 + Bsr(x / 2)
  }

  function TreeIndex(s: nat): (i: nat)
  {
    var x := s / 256 % 0x1_0000_0000;
    if x == 0 then 0
    else if x > 0xFFFF then NTREEBINS - 1
    else
      var k := Bsr(x);
      2 * k + Bit(s, k + 7)
  }

  /** minsize_for_tree_index */
  function MinSize(i: nat): nat { Pow2(i / 2 + 8) + (if i % 2 == 1 then Pow2(i / 2 + 7) else 0) }

  /** bit_for_tree_index, plus one: the bits in which the sizes of a bin differ. */
  function Bits(i: nat): nat { if i == NTREEBINS - 1 then 64 else i / 2 + 7 }

  /** The lowest size a bin could hold as a trie. */
  function Lo(i: nat): nat { if i == NTREEBINS - 1 then 0 else MinSize(i) }

  lemma {:induction false} PowLess(a: nat, b: nat)
    requires a < b
    ensures 2 * Pow2(a) <= Pow2(b)
    decreases b
  {
    if a < b - 1 { PowLess(a, b - 1); }
  }

  lemma BsrSmall(x: nat)
    requires 0 < x <= 0xFFFF
    ensures Bsr(x) <= 15
  {
    if Bsr(x) >= 16 {
      if Bsr(x) > 16 { PowLess(16, Bsr(x)); }
      PowSum(8, 8);
      assert Pow2(8) == 256;
    }
  }

  lemma {:induction false} PowSum(a: nat, b: nat)
    ensures Pow2(a + b) == Pow2(a) * Pow2(b)
    decreases a
  {
    if a > 0 {
      PowSum(a - 1, b);
      Assoc(Pow2(a - 1), Pow2(b));
    }
  }

  lemma Assoc(p: int, q: int)
    ensures 2 * (p * q) == (2 * p) * q
  {
  }

  /** Scaling the bounds of x == s / 256 to s. */
  lemma SizeRange(s: nat, k: nat)
    requires Pow2(k) <= s / 256 < 2 * Pow2(k)
    ensures Pow2(k + 8) <= s < 2 * Pow2(k + 8)
  {
    PowSum(8, k);
    assert Pow2(8) == 256;
  }

  /** The extra bit says in which half of its power of two a size lies. */
  lemma HalfBit(s: nat, k: nat)
    requires Pow2(k + 8) <= s < 2 * Pow2(k + 8)
    ensures Bit(s, k + 7) == 1 <==> s >= Pow2(k + 8) + Pow2(k + 7)
    ensures Bit(s, k + 7) == 0 || Bit(s, k + 7) == 1
  {
    assert Pow2(k + 8) == 2 * Pow2(k + 7);
    ModMul(1, Pow2(k + 8));
    BitIsHalf(s, k + 8, Pow2(k + 8));
  }

  lemma LastBin()
    ensures MinSize(31) == 12582912 && Pow2(24) == 16777216
  {
    assert Pow2(7) == 128;
    assert Pow2(14) == 16384;
    assert Pow2(21) == 2097152;
    assert Pow2(22) == 4194304;
    assert Pow2(23) == 8388608;
  }

  /** Each size belongs to the bin whose range it lies in. */
  lemma IndexRange(s: nat)
    requires MINLARGE <= s < LIMIT
    ensures TreeIndex(s) < NTREEBINS
    ensures TreeIndex(s) < NTREEBINS - 1 ==> MinSize(TreeIndex(s)) <= s < MinSize(TreeIndex(s)) + Pow2(Bits(TreeIndex(s)))
    ensures TreeIndex(s) == NTREEBINS - 1 ==> MinSize(NTREEBINS - 1) <= s
  {
    hide Pow2, Bit, Bsr;
    var x := s / 256;
    LastBin();
    assert x % 0x1_0000_0000 == x;
    if x <= 0xFFFF { BsrSmall(x); SmallIndex(s, Bsr(x)); }
  }

  lemma SmallIndex(s: nat, k: nat)
    requires s / 256 > 0 && k == Bsr(s / 256) && k <= 15
    ensures var i := 2 * k + Bit(s, k + 7);
      i < NTREEBINS && MinSize(i) <= s && (i < NTREEBINS - 1 ==> s < MinSize(i) + Pow2(Bits(i)))
  {
    hide Bit, Bsr;
    BsrOf(s / 256);
    SizeRange(s, k);
    HalfBit(s, k);
    var i := 2 * k + Bit(s, k + 7);
    assert i / 2 == k && i % 2 == Bit(s, k + 7);
    assert Pow2(k + 8) == 2 * Pow2(k + 7);
  }

  lemma BsrOf(x: nat)
    requires x > 0
    ensures Pow2(Bsr(x)) <= x < 2 * Pow2(Bsr(x))
  {
  }

  lemma Twice(n: nat)
    ensures Pow2(n + 1) == 2 * Pow2(n)
  {
  }

  lemma {:induction false} MinSizeNext(i: nat, j: nat)
    requires i < j
    ensures MinSize(i) + Pow2(i / 2 + 7) <= MinSize(j)
  {
    hide Pow2;
    Twice(i / 2 + 7);
    Twice(j / 2 + 7);
    if i / 2 < j / 2 { PowLess(i / 2 + 8, j / 2 + 8); }
  }

  /** A chunk of a higher bin is larger than any chunk of a lower bin. */
  lemma IndexOrder(s: nat, z: nat)
    requires MINLARGE <= s < LIMIT && MINLARGE <= z < LIMIT && TreeIndex(s) < TreeIndex(z)
    ensures s < z
  {
    hide Pow2, TreeIndex;
    IndexRange(s);
    IndexRange(z);
    MinSizeNext(TreeIndex(s), TreeIndex(z));
  }

  /* ---------- the bins ---------- */

  ghost predicate BinOk(t: Tree, i: nat)
  {
    && Ok(t, Bits(i), Lo(i)) && RingsDistinct(t)
    && forall s :: s in Sizes(t) ==> MINLARGE <= s < LIMIT && TreeIndex(s) == i
  }

  ghost predicate BinsOk(bins: seq<Tree>)
  {
    |bins| == NTREEBINS && forall i :: 0 <= i < NTREEBINS ==> BinOk(bins[i], i)
  }

  /** All chunks in tree bins, with their sizes. */
  ghost predicate Binned(bins: seq<Tree>, c: Chunk, s: nat)
  {
    exists i :: 0 <= i < |bins| && (c, s) in Items(bins[i])
  }

  lemma Aligned(i: nat)
    requires i < NTREEBINS
    ensures Lo(i) % Pow2(Bits(i)) == 0
  {
    if i < NTREEBINS - 1 {
      var h := Pow2(i / 2 + 7);
      assert Pow2(i / 2 + 8) == 2 * h;
      Factor(i % 2, h);
      ModMul(2 + i % 2, h);
    } else {
      ModMul(0, Pow2(64));
    }
  }

  lemma Factor(k: int, h: int)
    ensures 2 * h + k * h == (2 + k) * h
  {
  }

  lemma InTrieRange(s: nat)
    requires MINLARGE <= s < LIMIT
    ensures TreeIndex(s) < NTREEBINS && Lo(TreeIndex(s)) <= s < Lo(TreeIndex(s)) + Pow2(Bits(TreeIndex(s)))
  {
    hide Pow2, TreeIndex;
    IndexRange(s);
    Pow64();
  }

  /** insert_large_chunk */
  function InsertLarge(bins: seq<Tree>, x: Chunk, s: nat): (bins': seq<Tree>)
    requires |bins| == NTREEBINS && TreeIndex(s) < NTREEBINS
  {
    var i := TreeIndex(s);
    bins[i := Insert(bins[i], Bits(i), x, s)]
  }

  /** unlink_large_chunk */
  function UnlinkLarge(bins: seq<Tree>, x: Chunk, s: nat): (bins': seq<Tree>)
    requires |bins| == NTREEBINS && TreeIndex(s) < NTREEBINS
  {
    var i := TreeIndex(s);
    bins[i := Remove(bins[i], Bits(i), x, s)]
  }

  lemma {:induction false} InsertDistinct(t: Tree, b: nat, x: Chunk, s: nat)
    requires RingsDistinct(t) && (x, s) !in Items(t)
    ensures RingsDistinct(Insert(t, b, x, s))
  {
    if t.Node? {
      if t.size == s {
        InRing(t.ring, s, x);
      } else if b > 0 {
        if Bit(s, b - 1) == 0 { InsertDistinct(t.left, b - 1, x, s); } else { InsertDistinct(t.right, b - 1, x, s); }
      }
    }
  }

  lemma {:induction false} LeafDistinct(t: Tree)
    requires t.Node? && RingsDistinct(t)
    ensures RingsDistinct(DropLeaf(t)) && Distinct(LastLeaf(t).ring)
  {
    if t.right.Node? { LeafDistinct(t.right); } else if t.left.Node? { LeafDistinct(t.left); }
  }

  lemma {:induction false} RemoveDistinct(t: Tree, b: nat, x: Chunk, s: nat)
    requires RingsDistinct(t)
    ensures RingsDistinct(Remove(t, b, x, s))
  {
    if t.Node? {
      if t.size == s {
        if x in t.ring {
          if |t.ring| > 1 { RingHas(t.ring, x); }
          else if t.right.Node? { LeafDistinct(t.right); }
          else if t.left.Node? { LeafDistinct(t.left); }
        }
      } else if b > 0 {
        if Bit(s, b - 1) == 0 { RemoveDistinct(t.left, b - 1, x, s); } else { RemoveDistinct(t.right, b - 1, x, s); }
      }
    }
  }

  /** Inserting adds exactly the chunk and keeps all the orders a search relies on. */
  lemma InsertLargeOk(bins: seq<Tree>, x: Chunk, s: nat)
    requires BinsOk(bins) && MINLARGE <= s < LIMIT && !Binned(bins, x, s)
    ensures |bins| == NTREEBINS && TreeIndex(s) < NTREEBINS && BinsOk(InsertLarge(bins, x, s))
    ensures forall c: Chunk, z: nat :: Binned(InsertLarge(bins, x, s), c, z) <==> Binned(bins, c, z) || (c == x && z == s)
  {
    hide Ok, Items, Sizes, Bits, Lo, RingsDistinct, TreeIndex;
    InTrieRange(s);
    var i := TreeIndex(s);
    Aligned(i);
    assert BinOk(bins[i], i);
    InsertOk(bins[i], Bits(i), Lo(i), x, s);
    InsertDistinct(bins[i], Bits(i), x, s);
    var t := Insert(bins[i], Bits(i), x, s);
    ReplacedBin(bins, i, t);
    forall c: Chunk, z: nat ensures Binned(bins[i := t], c, z) <==> Binned(bins, c, z) || (c == x && z == s) {
      GrownBin(bins, i, t, c, z);
      if c == x && z == s { assert (c, z) in Items(t); }
      if (c, z) in Items(bins[i]) { assert Binned(bins, c, z); }
    }
  }

  /** Unlinking removes exactly the chunk. */
  lemma UnlinkLargeOk(bins: seq<Tree>, x: Chunk, s: nat)
    requires BinsOk(bins) && Binned(bins, x, s)
    ensures |bins| == NTREEBINS && MINLARGE <= s < LIMIT && TreeIndex(s) < NTREEBINS && BinsOk(UnlinkLarge(bins, x, s))
    ensures forall c: Chunk, z: nat :: Binned(UnlinkLarge(bins, x, s), c, z) <==> Binned(bins, c, z) && (c != x || z != s)
  {
    hide Ok, Items, Sizes, Bits, Lo, RingsDistinct, TreeIndex;
    var i :| 0 <= i < |bins| && (x, s) in Items(bins[i]);
    BinSize(bins, i, x, s);
    InTrieRange(s);
    Aligned(i);
    RemoveOk(bins[i], Bits(i), Lo(i), x, s);
    RemoveDistinct(bins[i], Bits(i), x, s);
    ReplacedBin(bins, i, Remove(bins[i], Bits(i), x, s));
    forall c: Chunk, z: nat | Binned(bins, c, z) && (c != x || z != s) ensures Binned(UnlinkLarge(bins, x, s), c, z) {
      var j :| 0 <= j < |bins| && (c, z) in Items(bins[j]);
      assert (c, z) in Items(UnlinkLarge(bins, x, s)[j]);
    }
    forall c: Chunk, z: nat | Binned(UnlinkLarge(bins, x, s), c, z) ensures Binned(bins, c, z) && (c != x || z != s) {
      var j :| 0 <= j < |bins| && (c, z) in Items(UnlinkLarge(bins, x, s)[j]);
      assert (c, z) in Items(bins[j]);
      BinSize(bins, j, c, z);
    }
  }

  lemma BinSize(bins: seq<Tree>, i: nat, c: Chunk, s: nat)
    requires BinsOk(bins) && i < NTREEBINS && (c, s) in Items(bins[i])
    ensures s in Sizes(bins[i]) && MINLARGE <= s < LIMIT && TreeIndex(s) == i
  {
    assert BinOk(bins[i], i);
    ItemSizes(bins[i], Bits(i), Lo(i));
  }

  lemma ReplacedBin(bins: seq<Tree>, i: nat, t: Tree)
    requires BinsOk(bins) && i < NTREEBINS && BinOk(t, i)
    ensures BinsOk(bins[i := t])
    ensures forall c: Chunk, s: nat :: (c, s) in Items(t) ==> Binned(bins[i := t], c, s)
  {
    hide BinOk, Items;
    var bins' := bins[i := t];
    forall c: Chunk, s: nat | (c, s) in Items(t) ensures Binned(bins', c, s) { assert (c, s) in Items(bins'[i]); }
  }

  lemma GrownBin(bins: seq<Tree>, i: nat, t: Tree, c: Chunk, s: nat)
    requires i < |bins| && Items(bins[i]) <= Items(t)
    ensures Binned(bins[i := t], c, s) <==> Binned(bins, c, s) || (c, s) in Items(t)
  {
    hide Items;
    var bins' := bins[i := t];
    if Binned(bins', c, s) {
      var j :| 0 <= j < |bins'| && (c, s) in Items(bins'[j]);
      if j != i { assert (c, s) in Items(bins[j]); }
    }
    if Binned(bins, c, s) {
      var j :| 0 <= j < |bins| && (c, s) in Items(bins[j]);
      assert (c, s) in Items(bins'[j]);
    }
    if (c, s) in Items(t) { assert (c, s) in Items(bins'[i]); }
  }

  /* ---------- the search ---------- */

  /** a - b in size_t arithmetic. */
  function Minus(a: nat, b: nat): nat
    requires a < WORD && b < WORD
  {
    (a - b) % WORD
  }

  lemma MinusIs(a: nat, b: nat)
    requires a < WORD && b < WORD
    ensures Minus(a, b) == if a >= b then a - b else a - b + WORD
  {
  }

  /** chunksize(t) - nb < rsize, in size_t arithmetic: t fits and is smaller than the best so far. */
  predicate Better(size: nat, nb: nat, rsize: nat)
    requires size < WORD && nb < WORD
  {
    Minus(size, nb) < rsize
  }

  /** v is the best chunk seen so far; without one, rsize is -nb. */
  ghost predicate BestSoFar(v: Tree, rsize: nat, nb: nat, root: set<(Chunk, nat)>)
  {
    0 < nb < WORD &&
    if v.Nil? then rsize == Minus(0, nb)
    else nb <= v.size < WORD && rsize == v.size - nb && v.ring != [] && RingItems(v.ring, v.size) <= root
  }

  /** The unsigned comparison is right, also for chunks that are too small. */
  lemma BetterIs(size: nat, v: Tree, nb: nat, rsize: nat, root: set<(Chunk, nat)>)
    requires size < WORD && BestSoFar(v, rsize, nb, root)
    ensures Better(size, nb, rsize) <==> nb <= size && (v.Node? ==> size < v.size)
    ensures nb <= size ==> Minus(size, nb) == size - nb
  {
    MinusIs(size, nb);
    MinusIs(0, nb);
  }

  /** Some size in t is at most s. */
  ghost predicate Reaches(t: Tree, s: nat)
  {
    exists z :: z in Sizes(t) && z <= s
  }

  /** leftmost_child */
  function LeftmostChild(t: Tree): Tree
    requires t.Node?
  {
    if t.left.Node? then t.left else t.right
  }

  ghost predicate IsTrie(t: Tree)
  {
    exists b: nat, lo: nat :: Ok(t, b, lo)
  }

  lemma TrieChild(t: Tree)
    requires t.Node? && IsTrie(t)
    ensures IsTrie(t.left) && IsTrie(t.right) && t.ring != []
  {
    var b: nat, lo: nat :| Ok(t, b, lo);
    if b > 0 { assert Ok(t.left, b - 1, lo) && Ok(t.right, b - 1, lo + Pow2(b - 1)); }
    else { assert Ok(t.left, 0, 0) && Ok(t.right, 0, 0); }
  }

  /** The least size of a subtree is at its root or below its leftmost child. */
  lemma LeastLeftmost(t: Tree, s: nat)
    requires t.Node? && IsTrie(t) && Reaches(t, s)
    ensures t.size <= s || Reaches(LeftmostChild(t), s)
  {
    var b: nat, lo: nat :| Ok(t, b, lo);
    var z :| z in Sizes(t) && z <= s;
    if z != t.size && b > 0 {
      Halves(t, b, lo);
      if z in Sizes(t.right) && t.left.Node? {
        assert t.left.size in Sizes(t.left);
        assert t.left.size <= s;
      }
    }
  }

  ghost predicate Part(t: Tree, root: set<(Chunk, nat)>)
  {
    IsTrie(t) && Items(t) <= root && forall s :: s in Sizes(t) ==> s < WORD
  }

  lemma PartChild(t: Tree, root: set<(Chunk, nat)>)
    requires t.Node? && Part(t, root)
    ensures Part(t.left, root) && Part(t.right, root) && RingItems(t.ring, t.size) <= root && t.size < WORD && t.ring != []
    ensures t.size in Sizes(t) && Sizes(t.left) <= Sizes(t) && Sizes(t.right) <= Sizes(t)
  {
    hide Ok, IsTrie, RingItems, Items, Sizes;
    TrieChild(t);
    SizesUnfold(t);
    SubUnion(RingItems(t.ring, t.size), Items(t.left), Items(t.right), root);
  }

  lemma SizesUnfold(t: Tree)
    requires t.Node?
    ensures t.size in Sizes(t) && Sizes(t.left) <= Sizes(t) && Sizes(t.right) <= Sizes(t)
    ensures Items(t) == RingItems(t.ring, t.size) + Items(t.left) + Items(t.right)
  {
  }

  lemma SubUnion<T>(a: set<T>, b: set<T>, c: set<T>, r: set<T>)
    requires a + b + c <= r
    ensures a <= r && b <= r && c <= r
  {
  }

  /** Every size of at least nb is either no better than v or still to be found in t. */
  ghost predicate Covers(v: Tree, t: Tree, s: nat)
  {
    (v.Node? && v.size <= s) || Reaches(t, s)
  }

  /** Some chunk that fits exactly was found, or all of t fits. */
  ghost predicate AllFit(v: Tree, t: Tree, nb: nat)
  {
    (v.Node? && v.size == nb) || forall s :: s in Sizes(t) ==> s >= nb
  }

  lemma CoversNext(v: Tree, v': Tree, t: Tree, nb: nat, s: nat)
    requires t.Node? && IsTrie(t) && Covers(v, t, s) && s >= nb
    requires v' == v || (v' == t && (v.Node? ==> t.size < v.size))
    requires v' == v ==> t.size < nb || (v.Node? && v.size <= t.size)
    requires AllFit(v, t, nb)
    ensures Covers(v', LeftmostChild(t), s)
  {
    if Reaches(t, s) {
      LeastLeftmost(t, s);
      assert t.size in Sizes(t);
    }
  }

  /** while (t != 0): find the smallest chunk of a tree or subtree. */
  method Smallest(t0: Tree, nb: nat, v0: Tree, rsize0: nat, ghost root: set<(Chunk, nat)>) returns (v: Tree, rsize: nat)
    requires Part(t0, root) && BestSoFar(v0, rsize0, nb, root) && (nb < LIMIT ==> AllFit(v0, t0, nb))
    ensures BestSoFar(v, rsize, nb, root)
    ensures nb < LIMIT ==> forall s :: s >= nb && Covers(v0, t0, s) ==> v.Node? && v.size <= s
  {
    var t := t0;
    v, rsize := v0, rsize0;
    while t != Nil
      invariant Part(t, root) && BestSoFar(v, rsize, nb, root) && (nb < LIMIT ==> AllFit(v, t, nb))
      invariant nb < LIMIT ==> forall s :: s >= nb && Covers(v0, t0, s) ==> Covers(v, t, s)
      decreases t
    {
      hide Items, Sizes, Minus, IsTrie, RingItems, Reaches, Covers;
      PartChild(t, root);
      BetterIs(t.size, v, nb, rsize, root);
      ghost var t1, v1 := t, v;
      var trem := Minus(t.size, nb);
      if trem < rsize {
        rsize := trem;
        v := t;
      }
      t := LeftmostChild(t);
      forall s | nb < LIMIT && s >= nb && Covers(v0, t0, s) ensures Covers(v, t, s) {
        PartTrie(t1, root);
        CoversNext(v1, v, t1, nb, s);
      }
    }
  }

  lemma PartTrie(t: Tree, root: set<(Chunk, nat)>)
    requires Part(t, root)
    ensures IsTrie(t)
  {
  }

  /* ---------- the bits of the size, from the top ---------- */

  lemma ModOf(q: nat, r: nat)
    requires r < WORD
    ensures (q * WORD + r) % WORD == r
  {
    DivOf(q, WORD, r);
    assert q * WORD + r == WORD * ((q * WORD + r) / WORD) + (q * WORD + r) % WORD;
  }

  /** The size shifted left until the b bits still to be used are at the top. */
  function SizeBits(nb: nat, b: nat): (w: nat)
    requires b <= 64
    ensures w < WORD
  {
    nb * Pow2(64 - b) % WORD
  }

  lemma Pow64()
    ensures Pow2(64) == WORD && Pow2(63) == WORD / 2
  {
    Twice(63);
    hide Pow2;
    PowSum(32, 32);
    PowSum(16, 16);
    PowSum(8, 8);
    PowSum(4, 4);
    Pow4();
  }

  lemma Pow4()
    ensures Pow2(4) == 16
  {
  }

  lemma Regroup(q: nat, bit: nat, h: nat, r: nat, p: nat)
    ensures (q * (2 * h) + bit * h + r) * p == q * (2 * (h * p)) + bit * (h * p) + r * p
  {
  }

  lemma MulLess(r: nat, h: nat, p: nat)
    requires r < h && p > 0
    ensures r * p < h * p
  {
  }

  /** (sizebits >> (SIZE_T_BITSIZE - 1)) & 1 is the next bit of the size, and sizebits <<= 1 moves on. */
  lemma TopBit(nb: nat, b: nat)
    requires 0 < b <= 64
    ensures SizeBits(nb, b) / (WORD / 2) == Bit(nb, b - 1)
    ensures 2 * SizeBits(nb, b) % WORD == SizeBits(nb, b - 1)
  {
    hide Pow2;
    Pow64();
    PowSum(b - 1, 64 - b);
    TopOf(nb, Pow2(b - 1), Pow2(64 - b));
    DoubleMod(nb * Pow2(64 - b));
    PowDouble(nb, b);
  }

  lemma TopOf(nb: nat, h: nat, p: nat)
    requires h > 0 && p > 0 && h * p == WORD / 2
    ensures nb * p % WORD / (WORD / 2) == nb / h % 2
  {
    var x := nb / h;
    var q, bit, r := x / 2, x % 2, nb % h;
    Euclid(nb, h);
    Spread(q, bit, h);
    assert nb == q * (2 * h) + bit * h + r;
    Regroup(q, bit, h, r, p);
    MulLess(r, h, p);
    TopSplit(q, bit, r * p);
  }

  lemma TopSplit(q: nat, bit: nat, z: nat)
    requires bit < 2 && z < WORD / 2
    ensures (q * (2 * (WORD / 2)) + bit * (WORD / 2) + z) % WORD / (WORD / 2) == bit
  {
    var low := bit * (WORD / 2) + z;
    ModOf(q, low);
    DivOf(bit, WORD / 2, z);
  }

  lemma PowDouble(nb: nat, b: nat)
    requires 0 < b <= 64
    ensures nb * Pow2(64 - (b - 1)) == 2 * (nb * Pow2(64 - b))
  {
  }

  lemma Euclid(n: nat, h: nat)
    requires h > 0
    ensures n == n / h * h + n % h
  {
    Commute(n / h, h);
  }

  lemma Spread(q: nat, bit: nat, h: nat)
    ensures (2 * q + bit) * h == q * (2 * h) + bit * h
  {
  }

  lemma DoubleMod(n: nat)
    ensures 2 * (n % WORD) % WORD == 2 * n % WORD
  {
  }

  /* ---------- the first loop of tmalloc_large ---------- */

  /** What is known while following the bits of nb through its bin: everything of at least nb is no better than v,
      below t, or, at best, the least of rst. */
  ghost predicate OnPath(root: Tree, t: Tree, b: nat, lo: nat, rst: Tree, v: Tree, nb: nat)
  {
    && Ok(t, b, lo) && lo % Pow2(b) == 0 && lo <= nb < lo + Pow2(b)
    && Part(t, Items(root)) && Part(rst, Items(root))
    && (forall z :: z in Sizes(rst) ==> z >= lo + Pow2(b))
    && (forall s :: s in Sizes(root) && s >= nb ==> s in Sizes(t) || (v.Node? && v.size <= s) || Reaches(rst, s))
  }

  /** One turn: the size of t is accounted for by v', the next subtree and the deepest untaken right subtree. */
  lemma PathStep(root: Tree, t: Tree, b: nat, lo: nat, rst: Tree, v: Tree, v': Tree, nb: nat)
    requires OnPath(root, t, b, lo, rst, v, nb) && t.Node? && b > 0
    requires v.Node? ==> v'.Node? && v'.size <= v.size
    requires t.size >= nb ==> v'.Node? && v'.size <= t.size
    ensures t.right.Node? && t.left.Node? ==> t.right != t.left
    ensures var bit := Bit(nb, b - 1);
            var t' := if bit == 0 then t.left else t.right;
            var rst' := if bit == 0 && t.right.Node? then t.right else rst;
            OnPath(root, t', b - 1, if bit == 0 then lo else lo + Pow2(b - 1), rst', v', nb)
  {
    hide Items, IsTrie;
    var bit := Bit(nb, b - 1);
    var t' := if bit == 0 then t.left else t.right;
    var rst' := if bit == 0 && t.right.Node? then t.right else rst;
    BitIsHalf(nb, b, lo);
    Halves(t, b, lo);
    PartChild(t, Items(root));
    if t.right.Node? { assert t.right.size in Sizes(t.right); }
    if t.left.Node? { assert t.left.size in Sizes(t.left); }
    forall s | s in Sizes(root) && s >= nb ensures s in Sizes(t') || (v'.Node? && v'.size <= s) || Reaches(rst', s) {
      if Reaches(rst, s) && rst' != rst {
        assert t.right.size in Sizes(rst') && t.right.size <= s;
      }
    }
  }

  /** At the end of the path only the deepest untaken right subtree is left to be searched. */
  lemma PathEnd(root: Tree, b: nat, lo: nat, rst: Tree, v: Tree, nb: nat)
    requires OnPath(root, Nil, b, lo, rst, v, nb)
    ensures Part(rst, Items(root)) && AllFit(v, rst, nb)
    ensures forall s :: s in Sizes(root) && s >= nb ==> Covers(v, rst, s)
  {
  }

  lemma PathFound(root: Tree, t: Tree, b: nat, lo: nat, rst: Tree, v: Tree, nb: nat)
    requires OnPath(root, t, b, lo, rst, v, nb) && v.Node? && v.size == nb
    ensures Part(t, Items(root)) && AllFit(v, t, nb)
    ensures forall s :: s in Sizes(root) && s >= nb ==> Covers(v, t, s)
  {
  }

  /** At a node without bits left there is nothing below. */
  lemma PathLeaf(root: Tree, t: Tree, lo: nat, rst: Tree, v: Tree, v': Tree, nb: nat)
    requires OnPath(root, t, 0, lo, rst, v, nb) && t.Node?
    requires v.Node? ==> v'.Node? && v'.size <= v.size
    requires t.size >= nb ==> v'.Node? && v'.size <= t.size
    ensures t.left.Nil? && t.right.Nil? && OnPath(root, Nil, 0, lo, rst, v', nb)
  {
    assert Ok(Nil, 0, 0);
    forall s | s in Sizes(root) && s >= nb ensures (v'.Node? && v'.size <= s) || Reaches(rst, s) { }
  }

  /** Follow the bits of nb through its bin; t is what remains to be searched for something better than v. */
  method WalkBin(root: Tree, idx: nat, nb: nat) returns (t: Tree, v: Tree, rsize: nat)
    requires idx < NTREEBINS && BinOk(root, idx) && root.Node? && MINLARGE <= nb < WORD && TreeIndex(nb) == idx
    ensures BestSoFar(v, rsize, nb, Items(root)) && Part(t, Items(root)) && (nb < LIMIT ==> AllFit(v, t, nb))
    ensures nb < LIMIT ==> forall s :: s in Sizes(root) && s >= nb ==> Covers(v, t, s)
  {
    hide Items, Sizes, Ok, TreeIndex, Pow2, Reaches, AllFit, Covers, OnPath, IsTrie, RingsDistinct;
    Aligned(idx);
    BinPart(root, idx);
    v, rsize := Nil, Minus(0, nb);
    t := root;
    ghost var b: nat, lo: nat := Bits(idx), Lo(idx);
    var sizebits := SizeBits(nb, Bits(idx));
    var rst := Nil;
    if nb < LIMIT { PathStart(root, idx, nb); }
    while true
      invariant b <= 64 && t.Node? && Part(t, Items(root)) && Part(rst, Items(root))
      invariant nb < LIMIT ==> sizebits == SizeBits(nb, b) && OnPath(root, t, b, lo, rst, v, nb)
      invariant BestSoFar(v, rsize, nb, Items(root))
      decreases t
    {
      PartChild(t, Items(root));
      BetterIs(t.size, v, nb, rsize, Items(root));
      ghost var t1, v1 := t, v;
      var trem := Minus(t.size, nb);
      if trem < rsize {
        v := t;
        rsize := trem;
        if rsize == 0 {
          if nb < LIMIT {
            PathBetter(root, t, b, lo, rst, v1, v, nb);
            PathFound(root, t, b, lo, rst, v, nb);
          }
          break;
        }
      }
      var rt := t.right;
      if nb < LIMIT {
        if b > 0 { TopBit(nb, b); PathStep(root, t, b, lo, rst, v1, v, nb); } else { PathLeaf(root, t, lo, rst, v1, v, nb); }
      }
      t := if sizebits / (WORD / 2) == 0 then t.left else t.right;
      if rt != Nil && rt != t {
        rst := rt;
      }
      lo := if b > 0 && Bit(nb, b - 1) == 1 then lo + Pow2(b - 1) else lo;
      b := if b > 0 then b - 1 else 0;
      if t == Nil {
        if nb < LIMIT { PathEnd(root, b, lo, rst, v, nb); }
        t := rst;
        break;
      }
      sizebits := 2 * sizebits % WORD;
    }
  }

  lemma BinPart(root: Tree, i: nat)
    requires i < NTREEBINS && BinOk(root, i)
    ensures Part(root, Items(root)) && Part(Nil, Items(root))
  {
    assert Ok(root, Bits(i), Lo(i)) && Ok(Nil, 0, 0);
  }

  lemma PathStart(root: Tree, idx: nat, nb: nat)
    requires idx < NTREEBINS && BinOk(root, idx) && MINLARGE <= nb < LIMIT && TreeIndex(nb) == idx
    ensures OnPath(root, root, Bits(idx), Lo(idx), Nil, Nil, nb)
  {
    InTrieRange(nb);
    Aligned(idx);
    assert Ok(Nil, 0, 0);
    assert IsTrie(Nil);
    assert IsTrie(root);
  }

  lemma PathBetter(root: Tree, t: Tree, b: nat, lo: nat, rst: Tree, v: Tree, v': Tree, nb: nat)
    requires OnPath(root, t, b, lo, rst, v, nb) && v'.Node? && (v.Node? ==> v'.size <= v.size)
    ensures OnPath(root, t, b, lo, rst, v', nb)
  {
  }

  /* ---------- tmalloc_large and tmalloc_small: which chunk they choose ---------- */

  /** The bins that the treemap marks. */
  function TreeUsed(bins: seq<Tree>): (u: seq<bool>)
    ensures |u| == |bins|
  {
    seq(|bins|, i requires 0 <= i < |bins| => bins[i].Node?)
  }

  lemma NotUsed(bins: seq<Tree>, lo: nat, hi: nat)
    requires hi <= |bins| && forall j :: lo <= j < hi ==> !TreeUsed(bins)[j]
    ensures forall j :: lo <= j < hi ==> bins[j].Nil?
    ensures lo <= hi < |bins| && TreeUsed(bins)[hi] ==> bins[hi].Node?
  {
    forall j | lo <= j < hi ensures bins[j].Nil? { assert !TreeUsed(bins)[j]; }
  }

  /** v holds a smallest chunk of at least nb bytes. */
  ghost predicate IsBestFit(bins: seq<Tree>, nb: nat, v: Tree)
  {
    && v.Node? && v.ring != [] && v.size >= nb && (forall c :: c in v.ring ==> Binned(bins, c, v.size))
    && forall c: Chunk, s: nat :: Binned(bins, c, s) && s >= nb ==> v.size <= s
  }

  lemma BinFacts(bins: seq<Tree>, i: nat)
    requires BinsOk(bins) && i < NTREEBINS
    ensures BinOk(bins[i], i) && Part(bins[i], Items(bins[i]))
    ensures forall s :: s in Sizes(bins[i]) ==> MINLARGE <= s < LIMIT && TreeIndex(s) == i
  {
    assert BinOk(bins[i], i);
    assert Ok(bins[i], Bits(i), Lo(i));
  }

  /** What is best in bin i, when no smaller bin has anything that fits, is best of all. */
  lemma BestInBin(bins: seq<Tree>, nb: nat, i: nat, v: Tree, rsize: nat)
    requires BinsOk(bins) && MINLARGE <= nb < LIMIT && TreeIndex(nb) <= i < NTREEBINS
    requires BestSoFar(v, rsize, nb, Items(bins[i])) && v.Node?
    requires forall s :: s in Sizes(bins[i]) && s >= nb ==> v.size <= s
    requires forall j, s :: TreeIndex(nb) <= j < i && s in Sizes(bins[j]) ==> s < nb
    ensures IsBestFit(bins, nb, v)
  {
    hide Items, Sizes, TreeIndex, RingItems, Ok;
    forall c | c in v.ring ensures Binned(bins, c, v.size) {
      InRing(v.ring, v.size, c);
      assert (c, v.size) in Items(bins[i]);
    }
    InRing(v.ring, v.size, v.ring[0]);
    BinSize(bins, i, v.ring[0], v.size);
    forall c: Chunk, s: nat | Binned(bins, c, s) && s >= nb ensures v.size <= s {
      var j :| 0 <= j < |bins| && (c, s) in Items(bins[j]);
      BinSize(bins, j, c, s);
      if j < TreeIndex(nb) { IndexOrder(s, nb); assert false; }
      if j > i { IndexOrder(v.size, s); }
    }
  }

  /** Nothing fits if nothing does in the bin of nb and all higher bins are empty. */
  lemma NoneFits(bins: seq<Tree>, nb: nat)
    requires BinsOk(bins) && MINLARGE <= nb < LIMIT
    requires forall j, s :: TreeIndex(nb) <= j < NTREEBINS && s in Sizes(bins[j]) ==> s < nb
    ensures forall c: Chunk, s: nat :: Binned(bins, c, s) ==> s < nb
  {
    hide Items, Sizes, TreeIndex, Ok;
    forall c: Chunk, s: nat | Binned(bins, c, s) ensures s < nb {
      var j :| 0 <= j < |bins| && (c, s) in Items(bins[j]);
      BinSize(bins, j, c, s);
      if j < TreeIndex(nb) { IndexOrder(s, nb); }
    }
  }

  lemma AllAbove(bins: seq<Tree>, nb: nat, i: nat)
    requires BinsOk(bins) && MINLARGE <= nb < LIMIT && TreeIndex(nb) < i < NTREEBINS
    ensures AllFit(Nil, bins[i], nb)
    ensures forall s :: s in Sizes(bins[i]) ==> s >= nb && Covers(Nil, bins[i], s)
  {
    hide TreeIndex;
    BinFacts(bins, i);
    forall s | s in Sizes(bins[i]) ensures s >= nb { IndexOrder(nb, s); }
  }

  /** tmalloc_large, up to the decision which chunk to take: Nil leaves the request to dv. */
  method TmallocLarge(bins: seq<Tree>, treemap: bv32, nb: nat, dvsize: nat) returns (v: Tree)
    requires MapOk(treemap, TreeUsed(bins)) && BinsOk(bins) && MINLARGE <= nb < WORD && dvsize < WORD
    ensures v.Node? ==> IsBestFit(bins, nb, v) && (dvsize < nb || v.size < dvsize)
    ensures v.Nil? ==> forall c: Chunk, s: nat :: Binned(bins, c, s) && s >= nb ==> nb <= dvsize <= s
  {
    hide BinOk, Items, Sizes, TreeIndex, Part, AllFit, Covers, Minus, Binned, MapOk;
    IndexBound(nb);
    var idx := TreeIndex(nb);
    var rsize := Minus(0, nb);
    var t := Nil;
    v := Nil;
    ghost var i := idx;
    BinFacts(bins, idx);
    NilPart(Items(bins[idx]), nb);
    if bins[idx] != Nil {
      t, v, rsize := WalkBin(bins[idx], idx, nb);
    } else {
      NoSizes();
    }
    ghost var t1, v1 := t, v;
    if t == Nil && v == Nil {
      if nb < LIMIT { NothingCovered(bins[idx], nb); }
      var next := NextMarked(treemap, idx, TreeUsed(bins));
      NotUsed(bins, idx + 1, next);
      if next < NTREEBINS {
        t := bins[next];
        i := next;
        BinFacts(bins, next);
        if nb < LIMIT { AllAbove(bins, nb, next); }
      }
      if nb < LIMIT { SkippedEmpty(bins, nb, next); }
    }
    if t == Nil && v == Nil {
      NoneChosen(bins, nb);
      return Nil;
    }
    ghost var t2, v2, r2 := t, v, rsize;
    v, rsize := Smallest(t, nb, v, rsize, Items(bins[i]));
    if nb < LIMIT {
      SomeBest(bins[i], nb, t2, v2, v, r2);
      BestInBin(bins, nb, i, v, rsize);
      MinusIs(dvsize, nb);
    } else {
      NoneChosen(bins, nb);
      HugeNil(bins, nb, i, v, rsize);
    }
    if v != Nil && rsize < Minus(dvsize, nb) {
      return v;
    }
    if nb < LIMIT { FitsBest(bins, nb, v); }
    return Nil;
  }

  lemma IndexBound(s: nat)
    ensures TreeIndex(s) < NTREEBINS
  {
    var x := s / 256 % 0x1_0000_0000;
    if 0 < x <= 0xFFFF { BsrSmall(x); }
  }

  /** Nothing fits: all chunks are smaller than the limit, and if nb is, those from its bin on are smaller than nb. */
  lemma NoneChosen(bins: seq<Tree>, nb: nat)
    requires BinsOk(bins) && MINLARGE <= nb
    requires nb < LIMIT ==> forall j, s :: TreeIndex(nb) <= j < NTREEBINS && s in Sizes(bins[j]) ==> s < nb
    ensures forall c: Chunk, s: nat :: Binned(bins, c, s) ==> s < nb
  {
    hide Items, Sizes, TreeIndex, Ok;
    if nb < LIMIT {
      NoneFits(bins, nb);
    } else {
      forall c: Chunk, s: nat | Binned(bins, c, s) ensures s < nb {
        var j :| 0 <= j < |bins| && (c, s) in Items(bins[j]);
        BinSize(bins, j, c, s);
      }
    }
  }

  /** No chunk is taken for a request that no chunk can meet, whichever bin it was looked for in. */
  lemma HugeNil(bins: seq<Tree>, nb: nat, i: nat, v: Tree, rsize: nat)
    requires BinsOk(bins) && i < NTREEBINS && nb >= LIMIT && BestSoFar(v, rsize, nb, Items(bins[i]))
    ensures v.Nil?
  {
    hide Items, Sizes, TreeIndex, RingItems, Ok;
    if v.Node? {
      InRing(v.ring, v.size, v.ring[0]);
      BinSize(bins, i, v.ring[0], v.size);
      assert false;
    }
  }

  lemma NilPart(root: set<(Chunk, nat)>, nb: nat)
    requires 0 < nb < WORD
    ensures Part(Nil, root) && AllFit(Nil, Nil, nb) && BestSoFar(Nil, Minus(0, nb), nb, root)
  {
    assert Ok(Nil, 0, 0);
  }

  lemma NoSizes()
    ensures Sizes(Nil) == {}
  {
  }

  lemma NothingCovered(root: Tree, nb: nat)
    requires forall s :: s in Sizes(root) && s >= nb ==> Covers(Nil, Nil, s)
    ensures forall s :: s in Sizes(root) ==> s < nb
  {
  }

  lemma SkippedEmpty(bins: seq<Tree>, nb: nat, next: nat)
    requires |bins| == NTREEBINS && TreeIndex(nb) < next <= NTREEBINS
    requires forall s :: s in Sizes(bins[TreeIndex(nb)]) ==> s < nb
    requires forall j :: TreeIndex(nb) + 1 <= j < next ==> bins[j].Nil?
    ensures forall j, s :: TreeIndex(nb) <= j < next && s in Sizes(bins[j]) ==> s < nb
  {
    forall j, s | TreeIndex(nb) <= j < next && s in Sizes(bins[j]) ensures s < nb {
      if j > TreeIndex(nb) { NoSizes(); }
    }
  }

  /** The second loop ends with a best fit of the bin. */
  lemma SomeBest(root: Tree, nb: nat, t: Tree, v0: Tree, v: Tree, rsize: nat)
    requires forall s :: s in Sizes(root) && s >= nb ==> Covers(v0, t, s)
    requires forall s :: s >= nb && Covers(v0, t, s) ==> v.Node? && v.size <= s
    requires AllFit(v0, t, nb) && (t.Node? || v0.Node?) && BestSoFar(v0, rsize, nb, Items(root))
    ensures v.Node? && forall s :: s in Sizes(root) && s >= nb ==> v.size <= s
  {
    if v0.Node? {
      assert Covers(v0, t, v0.size);
    } else {
      assert t.size in Sizes(t);
      assert Covers(v0, t, t.size);
    }
  }

  lemma FitsBest(bins: seq<Tree>, nb: nat, v: Tree)
    requires IsBestFit(bins, nb, v)
    ensures forall c: Chunk, s: nat :: Binned(bins, c, s) && s >= nb ==> v.size <= s
  {
  }

  /** tmalloc_small, up to the choice: any tree chunk fits a small request. */
  method TmallocSmall(bins: seq<Tree>, treemap: bv32, nb: nat) returns (v: Tree)
    requires BinsOk(bins) && 0 < nb < MINLARGE && MapOk(treemap, TreeUsed(bins)) && treemap != 0
    ensures IsBestFit(bins, nb, v)
  {
    hide BinOk, Items, Sizes, TreeIndex, Part, AllFit, Covers, Minus, RingItems, Ok, MapOk;
    var i := FirstMarked(treemap, TreeUsed(bins));
    NotUsed(bins, 0, i);
    BinFacts(bins, i);
    var t := bins[i];
    PartChild(t, Items(bins[i]));
    var v0 := t;
    MinusIs(t.size, nb);
    var rsize := Minus(t.size, nb);
    SmallStart(bins, i, nb);
    v, rsize := Smallest(LeftmostChild(t), nb, v0, rsize, Items(bins[i]));
    SmallBest(bins, i, nb, v, rsize);
  }

  lemma SmallStart(bins: seq<Tree>, i: nat, nb: nat)
    requires BinsOk(bins) && 0 < nb < MINLARGE && i < NTREEBINS && bins[i].Node?
    ensures Part(LeftmostChild(bins[i]), Items(bins[i])) && AllFit(bins[i], LeftmostChild(bins[i]), nb)
    ensures forall s :: s in Sizes(bins[i]) ==> s >= nb && Covers(bins[i], LeftmostChild(bins[i]), s)
    ensures Covers(bins[i], LeftmostChild(bins[i]), bins[i].size)
  {
    hide TreeIndex, Ok, IsTrie;
    BinFacts(bins, i);
    var t := bins[i];
    PartChild(t, Items(t));
    forall s | s in Sizes(t) ensures Covers(t, LeftmostChild(t), s) {
      PartTrie(t, Items(t));
      assert Reaches(t, s);
      LeastLeftmost(t, s);
    }
  }

  lemma SmallBest(bins: seq<Tree>, i: nat, nb: nat, v: Tree, rsize: nat)
    requires BinsOk(bins) && 0 < nb < MINLARGE && i < NTREEBINS && bins[i].Node? && forall j :: 0 <= j < i ==> bins[j].Nil?
    requires BestSoFar(v, rsize, nb, Items(bins[i]))
    requires forall s :: s >= nb && Covers(bins[i], LeftmostChild(bins[i]), s) ==> v.Node? && v.size <= s
    ensures IsBestFit(bins, nb, v)
  {
    hide Items, Sizes, TreeIndex, RingItems, Ok, Part, AllFit, Covers, BinOk;
    SmallStart(bins, i, nb);
    BinFacts(bins, i);
    SizesUnfold(bins[i]);
    forall c | c in v.ring ensures Binned(bins, c, v.size) {
      InRing(v.ring, v.size, c);
      assert (c, v.size) in Items(bins[i]);
    }
    InRing(v.ring, v.size, v.ring[0]);
    BinSize(bins, i, v.ring[0], v.size);
    forall c: Chunk, s: nat | Binned(bins, c, s) && s >= nb ensures v.size <= s {
      var j :| 0 <= j < |bins| && (c, s) in Items(bins[j]);
      BinSize(bins, j, c, s);
      if j < i { NoSizes(); }
      if j > i { IndexOrder(v.size, s); }
    }
  }
}
