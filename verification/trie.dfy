/** The tree bins of the allocator (lib/dlmalloc.c) as values: bitwise tries of chunk sizes, each node carrying the
    ring of chunks of its size. */
module Trie {

  type Chunk = nat     // address of a free chunk
  const NIL: Chunk := 0

  datatype Tree = Nil | Node(size: nat, ring: seq<Chunk>, left: Tree, right: Tree)

  function Pow2(n: nat): (p: nat)
    ensures p > 0
  {
    if n == 0 then 1 else 2 * Pow2(n - 1)
  }

  /** Bit b of a size. */
  function Bit(s: nat, b: nat): (i: nat)
    ensures i < 2
  {
    s / Pow2(b) % 2
  }

  /** The chunks of a ring, with their size. */
  function RingItems(ring: seq<Chunk>, s: nat): set<(Chunk, nat)>
  {
    set c | c in ring :: (c, s)
  }

  /** The chunks in a tree, with their sizes. */
  function Items(t: Tree): set<(Chunk, nat)>
  {
    if t.Nil? then {} else RingItems(t.ring, t.size) + Items(t.left) + Items(t.right)
  }

  function Sizes(t: Tree): set<nat>
  {
    if t.Nil? then {} else {t.size} + Sizes(t.left) + Sizes(t.right)
  }

  /** All sizes lie in lo <= s < lo + w; below a node the left half holds the lower, the right half the upper sizes;
      b is the number of bits not yet used, so w == Pow2(b). */
  ghost predicate Ok(t: Tree, b: nat, lo: nat)
  {
    t.Node? ==>
      && t.ring != [] && lo <= t.size < lo + Pow2(b)
      && t.size !in Sizes(t.left) && t.size !in Sizes(t.right)
      && (if b == 0 then t.left.Nil? && t.right.Nil?
          else Ok(t.left, b - 1, lo) && Ok(t.right, b - 1, lo + Pow2(b - 1)))
  }

  lemma {:induction false} SizesIn(t: Tree, b: nat, lo: nat)
    requires Ok(t, b, lo)
    ensures forall s :: s in Sizes(t) ==> lo <= s < lo + Pow2(b)
  {
    if t.Node? && b > 0 {
      SizesIn(t.left, b - 1, lo);
      SizesIn(t.right, b - 1, lo + Pow2(b - 1));
    }
  }

  lemma {:induction false} ItemSizes(t: Tree, b: nat, lo: nat)
    requires Ok(t, b, lo)
    ensures forall s :: s in Sizes(t) <==> exists c :: (c, s) in Items(t)
    ensures forall c, s :: (c, s) in Items(t) ==> lo <= s < lo + Pow2(b)
  {
    SizesIn(t, b, lo);
    if t.Node? {
      assert (t.ring[0], t.size) in Items(t);
      if b > 0 {
        ItemSizes(t.left, b - 1, lo);
        ItemSizes(t.right, b - 1, lo + Pow2(b - 1));
      }
    }
  }

  /** The left half is below the right half. */
  lemma Halves(t: Tree, b: nat, lo: nat)
    requires Ok(t, b, lo) && t.Node? && b > 0
    ensures forall s :: s in Sizes(t.left) ==> lo <= s < lo + Pow2(b - 1)
    ensures forall s :: s in Sizes(t.right) ==> lo + Pow2(b - 1) <= s < lo + Pow2(b)
  {
    SizesIn(t.left, b - 1, lo);
    SizesIn(t.right, b - 1, lo + Pow2(b - 1));
  }

  /* ---------- the branch bit ---------- */

  lemma {:induction false} DivOf(q: int, m: nat, r: nat)
    requires m > 0 && r < m
    ensures (q * m + r) / m == q
  {
    var x := q * m + r;
    var k := x / m - q;
    assert x == m * (x / m) + x % m;
    assert m * k == r - x % m;
    Grow(m, k);
  }

  lemma Grow(m: int, k: int)
    requires m >= 0
    ensures k >= 1 ==> m * k >= m
    ensures k <= -1 ==> m * k <= -m
  {
  }

  /** In a subtree whose sizes start at a multiple of its width, the next bit tells the half. */
  lemma BitIsHalf(s: nat, b: nat, lo: nat)
    requires b > 0 && lo % Pow2(b) == 0 && lo <= s < lo + Pow2(b)
    ensures Bit(s, b - 1) == 1 <==> s >= lo + Pow2(b - 1)
    ensures lo % Pow2(b - 1) == 0 && (lo + Pow2(b - 1)) % Pow2(b - 1) == 0
  {
    var h, q := Pow2(b - 1), lo / Pow2(b);
    assert lo == (2 * h) * q;
    MulSwap(h, q);
    HalfOf(h, q, s, lo);
  }

  lemma HalfOf(h: nat, q: nat, s: nat, lo: nat)
    requires h > 0 && lo == (2 * q) * h && lo <= s < lo + 2 * h
    ensures s / h % 2 == 1 <==> s >= lo + h
    ensures lo % h == 0 && (lo + h) % h == 0
  {
    var k: nat := if s >= lo + h then 1 else 0;
    Distribute(2 * q, k, h);
    DivOf(2 * q + k, h, s - (2 * q + k) * h);
    ModMul(2 * q, h);
    ModMul(2 * q + 1, h);
    Distribute(2 * q, 1, h);
  }

  lemma MulSwap(h: int, q: int)
    ensures (2 * h) * q == (2 * q) * h
  {
  }

  lemma Distribute(a: int, k: int, h: int)
    ensures (a + k) * h == a * h + k * h
  {
  }

  lemma ModMul(q: nat, m: nat)
    requires m > 0
    ensures (q * m) % m == 0
  {
    DivOf(q, m, 0);
    assert q * m == m * (q * m / m) + (q * m) % m;
    Commute(q, m);
  }

  lemma Commute(q: int, m: int)
    ensures q * m == m * q
  {
  }

  /* ---------- insertion ---------- */

  /** The ring with x linked in behind its first chunk. */
  function RingInsert(ring: seq<Chunk>, x: Chunk): (r: seq<Chunk>)
    ensures r != [] && forall c :: c in r <==> c in ring || c == x
  {
    if ring == [] then [x] else
      assert ring == [ring[0]] + ring[1..];
      [ring[0], x] + ring[1..]
  }

  /** insert_large_chunk below the root: follow the bits of s to a node of that size, or to a free place. */
  function Insert(t: Tree, b: nat, x: Chunk, s: nat): (t': Tree)
  {
    if t.Nil? then Node(s, [x], Nil, Nil)
    else if t.size == s then t.(ring := RingInsert(t.ring, x))
    else if b == 0 then t
    else if Bit(s, b - 1) == 0 then t.(left := Insert(t.left, b - 1, x, s))
    else t.(right := Insert(t.right, b - 1, x, s))
  }

  lemma {:induction false} InsertOk(t: Tree, b: nat, lo: nat, x: Chunk, s: nat)
    requires Ok(t, b, lo) && lo % Pow2(b) == 0 && lo <= s < lo + Pow2(b)
    ensures Ok(Insert(t, b, x, s), b, lo)
    ensures Items(Insert(t, b, x, s)) == Items(t) + {(x, s)} && Sizes(Insert(t, b, x, s)) == Sizes(t) + {s}
  {
    hide RingItems, Bit;
    if t.Node? && t.size != s && b > 0 {
      BitIsHalf(s, b, lo);
      if Bit(s, b - 1) == 0 {
        InsertOk(t.left, b - 1, lo, x, s);
      } else {
        InsertOk(t.right, b - 1, lo + Pow2(b - 1), x, s);
      }
    } else if t.Node? {
      RingItemsMore(t.ring, RingInsert(t.ring, x), s, x);
    } else {
      RingItemsMore([], [x], s, x);
      NoItems(s);
    }
  }

  lemma RingItemsMore(ring: seq<Chunk>, r: seq<Chunk>, s: nat, x: Chunk)
    requires forall c :: c in r <==> c in ring || c == x
    ensures RingItems(r, s) == RingItems(ring, s) + {(x, s)}
  {
  }

  lemma RingItemsLess(ring: seq<Chunk>, r: seq<Chunk>, s: nat, x: Chunk)
    requires forall c :: c in r <==> c in ring && c != x
    ensures RingItems(r, s) == RingItems(ring, s) - {(x, s)}
  {
  }

  /* ---------- removal ---------- */

  /** The leaf reached by going right where possible, else left, and the tree without it. */
  function LastLeaf(t: Tree): (l: Tree)
    requires t.Node?
    ensures l.Node? && l.left.Nil? && l.right.Nil?
  {
    if t.right.Node? then LastLeaf(t.right) else if t.left.Node? then LastLeaf(t.left) else t
  }

  function DropLeaf(t: Tree): (t': Tree)
    requires t.Node?
  {
    if t.right.Node? then t.(right := DropLeaf(t.right))
    else if t.left.Node? then t.(left := DropLeaf(t.left)) else Nil
  }

  lemma {:induction false} DropLeafOk(t: Tree, b: nat, lo: nat)
    requires t.Node? && Ok(t, b, lo)
    ensures Ok(DropLeaf(t), b, lo) && LastLeaf(t).ring != [] && lo <= LastLeaf(t).size < lo + Pow2(b)
    ensures Sizes(t) == Sizes(DropLeaf(t)) + {LastLeaf(t).size} && LastLeaf(t).size !in Sizes(DropLeaf(t))
    ensures Items(t) == Items(DropLeaf(t)) + RingItems(LastLeaf(t).ring, LastLeaf(t).size)
  {
    if t.right.Node? {
      DropLeafOk(t.right, b - 1, lo + Pow2(b - 1));
      Halves(t, b, lo);
    } else if t.left.Node? {
      DropLeafOk(t.left, b - 1, lo);
      Halves(t, b, lo);
    }
  }

  /** Node without its own chunks: its last leaf moves into its place. */
  function Collapse(t: Tree): (t': Tree)
    requires t.Node?
  {
    if t.right.Node? then
      var r := LastLeaf(t.right);
      Node(r.size, r.ring, t.left, DropLeaf(t.right))
    else if t.left.Node? then
      var r := LastLeaf(t.left);
      Node(r.size, r.ring, DropLeaf(t.left), t.right)
    else Nil
  }

  lemma CollapseOk(t: Tree, b: nat, lo: nat)
    requires t.Node? && Ok(t, b, lo)
    ensures Ok(Collapse(t), b, lo) && Items(Collapse(t)) == Items(t.left) + Items(t.right)
    ensures Sizes(Collapse(t)) == Sizes(t.left) + Sizes(t.right)
  {
    if t.right.Node? {
      DropLeafOk(t.right, b - 1, lo + Pow2(b - 1));
      Halves(t, b, lo);
    } else if t.left.Node? {
      DropLeafOk(t.left, b - 1, lo);
      Halves(t, b, lo);
    }
  }

  /** The ring without x: if x was the node in the tree, the last chunk of the ring replaces it there. */
  function RingWithout(ring: seq<Chunk>, x: Chunk): (r: seq<Chunk>)
    requires x in ring && |ring| > 1
  {
    if ring[0] == x then [ring[|ring| - 1]] + ring[1..|ring| - 1] else Drop(ring, x)
  }

  function Drop(ring: seq<Chunk>, x: Chunk): (r: seq<Chunk>)
    requires x in ring
    ensures |r| == |ring| - 1
  {
    if ring[0] == x then ring[1..] else [ring[0]] + Drop(ring[1..], x)
  }

  ghost predicate Distinct(ring: seq<Chunk>)
  {
    forall i, j :: 0 <= i < j < |ring| ==> ring[i] != ring[j]
  }

  lemma {:induction false} DropHas(ring: seq<Chunk>, x: Chunk)
    requires x in ring && Distinct(ring)
    ensures forall c :: c in Drop(ring, x) <==> c in ring && c != x
    ensures Distinct(Drop(ring, x))
  {
    if ring[0] != x {
      DropHas(ring[1..], x);
      assert ring == [ring[0]] + ring[1..];
      var d := Drop(ring[1..], x);
      forall i, j | 0 <= i < j < |[ring[0]] + d| ensures ([ring[0]] + d)[i] != ([ring[0]] + d)[j] {
        assert d[j - 1] in d;
      }
    }
  }

  lemma RingHas(ring: seq<Chunk>, x: Chunk)
    requires x in ring && |ring| > 1 && Distinct(ring)
    ensures forall c :: c in RingWithout(ring, x) <==> c in ring && c != x
    ensures Distinct(RingWithout(ring, x)) && RingWithout(ring, x) != []
  {
    if ring[0] == x {
      var n := |ring|;
      assert ring == [ring[0]] + ring[1..n - 1] + [ring[n - 1]];
    } else {
      DropHas(ring, x);
    }
  }

  /** unlink_large_chunk below the root. */
  function Remove(t: Tree, b: nat, x: Chunk, s: nat): (t': Tree)
  {
    if t.Nil? then Nil
    else if t.size == s then
      if x !in t.ring then t else if |t.ring| > 1 then t.(ring := RingWithout(t.ring, x)) else Collapse(t)
    else if b == 0 then t
    else if Bit(s, b - 1) == 0 then t.(left := Remove(t.left, b - 1, x, s))
    else t.(right := Remove(t.right, b - 1, x, s))
  }

  ghost predicate RingsDistinct(t: Tree)
  {
    t.Node? ==> Distinct(t.ring) && RingsDistinct(t.left) && RingsDistinct(t.right)
  }

  lemma {:induction false} RemoveOk(t: Tree, b: nat, lo: nat, x: Chunk, s: nat)
    requires Ok(t, b, lo) && RingsDistinct(t) && lo % Pow2(b) == 0 && lo <= s < lo + Pow2(b) && (x, s) in Items(t)
    ensures Ok(Remove(t, b, x, s), b, lo)
    ensures Items(Remove(t, b, x, s)) == Items(t) - {(x, s)} && Sizes(Remove(t, b, x, s)) <= Sizes(t)
  {
    hide RingItems, Bit;
    if t.size == s {
      RemoveHere(t, b, lo, x);
    } else {
      BitIsHalf(s, b, lo);
      NotInRing(t.ring, t.size, x, s);
      Halves(t, b, lo);
      var r := RingItems(t.ring, t.size);
      if Bit(s, b - 1) == 0 {
        ItemsOut(t.right, b - 1, lo + Pow2(b - 1), x, s);
        RemoveOk(t.left, b - 1, lo, x, s);
        LessLeft(r, Items(t.left), Items(t.right), (x, s));
      } else {
        ItemsOut(t.left, b - 1, lo, x, s);
        RemoveOk(t.right, b - 1, lo + Pow2(b - 1), x, s);
        LessRight(r, Items(t.left), Items(t.right), (x, s));
      }
    }
  }

  lemma LessLeft<T>(a: set<T>, b: set<T>, c: set<T>, e: T)
    requires e !in a && e !in c
    ensures a + b + c - {e} == a + (b - {e}) + c
  {
  }

  lemma LessRight<T>(a: set<T>, b: set<T>, c: set<T>, e: T)
    requires e !in a && e !in b
    ensures a + b + c - {e} == a + b + (c - {e})
  {
  }

  lemma NotInRing(ring: seq<Chunk>, z: nat, x: Chunk, s: nat)
    requires z != s
    ensures (x, s) !in RingItems(ring, z)
  {
  }

  lemma ItemsOut(t: Tree, b: nat, lo: nat, x: Chunk, s: nat)
    requires Ok(t, b, lo) && (s !in Sizes(t) || !(lo <= s < lo + Pow2(b)))
    ensures (x, s) !in Items(t)
  {
    ItemSizes(t, b, lo);
  }

  lemma RemoveHere(t: Tree, b: nat, lo: nat, x: Chunk)
    requires t.Node? && Ok(t, b, lo) && RingsDistinct(t) && (x, t.size) in Items(t)
    ensures Ok(Remove(t, b, x, t.size), b, lo)
    ensures Items(Remove(t, b, x, t.size)) == Items(t) - {(x, t.size)} && Sizes(Remove(t, b, x, t.size)) <= Sizes(t)
  {
    hide RingItems, Sizes, Ok;
    var s := t.size;
    ChildrenOut(t, b, lo, x);
    InRing(t.ring, s, x);
    if |t.ring| > 1 {
      RingHas(t.ring, x);
      RingItemsLess(t.ring, RingWithout(t.ring, x), s, x);
      RingOk(t, b, lo, RingWithout(t.ring, x));
    } else {
      CollapseOk(t, b, lo);
      RingItemsLess(t.ring, [], s, x);
      NoItems(s);
      CollapseSizes(t);
    }
  }

  lemma ChildrenOut(t: Tree, b: nat, lo: nat, x: Chunk)
    requires t.Node? && Ok(t, b, lo)
    ensures (x, t.size) !in Items(t.left) && (x, t.size) !in Items(t.right)
  {
    if b > 0 {
      ItemsOut(t.left, b - 1, lo, x, t.size);
      ItemsOut(t.right, b - 1, lo + Pow2(b - 1), x, t.size);
    }
  }

  lemma InRing(ring: seq<Chunk>, s: nat, x: Chunk)
    ensures (x, s) in RingItems(ring, s) <==> x in ring
  {
  }

  lemma NoItems(s: nat)
    ensures RingItems([], s) == {}
  {
  }

  lemma RingOk(t: Tree, b: nat, lo: nat, r: seq<Chunk>)
    requires t.Node? && Ok(t, b, lo) && r != []
    ensures Ok(t.(ring := r), b, lo) && Sizes(t.(ring := r)) == Sizes(t)
  {
  }

  lemma CollapseSizes(t: Tree)
    requires t.Node?
    ensures Sizes(t.left) + Sizes(t.right) <= Sizes(t)
  {
  }
}
