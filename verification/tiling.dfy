/** Chunks and boundary tags (lib/dlmalloc.c): chunks tile the segment from its base to the top chunk, and no two
    free ones are neighbours. */
module Tiling {

  type Addr = nat

  /** The head word of a chunk: size, PINUSE_BIT, CINUSE_BIT. */
  datatype Head = Head(size: nat, pinuse: bool, cinuse: bool)
  type Heads = map<Addr, Head>
  type Feet = map<Addr, nat>        // prev_foot

  const MINCHUNK: nat := 32         // MIN_CHUNK_SIZE

  /** Multiples of MALLOC_ALIGNMENT. */
  predicate Even(p: nat) { p % 16 == 0 }

  lemma EvenSum(p: nat, q: nat)
    requires Even(p)
    ensures Even(q) <==> Even(p + q)
  {
  }

  /** Chunk p is large enough and followed by a chunk. */
  ghost predicate TileAt(h: Heads, s: set<Addr>, p: Addr)
  {
    p in h && h[p].size >= MINCHUNK && Even(h[p].size) && p + h[p].size in s
  }

  /** Chunk q is preceded by a chunk. */
  ghost predicate PrevAt(h: Heads, s: set<Addr>, q: Addr)
  {
    exists p :: p in s && p in h && p < q && p + h[p].size == q
  }

  /** Chunk p ends where q begins, or earlier. */
  ghost predicate Ends(h: Heads, p: Addr, q: Addr)
  {
    p in h && p + h[p].size <= q
  }

  ghost predicate Starts(h: Heads, s: set<Addr>, base: Addr, top: Addr)
  {
    base in s && top in s && (forall p :: p in s ==> p in h && base <= p <= top && Even(p))
  }

  ghost predicate Tiles(h: Heads, s: set<Addr>, top: Addr)
  {
    forall p {:trigger TileAt(h, s, p)} :: p in s && p < top ==> TileAt(h, s, p)
  }

  ghost predicate Ordered(h: Heads, s: set<Addr>)
  {
    forall p, q {:trigger Ends(h, p, q)} :: p in s && q in s && p < q ==> Ends(h, p, q)
  }

  ghost predicate Preceded(h: Heads, s: set<Addr>, base: Addr)
  {
    forall q {:trigger PrevAt(h, s, q)} :: q in s && q > base ==> PrevAt(h, s, q)
  }

  ghost predicate Tiled(h: Heads, s: set<Addr>, base: Addr, top: Addr)
  {
    Starts(h, s, base, top) && Tiles(h, s, top) && Ordered(h, s) && Preceded(h, s, base)
  }

  /** The boundary tags around chunk p: no two free chunks are neighbours, and none is next to top. */
  ghost predicate FlagsAt(h: Heads, f: Feet, s: set<Addr>, top: Addr, p: Addr)
  {
    p in h &&
    var n := p + h[p].size;
    && n in s && n in h && h[n].pinuse == h[p].cinuse
    && (!h[p].cinuse ==> h[p].pinuse && n in f && f[n] == h[p].size && n != top && h[n].cinuse)
  }

  ghost predicate Flagged(h: Heads, f: Feet, s: set<Addr>, base: Addr, top: Addr)
  {
    && base in h && top in h && h[base].pinuse && h[top].pinuse && !h[top].cinuse
    && (forall p {:trigger FlagsAt(h, f, s, top, p)} :: p in s && p < top ==> FlagsAt(h, f, s, top, p))
  }

  ghost predicate TagsOk(h: Heads, f: Feet, s: set<Addr>, base: Addr, top: Addr)
  {
    Tiled(h, s, base, top) && Flagged(h, f, s, base, top)
  }

  /** The free chunks other than top, and the chunks in use, with their sizes. */
  ghost function FreeChunks(h: Heads, s: set<Addr>, top: Addr): map<Addr, nat>
  {
    map p | p in s && p in h && p < top && !h[p].cinuse :: h[p].size
  }

  ghost function LiveChunks(h: Heads, s: set<Addr>, top: Addr): map<Addr, nat>
  {
    map p | p in s && p in h && p < top && h[p].cinuse :: h[p].size
  }

  /** Chunks do not overlap. */
  lemma NoOverlap(h: Heads, f: Feet, s: set<Addr>, base: Addr, top: Addr, p: Addr, q: Addr)
    requires TagsOk(h, f, s, base, top) && p in s && q in s && p != q
    ensures p in h && q in h && (p + h[p].size <= q || q + h[q].size <= p)
  {
    if p < q { assert Ends(h, p, q); } else { assert Ends(h, q, p); }
  }

  /** The chunk after p. */
  lemma After(h: Heads, f: Feet, s: set<Addr>, base: Addr, top: Addr, p: Addr)
    requires TagsOk(h, f, s, base, top) && p in s && p < top
    ensures p in h && h[p].size >= MINCHUNK && Even(h[p].size) && p + h[p].size in s && p + h[p].size in h && p + h[p].size <= top
    ensures h[p + h[p].size].pinuse == h[p].cinuse
    ensures forall q :: q in s && p < q ==> p + h[p].size <= q
    ensures !h[p].cinuse ==> p + h[p].size < top && h[p + h[p].size].cinuse && h[p].pinuse
    ensures h[p].size <= top - base
  {
    assert FlagsAt(h, f, s, top, p) && TileAt(h, s, p);
    forall q | q in s && p < q ensures p + h[p].size <= q { assert Ends(h, p, q); }
  }

  /** The chunk before p, if it is free, is found by its foot. */
  lemma Before(h: Heads, f: Feet, s: set<Addr>, base: Addr, top: Addr, p: Addr)
    requires TagsOk(h, f, s, base, top) && p in s && p in h && !h[p].pinuse
    ensures p in f && f[p] <= p && p - f[p] in s && p - f[p] < p <= top
    ensures var a := p - f[p]; a in h && h[a].size == f[p] && !h[a].cinuse && h[a].pinuse
    ensures forall q :: q in s && p - f[p] < q ==> q >= p
  {
    assert PrevAt(h, s, p);
    var a :| a in s && a in h && a < p && a + h[a].size == p;
    assert FlagsAt(h, f, s, top, a);
    forall q | q in s && a < q ensures q >= p { assert Ends(h, a, q); }
  }

  /** Different chunks have different neighbours. */
  lemma NextDiffers(h: Heads, s: set<Addr>, base: Addr, top: Addr, p: Addr, q: Addr)
    requires Tiled(h, s, base, top) && p in s && q in s && p != q && p < top && q < top
    ensures p in h && q in h && p + h[p].size != q + h[q].size
  {
    assert TileAt(h, s, p) && TileAt(h, s, q) && (p < q ==> Ends(h, p, q)) && (q < p ==> Ends(h, q, p));
  }

  /* ---------- taking a chunk ---------- */

  /** set_inuse_and_pinuse(p, size) */
  function TakeHeads(h: Heads, p: Addr): Heads
    requires p in h && p + h[p].size in h && h[p].size > 0
  {
    var n := p + h[p].size;
    h[p := Head(h[p].size, true, true)][n := h[n].(pinuse := true)]
  }

  /** Tiling depends on the sizes only. */
  lemma SameSizes(h: Heads, h': Heads, s: set<Addr>, base: Addr, top: Addr)
    requires Tiled(h, s, base, top) && forall q :: q in s ==> q in h' && h'[q].size == h[q].size
    ensures Tiled(h', s, base, top)
  {
    hide Even;
    forall q | q in s && q < top ensures TileAt(h', s, q) { assert TileAt(h, s, q); }
    forall q | q in s && q > base ensures PrevAt(h', s, q) { SamePrev(h, h', s, s, q); }
    forall p, q | p in s && q in s && p < q ensures Ends(h', p, q) { assert Ends(h, p, q); }
  }

  lemma Take(h: Heads, f: Feet, s: set<Addr>, base: Addr, top: Addr, p: Addr)
    requires TagsOk(h, f, s, base, top) && p in s && p < top && p in h && !h[p].cinuse
    ensures p + h[p].size in h && h[p].size > 0
    ensures TagsOk(TakeHeads(h, p), f, s, base, top)
    ensures FreeChunks(TakeHeads(h, p), s, top) == FreeChunks(h, s, top) - {p}
    ensures LiveChunks(TakeHeads(h, p), s, top) == LiveChunks(h, s, top)[p := h[p].size]
  {
    hide Even, PrevAt, TileAt, Tiles, Ordered, Preceded, Ends, FlagsAt;
    After(h, f, s, base, top, p);
    var h' := TakeHeads(h, p);
    SameSizes(h, h', s, base, top);
    TakeMaps(h, s, top, p);
    forall q | q in s && q < top ensures FlagsAt(h', f, s, top, q) {
      TakeFlags(h, f, s, base, top, p, q);
    }
  }

  lemma TakeMaps(h: Heads, s: set<Addr>, top: Addr, p: Addr)
    requires p in s && p < top && p in h && h[p].size > 0 && p + h[p].size in h && s <= h.Keys
    ensures FreeChunks(TakeHeads(h, p), s, top) == FreeChunks(h, s, top) - {p}
    ensures LiveChunks(TakeHeads(h, p), s, top) == LiveChunks(h, s, top)[p := h[p].size]
  {
    var h' := TakeHeads(h, p);
    assert forall q :: q in s && q != p ==> h'[q].size == h[q].size && h'[q].cinuse == h[q].cinuse;
  }

  lemma TakeFlags(h: Heads, f: Feet, s: set<Addr>, base: Addr, top: Addr, p: Addr, q: Addr)
    requires TagsOk(h, f, s, base, top) && p in s && p < top && p in h && !h[p].cinuse && q in s && q < top
    ensures p + h[p].size in h && h[p].size > 0 && FlagsAt(TakeHeads(h, p), f, s, top, q)
  {
    After(h, f, s, base, top, p);
    After(h, f, s, base, top, q);
    assert FlagsAt(h, f, s, top, q);
    if q != p { NextDiffers(h, s, base, top, p, q); }
  }

  /** set_size_and_pinuse_of_inuse_chunk(p, nb); set_size_and_pinuse_of_free_chunk(p + nb, rest) */
  function SplitHeads(h: Heads, p: Addr, nb: nat): Heads
    requires p in h && nb <= h[p].size
  {
    h[p := Head(nb, true, true)][p + nb := Head(h[p].size - nb, true, false)]
  }

  function SplitFeet(h: Heads, f: Feet, p: Addr, nb: nat): Feet
    requires p in h && nb <= h[p].size
  {
    f[p + h[p].size := h[p].size - nb]
  }

  /** Chunk p is large enough to be cut at p + nb. */
  ghost predicate Cuts(h: Heads, s: set<Addr>, top: Addr, p: Addr, nb: nat)
  {
    p in s && p < top && p in h && nb >= MINCHUNK && Even(nb) && h[p].size >= nb + MINCHUNK
  }

  ghost predicate Splits(h: Heads, s: set<Addr>, top: Addr, p: Addr, nb: nat)
  {
    Cuts(h, s, top, p, nb) && !h[p].cinuse
  }

  lemma SplitPoint(h: Heads, f: Feet, s: set<Addr>, base: Addr, top: Addr, p: Addr, nb: nat)
    requires TagsOk(h, f, s, base, top) && Cuts(h, s, top, p, nb)
    ensures p + nb !in s && p + h[p].size in s && Even(p + nb) && Even(h[p].size - nb) && p + h[p].size <= top
  {
    After(h, f, s, base, top, p);
    EvenSum(p, nb);
    EvenSum(nb, h[p].size - nb);
  }

  lemma SplitTiles(h: Heads, f: Feet, s: set<Addr>, base: Addr, top: Addr, p: Addr, nb: nat)
    requires TagsOk(h, f, s, base, top) && Cuts(h, s, top, p, nb)
    ensures Starts(SplitHeads(h, p, nb), s + {p + nb}, base, top) && Tiles(SplitHeads(h, p, nb), s + {p + nb}, top)
  {
    SplitPoint(h, f, s, base, top, p, nb);
    hide Even, FlagsAt, PrevAt, Ends, Preceded, Ordered;
    var h', s' := SplitHeads(h, p, nb), s + {p + nb};
    assert Starts(h', s', base, top);
    forall q | q in s' && q < top ensures TileAt(h', s', q) {
      if q in s && q != p { SameTile(h, h', s, s', q); }
    }
  }

  lemma SameTile(h: Heads, h': Heads, s: set<Addr>, s': set<Addr>, q: Addr)
    requires TileAt(h, s, q) && s <= s' && q in h' && h'[q].size == h[q].size
    ensures TileAt(h', s', q)
  {
  }

  /** No chunk starts inside another. */
  lemma Crossed(h: Heads, s: set<Addr>, p: Addr, a: Addr, nb: nat)
    requires Ordered(h, s) && p in s && a in s && p in h && nb <= h[p].size && p < a
    ensures p + nb <= a
  {
    assert Ends(h, p, a);
  }

  lemma SplitOrder(h: Heads, f: Feet, s: set<Addr>, base: Addr, top: Addr, p: Addr, nb: nat)
    requires TagsOk(h, f, s, base, top) && Cuts(h, s, top, p, nb)
    ensures Ordered(SplitHeads(h, p, nb), s + {p + nb})
  {
    SplitPoint(h, f, s, base, top, p, nb);
    hide Even, FlagsAt, PrevAt, TileAt;
    var r, h', s' := p + nb, SplitHeads(h, p, nb), s + {p + nb};
    forall a, b | a in s' && b in s' && a < b ensures Ends(h', a, b) {
      if a == r { assert Ends(h, p, b); }
      else if b == r { if a < p { assert Ends(h, a, p); } else if a != p { Crossed(h, s, p, a, nb); } }
      else { assert Ends(h, a, b); }
    }
  }

  lemma SplitPrev(h: Heads, f: Feet, s: set<Addr>, base: Addr, top: Addr, p: Addr, nb: nat)
    requires TagsOk(h, f, s, base, top) && Cuts(h, s, top, p, nb)
    ensures Preceded(SplitHeads(h, p, nb), s + {p + nb}, base)
  {
    SplitPoint(h, f, s, base, top, p, nb);
    hide Even, FlagsAt, TileAt, Ends;
    var r, h', s' := p + nb, SplitHeads(h, p, nb), s + {p + nb};
    forall q | q in s' && q > base ensures PrevAt(h', s', q) {
      if q == r {
        assert p in s' && p in h' && p < q && p + h'[p].size == q;
      } else {
        assert PrevAt(h, s, q);
        var a :| a in s && a in h && a < q && a + h[a].size == q;
        if a == p { assert r in s' && r in h' && r + h'[r].size == q; } else { assert a in s' && a in h' && a + h'[a].size == q; }
      }
    }
  }

  lemma SplitFlags(h: Heads, f: Feet, s: set<Addr>, base: Addr, top: Addr, p: Addr, nb: nat, q: Addr)
    requires TagsOk(h, f, s, base, top) && Splits(h, s, top, p, nb) && q in s + {p + nb} && q < top
    ensures FlagsAt(SplitHeads(h, p, nb), SplitFeet(h, f, p, nb), s + {p + nb}, top, q)
  {
    SplitPoint(h, f, s, base, top, p, nb);
    After(h, f, s, base, top, p);
    hide Even, PrevAt, TileAt, Ends;
    assert FlagsAt(h, f, s, top, p);
    if q in s && q != p {
      assert FlagsAt(h, f, s, top, q);
      NextDiffers(h, s, base, top, p, q);
    }
  }

  lemma Split(h: Heads, f: Feet, s: set<Addr>, base: Addr, top: Addr, p: Addr, nb: nat)
    requires TagsOk(h, f, s, base, top) && Splits(h, s, top, p, nb)
    ensures p + nb !in s && TagsOk(SplitHeads(h, p, nb), SplitFeet(h, f, p, nb), s + {p + nb}, base, top)
    ensures FreeChunks(SplitHeads(h, p, nb), s + {p + nb}, top) == (FreeChunks(h, s, top) - {p})[p + nb := h[p].size - nb]
    ensures LiveChunks(SplitHeads(h, p, nb), s + {p + nb}, top) == LiveChunks(h, s, top)[p := nb]
  {
    hide Even, FlagsAt, PrevAt, TileAt, Ends, Tiles, Ordered, Preceded;
    SplitPoint(h, f, s, base, top, p, nb);
    SplitTiles(h, f, s, base, top, p, nb);
    SplitOrder(h, f, s, base, top, p, nb);
    SplitPrev(h, f, s, base, top, p, nb);
    var h', f', s' := SplitHeads(h, p, nb), SplitFeet(h, f, p, nb), s + {p + nb};
    forall q | q in s' && q < top ensures FlagsAt(h', f', s', top, q) {
      SplitFlags(h, f, s, base, top, p, nb, q);
    }
  }

  /** Split the top chunk: its first nb bytes are in use, the rest is the new top. */
  function TopHeads(h: Heads, top: Addr, nb: nat): Heads
    requires top in h && nb <= h[top].size
  {
    h[top + nb := Head(h[top].size - nb, true, false)][top := Head(nb, true, true)]
  }

  lemma TopTiles(h: Heads, s: set<Addr>, base: Addr, top: Addr, nb: nat)
    requires Tiled(h, s, base, top) && nb >= MINCHUNK && Even(nb) && nb < h[top].size
    ensures Starts(TopHeads(h, top, nb), s + {top + nb}, base, top + nb)
    ensures Tiles(TopHeads(h, top, nb), s + {top + nb}, top + nb)
  {
    EvenSum(top, nb);
    hide Even, PrevAt, Ends;
    var h', s', top' := TopHeads(h, top, nb), s + {top + nb}, top + nb;
    forall q | q in s' && q < top' ensures TileAt(h', s', q) {
      if q != top { SameTile(h, h', s, s', q); }
    }
  }

  lemma TopOrder(h: Heads, s: set<Addr>, base: Addr, top: Addr, nb: nat)
    requires Tiled(h, s, base, top) && 0 < nb < h[top].size
    ensures Ordered(TopHeads(h, top, nb), s + {top + nb})
  {
    hide Even, PrevAt, TileAt;
    var h', s', top' := TopHeads(h, top, nb), s + {top + nb}, top + nb;
    forall a, b | a in s' && b in s' && a < b ensures Ends(h', a, b) {
      if b == top' { if a != top { assert Ends(h, a, top); } } else { assert Ends(h, a, b); }
    }
  }

  lemma TopPrev(h: Heads, s: set<Addr>, base: Addr, top: Addr, nb: nat)
    requires Tiled(h, s, base, top) && 0 < nb < h[top].size
    ensures Preceded(TopHeads(h, top, nb), s + {top + nb}, base)
  {
    hide Even, TileAt, Ends;
    var h', s', top' := TopHeads(h, top, nb), s + {top + nb}, top + nb;
    forall q | q in s' && q > base ensures PrevAt(h', s', q) {
      if q == top' {
        assert top in s' && top in h' && top + h'[top].size == q;
      } else {
        SamePrev(h, h', s, s', q);
      }
    }
  }

  lemma SamePrev(h: Heads, h': Heads, s: set<Addr>, s': set<Addr>, q: Addr)
    requires PrevAt(h, s, q) && forall p :: p in s && p in h && p < q ==> p in s' && p in h' && h'[p].size == h[p].size
    ensures PrevAt(h', s', q)
  {
    var p :| p in s && p in h && p < q && p + h[p].size == q;
    assert p in s' && p in h' && p + h'[p].size == q;
  }

  lemma SplitTop(h: Heads, f: Feet, s: set<Addr>, base: Addr, top: Addr, nb: nat)
    requires TagsOk(h, f, s, base, top) && nb >= MINCHUNK && Even(nb) && nb < h[top].size
    ensures top in s && TagsOk(TopHeads(h, top, nb), f, s + {top + nb}, base, top + nb)
    ensures FreeChunks(TopHeads(h, top, nb), s + {top + nb}, top + nb) == FreeChunks(h, s, top)
    ensures LiveChunks(TopHeads(h, top, nb), s + {top + nb}, top + nb) == LiveChunks(h, s, top)[top := nb]
  {
    hide Even, PrevAt, TileAt, Ends, Tiles, Ordered, Preceded, FlagsAt;
    TopTiles(h, s, base, top, nb);
    TopOrder(h, s, base, top, nb);
    TopPrev(h, s, base, top, nb);
    var h', s', top' := TopHeads(h, top, nb), s + {top + nb}, top + nb;
    forall q | q in s' && q < top' ensures FlagsAt(h', f, s', top', q) {
      TopFlags(h, f, s, base, top, nb, q);
    }
  }

  lemma TopFlags(h: Heads, f: Feet, s: set<Addr>, base: Addr, top: Addr, nb: nat, q: Addr)
    requires TagsOk(h, f, s, base, top) && nb >= MINCHUNK && Even(nb) && nb < h[top].size && q in s && q <= top
    ensures FlagsAt(TopHeads(h, top, nb), f, s + {top + nb}, top + nb, q)
  {
    if q != top { After(h, f, s, base, top, q); assert FlagsAt(h, f, s, top, q); }
  }

  /* ---------- giving chunks back ---------- */

  /** The chunk starts that remain when everything from a to e becomes one chunk. */
  ghost function Merged(s: set<Addr>, a: Addr, e: Addr): set<Addr>
  {
    set q | q in s && (q <= a || q >= e)
  }

  /** set_free_with_pinuse(a, e - a, e), for a chunk that reaches to e. */
  function MergeHeads(h: Heads, a: Addr, e: Addr): Heads
    requires e in h && a < e
  {
    h[e := h[e].(pinuse := false)][a := Head(e - a, true, false)]
  }

  lemma EndsBy(h: Heads, s: set<Addr>, p: Addr, e: Addr)
    requires Ordered(h, s) && p in s && e in s && p in h && p < e
    ensures p + h[p].size <= e
  {
    assert Ends(h, p, e);
  }

  lemma MergeTiles(h: Heads, s: set<Addr>, base: Addr, top: Addr, a: Addr, e: Addr)
    requires Tiled(h, s, base, top) && a in s && e in s && a < e
    ensures Starts(MergeHeads(h, a, e), Merged(s, a, e), base, top) && Tiles(MergeHeads(h, a, e), Merged(s, a, e), top)
  {
    EvenSum(a, e - a);
    assert TileAt(h, s, a);
    EndsBy(h, s, a, e);
    hide Even, PrevAt, Preceded;
    var h', s' := MergeHeads(h, a, e), Merged(s, a, e);
    forall p | p in s' && p < top ensures TileAt(h', s', p) {
      assert TileAt(h, s, p);
      if p < a { EndsBy(h, s, p, a); }
    }
  }

  lemma MergeOrder(h: Heads, s: set<Addr>, base: Addr, top: Addr, a: Addr, e: Addr)
    requires Starts(h, s, base, top) && Ordered(h, s) && a in s && e in s && a < e
    ensures Ordered(MergeHeads(h, a, e), Merged(s, a, e))
  {
    hide Even;
    var h', s' := MergeHeads(h, a, e), Merged(s, a, e);
    forall p, q | p in s' && q in s' && p < q ensures Ends(h', p, q) { assert Ends(h, p, q); }
  }

  lemma MergePrev(h: Heads, s: set<Addr>, base: Addr, top: Addr, a: Addr, e: Addr)
    requires Starts(h, s, base, top) && Ordered(h, s) && Preceded(h, s, base) && Tiles(h, s, top) && a in s && e in s && a < e
    ensures Preceded(MergeHeads(h, a, e), Merged(s, a, e), base)
  {
    hide Even, Tiles, Ordered;
    var h', s' := MergeHeads(h, a, e), Merged(s, a, e);
    forall q | q in s' && q > base ensures PrevAt(h', s', q) {
      assert PrevAt(h, s, q);
      var p :| p in s && p in h && p < q && p + h[p].size == q;
      if q == e {
        assert a in s' && a in h' && a + h'[a].size == q;
      } else {
        if p < e { EndsBy(h, s, p, e); }
        if p == a { EndsBy(h, s, a, e); LargeTile(h, s, top, a); }
        assert p in s' && p in h' && p != a && p + h'[p].size == q;
      }
    }
  }

  lemma LargeTile(h: Heads, s: set<Addr>, top: Addr, a: Addr)
    requires Tiles(h, s, top) && a in s && a < top
    ensures a in h && h[a].size > 0
  {
    assert TileAt(h, s, a);
  }

  lemma MergeTiled(h: Heads, s: set<Addr>, base: Addr, top: Addr, a: Addr, e: Addr)
    requires Tiled(h, s, base, top) && a in s && e in s && a < e
    ensures Tiled(MergeHeads(h, a, e), Merged(s, a, e), base, top)
  {
    hide Starts, Tiles, Ordered, Preceded;
    HeadOf(h, s, base, top, e);
    MergeTiles(h, s, base, top, a, e);
    MergeOrder(h, s, base, top, a, e);
    MergePrev(h, s, base, top, a, e);
  }

  lemma HeadOf(h: Heads, s: set<Addr>, base: Addr, top: Addr, e: Addr)
    requires Starts(h, s, base, top) && e in s
    ensures e in h && base <= e <= top
  {
  }

  lemma MergeFlags(h: Heads, f: Feet, s: set<Addr>, base: Addr, top: Addr, a: Addr, e: Addr, q: Addr)
    requires TagsOk(h, f, s, base, top) && a in s && e in s && a < e && e != top
    requires a in h && e in h && h[a].pinuse && h[e].cinuse
    requires q in Merged(s, a, e) && q < top
    ensures FlagsAt(MergeHeads(h, a, e), f[e := e - a], Merged(s, a, e), top, q)
  {
    After(h, f, s, base, top, a);
    assert FlagsAt(h, f, s, top, q);
    After(h, f, s, base, top, q);
  }

  /** Everything from a to e becomes one free chunk. */
  lemma Merge(h: Heads, f: Feet, s: set<Addr>, base: Addr, top: Addr, a: Addr, e: Addr)
    requires TagsOk(h, f, s, base, top) && a in s && e in s && a < e && e != top
    requires a in h && e in h && h[a].pinuse && h[e].cinuse
    ensures TagsOk(MergeHeads(h, a, e), f[e := e - a], Merged(s, a, e), base, top)
  {
    MergeTiled(h, s, base, top, a, e);
    hide Even, PrevAt, TileAt, Ends, Tiles, Ordered, Preceded, FlagsAt;
    forall q | q in Merged(s, a, e) && q < top ensures FlagsAt(MergeHeads(h, a, e), f[e := e - a], Merged(s, a, e), top, q) {
      MergeFlags(h, f, s, base, top, a, e, q);
    }
  }

  /** Everything from a on becomes the top chunk. */
  lemma MergeTop(h: Heads, f: Feet, s: set<Addr>, base: Addr, top: Addr, a: Addr, size: nat)
    requires TagsOk(h, f, s, base, top) && a in s && a < top && a in h && h[a].pinuse
    ensures TagsOk(h[a := Head(size, true, false)], f, Merged(s, a, top + 1), base, a)
  {
    var h', s' := h[a := Head(size, true, false)], Merged(s, a, top + 1);
    TopMerged(h, s, base, top, a, size);
    forall q | q in s' && q < a ensures FlagsAt(h', f, s', a, q) {
      assert FlagsAt(h, f, s, top, q) && Ends(h, q, a);
    }
  }

  lemma TopMerged(h: Heads, s: set<Addr>, base: Addr, top: Addr, a: Addr, size: nat)
    requires Tiled(h, s, base, top) && a in s && a < top && a in h
    ensures Tiled(h[a := Head(size, true, false)], Merged(s, a, top + 1), base, a)
  {
    hide Even, TileAt, PrevAt, Ends, Tiles, Ordered, Preceded;
    var h', s' := h[a := Head(size, true, false)], Merged(s, a, top + 1);
    LowerPart(h, h', s, s', base, top, a);
  }

  /** The chunks up to a, where a is to be the last. */
  lemma LowerPart(h: Heads, h': Heads, s: set<Addr>, s': set<Addr>, base: Addr, top: Addr, a: Addr)
    requires Tiled(h, s, base, top) && a in s && forall q :: q in s' <==> q in s && q <= a
    requires forall q :: q in s && q < a ==> q in h' && h'[q].size == h[q].size
    requires a in h'
    ensures Tiled(h', s', base, a)
  {
    hide Even, TileAt, PrevAt, Ends, Tiles, Ordered, Preceded;
    LowerTiles(h, h', s, s', base, top, a);
    LowerOrder(h, h', s, s', a);
    LowerPrev(h, h', s, s', base, a);
  }

  lemma LowerTiles(h: Heads, h': Heads, s: set<Addr>, s': set<Addr>, base: Addr, top: Addr, a: Addr)
    requires Starts(h, s, base, top) && Tiles(h, s, top) && Ordered(h, s) && a in s && forall q :: q in s' <==> q in s && q <= a
    requires s <= h.Keys
    requires forall q :: q in s && q < a ==> q in h' && h'[q].size == h[q].size
    ensures Tiles(h', s', a)
  {
    hide Even;
    forall q | q in s' && q < a ensures TileAt(h', s', q) { assert TileAt(h, s, q); EndsBy(h, s, q, a); }
  }

  lemma LowerOrder(h: Heads, h': Heads, s: set<Addr>, s': set<Addr>, a: Addr)
    requires Ordered(h, s) && forall q :: q in s' <==> q in s && q <= a
    requires s <= h.Keys
    requires forall q :: q in s && q < a ==> q in h' && h'[q].size == h[q].size
    ensures Ordered(h', s')
  {
    forall p, q | p in s' && q in s' && p < q ensures Ends(h', p, q) { assert Ends(h, p, q); }
  }

  lemma LowerPrev(h: Heads, h': Heads, s: set<Addr>, s': set<Addr>, base: Addr, a: Addr)
    requires Preceded(h, s, base) && forall q :: q in s' <==> q in s && q <= a
    requires s <= h.Keys
    requires forall q :: q in s && q < a ==> q in h' && h'[q].size == h[q].size
    ensures Preceded(h', s', base)
  {
    hide PrevAt;
    forall q | q in s' && q > base ensures PrevAt(h', s', q) { SamePrevAt(h, h', s, s', base, a, q); }
  }

  lemma SamePrevAt(h: Heads, h': Heads, s: set<Addr>, s': set<Addr>, base: Addr, a: Addr, q: Addr)
    requires Preceded(h, s, base) && q in s && base < q <= a && forall p :: p in s' <==> p in s && p <= a
    requires s <= h.Keys
    requires forall p :: p in s && p < a ==> p in h' && h'[p].size == h[p].size
    ensures PrevAt(h', s', q)
  {
    assert PrevAt(h, s, q);
    SamePrev(h, h', s, s', q);
  }

  /** What merging does to the free chunks and to those in use. */
  lemma MergeMaps(h: Heads, s: set<Addr>, top: Addr, a: Addr, e: Addr)
    requires a in s && e in s && s <= h.Keys && a < e && a < top
    ensures FreeChunks(MergeHeads(h, a, e), Merged(s, a, e), top) ==
              (map q | q in FreeChunks(h, s, top) && (q < a || q >= e) :: FreeChunks(h, s, top)[q])[a := e - a]
    ensures LiveChunks(MergeHeads(h, a, e), Merged(s, a, e), top) ==
              (map q | q in LiveChunks(h, s, top) && (q < a || q >= e) :: LiveChunks(h, s, top)[q])
  {
  }

  lemma MergeTopMaps(h: Heads, s: set<Addr>, top: Addr, a: Addr, size: nat)
    requires a in s && s <= h.Keys && a < top
    ensures FreeChunks(h[a := Head(size, true, false)], Merged(s, a, top + 1), a) ==
              (map q | q in FreeChunks(h, s, top) && q < a :: FreeChunks(h, s, top)[q])
    ensures LiveChunks(h[a := Head(size, true, false)], Merged(s, a, top + 1), a) ==
              (map q | q in LiveChunks(h, s, top) && q < a :: LiveChunks(h, s, top)[q])
  {
  }
}
