/** Cutting a chunk in use in two, and growing one into the top chunk (lib/dlmalloc.c), as functions of the boundary
    tags. */
module Cutting {
  import opened Tiling

  /** set_inuse(p, nb); set_inuse_and_pinuse(p + nb, rest) */
  function CutHeads(h: Heads, p: Addr, nb: nat): Heads
    requires p in h && nb <= h[p].size
  {
    h[p := Head(nb, h[p].pinuse, true)][p + nb := Head(h[p].size - nb, true, true)]
  }

  lemma CutFlags(h: Heads, f: Feet, s: set<Addr>, base: Addr, top: Addr, p: Addr, nb: nat, q: Addr)
    requires TagsOk(h, f, s, base, top) && Cuts(h, s, top, p, nb) && h[p].cinuse && q in s + {p + nb} && q < top
    ensures FlagsAt(CutHeads(h, p, nb), f, s + {p + nb}, top, q)
  {
    SplitPoint(h, f, s, base, top, p, nb);
    After(h, f, s, base, top, p);
    hide Even, PrevAt, TileAt, Ends;
    assert FlagsAt(h, f, s, top, p);
    if q in s && q != p {
      assert FlagsAt(h, f, s, top, q);
      NextDiffers(h, s, base, top, p, q);
    }
  }

  /** Both parts of a chunk in use are chunks in use; everything else stays. */
  lemma Cut(h: Heads, f: Feet, s: set<Addr>, base: Addr, top: Addr, p: Addr, nb: nat)
    requires TagsOk(h, f, s, base, top) && Cuts(h, s, top, p, nb) && h[p].cinuse
    ensures p + nb !in s && TagsOk(CutHeads(h, p, nb), f, s + {p + nb}, base, top)
    ensures FreeChunks(CutHeads(h, p, nb), s + {p + nb}, top) == FreeChunks(h, s, top)
    ensures LiveChunks(CutHeads(h, p, nb), s + {p + nb}, top) == LiveChunks(h, s, top)[p := nb][p + nb := h[p].size - nb]
  {
    hide Even, FlagsAt, PrevAt, TileAt, Ends, Tiles, Ordered, Preceded;
    SplitPoint(h, f, s, base, top, p, nb);
    SplitTiles(h, f, s, base, top, p, nb);
    SplitOrder(h, f, s, base, top, p, nb);
    SplitPrev(h, f, s, base, top, p, nb);
    var h', s' := CutHeads(h, p, nb), s + {p + nb};
    SameSizes(SplitHeads(h, p, nb), h', s', base, top);
    forall q | q in s' && q < top ensures FlagsAt(h', f, s', top, q) {
      CutFlags(h, f, s, base, top, p, nb, q);
    }
  }

  /* ---------- growing into top ---------- */

  /** The chunk before top takes over the start of it. */
  function GrowHeads(h: Heads, p: Addr, top: Addr, nb: nat): Heads
    requires p in h && top in h && h[p].size < nb < h[p].size + h[top].size
  {
    h[p + nb := Head(h[p].size + h[top].size - nb, true, false)][p := Head(nb, h[p].pinuse, true)]
  }

  /** Chunk p is the last one in use and grows to nb bytes. */
  ghost predicate Grows(h: Heads, s: set<Addr>, top: Addr, p: Addr, nb: nat)
  {
    && p in s && p < top && p in h && top in h && h[p].cinuse && p + h[p].size == top
    && Even(nb) && h[p].size < nb < h[p].size + h[top].size
  }

  /** The chunk starts afterwards. */
  ghost function GrownStarts(s: set<Addr>, top: Addr, p: Addr, nb: nat): set<Addr> { s - {top} + {p + nb} }

  lemma GrowStarts(h: Heads, f: Feet, s: set<Addr>, base: Addr, top: Addr, p: Addr, nb: nat)
    requires TagsOk(h, f, s, base, top) && Grows(h, s, top, p, nb)
    ensures Starts(GrowHeads(h, p, top, nb), GrownStarts(s, top, p, nb), base, p + nb)
  {
    EvenSum(p, nb);
    hide Even, FlagsAt, PrevAt, Ends, Preceded, Ordered, TileAt;
  }

  lemma GrowTile(h: Heads, f: Feet, s: set<Addr>, base: Addr, top: Addr, p: Addr, nb: nat, q: Addr)
    requires TagsOk(h, f, s, base, top) && Grows(h, s, top, p, nb) && q in s && q < top
    ensures TileAt(GrowHeads(h, p, top, nb), GrownStarts(s, top, p, nb), q)
  {
    hide Even, FlagsAt, PrevAt, Ends, Preceded, Ordered, Starts;
    assert TileAt(h, s, q) && TileAt(h, s, p);
    if q != p { NextDiffers(h, s, base, top, p, q); }
  }

  lemma GrowTiles(h: Heads, f: Feet, s: set<Addr>, base: Addr, top: Addr, p: Addr, nb: nat)
    requires TagsOk(h, f, s, base, top) && Grows(h, s, top, p, nb)
    ensures Tiles(GrowHeads(h, p, top, nb), GrownStarts(s, top, p, nb), p + nb)
  {
    hide Even, FlagsAt, PrevAt, Ends, Preceded, Ordered, TileAt;
    var h', s' := GrowHeads(h, p, top, nb), GrownStarts(s, top, p, nb);
    forall q | q in s' && q < p + nb ensures TileAt(h', s', q) { GrowTile(h, f, s, base, top, p, nb, q); }
  }

  lemma GrowOrder(h: Heads, f: Feet, s: set<Addr>, base: Addr, top: Addr, p: Addr, nb: nat)
    requires TagsOk(h, f, s, base, top) && Grows(h, s, top, p, nb)
    ensures Ordered(GrowHeads(h, p, top, nb), GrownStarts(s, top, p, nb))
  {
    hide Even, FlagsAt, PrevAt, TileAt;
    var h', s' := GrowHeads(h, p, top, nb), GrownStarts(s, top, p, nb);
    forall a, b | a in s' && b in s' && a < b ensures Ends(h', a, b) {
      if b == p + nb {
        if a != p { assert Ends(h, a, top); }
      } else {
        assert Ends(h, a, b);
      }
    }
  }

  lemma GrowPrev(h: Heads, f: Feet, s: set<Addr>, base: Addr, top: Addr, p: Addr, nb: nat)
    requires TagsOk(h, f, s, base, top) && Grows(h, s, top, p, nb)
    ensures Preceded(GrowHeads(h, p, top, nb), GrownStarts(s, top, p, nb), base)
  {
    hide Even, FlagsAt, TileAt, Ends;
    var h', s' := GrowHeads(h, p, top, nb), GrownStarts(s, top, p, nb);
    forall q | q in s' && q > base ensures PrevAt(h', s', q) {
      if q == p + nb {
        assert p in s' && p in h' && p < q && p + h'[p].size == q;
      } else {
        assert PrevAt(h, s, q);
        var a :| a in s && a in h && a < q && a + h[a].size == q;
        assert a in s' && a in h' && a + h'[a].size == q;
      }
    }
  }

  lemma GrowFlags(h: Heads, f: Feet, s: set<Addr>, base: Addr, top: Addr, p: Addr, nb: nat, q: Addr)
    requires TagsOk(h, f, s, base, top) && Grows(h, s, top, p, nb) && q in s && q < top
    ensures FlagsAt(GrowHeads(h, p, top, nb), f, GrownStarts(s, top, p, nb), p + nb, q)
  {
    hide Even, PrevAt, TileAt, Ends;
    After(h, f, s, base, top, q);
    assert FlagsAt(h, f, s, top, q);
    if q != p { NextDiffers(h, s, base, top, p, q); }
  }

  /** Everything but the grown chunk and the top stays. */
  lemma Grow(h: Heads, f: Feet, s: set<Addr>, base: Addr, top: Addr, p: Addr, nb: nat)
    requires TagsOk(h, f, s, base, top) && Grows(h, s, top, p, nb)
    ensures TagsOk(GrowHeads(h, p, top, nb), f, GrownStarts(s, top, p, nb), base, p + nb)
    ensures FreeChunks(GrowHeads(h, p, top, nb), GrownStarts(s, top, p, nb), p + nb) == FreeChunks(h, s, top)
    ensures LiveChunks(GrowHeads(h, p, top, nb), GrownStarts(s, top, p, nb), p + nb) == LiveChunks(h, s, top)[p := nb]
  {
    hide Even, FlagsAt, PrevAt, TileAt, Ends, Tiles, Ordered, Preceded;
    GrowStarts(h, f, s, base, top, p, nb);
    GrowTiles(h, f, s, base, top, p, nb);
    GrowOrder(h, f, s, base, top, p, nb);
    GrowPrev(h, f, s, base, top, p, nb);
    var h', s' := GrowHeads(h, p, top, nb), GrownStarts(s, top, p, nb);
    forall q | q in s' && q < p + nb ensures FlagsAt(h', f, s', p + nb, q) {
      GrowFlags(h, f, s, base, top, p, nb, q);
    }
  }
}
