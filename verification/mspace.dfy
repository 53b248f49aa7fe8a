/** The mspace with its bins, bin maps and boundary tags: mspace_malloc and mspace_free (lib/dlmalloc.c). */
module Mspaces {
  import opened Trie
  import opened BestFit
  import opened Tiling
  import opened Binning
  import opened Bitmap

  const MAXREQUEST: nat := WORD - 128         // MAX_REQUEST
  const MAXSMALLREQUEST: nat := 232           // MAX_SMALL_REQUEST
  const MINREQUEST: nat := 23                 // MIN_REQUEST
  const MEM: nat := 16                        // chunk2mem

  /** pad_request */
  function Pad(bytes: nat): nat { (bytes + 23) / 16 * 16 }

  /** The size of the chunk a request needs. */
  function RequestSize(bytes: nat): (nb: nat)
  {
    if bytes <= MAXSMALLREQUEST && bytes < MINREQUEST then MINCHUNK
    else if bytes >= MAXREQUEST then WORD - 1 else Pad(bytes)
  }

  /** The size is aligned, leaves room for the request and a head, and is small exactly for small requests. */
  lemma RequestFits(bytes: nat)
    requires bytes < MAXREQUEST
    ensures Even(RequestSize(bytes)) && RequestSize(bytes) >= MINCHUNK && bytes + 8 <= RequestSize(bytes) <= bytes + 32
    ensures bytes <= MAXSMALLREQUEST <==> RequestSize(bytes) < MINLARGE
  {
  }

  /** From live to live', a chunk of at least nb bytes at p came into use. */
  predicate Allocated(live: map<Addr, nat>, live': map<Addr, nat>, p: Addr, nb: nat)
  {
    p !in live && p in live' && live' == live[p := live'[p]] && nb <= live'[p] < nb + MINCHUNK
  }

  class Mspace {
    const base: Addr
    const end: nat
    var heads: Heads
    var feet: Feet
    var top: Addr
    var topsize: nat
    var dv: Chunk
    var dvsize: nat
    var small: seq<seq<Chunk>>
    var tree: seq<Tree>
    var smallmap: bv32
    var treemap: bv32
    ghost var starts: set<Addr>       // where chunks begin

    /** The boundary tags. */
    ghost predicate Core()
      reads this
    {
      && TagsOk(heads, feet, starts, base, top) && heads[top].size == topsize && topsize > 0 && top + topsize == end
      && base > 0 && end - base < LIMIT
    }

    ghost function FreeMap(): Free
      reads this
    {
      FreeChunks(heads, starts, top)
    }

    /** The chunks in use, with their sizes. */
    ghost function Live(): map<Addr, nat>
      reads this
    {
      LiveChunks(heads, starts, top)
    }

    ghost predicate Bins(fs: Free)
      reads this
    {
      BinningOk(fs, dv, dvsize, small, tree) && Maps()
    }

    /** The bin maps mark the bins that are not empty. */
    ghost predicate Maps()
      reads this
    {
      |small| == NSMALLBINS && |tree| == NTREEBINS && MapOk(smallmap, SmallUsed(small)) && MapOk(treemap, TreeUsed(tree))
    }

    ghost predicate Valid()
      reads this
    {
      Core() && Bins(FreeMap())
    }

    /** An empty mspace over the segment [base, end). */
    constructor (base: Addr, end: nat)
      requires 0 < base < end && end - base < LIMIT && Even(base)
      ensures Valid() && Live() == map[] && this.base == base && this.end == end
    {
      this.base, this.end := base, end;
      heads, feet := map[base := Head(end - base, true, false)], map[];
      top, topsize, dv, dvsize := base, end - base, NIL, 0;
      small, tree := seq(NSMALLBINS, i => []), seq(NTREEBINS, i => Nil);
      smallmap, treemap := 0, 0;
      starts := {base};
      new;
      assert FreeMap() == map[];
      NoBins(small, tree);
      NothingMarked(SmallUsed(small));
      NothingMarked(TreeUsed(tree));
    }

    /** Free chunks can be taken and split. */
    lemma FreeFacts(p: Addr)
      requires Core() && p in FreeMap()
      ensures p in starts && p < top && p in heads && !heads[p].cinuse && heads[p].size == FreeMap()[p] && p !in Live()
      ensures MINCHUNK <= heads[p].size < LIMIT && Even(heads[p].size) && p != NIL
    {
      After(heads, feet, starts, base, top, p);
    }

    /** set_inuse_and_pinuse on a chunk that no bin holds any more. */
    method UseWhole(p: Addr, ghost nb: nat)
      requires Core() && p in FreeMap() && Bins(FreeMap() - {p}) && nb <= FreeMap()[p] < nb + MINCHUNK
      modifies this`heads
      ensures Valid() && Allocated(old(Live()), Live(), p, nb)
    {
      hide TagsOk, FreeChunks, LiveChunks, BinningOk, Even;
      FreeFacts(p);
      Take(heads, feet, starts, base, top, p);
      TopStays(heads, feet, starts, base, top, p);
      var n := p + heads[p].size;
      var z := heads[p].size;
      heads := heads[p := Head(z, true, true)][n := heads[n].(pinuse := true)];
    }

    /** Split a chunk that no bin holds any more: the first nb bytes are in use, the rest is free and in no bin. */
    method UseSplit(p: Addr, nb: nat) returns (r: Addr)
      requires Core() && p in FreeMap() && nb >= MINCHUNK && Even(nb) && FreeMap()[p] >= nb + MINCHUNK
      modifies this`heads, this`feet, this`starts
      ensures Core() && r == p + nb && r !in old(FreeMap()) && r != NIL
      ensures var rest := old(FreeMap())[p] - nb;
              FreeMap() == (old(FreeMap()) - {p})[r := rest] && MINCHUNK <= rest < LIMIT && Even(rest)
      ensures Allocated(old(Live()), Live(), p, nb)
    {
      hide TagsOk, FreeChunks, LiveChunks, Even;
      FreeFacts(p);
      Split(heads, feet, starts, base, top, p, nb);
      SplitPoint(heads, feet, starts, base, top, p, nb) by { assert Splits(heads, starts, top, p, nb); }
      TopStays(heads, feet, starts, base, top, p);
      NotFree(heads, starts, top, p + nb);
      r := p + nb;
      var z := heads[p].size;
      feet := feet[p + z := z - nb];
      heads := heads[p := Head(nb, true, true)][r := Head(z - nb, true, false)];
      starts := starts + {r};
    }

    /** unlink_chunk, on the bins and their maps. */
    method BinOut(c: Chunk, z: nat)
      requires Maps() && (if IsSmall(z) then c in small[z / 8] else TreeIndex(z) < NTREEBINS)
      modifies this`small, this`tree, this`smallmap, this`treemap
      ensures Maps()
      ensures IsSmall(z) ==> old(|small| == NSMALLBINS) && small == UnlinkSmall(old(small), c, z) && tree == old(tree)
      ensures !IsSmall(z) ==> old(|tree| == NTREEBINS) && tree == UnlinkLarge(old(tree), c, z) && small == old(small)
    {
      hide MapOk, UnlinkLarge, TreeIndex;
      if IsSmall(z) {
        var i := z / 8;
        SmallMarks(small, smallmap, i, Drop(small[i], c));
        small := UnlinkSmall(small, c, z);
        if small[i] == [] {
          smallmap := Clear(smallmap, i);
        }
      } else {
        var i := TreeIndex(z);
        var t := UnlinkLarge(tree, c, z);
        OneTree(tree, c, z);
        TreeMarks(tree, treemap, i, t[i]);
        tree := t;
        if tree[i] == Nil {
          treemap := Clear(treemap, i);
        }
      }
    }

    /** insert_chunk, on the bins and their maps. */
    method BinIn(c: Chunk, z: nat)
      requires Maps() && (!IsSmall(z) ==> TreeIndex(z) < NTREEBINS)
      modifies this`small, this`tree, this`smallmap, this`treemap
      ensures Maps()
      ensures IsSmall(z) ==> old(|small| == NSMALLBINS) && small == InsertSmall(old(small), c, z) && tree == old(tree)
      ensures !IsSmall(z) ==> old(|tree| == NTREEBINS) && tree == InsertLarge(old(tree), c, z) && small == old(small)
    {
      hide MapOk, InsertLarge, TreeIndex, Marked;
      if IsSmall(z) {
        var i := z / 8;
        SmallMarks(small, smallmap, i, [c] + small[i]);
        if !Marked(smallmap, i) {
          smallmap := Mark(smallmap, i);
        }
        small := InsertSmall(small, c, z);
      } else {
        var i := TreeIndex(z);
        var t := InsertLarge(tree, c, z);
        OneTree(tree, c, z);
        TreeMarks(tree, treemap, i, t[i]);
        if !Marked(treemap, i) {
          treemap := Mark(treemap, i);
        }
        tree := t;
      }
    }

    /** unlink_chunk; the remaining free chunks are those of fs without c. */
    method UnlinkChunk(c: Chunk, z: nat, ghost fs: Free)
      requires Bins(fs) && c in fs && fs[c] == z && c != dv
      modifies this`small, this`tree, this`smallmap, this`treemap
      ensures Bins(fs - {c})
    {
      hide SmallOk, TreeOk, AllIn, Sized, DvOk, Maps;
      if IsSmall(z) { SmallOut(fs, dv, dvsize, small, tree, c); } else { LargeOut(fs, dv, dvsize, small, tree, c); }
      BinOut(c, z);
    }

    /** insert_chunk */
    method InsertChunk(c: Chunk, z: nat, ghost fs: Free)
      requires Bins(fs) && c !in fs && c != NIL && MINCHUNK <= z < LIMIT && Even(z)
      modifies this`small, this`tree, this`smallmap, this`treemap
      ensures Bins(fs[c := z])
    {
      hide SmallOk, TreeOk, AllIn, Sized, DvOk, Maps;
      if IsSmall(z) { SmallIn(fs, dv, dvsize, small, tree, c, z); } else { LargeIn(fs, dv, dvsize, small, tree, c, z); }
      BinIn(c, z);
    }

    /** replace_dv */
    method ReplaceDv(r: Addr, z: nat, ghost fs: Free)
      requires Bins(fs) && r !in fs && r != NIL && MINCHUNK <= z < LIMIT && Even(z) && IsSmall(dvsize)
      modifies this`small, this`tree, this`smallmap, this`treemap, this`dv, this`dvsize
      ensures Bins(fs[r := z]) && dv == r && dvsize == z
    {
      hide SmallOk, TreeOk, AllIn, Sized;
      if dvsize != 0 {
        var old_dv, old_size := dv, dvsize;
        DvOut(fs, dv, dvsize, small, tree);
        DvSized(fs, dv, dvsize, small, tree);
        assert (fs - {dv})[dv := dvsize] == fs;
        dv, dvsize := NIL, 0;
        InsertChunk(old_dv, old_size, fs - {old_dv});
      }
      DvIn(fs, small, tree, r, z);
      dv, dvsize := r, z;
    }

    /** Hand out chunk p, which no bin holds any more: whole, or its first nb bytes.  The rest becomes dv or is binned. */
    method Carve(p: Addr, nb: nat, toDv: bool)
      requires Core() && p in FreeMap() && Bins(FreeMap() - {p}) && nb >= MINCHUNK && Even(nb) && nb <= FreeMap()[p]
      requires toDv ==> IsSmall(dvsize)
      modifies this`heads, this`feet, this`starts, this`small, this`tree, this`smallmap, this`treemap, this`dv, this`dvsize
      ensures Valid() && Allocated(old(Live()), Live(), p, nb)
    {
      hide TagsOk, FreeChunks, LiveChunks, BinningOk, Even;
      FreeFacts(p);
      ghost var fs := FreeMap() - {p};
      var rsize := heads[p].size - nb;
      if rsize < MINCHUNK {
        UseWhole(p, nb);
      } else {
        var r := UseSplit(p, nb);
        if toDv {
          ReplaceDv(r, rsize, fs);
        } else {
          InsertChunk(r, rsize, fs);
        }
      }
    }

    /** Take the first chunk out of small bin i. */
    method UnlinkFirst(i: nat) returns (p: Addr)
      requires Valid() && i < NSMALLBINS && |small| == NSMALLBINS && small[i] != []
      modifies this`small, this`smallmap
      ensures p in FreeMap() && FreeMap()[p] == 8 * i && Bins(FreeMap() - {p}) && p == old(small)[i][0]
    {
      hide TagsOk, FreeChunks, LiveChunks, SmallOk, TreeOk, AllIn, Sized, MapOk;
      FirstSmall(FreeMap(), dv, dvsize, small, tree, i);
      p := small[i][0];
      SmallOut(FreeMap(), dv, dvsize, small, tree, p);
      SmallMarks(small, smallmap, i, small[i][1..]);
      small := small[i := small[i][1..]];
      if small[i] == [] {
        smallmap := Clear(smallmap, i);
      }
    }

    /** Take the node v, a best fit, out of the tree bins. */
    method UnlinkBest(v: Tree, ghost nb: nat) returns (p: Addr)
      requires Valid() && IsBestFit(tree, nb, v)
      modifies this`small, this`tree, this`smallmap, this`treemap
      ensures p in FreeMap() && FreeMap()[p] == v.size >= nb && Bins(FreeMap() - {p}) && v.ring != [] && p == v.ring[0]
    {
      hide TagsOk, FreeChunks, LiveChunks, BinningOk, IsBestFit;
      FirstTree(FreeMap(), dv, dvsize, small, tree, nb, v);
      BestNode(tree, nb, v);
      p := v.ring[0];
      UnlinkChunk(p, v.size, FreeMap());
    }

    /** A remainderless fit: bin idx or the next, by the two lowest bits of smallbits; or none. */
    method ExactBin(idx: nat) returns (i: nat)
      requires Maps() && idx < 31
      ensures i < NSMALLBINS ==> (i == idx || i == idx + 1) && small[i] != [] && (i == idx + 1 ==> small[idx] == [])
      ensures i >= NSMALLBINS ==> small[idx] == [] && small[idx + 1] == []
    {
      hide MapOk, SmallBits;
      SmallBitsAre(smallmap, SmallUsed(small), idx);
      var smallbits := SmallBits(smallmap, idx);
      i := if smallbits & 3 == 0 then NSMALLBINS else if !smallbits & 1 == 1 then idx + 1 else idx;
      assert small[idx] != [] <==> SmallUsed(small)[idx];
      assert small[idx + 1] != [] <==> SmallUsed(small)[idx + 1];
    }

    /** The next nonempty bin, by left_bits, least_bit and compute_bit2idx; or none. */
    method LargerBin(idx: nat) returns (i: nat)
      requires Maps() && idx < 31 && small[idx] == []
      ensures i < NSMALLBINS ==> idx < i && small[i] != [] && forall j :: idx <= j < i ==> small[j] == []
      ensures i >= NSMALLBINS ==> forall j :: idx <= j < NSMALLBINS ==> small[j] == []
    {
      hide MapOk, SmallBits;
      SmallBitsAre(smallmap, SmallUsed(small), idx);
      var smallbits := SmallBits(smallmap, idx);
      if smallbits != 0 {
        i := NextMarked(smallmap, idx, SmallUsed(small));
        assert i < 32 ==> SmallUsed(small)[i];
        forall j | idx < j < i ensures small[j] == [] { assert !SmallUsed(small)[j]; }
      } else {
        NoSmall(small, idx);
        i := NSMALLBINS;
      }
    }

    /** The allocation paths of a small request; false if dv or top have to serve it. */
    method MallocSmall(nb: nat) returns (found: bool, p: Addr)
      requires Valid() && MINCHUNK <= nb < MINLARGE && Even(nb) && nb <= 240
      modifies this`heads, this`feet, this`starts, this`small, this`tree, this`smallmap, this`treemap, this`dv, this`dvsize
      ensures Valid()
      ensures found ==> Allocated(old(Live()), Live(), p, nb) && p != NIL && Even(p)
      ensures !found ==> heads == old(heads) && starts == old(starts) && Live() == old(Live()) && FreeMap() == old(FreeMap())
      ensures !found && dvsize < nb ==> forall c :: c in FreeMap() ==> FreeMap()[c] < nb
      ensures found ==> old(Chosen(FreeMap(), dv, dvsize, top, p, nb, true)) && p in old(FreeMap()) && p != old(dv)
      ensures !found ==> dv == old(dv) && dvsize == old(dvsize)
      ensures !found && dvsize >= nb ==> forall c :: c in FreeMap() && c != dv && FreeMap()[c] >= nb ==> FreeMap()[c] > nb + 8
    {
      hide TagsOk, FreeChunks, LiveChunks, BinningOk, IsBestFit, Binned, Allocated, MapOk, BestOf, Chosen;
      BinsLen(FreeMap(), dv, dvsize, small, tree);
      var idx := nb / 8;
      var i := ExactBin(idx);
      EvenBy8(nb);
      if i < NSMALLBINS {
        BestSmall(FreeMap(), dv, dvsize, small, tree, i, nb);
        ChosenBest(FreeMap(), dv, dvsize, top, small[i][0], nb, true);
        p := UnlinkFirst(i);
        FreeFacts(p);
        FreeEven(p);
        UseWhole(p, nb);
        return true, p;
      }
      NoneBetween(FreeMap(), dv, dvsize, small, tree, nb);
      if nb > dvsize {
        i := LargerBin(idx);
        if i < NSMALLBINS {
          BestSmall(FreeMap(), dv, dvsize, small, tree, i, nb);
          ChosenBest(FreeMap(), dv, dvsize, top, small[i][0], nb, true);
          p := UnlinkFirst(i);
          FreeFacts(p);
          FreeEven(p);
          Carve(p, nb, true);
          return true, p;
        }
        if treemap != 0 {
          var v := TmallocSmall(tree, treemap, nb);
          BestLarge(FreeMap(), dv, dvsize, small, tree, v, nb);
          ChosenBest(FreeMap(), dv, dvsize, top, v.ring[0], nb, true);
          p := UnlinkBest(v, nb);
          FreeFacts(p);
          FreeEven(p);
          Carve(p, nb, true);
          return true, p;
        }
        NothingUsed(tree, treemap);
        EmptyTrees(tree);
        NothingLeft(FreeMap(), dv, dvsize, small, tree, nb);
      }
      return false, NIL;
    }

    lemma FreeEven(p: Addr)
      requires Core() && p in FreeMap()
      ensures Even(p)
    {
    }

    lemma EvenBy8(nb: nat)
      requires Even(nb)
      ensures nb % 8 == 0 && 8 * (nb / 8) == nb
    {
    }

    /** The allocation paths of a large request that use a tree bin. */
    method MallocLarge(nb: nat) returns (found: bool, p: Addr)
      requires Valid() && MINLARGE <= nb < WORD && Even(nb)
      modifies this`heads, this`feet, this`starts, this`small, this`tree, this`smallmap, this`treemap, this`dv, this`dvsize
      ensures Valid()
      ensures found ==> Allocated(old(Live()), Live(), p, nb) && p != NIL && Even(p)
      ensures !found ==> heads == old(heads) && starts == old(starts) && Live() == old(Live()) && FreeMap() == old(FreeMap())
      ensures !found && dvsize < nb ==> forall c :: c in FreeMap() ==> FreeMap()[c] < nb
      ensures found ==> old(Chosen(FreeMap(), dv, dvsize, top, p, nb, false)) && p in old(FreeMap()) && p != old(dv)
      ensures !found ==> dv == old(dv) && dvsize == old(dvsize)
      ensures !found && dvsize >= nb ==> forall c :: c in FreeMap() && c != dv && FreeMap()[c] >= nb ==> dvsize <= FreeMap()[c]
    {
      hide TagsOk, FreeChunks, LiveChunks, BinningOk, IsBestFit, Binned, Allocated, BestOf, Chosen;
      BinsLen(FreeMap(), dv, dvsize, small, tree);
      var v := Nil;
      if treemap != 0 {
        v := TmallocLarge(tree, treemap, nb, dvsize);
        if v != Nil {
          BestLarge(FreeMap(), dv, dvsize, small, tree, v, nb);
          ChosenBest(FreeMap(), dv, dvsize, top, v.ring[0], nb, false);
          p := UnlinkBest(v, nb);
          FreeFacts(p);
          FreeEven(p);
          Carve(p, nb, false);
          return true, p;
        }
      } else {
        NothingUsed(tree, treemap);
        EmptyTrees(tree);
      }
      if dvsize < nb { NothingLeft(FreeMap(), dv, dvsize, small, tree, nb); }
      TreesBehind(FreeMap(), dv, dvsize, small, tree, nb);
      return false, NIL;
    }

    /** Split the top chunk. */
    method FromTop(nb: nat) returns (p: Addr)
      requires Valid() && nb >= MINCHUNK && Even(nb) && nb < topsize
      modifies this`heads, this`starts, this`top, this`topsize
      ensures Valid() && Allocated(old(Live()), Live(), p, nb) && p != NIL && Even(p) && p == old(top)
    {
      hide FreeChunks, BinningOk, Tiles, Ordered, Preceded, Even;
      SplitTop(heads, feet, starts, base, top, nb);
      p := top;
      topsize := topsize - nb;
      top := p + nb;
      heads := heads[top := Head(topsize, true, false)][p := Head(nb, true, true)];
      starts := starts + {top};
    }

    /** mspace_malloc: address 0 if there is no room. */
    method MspaceMalloc(bytes: nat) returns (mem: Addr)
      requires Valid() && bytes < WORD
      modifies this
      ensures Valid()
      ensures mem == 0 ==> Live() == old(Live()) && topsize <= RequestSize(bytes)
                           && forall c :: c in FreeMap() ==> FreeMap()[c] < RequestSize(bytes)
      ensures mem != 0 ==> mem >= MEM && Even(mem) && bytes + 8 <= RequestSize(bytes)
                           && Allocated(old(Live()), Live(), mem - MEM, RequestSize(bytes))
      ensures mem != 0 ==> old(Chosen(FreeMap(), dv, dvsize, top, mem - MEM, RequestSize(bytes), bytes <= MAXSMALLREQUEST))
    {
      hide TagsOk, FreeChunks, LiveChunks, BinningOk, Allocated, Even, Chosen;
      var nb, found, p := RequestSize(bytes), false, NIL;
      ghost var short := bytes <= MAXSMALLREQUEST;
      BinsLen(FreeMap(), dv, dvsize, small, tree);
      if bytes < MAXREQUEST { RequestFits(bytes); }
      if bytes <= MAXSMALLREQUEST {
        found, p := MallocSmall(nb);
      } else if bytes < MAXREQUEST {
        found, p := MallocLarge(nb);
      } else {
        FreeSmall();
      }
      if !found {
        if nb <= dvsize {
          DvFits(FreeMap(), dv, dvsize, small, tree);
          p := dv;
          FreeFacts(p);
          FreeEven(p);
          ChosenDv(FreeMap(), dv, dvsize, top, nb, short);
          DvOut(FreeMap(), dv, dvsize, small, tree);
          dv, dvsize := NIL, 0;
          Carve(p, nb, true);
        } else if nb < topsize {
          TopApart();
          ChosenTop(FreeMap(), dv, dvsize, top, nb, short);
          p := FromTop(nb);
        } else {
          return 0;
        }
      }
      MemEven(p);
      return p + MEM;
    }

    lemma TopApart()
      ensures top !in FreeMap()
    {
    }

    /** A chunk in use. */
    lemma LiveFacts(p: Addr)
      requires Core() && p in Live()
      ensures p in starts && p < top && p in heads && heads[p].cinuse && heads[p].size == Live()[p] && p !in FreeMap() && p != NIL
      ensures var n := p + heads[p].size; n in starts && n in heads && p < n <= top && heads[n].pinuse
      ensures forall q :: q in starts && p < q ==> p + heads[p].size <= q
    {
      After(heads, feet, starts, base, top, p);
    }

    /** Everything from a to e, with chunk p in use and the free chunks of gone, becomes one free chunk. */
    lemma Regain(a: Addr, e: Addr, p: Addr, gone: set<Addr>)
      requires Core() && a in starts && e in starts && a < e && e != top && a in heads && e in heads
      requires heads[a].pinuse && heads[e].cinuse && p in Live() && a <= p < e
      requires forall q :: q in starts && a <= q < e ==> q == p || q in gone
      requires forall q :: q in gone ==> a <= q < e && q != p && q in FreeMap()
      ensures var h', s' := MergeHeads(heads, a, e), Merged(starts, a, e);
        && TagsOk(h', feet[e := e - a], s', base, top) && top in h' && h'[top].size == topsize
        && FreeChunks(h', s', top) == (FreeMap() - gone)[a := e - a] && LiveChunks(h', s', top) == Live() - {p}
        && MINCHUNK <= e - a < LIMIT && Even(e - a) && a !in FreeMap() - gone && a != NIL
    {
      hide Even, Tiles, Ordered, Preceded, FlagsAt;
      Merge(heads, feet, starts, base, top, a, e);
      MergeMaps(heads, starts, top, a, e);
      After(heads, feet, starts, base, top, a);
      EvenApart(a, e);
      var fm, lm := FreeMap(), Live();
      LiveFacts(p);
      Restrict(fm, a, e, gone);
      Restrict(lm, a, e, {p});
    }

    lemma EvenApart(a: Addr, e: Addr)
      requires Core() && a in starts && e in starts && a < e
      ensures Even(e - a)
    {
      EvenSum(a, e - a);
    }

    /** The chunk before p is free: what of the bins is left without it. */
    lemma PrevFacts(p: Addr)
      requires Core() && p in Live() && !heads[p].pinuse
      ensures p in feet && feet[p] <= p
      ensures var a := p - feet[p]; a in starts && a in heads && a < p && heads[a].pinuse && a in FreeMap() && FreeMap()[a] == feet[p]
      ensures forall q :: q in starts && p - feet[p] < q ==> q >= p
    {
      Before(heads, feet, starts, base, top, p);
    }

    /** The bins as they are once the free chunk before p has been taken out of them. */
    ghost predicate BackBins(a: Addr, fs: Free)
      reads this
    {
      Maps() && if a == dv then BinningOk(fs, NIL, 0, small, tree) else Bins(fs)
    }

    /** What is merged so far reaches from a to next, and contains chunk p, in use, and at most a free one before it. */
    ghost predicate Back(p: Addr, a: Addr, size: nat, next: Addr)
      reads this
    {
      && Core() && p in Live() && next == p + Live()[p] && a + size == next && a in starts && a in heads && heads[a].pinuse
      && a <= p && (forall q :: q in starts && a <= q < next ==> q == p || q == a) && (if a == p then a != dv else a in FreeMap())
      && BackBins(a, FreeMap() - {a})
    }

    /** Consolidate backward. */
    method MergeBack(p: Addr, psize: nat, next: Addr) returns (a: Addr, size: nat)
      requires Valid() && p in Live() && psize == Live()[p] && next == p + psize
      modifies this`small, this`tree, this`smallmap, this`treemap
      ensures Back(p, a, size, next)
    {
      hide TagsOk, FreeChunks, LiveChunks, BinningOk, Even;
      LiveFacts(p);
      a, size := p, psize;
      if !heads[p].pinuse {
        PrevFacts(p);
        var prevsize := feet[p];
        a := p - prevsize;
        size := psize + prevsize;
        if a != dv {
          UnlinkChunk(a, prevsize, FreeMap());
        } else {
          DvFits(FreeMap(), dv, dvsize, small, tree) by { DvPositive(FreeMap(), dv, dvsize, small, tree, a); }
          DvOut(FreeMap(), dv, dvsize, small, tree);
        }
      } else {
        assert FreeMap() - {p} == FreeMap();
        NotDv(FreeMap(), dv, dvsize, small, tree, p);
      }
    }

    /** The next chunk is in use, and dv grows over p. */
    method GrowDv(p: Addr, a: Addr, size: nat, next: Addr)
      requires Back(p, a, size, next) && a == dv && next in heads && heads[next].cinuse && next != top
      modifies this`heads, this`feet, this`starts, this`dvsize
      ensures Valid() && Live() == old(Live()) - {p}
    {
      hide TagsOk, FreeChunks, LiveChunks, BinningOk, Even;
      LiveFacts(p);
      ghost var fs := FreeMap() - {a};
      AloneIn(p, a, next);
      Regain(a, next, p, if a == p then {} else {a});
      assert a != p ==> FreeMap() - (if a == p then {} else {a}) == fs;
      EvenMod(size);
      DvIn(fs, small, tree, a, size);
      dvsize := size;
      heads := heads[next := heads[next].(pinuse := false)][a := Head(size, true, false)];
      feet := feet[next := size];
      starts := Merged(starts, a, next);
    }

    lemma AloneIn(p: Addr, a: Addr, next: Addr)
      requires Core() && p in Live() && (a == p || a in FreeMap())
      ensures a == p ==> FreeMap() - {} == FreeMap() - {a}
    {
      LiveFacts(p);
    }

    /** The next chunk is in use: the merged chunk goes into a bin. */
    method FreeAlone(p: Addr, a: Addr, size: nat, next: Addr)
      requires Back(p, a, size, next) && a != dv && next in heads && heads[next].cinuse && next != top
      modifies this`heads, this`feet, this`starts, this`small, this`tree, this`smallmap, this`treemap
      ensures Valid() && Live() == old(Live()) - {p}
    {
      hide TagsOk, FreeChunks, LiveChunks, BinningOk, Even;
      LiveFacts(p);
      ghost var fs := FreeMap() - {a};
      AloneIn(p, a, next);
      Regain(a, next, p, if a == p then {} else {a});
      heads := heads[next := heads[next].(pinuse := false)][a := Head(size, true, false)];
      feet := feet[next := size];
      starts := Merged(starts, a, next);
      InsertChunk(a, size, fs);
    }

    /** The next chunk is top: it grows backward. */
    method FreeIntoTop(p: Addr, a: Addr, size: nat, next: Addr)
      requires Back(p, a, size, next) && next == top
      modifies this`heads, this`starts, this`top, this`topsize, this`dv, this`dvsize
      ensures Valid() && Live() == old(Live()) - {p}
    {
      hide BinningOk, Even, Tiles, Ordered, Preceded, FlagsAt;
      LiveFacts(p);
      var tsize := topsize + size;
      MergeTop(heads, feet, starts, base, top, a, tsize);
      MergeTopMaps(heads, starts, top, a, tsize);
      InTop(FreeMap(), a, top, {a});
      InTop(Live(), a, top, {p});
      topsize := tsize;
      starts := Merged(starts, a, top + 1);
      top := a;
      heads := heads[a := Head(tsize, true, false)];
      if a == dv {
        dv, dvsize := NIL, 0;
      }
    }

    /** The next chunk is dv: it grows backward. */
    method FreeIntoDv(p: Addr, a: Addr, size: nat, next: Addr)
      requires Back(p, a, size, next) && next == dv && next != top && next in heads && !heads[next].cinuse && a != dv
      modifies this`heads, this`feet, this`starts, this`dv, this`dvsize
      ensures Valid() && Live() == old(Live()) - {p}
    {
      hide TagsOk, FreeChunks, LiveChunks, BinningOk, Even;
      ghost var fs := FreeMap() - {a};
      NextFree(p, a, size, next);
      DvOut(fs, dv, dvsize, small, tree);
      var dsize := dvsize + size;
      ghost var e := a + dsize;
      Regain(a, e, p, if a == p then {next} else {a, next});
      assert FreeMap() - (if a == p then {next} else {a, next}) == fs - {next} by { AloneIn(p, a, next); }
      EvenMod(dsize);
      DvIn(fs - {next}, small, tree, a, dsize);
      assert MergeHeads(heads, a, e) == heads[a := Head(dsize, true, false)];
      dvsize := dsize;
      dv := a;
      heads := heads[a := Head(dsize, true, false)];
      feet := feet[a + dsize := dsize];
      starts := Merged(starts, a, a + dsize);
    }

    /** The free chunk after p: it ends at a chunk in use, and dv, if it is that chunk, has its size. */
    lemma NextFree(p: Addr, a: Addr, size: nat, next: Addr)
      requires Back(p, a, size, next) && next != top && next in heads && !heads[next].cinuse
      ensures next in starts && next in FreeMap() && next != a && next != p && FreeMap()[next] == heads[next].size
      ensures var e := next + heads[next].size; e in starts && e in heads && e != top && heads[e].cinuse && !heads[e].pinuse && next < e
      ensures forall q :: q in starts && a <= q < next + heads[next].size ==> q == p || q == a || q == next
      ensures next == dv && a != dv ==> dvsize == heads[next].size && dvsize > 0
    {
      LiveFacts(p);
      After(heads, feet, starts, base, top, next);
      if next == dv && a != dv { DvIs(FreeMap() - {a}, dv, dvsize, small, tree, next); }
    }

    /** The next chunk is free and binned: merge it too. */
    method FreeWithNext(p: Addr, a: Addr, size: nat, next: Addr)
      requires Back(p, a, size, next) && next != dv && next != top && next in heads && !heads[next].cinuse
      modifies this`heads, this`feet, this`starts, this`dvsize, this`small, this`tree, this`smallmap, this`treemap
      ensures Valid() && Live() == old(Live()) - {p}
    {
      hide TagsOk, FreeChunks, LiveChunks, BinningOk, Even;
      ghost var fs := FreeMap() - {a};
      NextFree(p, a, size, next);
      var nsize := heads[next].size;
      var psize := size + nsize;
      ghost var e := a + psize;
      Regain(a, e, p, if a == p then {next} else {a, next});
      assert FreeMap() - (if a == p then {next} else {a, next}) == fs - {next} by { AloneIn(p, a, next); }
      assert MergeHeads(heads, a, e) == heads[a := Head(psize, true, false)];
      NextUnlinked(a, next, fs);
      UnlinkNext(next, nsize, fs, if a == dv then NIL else dv, if a == dv then 0 else dvsize);
      heads := heads[a := Head(psize, true, false)];
      feet := feet[a + psize := psize];
      starts := Merged(starts, a, a + psize);
      if a == dv {
        EvenMod(psize);
        DvIn(fs - {next}, small, tree, a, psize);
        dvsize := psize;
      } else {
        InsertChunk(a, psize, fs - {next});
      }
    }

    lemma NextUnlinked(a: Addr, next: Addr, fs: Free)
      requires BackBins(a, fs)
      ensures BinningOk(fs, if a == dv then NIL else dv, if a == dv then 0 else dvsize, small, tree)
    {
    }

    /** unlink_chunk for bins that go with the given dv. */
    method UnlinkNext(c: Chunk, z: nat, ghost fs: Free, ghost d: Chunk, ghost ds: nat)
      requires BinningOk(fs, d, ds, small, tree) && Maps() && c in fs && fs[c] == z && c != d
      modifies this`small, this`tree, this`smallmap, this`treemap
      ensures BinningOk(fs - {c}, d, ds, small, tree) && Maps()
    {
      hide SmallOk, TreeOk, AllIn, Sized, DvOk, Maps;
      if IsSmall(z) { SmallOut(fs, d, ds, small, tree, c); } else { LargeOut(fs, d, ds, small, tree, c); }
      BinOut(c, z);
    }

    /** mspace_free: exactly the chunk given back is no longer in use. */
    method MspaceFree(mem: Addr)
      requires Valid() && (mem != 0 ==> mem >= MEM && mem - MEM in Live())
      modifies this
      ensures Valid() && Live() == if mem == 0 then old(Live()) else old(Live()) - {mem - MEM}
    {
      hide TagsOk, FreeChunks, LiveChunks, BinningOk, Even, Back;
      if mem != 0 {
        var p := mem - MEM;
        LiveFacts(p);
        var psize := heads[p].size;
        var next := p + psize;
        NextInUse(next);
        var a, size := MergeBack(p, psize, next);
        if a != p && a == dv && heads[next].cinuse {
          GrowDv(p, a, size, next);
        } else if !heads[next].cinuse {
          if next == top {
            FreeIntoTop(p, a, size, next);
          } else if next == dv {
            DvOther(p, a, size, next);
            FreeIntoDv(p, a, size, next);
          } else {
            FreeWithNext(p, a, size, next);
          }
        } else {
          BackDv(p, a, size, next);
          FreeAlone(p, a, size, next);
        }
      }
    }

    lemma NextInUse(next: Addr)
      requires Core() && next in heads
      ensures heads[next].cinuse ==> next != top
    {
    }

    lemma DvOther(p: Addr, a: Addr, size: nat, next: Addr)
      requires Back(p, a, size, next) && next == dv
      ensures a != dv
    {
      LiveFacts(p);
    }

    /** Unless the free chunk before p was dv, what is merged is not dv. */
    lemma BackDv(p: Addr, a: Addr, size: nat, next: Addr)
      requires Back(p, a, size, next) && (a == p || a != dv)
      ensures a != dv
    {
    }

    /** Live blocks lie inside the segment and never overlap. */
    lemma LiveDisjoint(p: Addr, q: Addr)
      requires Valid() && p in Live() && q in Live() && p != q
      ensures base <= p && p + Live()[p] <= end && Even(p)
      ensures p + Live()[p] <= q || q + Live()[q] <= p
    {
      LiveFacts(p);
      LiveFacts(q);
      NoOverlap(heads, feet, starts, base, top, p, q);
    }

    lemma FreeSmall()
      requires Valid()
      ensures (forall c :: c in FreeMap() ==> FreeMap()[c] < LIMIT) && topsize < LIMIT && dvsize < LIMIT
    {
      forall c | c in FreeMap() ensures FreeMap()[c] < LIMIT { FreeFacts(c); }
    }
  }

  lemma EvenMod(z: nat)
    requires Even(z)
    ensures z % 16 == 0
  {
  }

  /** What lies outside [a, e) when exactly the keys in gone lie inside. */
  lemma Restrict(m: map<Addr, nat>, a: Addr, e: Addr, gone: set<Addr>)
    requires forall q :: q in m && a <= q < e ==> q in gone
    requires forall q :: q in gone ==> a <= q < e
    ensures (map q | q in m && (q < a || q >= e) :: m[q]) == m - gone
  {
  }

  lemma InTop(m: map<Addr, nat>, a: Addr, top: Addr, gone: set<Addr>)
    requires forall q :: q in m && q >= a ==> q in gone
    requires forall q :: q in gone ==> q >= a
    ensures (map q | q in m && q < a :: m[q]) == m - gone
  {
  }

  lemma MemEven(p: Addr)
    requires Even(p)
    ensures Even(p + MEM)
  {
  }

  /** The bins that the smallmap marks. */
  function SmallUsed(small: seq<seq<Chunk>>): (u: seq<bool>)
    ensures |u| == |small|
  {
    seq(|small|, i requires 0 <= i < |small| => small[i] != [])
  }

  /** A map goes with one changed bin when its bit is set or cleared accordingly. */
  lemma SmallMarks(small: seq<seq<Chunk>>, m: bv32, i: nat, q: seq<Chunk>)
    requires |small| == NSMALLBINS && i < NSMALLBINS && MapOk(m, SmallUsed(small))
    ensures MapOk(if q != [] then Mark(m, i) else Clear(m, i), SmallUsed(small[i := q]))
    ensures (Marked(m, i) <==> small[i] != []) && ((q != []) == (small[i] != []) ==> MapOk(m, SmallUsed(small[i := q])))
  {
    hide MapOk, Marked, Mark, Clear;
    MarkOk(m, SmallUsed(small), i);
    MarkedUsed(m, SmallUsed(small), i);
    assert SmallUsed(small[i := q]) == SmallUsed(small)[i := q != []];
    if (q != []) == (small[i] != []) { assert SmallUsed(small[i := q]) == SmallUsed(small); }
  }

  lemma TreeMarks(tree: seq<Tree>, m: bv32, i: nat, t: Tree)
    requires |tree| == NTREEBINS && i < NTREEBINS && MapOk(m, TreeUsed(tree))
    ensures MapOk(if t.Node? then Mark(m, i) else Clear(m, i), TreeUsed(tree[i := t]))
    ensures (Marked(m, i) <==> tree[i].Node?) && (t.Node? == tree[i].Node? ==> MapOk(m, TreeUsed(tree[i := t])))
  {
    hide MapOk, Marked, Mark, Clear;
    MarkOk(m, TreeUsed(tree), i);
    MarkedUsed(m, TreeUsed(tree), i);
    assert TreeUsed(tree[i := t]) == TreeUsed(tree)[i := t.Node?];
    if t.Node? == tree[i].Node? { assert TreeUsed(tree[i := t]) == TreeUsed(tree); }
  }

  lemma MarkedUsed(m: bv32, used: seq<bool>, i: nat)
    requires MapOk(m, used) && i < 32
    ensures Marked(m, i) <==> used[i]
  {
  }

  lemma NothingMarked(used: seq<bool>)
    requires |used| == 32 && forall i :: 0 <= i < 32 ==> !used[i]
    ensures MapOk(0, used)
  {
    hide Marked;
    forall i | 0 <= i < 32 ensures !Marked(0, i) { ZeroMarked(i); }
  }

  lemma NoSmall(small: seq<seq<Chunk>>, idx: nat)
    requires |small| == NSMALLBINS && forall j :: idx <= j < 32 ==> !SmallUsed(small)[j]
    ensures forall i :: idx <= i < NSMALLBINS ==> small[i] == []
  {
    forall i | idx <= i < NSMALLBINS ensures small[i] == [] { assert !SmallUsed(small)[i]; }
  }

  lemma NothingUsed(tree: seq<Tree>, m: bv32)
    requires |tree| == NTREEBINS && MapOk(m, TreeUsed(tree)) && m == 0
    ensures forall i :: 0 <= i < |tree| ==> tree[i].Nil?
  {
    hide Marked;
    forall i | 0 <= i < |tree| ensures tree[i].Nil? {
      ZeroMarked(i);
      assert !TreeUsed(tree)[i];
    }
  }

  /** Linking and unlinking concern one bin; a bin into which something is linked is not empty. */
  lemma OneTree(tree: seq<Tree>, c: Chunk, z: nat)
    requires |tree| == NTREEBINS && TreeIndex(z) < NTREEBINS
    ensures UnlinkLarge(tree, c, z) == tree[TreeIndex(z) := UnlinkLarge(tree, c, z)[TreeIndex(z)]]
    ensures InsertLarge(tree, c, z) == tree[TreeIndex(z) := InsertLarge(tree, c, z)[TreeIndex(z)]]
    ensures InsertLarge(tree, c, z)[TreeIndex(z)].Node?
    ensures UnlinkLarge(tree, c, z)[TreeIndex(z)].Node? ==> tree[TreeIndex(z)].Node?
    ensures |UnlinkLarge(tree, c, z)| == NTREEBINS && |InsertLarge(tree, c, z)| == NTREEBINS
  {
    hide TreeIndex;
  }

  lemma BestNode(tree: seq<Tree>, nb: nat, v: Tree)
    requires IsBestFit(tree, nb, v)
    ensures v.Node? && v.ring != []
  {
  }

  lemma BinsLen(fs: Free, dv: Chunk, dvsize: nat, small: seq<seq<Chunk>>, tree: seq<Tree>)
    requires BinningOk(fs, dv, dvsize, small, tree)
    ensures |small| == NSMALLBINS && |tree| == NTREEBINS && BinsOk(tree) && (dvsize == 0 || (32 <= dvsize < LIMIT && dv in fs))
  {
  }

  lemma DvPositive(fs: Free, dv: Chunk, dvsize: nat, small: seq<seq<Chunk>>, tree: seq<Tree>, a: Chunk)
    requires BinningOk(fs, dv, dvsize, small, tree) && a in fs && a == dv
    ensures dvsize > 0
  {
  }

  lemma DvIs(fs: Free, dv: Chunk, dvsize: nat, small: seq<seq<Chunk>>, tree: seq<Tree>, c: Chunk)
    requires BinningOk(fs, dv, dvsize, small, tree) && c in fs && c == dv
    ensures dvsize == fs[c] && dvsize > 0
  {
  }

  /** A chunk in use is not dv. */
  lemma NotDv(fs: Free, dv: Chunk, dvsize: nat, small: seq<seq<Chunk>>, tree: seq<Tree>, p: Chunk)
    requires BinningOk(fs, dv, dvsize, small, tree) && p !in fs && p != NIL
    ensures p != dv
  {
  }

  lemma DvFits(fs: Free, dv: Chunk, dvsize: nat, small: seq<seq<Chunk>>, tree: seq<Tree>)
    requires BinningOk(fs, dv, dvsize, small, tree) && dvsize > 0
    ensures dv in fs && fs[dv] == dvsize
  {
  }

  lemma NoBins(small: seq<seq<Chunk>>, tree: seq<Tree>)
    requires |small| == NSMALLBINS && |tree| == NTREEBINS
    requires (forall i :: 0 <= i < NSMALLBINS ==> small[i] == []) && (forall i :: 0 <= i < NTREEBINS ==> tree[i] == Nil)
    ensures BinningOk(map[], NIL, 0, small, tree)
  {
    forall i | 0 <= i < NTREEBINS ensures BinOk(tree[i], i) { NoSizes(); }
  }

  lemma NotFree(h: Heads, s: set<Addr>, top: Addr, r: Addr)
    requires r !in s
    ensures r !in FreeChunks(h, s, top)
  {
  }

  /** A free chunk and its neighbour are not the top chunk. */
  lemma TopStays(h: Heads, f: Feet, s: set<Addr>, base: Addr, top: Addr, p: Addr)
    requires TagsOk(h, f, s, base, top) && p in s && p < top && p in h && !h[p].cinuse
    ensures p + h[p].size < top && top in h && base in h && base > 0 ==> p > 0
    ensures p + h[p].size != top
  {
    After(h, f, s, base, top, p);
  }

  lemma DvSized(fs: Free, dv: Chunk, dvsize: nat, small: seq<seq<Chunk>>, tree: seq<Tree>)
    requires BinningOk(fs, dv, dvsize, small, tree) && dvsize != 0
    ensures dv in fs && fs[dv] == dvsize && dv != NIL && 32 <= dvsize < LIMIT && Even(dvsize)
  {
  }
}
