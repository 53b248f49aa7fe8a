/** Which bin holds which free chunk (lib/dlmalloc.c): small bins, tree bins and the designated victim dv together
    hold every free chunk exactly once. */
module Binning {
  import opened Trie
  import opened BestFit

  const NSMALLBINS: nat := 32

  /** The free chunks with their sizes. */
  type Free = map<Chunk, nat>

  predicate IsSmall(z: nat) { z / 8 < NSMALLBINS }

  ghost predicate InBins(small: seq<seq<Chunk>>, tree: seq<Tree>, c: Chunk, z: nat)
    requires |small| == NSMALLBINS
  {
    if IsSmall(z) then c in small[z / 8] else Binned(tree, c, z)
  }

  ghost predicate SmallOk(fs: Free, dv: Chunk, small: seq<seq<Chunk>>)
  {
    && |small| == NSMALLBINS && (forall i :: 0 <= i < NSMALLBINS ==> Distinct(small[i]))
    && (forall i, c :: 0 <= i < NSMALLBINS && c in small[i] ==> c in fs && fs[c] == 8 * i && c != dv)
  }

  ghost predicate TreeOk(fs: Free, dv: Chunk, tree: seq<Tree>)
  {
    BinsOk(tree) && forall c: Chunk, z: nat :: Binned(tree, c, z) ==> c in fs && fs[c] == z && c != dv
  }

  ghost predicate DvOk(fs: Free, dv: Chunk, dvsize: nat)
  {
    NIL !in fs && if dvsize == 0 then dv == NIL else dv in fs && fs[dv] == dvsize
  }

  ghost predicate AllIn(fs: Free, dv: Chunk, small: seq<seq<Chunk>>, tree: seq<Tree>)
    requires |small| == NSMALLBINS
  {
    forall c :: c in fs && c != dv ==> InBins(small, tree, c, fs[c])
  }

  ghost predicate Sized(fs: Free)
  {
    forall c :: c in fs ==> 32 <= fs[c] < LIMIT && fs[c] % 16 == 0
  }

  ghost predicate BinningOk(fs: Free, dv: Chunk, dvsize: nat, small: seq<seq<Chunk>>, tree: seq<Tree>)
  {
    SmallOk(fs, dv, small) && TreeOk(fs, dv, tree) && DvOk(fs, dv, dvsize) && AllIn(fs, dv, small, tree) && Sized(fs)
  }

  /** unlink_small_chunk */
  function UnlinkSmall(small: seq<seq<Chunk>>, c: Chunk, z: nat): (small': seq<seq<Chunk>>)
    requires |small| == NSMALLBINS && IsSmall(z) && c in small[z / 8]
    ensures |small'| == NSMALLBINS
  {
    small[z / 8 := Drop(small[z / 8], c)]
  }

  lemma SmallOut(fs: Free, dv: Chunk, dvsize: nat, small: seq<seq<Chunk>>, tree: seq<Tree>, c: Chunk)
    requires BinningOk(fs, dv, dvsize, small, tree) && c in fs && c != dv && IsSmall(fs[c])
    ensures |small| == NSMALLBINS && c in small[fs[c] / 8]
    ensures BinningOk(fs - {c}, dv, dvsize, UnlinkSmall(small, c, fs[c]), tree)
  {
    hide BinsOk, Binned, Drop, Distinct;
    assert InBins(small, tree, c, fs[c]);
    var i := fs[c] / 8;
    DropHas(small[i], c) by { assert Distinct(small[i]); }
    var small' := UnlinkSmall(small, c, fs[c]);
    forall b: Chunk, z: nat | Binned(tree, b, z) ensures b in fs - {c} {
      if b == c { LargeSize(tree, b, z); }
    }
    forall b | b in fs - {c} && b != dv ensures InBins(small', tree, b, (fs - {c})[b]) {
      assert InBins(small, tree, b, fs[b]);
    }
  }

  lemma LargeSize(tree: seq<Tree>, c: Chunk, z: nat)
    requires BinsOk(tree) && Binned(tree, c, z)
    ensures MINLARGE <= z < LIMIT && TreeIndex(z) < NTREEBINS
  {
    var i :| 0 <= i < |tree| && (c, z) in Items(tree[i]);
    BinSize(tree, i, c, z);
  }

  lemma LargeOut(fs: Free, dv: Chunk, dvsize: nat, small: seq<seq<Chunk>>, tree: seq<Tree>, c: Chunk)
    requires BinningOk(fs, dv, dvsize, small, tree) && c in fs && c != dv && !IsSmall(fs[c])
    ensures |tree| == NTREEBINS && Binned(tree, c, fs[c]) && TreeIndex(fs[c]) < NTREEBINS
    ensures BinningOk(fs - {c}, dv, dvsize, small, UnlinkLarge(tree, c, fs[c]))
  {
    hide BinsOk, Binned, UnlinkLarge, TreeIndex;
    assert InBins(small, tree, c, fs[c]);
    UnlinkLargeOk(tree, c, fs[c]);
    var tree' := UnlinkLarge(tree, c, fs[c]);
    forall i, b | 0 <= i < NSMALLBINS && b in small[i] ensures b != c {
      assert fs[b] == 8 * i;
    }
    forall b | b in fs - {c} && b != dv ensures InBins(small, tree', b, (fs - {c})[b]) {
      assert InBins(small, tree, b, fs[b]);
    }
  }

  /** insert_small_chunk */
  function InsertSmall(small: seq<seq<Chunk>>, c: Chunk, z: nat): (small': seq<seq<Chunk>>)
    requires |small| == NSMALLBINS && IsSmall(z)
    ensures |small'| == NSMALLBINS
  {
    small[z / 8 := [c] + small[z / 8]]
  }

  lemma SmallIn(fs: Free, dv: Chunk, dvsize: nat, small: seq<seq<Chunk>>, tree: seq<Tree>, c: Chunk, z: nat)
    requires BinningOk(fs, dv, dvsize, small, tree) && c !in fs && c != NIL && IsSmall(z) && z >= 32 && z % 16 == 0
    ensures |small| == NSMALLBINS && BinningOk(fs[c := z], dv, dvsize, InsertSmall(small, c, z), tree)
  {
    hide BinsOk, Binned;
    var i := z / 8;
    var small' := InsertSmall(small, c, z);
    assert Distinct(small'[i]) by { assert c !in small[i] && Distinct(small[i]); }
    assert z == 8 * i;
    var fs' := fs[c := z];
    forall b | b in fs' && b != dv ensures InBins(small', tree, b, fs'[b]) {
      if b != c { assert InBins(small, tree, b, fs[b]); }
    }
  }

  lemma LargeIn(fs: Free, dv: Chunk, dvsize: nat, small: seq<seq<Chunk>>, tree: seq<Tree>, c: Chunk, z: nat)
    requires BinningOk(fs, dv, dvsize, small, tree) && c !in fs && c != NIL && !IsSmall(z) && z < LIMIT && z % 16 == 0
    ensures |tree| == NTREEBINS && TreeIndex(z) < NTREEBINS && BinningOk(fs[c := z], dv, dvsize, small, InsertLarge(tree, c, z))
  {
    hide BinsOk, Binned, InsertLarge, TreeIndex;
    InsertLargeOk(tree, c, z);
    var tree' := InsertLarge(tree, c, z);
    var fs' := fs[c := z];
    forall b | b in fs' && b != dv ensures InBins(small, tree', b, fs'[b]) {
      if b != c { assert InBins(small, tree, b, fs[b]); }
    }
  }

  lemma DvOut(fs: Free, dv: Chunk, dvsize: nat, small: seq<seq<Chunk>>, tree: seq<Tree>)
    requires BinningOk(fs, dv, dvsize, small, tree) && dvsize > 0
    ensures BinningOk(fs - {dv}, NIL, 0, small, tree)
  {
    hide BinsOk, Binned, Distinct;
    forall b | b in fs - {dv} ensures InBins(small, tree, b, (fs - {dv})[b]) {
      assert InBins(small, tree, b, fs[b]);
    }
  }

  lemma DvIn(fs: Free, small: seq<seq<Chunk>>, tree: seq<Tree>, c: Chunk, z: nat)
    requires BinningOk(fs, NIL, 0, small, tree) && c !in fs && c != NIL && 32 <= z < LIMIT && z % 16 == 0
    ensures BinningOk(fs[c := z], c, z, small, tree)
  {
    hide BinsOk, Binned, Distinct;
    var fs' := fs[c := z];
    forall b | b in fs' && b != c ensures InBins(small, tree, b, fs'[b]) {
      assert InBins(small, tree, b, fs[b]);
    }
  }

  /** A best fitting tree chunk is a best fitting chunk among all that are not small, other than dv. */
  lemma BestOfLarge(fs: Free, dv: Chunk, dvsize: nat, small: seq<seq<Chunk>>, tree: seq<Tree>, c: Chunk)
    requires BinningOk(fs, dv, dvsize, small, tree) && c in fs && c != dv
    ensures IsSmall(fs[c]) ==> c in small[fs[c] / 8]
    ensures !IsSmall(fs[c]) ==> Binned(tree, c, fs[c])
  {
    assert InBins(small, tree, c, fs[c]);
  }

  /** The first chunk of a small bin. */
  lemma FirstSmall(fs: Free, dv: Chunk, dvsize: nat, small: seq<seq<Chunk>>, tree: seq<Tree>, i: nat)
    requires BinningOk(fs, dv, dvsize, small, tree) && i < NSMALLBINS && small[i] != []
    ensures var c := small[i][0]; c in fs && fs[c] == 8 * i && c != dv && IsSmall(8 * i) && UnlinkSmall(small, c, 8 * i) == small[i := small[i][1..]]
  {
    assert small[i][0] in small[i];
  }

  lemma FirstTree(fs: Free, dv: Chunk, dvsize: nat, small: seq<seq<Chunk>>, tree: seq<Tree>, nb: nat, v: Tree)
    requires BinningOk(fs, dv, dvsize, small, tree) && IsBestFit(tree, nb, v)
    ensures v.ring[0] in fs && fs[v.ring[0]] == v.size && v.ring[0] != dv && v.size >= nb && !IsSmall(v.size)
  {
    assert Binned(tree, v.ring[0], v.size);
    LargeSize(tree, v.ring[0], v.size);
  }

  /** All free chunks are smaller than nb if those in the bins and dv are. */
  lemma NothingLeft(fs: Free, dv: Chunk, dvsize: nat, small: seq<seq<Chunk>>, tree: seq<Tree>, nb: nat)
    requires BinningOk(fs, dv, dvsize, small, tree) && dvsize < nb
    requires forall i :: 0 <= i < NSMALLBINS && 8 * i >= nb ==> small[i] == []
    requires forall c: Chunk, z: nat :: Binned(tree, c, z) ==> z < nb
    ensures forall c :: c in fs ==> fs[c] < nb
  {
    hide Binned, BinsOk;
    forall c | c in fs ensures fs[c] < nb {
      if c != dv {
        BestOfLarge(fs, dv, dvsize, small, tree, c);
        if IsSmall(fs[c]) { assert small[fs[c] / 8] != []; }
      } else { DvHas(fs, dv, dvsize); }
    }
  }

  /** Free chunk c, which is not dv, is the smallest of those that have room for nb bytes. */
  ghost predicate BestOf(fs: Free, dv: Chunk, c: Chunk, nb: nat)
  {
    c in fs && c != dv && fs[c] >= nb && forall b :: b in fs && b != dv && fs[b] >= nb ==> fs[c] <= fs[b]
  }

  /** The first small bin from nb bytes on that has a chunk has the best. */
  lemma BestSmall(fs: Free, dv: Chunk, dvsize: nat, small: seq<seq<Chunk>>, tree: seq<Tree>, i: nat, nb: nat)
    requires BinningOk(fs, dv, dvsize, small, tree) && i < NSMALLBINS && small[i] != [] && nb <= 8 * i
    requires forall j :: nb / 8 <= j < i ==> small[j] == []
    ensures BestOf(fs, dv, small[i][0], nb) && small[i][0] in fs && small[i][0] != dv && fs[small[i][0]] == 8 * i
  {
    hide Binned, BinsOk;
    assert small[i][0] in small[i];
    forall b | b in fs && b != dv && fs[b] >= nb ensures 8 * i <= fs[b] {
      assert InBins(small, tree, b, fs[b]);
      if IsSmall(fs[b]) { assert small[fs[b] / 8] != []; }
    }
  }

  /** Without a small bin that fits, the best fit of the trees is the best. */
  lemma BestLarge(fs: Free, dv: Chunk, dvsize: nat, small: seq<seq<Chunk>>, tree: seq<Tree>, v: Tree, nb: nat)
    requires BinningOk(fs, dv, dvsize, small, tree) && IsBestFit(tree, nb, v)
    requires forall j :: nb / 8 <= j < NSMALLBINS ==> small[j] == []
    ensures v.Node? && v.ring != [] && BestOf(fs, dv, v.ring[0], nb) && v.ring[0] in fs && v.ring[0] != dv && fs[v.ring[0]] == v.size
  {
    hide Binned, BinsOk;
    FirstTree(fs, dv, dvsize, small, tree, nb, v);
    forall b | b in fs && b != dv && fs[b] >= nb ensures v.size <= fs[b] {
      assert InBins(small, tree, b, fs[b]);
      if IsSmall(fs[b]) { assert false; }
    }
  }

  /** What the bins lack, the free chunks do. */
  lemma NoneBetween(fs: Free, dv: Chunk, dvsize: nat, small: seq<seq<Chunk>>, tree: seq<Tree>, nb: nat)
    requires BinningOk(fs, dv, dvsize, small, tree) && nb / 8 + 1 < NSMALLBINS && nb % 8 == 0
    requires small[nb / 8] == [] && small[nb / 8 + 1] == []
    ensures forall c :: c in fs && c != dv && fs[c] >= nb ==> fs[c] > nb + 8
  {
    hide Binned, BinsOk;
    forall c | c in fs && c != dv && fs[c] >= nb ensures fs[c] > nb + 8 {
      assert InBins(small, tree, c, fs[c]);
      if IsSmall(fs[c]) { assert small[fs[c] / 8] != []; }
    }
  }

  lemma TreesBehind(fs: Free, dv: Chunk, dvsize: nat, small: seq<seq<Chunk>>, tree: seq<Tree>, nb: nat)
    requires BinningOk(fs, dv, dvsize, small, tree) && !IsSmall(nb)
    requires forall c: Chunk, s: nat :: Binned(tree, c, s) && s >= nb ==> dvsize <= s
    ensures forall c :: c in fs && c != dv && fs[c] >= nb ==> dvsize <= fs[c]
  {
    hide Binned, BinsOk;
    forall c | c in fs && c != dv && fs[c] >= nb ensures dvsize <= fs[c] {
      assert InBins(small, tree, c, fs[c]);
    }
  }

  /** The chunk from which an allocation is served.  A small request takes a best fit if it leaves no remainder, else dv if that
      has room, else a best fit; a large one takes the best fit, dv counting among the rest; top is the last resort. */
  ghost predicate Chosen(fs: Free, dv: Chunk, dvsize: nat, top: Chunk, p: Chunk, nb: nat, small: bool)
  {
    if p == dv && p in fs then dvsize >= nb && forall c :: c in fs && c != dv && fs[c] >= nb ==> if small then fs[c] > nb + 8 else dvsize <= fs[c]
    else if p in fs then BestOf(fs, dv, p, nb) && (dvsize < nb || if small then fs[p] <= nb + 8 else fs[p] < dvsize)
    else p == top && forall c :: c in fs ==> fs[c] < nb
  }

  lemma ChosenBest(fs: Free, dv: Chunk, dvsize: nat, top: Chunk, p: Chunk, nb: nat, small: bool)
    requires BestOf(fs, dv, p, nb)
    ensures p in fs && p != dv
    ensures dvsize < nb || (if small then fs[p] <= nb + 8 else fs[p] < dvsize) ==> Chosen(fs, dv, dvsize, top, p, nb, small)
  {
  }

  lemma ChosenDv(fs: Free, dv: Chunk, dvsize: nat, top: Chunk, nb: nat, small: bool)
    requires dv in fs && dvsize >= nb
    requires forall c :: c in fs && c != dv && fs[c] >= nb ==> if small then fs[c] > nb + 8 else dvsize <= fs[c]
    ensures Chosen(fs, dv, dvsize, top, dv, nb, small)
  {
  }

  lemma ChosenTop(fs: Free, dv: Chunk, dvsize: nat, top: Chunk, nb: nat, small: bool)
    requires top !in fs && forall c :: c in fs ==> fs[c] < nb
    ensures Chosen(fs, dv, dvsize, top, top, nb, small)
  {
  }

  lemma DvHas(fs: Free, dv: Chunk, dvsize: nat)
    requires DvOk(fs, dv, dvsize) && dv in fs
    ensures fs[dv] == dvsize
  {
  }

  lemma EmptyTrees(tree: seq<Tree>)
    requires forall i :: 0 <= i < |tree| ==> tree[i].Nil?
    ensures forall c: Chunk, z: nat :: !Binned(tree, c, z)
  {
    forall c: Chunk, z: nat ensures !Binned(tree, c, z) {
      forall i | 0 <= i < |tree| ensures (c, z) !in Items(tree[i]) { assert tree[i].Nil?; }
    }
  }
}
