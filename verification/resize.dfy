/** mspace_realloc (lib/dlmalloc.c): shrink or grow a block in place, or move it. */
module Resizing {
  import opened BestFit
  import opened Tiling
  import opened Binning
  import opened Mspaces
  import opened Cutting

  const OVERHEAD: nat := 8            // CHUNK_OVERHEAD

  /** What the caller sees: the block at p became one of at least nb bytes at q, and nothing else changed. */
  predicate Resized(live: map<Addr, nat>, live': map<Addr, nat>, p: Addr, q: Addr, nb: nat)
  {
    && p in live && q in live' && (q == p || q !in live) && live' == (live - {p})[q := live'[q]]
    && nb <= live'[q] < nb + MINCHUNK
  }

  /** The block at p grows or shrinks where it is. */
  predicate InPlace(live: map<Addr, nat>, top: Addr, topsize: nat, p: Addr, nb: nat)
    requires p in live
  {
    live[p] >= nb || (p + live[p] == top && live[p] + topsize > nb)
  }

  /** The bytes of a block of a chunk of z bytes; data holds the segment from base on, and the word after it. */
  function Block(data: seq<bv8>, base: Addr, p: Addr, z: nat): seq<bv8>
    requires base <= p && OVERHEAD <= z && p + z - base + OVERHEAD <= |data|
  {
    data[p + MEM - base..p + z + OVERHEAD - base]
  }

  /** All blocks have their bytes in data. */
  ghost predicate Holds(data: seq<bv8>, base: Addr, live: map<Addr, nat>)
  {
    forall p :: p in live ==> base <= p && MINCHUNK <= live[p] && p + live[p] - base + OVERHEAD <= |data|
  }

  /** Give back what exceeds nb bytes of the chunk p in use: it is a block of its own. */
  method CutTail(ms: Mspace, p: Addr, nb: nat)
    requires ms.Valid() && p in ms.Live() && nb >= MINCHUNK && Even(nb) && ms.Live()[p] >= nb + MINCHUNK
    modifies ms`heads, ms`starts
    ensures ms.Valid() && p + nb !in old(ms.Live())
    ensures ms.Live() == old(ms.Live())[p := nb][p + nb := old(ms.Live())[p] - nb]
  {
    hide TagsOk, FreeChunks, LiveChunks, BinningOk, Even;
    ms.LiveFacts(p);
    NotLive(ms.heads, ms.starts, ms.top, p + nb);
    Cut(ms.heads, ms.feet, ms.starts, ms.base, ms.top, p, nb);
    var size := ms.heads[p].size;
    var r, next := p + nb, p + size;
    ms.heads := ms.heads[p := Head(nb, ms.heads[p].pinuse, true)][r := Head(size - nb, true, true)]
                        [next := ms.heads[next].(pinuse := true)];
    assert ms.heads == CutHeads(old(ms.heads), p, nb);
    ms.starts := ms.starts + {r};
  }

  lemma NotLive(h: Heads, s: set<Addr>, top: Addr, r: Addr)
    ensures r !in s ==> r !in LiveChunks(h, s, top)
  {
  }

  /** Expand into top. */
  method GrowIntoTop(ms: Mspace, p: Addr, nb: nat)
    requires ms.Valid() && p in ms.Live() && Even(nb) && p + ms.Live()[p] == ms.top
    requires ms.Live()[p] < nb < ms.Live()[p] + ms.topsize
    modifies ms`heads, ms`starts, ms`top, ms`topsize
    ensures ms.Valid() && ms.Live() == old(ms.Live())[p := nb]
  {
    hide FreeChunks, LiveChunks, BinningOk, Even, Tiles, Ordered, Preceded, FlagsAt;
    ms.LiveFacts(p);
    Grow(ms.heads, ms.feet, ms.starts, ms.base, ms.top, p, nb);
    var newtopsize := ms.heads[p].size + ms.topsize - nb;
    var newtop := p + nb;
    ms.heads := ms.heads[newtop := Head(newtopsize, true, false)][p := Head(nb, ms.heads[p].pinuse, true)];
    ms.starts := ms.starts - {ms.top} + {newtop};
    ms.top := newtop;
    ms.topsize := newtopsize;
  }

  method Memcpy(data: array<bv8>, dst: nat, src: nat, n: nat)
    requires dst + n <= data.Length && src + n <= data.Length && (dst + n <= src || src + n <= dst)
    modifies data
    ensures forall k :: 0 <= k < data.Length ==> data[k] == if dst <= k < dst + n then old(data[k - dst + src]) else old(data[k])
  {
    for j := 0 to n
      invariant forall k :: 0 <= k < data.Length ==> data[k] == if dst <= k < dst + j then old(data[k - dst + src]) else old(data[k])
    {
      data[dst + j] := data[src + j];
    }
  }

  /** The blocks in use lie inside the segment. */
  lemma InData(ms: Mspace, data: seq<bv8>)
    requires ms.Valid() && ms.end - ms.base + OVERHEAD <= |data|
    ensures Holds(data, ms.base, ms.Live())
  {
    hide TagsOk, FreeChunks, LiveChunks, BinningOk, Even;
    forall p | p in ms.Live()
      ensures ms.base <= p && MINCHUNK <= ms.Live()[p] && p + ms.Live()[p] - ms.base + OVERHEAD <= |data|
    {
      InSegment(ms, p);
    }
  }

  lemma InSegment(ms: Mspace, p: Addr)
    requires ms.Core() && p in ms.Live()
    ensures ms.base <= p && MINCHUNK <= ms.Live()[p] && p + ms.Live()[p] <= ms.end
  {
    ms.LiveFacts(p);
    After(ms.heads, ms.feet, ms.starts, ms.base, ms.top, p);
  }

  /** Copying into one block leaves the others alone. */
  lemma CopyKeeps(data: seq<bv8>, data': seq<bv8>, base: Addr, p: Addr, z: nat, q: Addr, n: nat)
    requires base <= p && MINCHUNK <= z && p + z - base + OVERHEAD <= |data|
    requires base <= q && q + MEM + n - base <= |data| && |data'| == |data|
    requires forall k :: 0 <= k < |data| && !(q + MEM - base <= k < q + MEM + n - base) ==> data'[k] == data[k]
    requires p + z <= q || q + n + OVERHEAD <= p
    ensures Block(data', base, p, z) == Block(data, base, p, z)
  {
  }

  /** Copy the first n bytes of block p to block q. */
  method CopyBlock(ms: Mspace, data: array<bv8>, p: Addr, q: Addr, n: nat)
    requires ms.Valid() && p in ms.Live() && q in ms.Live() && p != q && ms.end - ms.base + OVERHEAD <= data.Length
    requires n + OVERHEAD <= ms.Live()[p] && n + OVERHEAD <= ms.Live()[q]
    modifies data
    ensures Holds(old(data[..]), ms.base, ms.Live()) && Holds(data[..], ms.base, ms.Live())
    ensures forall r :: r in ms.Live() && r != q ==>
              Block(data[..], ms.base, r, ms.Live()[r]) == old(Block(data[..], ms.base, r, ms.Live()[r]))
    ensures var was, now := old(Block(data[..], ms.base, p, ms.Live()[p])), Block(data[..], ms.base, q, ms.Live()[q]);
            forall k :: 0 <= k < n ==> now[k] == was[k]
  {
    hide TagsOk, FreeChunks, LiveChunks, BinningOk, Even, Block;
    InData(ms, data[..]);
    ms.LiveDisjoint(p, q);
    ms.LiveDisjoint(q, p);
    Memcpy(data, q + MEM - ms.base, p + MEM - ms.base, n);
    forall r | r in ms.Live() && r != q
      ensures Block(data[..], ms.base, r, ms.Live()[r]) == old(Block(data[..], ms.base, r, ms.Live()[r]))
    {
      ms.LiveDisjoint(r, q);
      CopyKeeps(old(data[..]), data[..], ms.base, r, ms.Live()[r], q, n);
    }
    BlockAt(old(data[..]), ms.base, p, ms.Live()[p]);
    BlockAt(data[..], ms.base, q, ms.Live()[q]);
  }

  lemma BlockAt(data: seq<bv8>, base: Addr, p: Addr, z: nat)
    requires base <= p && MINCHUNK <= z && p + z - base + OVERHEAD <= |data|
    ensures |Block(data, base, p, z)| == z - OVERHEAD
    ensures forall k :: 0 <= k < z - OVERHEAD ==> Block(data, base, p, z)[k] == data[p + MEM - base + k]
  {
  }

  /** The block of p keeps its bytes at q, as many as fit and as were asked for, and every other block keeps all of them. */
  ghost predicate BytesKept(base: Addr, data: seq<bv8>, live: map<Addr, nat>, data': seq<bv8>, live': map<Addr, nat>,
                            p: Addr, q: Addr, bytes: nat)
    requires p in live && q in live'
  {
    && Holds(data, base, live) && Holds(data', base, live')
    && (forall r :: r in live && r != p ==>
          r in live' && live'[r] == live[r] && Block(data', base, r, live'[r]) == Block(data, base, r, live[r]))
    && var was, now := Block(data, base, p, live[p]), Block(data', base, q, live'[q]);
       forall k :: 0 <= k < bytes && k < |was| ==> k < |now| && now[k] == was[k]
  }

  lemma KeptInPlace(base: Addr, data: seq<bv8>, live: map<Addr, nat>, live': map<Addr, nat>, p: Addr, bytes: nat)
    requires p in live && p in live' && live' == live[p := live'[p]] && live'[p] >= bytes + OVERHEAD
    requires Holds(data, base, live) && Holds(data, base, live')
    ensures BytesKept(base, data, live, data, live', p, p, bytes)
  {
    hide Block;
    BlockAt(data, base, p, live[p]);
    BlockAt(data, base, p, live'[p]);
  }

  lemma KeptMoved(base: Addr, data: seq<bv8>, live: map<Addr, nat>, data': seq<bv8>, live': map<Addr, nat>,
                  p: Addr, q: Addr, bytes: nat, n: nat)
    requires p in live && q !in live && q in live' && live' == (live - {p})[q := live'[q]] && live'[q] >= bytes + OVERHEAD
    requires Holds(data, base, live) && Holds(data', base, live') && n <= bytes && (n == bytes || n + OVERHEAD == live[p])
    requires n + OVERHEAD <= live[p]
    requires forall r :: r in live && r != p && r in live' ==> Block(data', base, r, live'[r]) == Block(data, base, r, live[r])
    requires forall k :: 0 <= k < n ==> Block(data', base, q, live'[q])[k] == Block(data, base, p, live[p])[k]
    ensures BytesKept(base, data, live, data', live', p, q, bytes)
  {
    hide Block;
    BlockAt(data, base, p, live[p]);
    BlockAt(data', base, q, live'[q]);
  }

  /** malloc-copy-free: 0 if there is no room. */
  method MoveBlock(ms: Mspace, p: Addr, bytes: nat, data: array<bv8>) returns (newmem: Addr)
    requires ms.Valid() && p in ms.Live() && ms.end - ms.base + OVERHEAD <= data.Length
    requires bytes < MAXREQUEST
    modifies ms, data
    ensures ms.Valid()
    ensures newmem != 0 ==> newmem >= MEM && newmem != p + MEM
                            && Resized(old(ms.Live()), ms.Live(), p, newmem - MEM, RequestSize(bytes))
    ensures newmem != 0 ==>
              BytesKept(ms.base, old(data[..]), old(ms.Live()), data[..], ms.Live(), p, newmem - MEM, bytes)
    ensures newmem == 0 ==> ms.Live() == old(ms.Live()) && data[..] == old(data[..]) && ms.topsize <= RequestSize(bytes)
                            && forall c :: c in ms.FreeMap() ==> ms.FreeMap()[c] < RequestSize(bytes)
  {
    hide TagsOk, FreeChunks, LiveChunks, BinningOk, Even, Block, BytesKept;
    InData(ms, data[..]);
    ms.LiveFacts(p);
    var oldsize := ms.heads[p].size;
    ghost var live := ms.Live();
    newmem := ms.MspaceMalloc(bytes);
    if newmem != 0 {
      RequestFits(bytes);
      var oc := oldsize - OVERHEAD;
      var n := if oc < bytes then oc else bytes;
      CopyBlock(ms, data, p, newmem - MEM, n);
      ghost var q := newmem - MEM;
      assert (live - {p})[q := ms.Live()[q]] == ms.Live() - {p};
      ms.MspaceFree(p + MEM);
      InData(ms, data[..]);
      KeptMoved(ms.base, old(data[..]), live, data[..], ms.Live(), p, q, bytes, n);
    }
  }

  lemma ChunkFacts(ms: Mspace, p: Addr)
    requires ms.Valid() && p in ms.Live()
    ensures p in ms.heads && ms.heads[p].size == ms.Live()[p]
  {
    ms.LiveFacts(p);
  }

  /** mspace_realloc of a block: in place if it can be, else moved; 0 if there is no room for it. */
  method MspaceRealloc(ms: Mspace, mem: Addr, bytes: nat, data: array<bv8>) returns (newmem: Addr)
    requires ms.Valid() && mem >= MEM && mem - MEM in ms.Live() && ms.end - ms.base + OVERHEAD <= data.Length
    requires bytes < WORD
    modifies ms, data
    ensures ms.Valid()
    ensures newmem != 0 ==> bytes < MAXREQUEST && newmem >= MEM
                            && Resized(old(ms.Live()), ms.Live(), mem - MEM, newmem - MEM, RequestSize(bytes))
    ensures newmem != 0 ==>
              BytesKept(ms.base, old(data[..]), old(ms.Live()), data[..], ms.Live(), mem - MEM, newmem - MEM, bytes)
    ensures newmem == mem <==> bytes < MAXREQUEST && old(InPlace(ms.Live(), ms.top, ms.topsize, mem - MEM, RequestSize(bytes)))
    ensures newmem == 0 ==> ms.Live() == old(ms.Live()) && data[..] == old(data[..])
    ensures newmem == 0 && bytes < MAXREQUEST ==> ms.topsize <= RequestSize(bytes)
                                                  && forall c :: c in ms.FreeMap() ==> ms.FreeMap()[c] < RequestSize(bytes)
  {
    hide TagsOk, FreeChunks, LiveChunks, BinningOk, Even, Block, BytesKept, Mspace.Valid, Mspace.FreeMap, Mspace.Live;
    if bytes >= MAXREQUEST {
      return 0;
    }
    InData(ms, data[..]);
    var oldp := mem - MEM;
    ChunkFacts(ms, oldp);
    RequestFits(bytes);
    var nb := RequestSize(bytes);
    var oldsize := ms.heads[oldp].size;
    if oldsize < nb && !(oldp + oldsize == ms.top && oldsize + ms.topsize > nb) {
      newmem := MoveBlock(ms, oldp, bytes, data);
      return;
    }
    if oldsize < nb {
      GrowIntoTop(ms, oldp, nb);
    } else if oldsize - nb >= MINCHUNK {
      CutTail(ms, oldp, nb);
      ms.MspaceFree(oldp + nb + MEM);
    }
    InData(ms, data[..]);
    KeptInPlace(ms.base, data[..], old(ms.Live()), ms.Live(), oldp, bytes);
    return mem;
  }
}
