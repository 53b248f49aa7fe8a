/** pmap_merge within one page table on each side, whoever shares it, as the code is written (kern/pmap.c). */
module SlotMerge {
  import opened Paging
  import opened PageMem
  import opened Views
  import opened Walk
  import opened Frames
  import opened Copy
  import opened PageCopy
  import opened ThreeWay
  import opened LeafMerge
  import opened Sharing
  import opened SlotCopy

  /** What an entry of the snapshot's or the source's page table shows: where the page table is absent the zero page is read in its
      place, whose raw entries, without permissions, name physical page 0, with bytes p0, and not the zero page. */
  function RawView(o: Store, p0: seq<Byte>, t: Page, k: nat): (v: View)
    requires Wf(o) && (t == ZERO || IsTab(o, 0, t)) && k < ENTRIES && |p0| == PAGESIZE
    ensures |v.bytes| == PAGESIZE && v.bytes == SlotBytes(o, p0, t, k)
  {
    if t == ZERO then View(CLEAR, p0) else At(o, 0, t, k)
  }

  /** The bytes that rpg or spg points to. */
  function SlotBytes(o: Store, p0: seq<Byte>, t: Page, k: nat): (b: seq<Byte>)
    requires Wf(o) && (t == ZERO || IsTab(o, 0, t)) && k < ENTRIES && |p0| == PAGESIZE
    ensures |b| == PAGESIZE
  {
    if t == ZERO then p0 else At(o, 0, t, k).bytes
  }

  /** What the byte loop makes of one page. */
  function SlotMerged(o: Store, p0: seq<Byte>, rt: Page, st: Page, k: nat, t: Page, i: nat): (b: seq<Byte>)
    requires Wf(o) && (rt == ZERO || IsTab(o, 0, rt)) && (st == ZERO || IsTab(o, 0, st)) && IsTab(o, 0, t)
    requires k < ENTRIES && i < ENTRIES && |p0| == PAGESIZE
    ensures |b| == PAGESIZE
  {
    Merge(SlotBytes(o, p0, rt, k), SlotBytes(o, p0, st, k), At(o, 0, t, i).bytes)
  }

  /** A raw entry is shared, whose page 0 has no reference count: the kernel stops. */
  predicate Stops(o: Store, rt: Page, st: Page, k: nat, t: Page, i: nat)
    requires (rt == ZERO || IsTab(o, 0, rt)) && IsTab(o, 0, t) && k < ENTRIES && i < ENTRIES
  {
    st == ZERO && rt != ZERO && o[t].es[i] == o[rt].es[k]
  }

  lemma LeafBytesAt(o: Store, t: Page, k: nat)
    requires Wf(o) && IsTab(o, 0, t) && k < ENTRIES
    ensures EntryOk(o, 0, o[t].es[k]) && Leaf(o, o[t].es[k]).bytes == At(o, 0, t, k).bytes
    ensures PageBytes(o, o[t].es[k]) == At(o, 0, t, k).bytes
  {
    assert Entry(o, 0, t, k) == o[t].es[k];
    IdxInside(0, k);
  }

  /** Slot i of t is merged, with its permissions. */
  predicate SlotViewMerged(o: Store, o2: Store, p0: seq<Byte>, rt: Page, st: Page, k: nat, t: Page, i: nat)
    requires Wf(o) && Wf(o2) && (rt == ZERO || IsTab(o, 0, rt)) && (st == ZERO || IsTab(o, 0, st)) && IsTab(o, 0, t) && IsTab(o2, 0, t)
    requires k < ENTRIES && i < ENTRIES && |p0| == PAGESIZE
  {
    ViewMerged(RawView(o, p0, rt, k), RawView(o, p0, st, k), At(o, 0, t, i), At(o2, 0, t, i))
  }

  lemma SlotMergedBytes(o: Store, o2: Store, p0: seq<Byte>, rt: Page, st: Page, k: nat, t: Page, i: nat)
    requires Wf(o) && Wf(o2) && (rt == ZERO || IsTab(o, 0, rt)) && (st == ZERO || IsTab(o, 0, st)) && IsTab(o, 0, t) && IsTab(o2, 0, t)
    requires k < ENTRIES && i < ENTRIES && |p0| == PAGESIZE && SlotViewMerged(o, o2, p0, rt, st, k, t, i)
    ensures At(o2, 0, t, i).bytes == SlotMerged(o, p0, rt, st, k, t, i)
  {
    hide At, Merge, Conflict, Zeros;
    ViewBytes(RawView(o, p0, rt, k), RawView(o, p0, st, k), At(o, 0, t, i), At(o2, 0, t, i));
  }

  /** The shortcuts: equal entries of snapshot and source change nothing at all, and an entry that is the snapshot's takes on the
      source's. */
  ghost predicate SlotShortcut(o: Store, o2: Store, rt: Page, st: Page, k: nat, t: Page, i: nat)
    requires (rt == ZERO || IsTab(o, 0, rt)) && (st == ZERO || IsTab(o, 0, st)) && IsTab(o, 0, t) && k < ENTRIES && i < ENTRIES
  {
    if rt == ZERO || st == ZERO then rt == st ==> o2 == o
    else
      && (o[st].es[k] == o[rt].es[k] ==> o2 == o)
      && (o[st].es[k] != o[rt].es[k] && o[t].es[i] == o[rt].es[k] ==> IsTab(o2, 0, t) && o2[t].es[i] == o[st].es[k].(w := false))
  }

  /** One turn of the loop of pmap_merge_level at the lowest level. */
  method MergeSlot(pm: PageMaps, p0: seq<Byte>, rt: Page, st: Page, k: nat, t: Page, i: nat) returns (ok: bool)
    requires pm.Valid() && Wf(pm.obj) && (rt == ZERO || IsTab(pm.obj, 0, rt)) && (st == ZERO || IsTab(pm.obj, 0, st))
    requires IsTab(pm.obj, 0, t) && k < ENTRIES && i < ENTRIES && |p0| == PAGESIZE
    modifies pm`obj, pm`refc, pm`free, pm`npage, pm`held, pm`excl
    ensures pm.Valid() && pm.held == old(pm.held) && Wf(pm.obj) && ok == !Stops(old(pm.obj), rt, st, k, t, i)
    ensures ok ==> SlotsOnly(old(pm.obj), pm.obj, 0, t, i, i + 1) && IsTab(pm.obj, 0, t)
    ensures ok ==> SlotViewMerged(old(pm.obj), pm.obj, p0, rt, st, k, t, i) && SlotShortcut(old(pm.obj), pm.obj, rt, st, k, t, i)
  {
    hide Wf, Exact, Exclusive, FreeOk, Anchored, Local, LeafElse, Zeros, Merge, EntryOk, SlotsOnly, At, SlotTaken, ViewMerged, EntryMerged,
      TablesKept;
    ghost var o, refc := pm.obj, pm.refc;
    if rt != ZERO { LeafBytesAt(o, rt, k); }
    if st != ZERO { LeafBytesAt(o, st, k); }
    LeafBytesAt(o, t, i);
    if (rt == ZERO && st == ZERO) || (rt != ZERO && st != ZERO && pm.obj[st].es[k] == pm.obj[rt].es[k]) {
      NoSlots(o, 0, t, i);
      ViewNothing(RawView(o, p0, rt, k), RawView(o, p0, st, k), At(o, 0, t, i));
      return true;
    }
    if rt != ZERO && pm.obj[t].es[i] == pm.obj[rt].es[k] {
      if st == ZERO {
        return false;
      }
      ShareSlot(pm, 0, st, k, t, i);
      SlotsTab(o, pm.obj, 0, t, i, i + 1);
      TakenSlot(o, pm.obj, p0, rt, st, k, t, i);
      return true;
    }
    var rpg := if rt == ZERO then p0 else PageBytes(pm.obj, pm.obj[rt].es[k]);
    var spg := if st == ZERO then p0 else PageBytes(pm.obj, pm.obj[st].es[k]);
    ghost var x := pm.excl;
    NoneAnchored(o, pm.roots);
    MergeInto(pm, rpg, spg, t, i, {});
    InvWf(pm.obj, pm.refc, pm.free, pm.npage, pm.roots, pm.held, pm.excl);
    MergedSlots(o, x, pm.obj, pm.excl, pm.roots, t, i);
    EntryView(o, refc, pm.obj, t, i, RawView(o, p0, rt, k), RawView(o, p0, st, k));
    return true;
  }

  lemma NoneAnchored(o: Store, roots: set<Page>)
    ensures Anchored(o, roots, {})
  {
  }

  lemma TakenSlot(o: Store, o2: Store, p0: seq<Byte>, rt: Page, st: Page, k: nat, t: Page, i: nat)
    requires SlotTaken(o, o2, 0, st, k, t, i) && !(st == t && k == i) && Wf(o) && Wf(o2) && IsTab(o, 0, rt) && IsTab(o2, 0, t) && |p0| == PAGESIZE
    requires rt != ZERO && st != ZERO && o[t].es[i] == o[rt].es[k]
    ensures SlotViewMerged(o, o2, p0, rt, st, k, t, i)
  {
    hide At, ViewMerged, Zeros;
    SlotEntry(o, rt, k);
    SlotEntry(o, t, i);
    assert AtSlot(o2, 0, t, i, 0) == TakenView(o, 0, st, k, t, i, 0);
    ViewTaken(At(o, 0, rt, k), At(o, 0, st, k), At(o, 0, t, i), At(o2, 0, t, i));
  }

  lemma SlotEntry(o: Store, t: Page, k: nat)
    requires Wf(o) && IsTab(o, 0, t) && k < ENTRIES
    ensures Fits(o, 0, o[t].es[k].page) && At(o, 0, t, k) == Leaf(o, o[t].es[k])
    ensures At(o, 0, t, k).pte.page == ZERO ==> At(o, 0, t, k).bytes == Zeros()
  {
    IdxInside(0, k);
    assert Entry(o, 0, t, k) == o[t].es[k];
  }

  lemma MergedSlots(o: Store, x: set<Page>, o2: Store, x2: set<Page>, roots: set<Page>, t: Page, i: nat)
    requires Wf(o) && Wf(o2) && IsTab(o, 0, t) && i < ENTRIES && LeafElse(o, o2, t, i) && Local(o, x, o2, x2, roots, 0, t, {}, i, i + 1)
    ensures SlotsOnly(o, o2, 0, t, i, i + 1) && IsTab(o2, 0, t)
  {
    hide At;
    NotZero(o, t);
    forall u | IsTab(o, 0, u) ensures ElseSame(o, o2, 0, u, t, i, i + 1) {
      if u != t { assert Same(o, o2, 0, u); }
    }
  }

  /* ---------- a run of slots ---------- */

  predicate TabOrNone(o: Store, t: Page) { t == ZERO || IsTab(o, 0, t) }

  /** The merge of slot j of n leaves it as it is. */
  predicate NeutralAt(o: Store, p0: seq<Byte>, rt: Page, st: Page, k: nat, t: Page, i: nat, j: nat)
    requires Wf(o) && TabOrNone(o, rt) && TabOrNone(o, st) && IsTab(o, 0, t) && k + j < ENTRIES && i + j < ENTRIES && |p0| == PAGESIZE
  {
    SlotMerged(o, p0, rt, st, k + j, t, i + j) == At(o, 0, t, i + j).bytes
  }

  ghost predicate Neutral(o: Store, p0: seq<Byte>, rt: Page, st: Page, k: nat, t: Page, i: nat, n: nat)
    requires Wf(o) && TabOrNone(o, rt) && TabOrNone(o, st) && IsTab(o, 0, t) && k + n <= ENTRIES && i + n <= ENTRIES && |p0| == PAGESIZE
  {
    forall j :: 0 <= j < n ==> NeutralAt(o, p0, rt, st, k, t, i, j)
  }

  /** Slot i + j shows the merge, with its permissions; where t is itself the snapshot's or the source's table, this is said only for merges that
      change nothing. */
  ghost predicate MergeResult(o: Store, o2: Store, p0: seq<Byte>, rt: Page, st: Page, k: nat, t: Page, i: nat, n: nat, j: nat)
    requires Wf(o) && Wf(o2) && TabOrNone(o, rt) && TabOrNone(o, st) && IsTab(o, 0, t) && IsTab(o2, 0, t) && j < n
    requires k + n <= ENTRIES && i + n <= ENTRIES && |p0| == PAGESIZE
  {
    if rt != t && st != t then SlotViewMerged(o, o2, p0, rt, st, k + j, t, i + j)
    else Neutral(o, p0, rt, st, k, t, i, n) ==> At(o2, 0, t, i + j).bytes == At(o, 0, t, i + j).bytes
  }

  predicate MergedAt(o: Store, o2: Store, p0: seq<Byte>, rt: Page, st: Page, k: nat, t: Page, i: nat, j: nat)
    requires Wf(o) && Wf(o2) && TabOrNone(o, rt) && TabOrNone(o, st) && IsTab(o, 0, t) && IsTab(o2, 0, t)
    requires k + j < ENTRIES && i + j < ENTRIES && |p0| == PAGESIZE
  {
    At(o2, 0, t, i + j).bytes == SlotMerged(o, p0, rt, st, k + j, t, i + j)
  }

  /** The first m of n slots have been merged. */
  ghost predicate MergeRan(o: Store, o2: Store, p0: seq<Byte>, rt: Page, st: Page, k: nat, t: Page, i: nat, n: nat, m: nat)
  {
    && SlotsOnly(o, o2, 0, t, i, i + m) && TabOrNone(o, rt) && TabOrNone(o, st) && |p0| == PAGESIZE
    && k + n <= ENTRIES && i + n <= ENTRIES && m <= n
    && forall j :: 0 <= j < m ==> MergeResult(o, o2, p0, rt, st, k, t, i, n, j)
  }

  lemma MergeRanNone(o: Store, p0: seq<Byte>, rt: Page, st: Page, k: nat, t: Page, i: nat, n: nat)
    requires Wf(o) && TabOrNone(o, rt) && TabOrNone(o, st) && IsTab(o, 0, t) && k + n <= ENTRIES && i + n <= ENTRIES && |p0| == PAGESIZE
    ensures MergeRan(o, o, p0, rt, st, k, t, i, n, 0)
  {
  }

  /** Slots that have not changed, or whose merge has changed nothing, have the bytes they had. */
  lemma BytesStill(o: Store, o1: Store, p0: seq<Byte>, rt: Page, st: Page, k: nat, t: Page, i: nat, n: nat, m: nat, u: Page, q: nat)
    requires MergeRan(o, o1, p0, rt, st, k, t, i, n, m) && Wf(o) && IsTab(o, 0, t) && TabOrNone(o, u) && q < ENTRIES
    requires (rt != t && st != t && (u != t || q >= i + m)) || Neutral(o, p0, rt, st, k, t, i, n)
    ensures Wf(o1) && TabOrNone(o1, u) && SlotBytes(o1, p0, u, q) == SlotBytes(o, p0, u, q)
    ensures u != t || q >= i + m ==> RawView(o1, p0, u, q) == RawView(o, p0, u, q)
  {
    hide At, Merge, Conflict, Zeros;
    if u != ZERO {
      assert ElseSame(o, o1, 0, u, t, i, i + m);
      if u == t && i <= q < i + m {
        assert MergeResult(o, o1, p0, rt, st, k, t, i, n, q - i);
        assert NeutralAt(o, p0, rt, st, k, t, i, q - i);
        if rt != t && st != t { SlotMergedBytes(o, o1, p0, rt, st, k + (q - i), t, q); }
      }
    }
  }

  lemma MergeRanStep(o: Store, o1: Store, o2: Store, p0: seq<Byte>, rt: Page, st: Page, k: nat, t: Page, i: nat, n: nat, m: nat)
    requires MergeRan(o, o1, p0, rt, st, k, t, i, n, m) && m < n && Wf(o) && Wf(o1) && IsTab(o, 0, t) && IsTab(o1, 0, t)
    requires TabOrNone(o1, rt) && TabOrNone(o1, st) && SlotsOnly(o1, o2, 0, t, i + m, i + m + 1) && IsTab(o2, 0, t) && Wf(o2)
    requires SlotViewMerged(o1, o2, p0, rt, st, k + m, t, i + m)
    ensures MergeRan(o, o2, p0, rt, st, k, t, i, n, m + 1)
  {
    hide At, Merge, Zeros, SlotsOnly, Neutral, Wf;
    OnlyWider(o, o1, 0, t, i, i + m, i, i + m + 1);
    OnlyWider(o1, o2, 0, t, i + m, i + m + 1, i, i + m + 1);
    OnlyTrans(o, o1, o2, 0, t, i, i + m + 1);
    forall j | 0 <= j < m + 1 ensures MergeResult(o, o2, p0, rt, st, k, t, i, n, j) {
      if j < m {
        assert MergeResult(o, o1, p0, rt, st, k, t, i, n, j);
        OtherSlot(o1, o2, t, i + m, i + j);
      } else if (rt != t && st != t) || Neutral(o, p0, rt, st, k, t, i, n) {
        BytesStill(o, o1, p0, rt, st, k, t, i, n, m, rt, k + m);
        BytesStill(o, o1, p0, rt, st, k, t, i, n, m, st, k + m);
        BytesStill(o, o1, p0, rt, st, k, t, i, n, m, t, i + m);
        TableIs(o, t);
        LastMerged(o, o1, o2, p0, rt, st, k, t, i, n, m);
      }
    }
  }

  lemma TableIs(o: Store, t: Page)
    requires Wf(o) && IsTab(o, 0, t)
    ensures t != ZERO
  {
  }

  lemma OtherSlot(o: Store, o2: Store, t: Page, i: nat, q: nat)
    requires SlotsOnly(o, o2, 0, t, i, i + 1) && q < ENTRIES && q != i
    ensures At(o2, 0, t, q) == At(o, 0, t, q)
  {
    assert ElseSame(o, o2, 0, t, t, i, i + 1);
  }

  lemma LastMerged(o: Store, o1: Store, o2: Store, p0: seq<Byte>, rt: Page, st: Page, k: nat, t: Page, i: nat, n: nat, m: nat)
    requires Wf(o) && Wf(o1) && Wf(o2) && TabOrNone(o, rt) && TabOrNone(o, st) && IsTab(o, 0, t) && IsTab(o1, 0, t) && IsTab(o2, 0, t)
    requires TabOrNone(o1, rt) && TabOrNone(o1, st) && k + n <= ENTRIES && i + n <= ENTRIES && m < n && |p0| == PAGESIZE && t != ZERO
    requires SlotViewMerged(o1, o2, p0, rt, st, k + m, t, i + m)
    requires rt != t ==> RawView(o1, p0, rt, k + m) == RawView(o, p0, rt, k + m)
    requires st != t ==> RawView(o1, p0, st, k + m) == RawView(o, p0, st, k + m)
    requires At(o1, 0, t, i + m) == At(o, 0, t, i + m)
    requires SlotBytes(o1, p0, rt, k + m) == SlotBytes(o, p0, rt, k + m) && SlotBytes(o1, p0, st, k + m) == SlotBytes(o, p0, st, k + m)
    requires SlotBytes(o1, p0, t, i + m) == SlotBytes(o, p0, t, i + m)
    ensures MergeResult(o, o2, p0, rt, st, k, t, i, n, m)
  {
    hide At, Merge, Conflict, Zeros, Wf;
    SlotMergedBytes(o1, o2, p0, rt, st, k + m, t, i + m);
    if rt == t || st == t {
      if Neutral(o, p0, rt, st, k, t, i, n) { assert NeutralAt(o, p0, rt, st, k, t, i, m); }
    }
  }

  /** The loop of pmap_merge_level over n entries of page tables. */
  method MergeSlots(pm: PageMaps, p0: seq<Byte>, rt: Page, st: Page, k: nat, t: Page, i: nat, n: nat) returns (ok: bool)
    requires pm.Valid() && Wf(pm.obj) && TabOrNone(pm.obj, rt) && TabOrNone(pm.obj, st) && IsTab(pm.obj, 0, t)
    requires k + n <= ENTRIES && i + n <= ENTRIES && |p0| == PAGESIZE
    modifies pm`obj, pm`refc, pm`free, pm`npage, pm`held, pm`excl
    ensures pm.Valid() && pm.held == old(pm.held) && Wf(pm.obj) && (st != ZERO || rt == ZERO ==> ok)
    ensures ok ==> MergeRan(old(pm.obj), pm.obj, p0, rt, st, k, t, i, n, n)
  {
    hide Wf, Exact, Exclusive, FreeOk, SlotsOnly, MergeRan, At, SlotMerged;
    ghost var o := pm.obj;
    MergeRanNone(o, p0, rt, st, k, t, i, n);
    ok := true;
    var j := 0;
    while j < n
      invariant j <= n && pm.Valid() && pm.held == old(pm.held) && Wf(pm.obj) && ok
      invariant TabOrNone(pm.obj, rt) && TabOrNone(pm.obj, st) && IsTab(pm.obj, 0, t)
      invariant MergeRan(o, pm.obj, p0, rt, st, k, t, i, n, j)
    {
      ghost var o1 := pm.obj;
      ok := MergeSlot(pm, p0, rt, st, k + j, t, i + j);
      if !ok {
        return;
      }
      StillTabs(o1, pm.obj, t, i + j, rt);
      StillTabs(o1, pm.obj, t, i + j, st);
      MergeRanStep(o, o1, pm.obj, p0, rt, st, k, t, i, n, j);
      j := j + 1;
    }
  }

  lemma StillTabs(o: Store, o2: Store, t: Page, i: nat, u: Page)
    requires SlotsOnly(o, o2, 0, t, i, i + 1) && TabOrNone(o, u)
    ensures TabOrNone(o2, u)
  {
    if u != ZERO { assert ElseSame(o, o2, 0, u, t, i, i + 1); }
  }

  /* ---------- who sees such a merge ---------- */

  /** The bytes the code takes a space to have at an address. */
  function SpaceBytes(o: Store, p0: seq<Byte>, r: Page, x: nat): (b: seq<Byte>)
    requires Wf(o) && IsTab(o, 3, r) && x < Span(4) && |p0| == PAGESIZE
    ensures |b| == PAGESIZE
  {
    if TabAt(o, 3, r, x, 0) == ZERO then p0 else At(o, 3, r, x).bytes
  }

  /** The merge of what three spaces have x pages on. */
  function PageMerged(o: Store, p0: seq<Byte>, r: Page, s: Page, sva: nat, d: Page, dva: nat, x: nat): (b: seq<Byte>)
    requires Wf(o) && IsTab(o, 3, r) && IsTab(o, 3, s) && IsTab(o, 3, d) && sva + x < Span(4) && dva + x < Span(4) && |p0| == PAGESIZE
  {
    Merge(SpaceBytes(o, p0, r, sva + x), SpaceBytes(o, p0, s, sva + x), At(o, 3, d, dva + x).bytes)
  }

  predicate ShowsMerge(o: Store, o2: Store, p0: seq<Byte>, r: Page, s: Page, sva: nat, d: Page, dva: nat, x: nat)
    requires Wf(o) && Wf(o2) && IsTab(o, 3, r) && IsTab(o, 3, s) && IsTab(o, 3, d) && IsTab(o2, 3, d)
    requires sva + x < Span(4) && dva + x < Span(4) && |p0| == PAGESIZE
  {
    At(o2, 3, d, dva + x).bytes == PageMerged(o, p0, r, s, sva, d, dva, x)
  }

  /** What a merge promises: n pages of d become the merge, and no bytes change for anybody else. */
  ghost predicate MergeKept(o: Store, o2: Store, roots: set<Page>, p0: seq<Byte>, r: Page, s: Page, sva: nat, d: Page, dva: nat, n: nat)
    requires Wf(o) && Wf(o2) && IsTab(o, 3, r) && IsTab(o, 3, s) && IsTab(o, 3, d) && IsTab(o2, 3, d)
    requires sva + n <= Span(4) && dva + n <= Span(4) && |p0| == PAGESIZE && forall u :: u in roots ==> IsTab(o, 3, u) && IsTab(o2, 3, u)
  {
    (forall x :: 0 <= x < n ==> ShowsMerge(o, o2, p0, r, s, sva, d, dva, x)) && OthersKept(o, o2, roots, d, dva, dva + n, true)
  }

  /** The merge changes no byte of the n pages. */
  ghost predicate NothingMerged(o: Store, p0: seq<Byte>, r: Page, s: Page, sva: nat, d: Page, dva: nat, n: nat)
    requires Wf(o) && IsTab(o, 3, r) && IsTab(o, 3, s) && IsTab(o, 3, d) && sva + n <= Span(4) && dva + n <= Span(4) && |p0| == PAGESIZE
  {
    forall x :: 0 <= x < n ==> ShowsMerge(o, o, p0, r, s, sva, d, dva, x)
  }

  /** The three page tables and where in them the addresses lie. */
  ghost predicate MergeWay(o: Store, r: Page, s: Page, sva: nat, d: Page, dva: nat, rt: Page, st: Page, k: nat, t: Page, i: nat, n: nat)
  {
    && Leads(o, d, dva, 0, t, i) && IsTab(o, 3, r) && IsTab(o, 3, s) && sva < Span(4) && k + n <= ENTRIES && i + n <= ENTRIES
    && TabAt(o, 3, r, sva, 0) == rt && TabAt(o, 3, s, sva, 0) == st && Low(3, sva, 0) == k
  }

  lemma SpaceSlot(o: Store, p0: seq<Byte>, r: Page, sva: nat, rt: Page, k: nat, n: nat, x: nat)
    requires Wf(o) && IsTab(o, 3, r) && sva < Span(4) && TabAt(o, 3, r, sva, 0) == rt && Low(3, sva, 0) == k && k + n <= ENTRIES && x < n
    requires |p0| == PAGESIZE
    ensures sva + x < Span(4) && SpaceBytes(o, p0, r, sva + x) == SlotBytes(o, p0, rt, k + x)
  {
    hide At, TabAt, Low, Wf;
    Sibling(o, 3, r, sva, 0, k + x);
    AtLow(o, 3, r, sva + x, 0);
  }

  lemma WayAt(o: Store, p0: seq<Byte>, r: Page, s: Page, sva: nat, d: Page, dva: nat, rt: Page, st: Page, k: nat, t: Page, i: nat, n: nat, x: nat)
    requires MergeWay(o, r, s, sva, d, dva, rt, st, k, t, i, n) && x < n && |p0| == PAGESIZE
    ensures sva + x < Span(4) && dva + x < Span(4) && TabOrNone(o, rt) && TabOrNone(o, st)
    ensures At(o, 3, d, dva + x) == At(o, 0, t, i + x)
    ensures PageMerged(o, p0, r, s, sva, d, dva, x) == SlotMerged(o, p0, rt, st, k + x, t, i + x)
  {
    hide At, TabAt, Low, Wf, Merge;
    LeadsAt(o, d, dva, 0, t, i, n, x);
    SpaceSlot(o, p0, r, sva, rt, k, n, x);
    SpaceSlot(o, p0, s, sva, st, k, n, x);
  }

  lemma WayEnds(o: Store, r: Page, s: Page, sva: nat, d: Page, dva: nat, rt: Page, st: Page, k: nat, t: Page, i: nat, n: nat)
    requires MergeWay(o, r, s, sva, d, dva, rt, st, k, t, i, n)
    ensures Wf(o) && IsTab(o, 3, d) && sva + n <= Span(4) && dva + n <= Span(4) && IsTab(o, 0, t) && TabOrNone(o, rt) && TabOrNone(o, st)
  {
    hide At, TabAt, Low, Wf, Merge;
    LeadsEnd(o, d, dva, 0, t, i, n);
    if n > 0 { SpaceSlot(o, Zeros(), r, sva, rt, k, n, n - 1); }
  }

  lemma MergedBytesAt(o: Store, o2: Store, p0: seq<Byte>, rt: Page, st: Page, k: nat, t: Page, i: nat, n: nat, j: nat)
    requires MergeRan(o, o2, p0, rt, st, k, t, i, n, n) && Wf(o) && Wf(o2) && IsTab(o, 0, t) && IsTab(o2, 0, t) && j < n && rt != t && st != t
    ensures MergedAt(o, o2, p0, rt, st, k, t, i, j)
  {
    hide At, Wf, SlotsOnly, Merge, Zeros, Conflict;
    assert MergeResult(o, o2, p0, rt, st, k, t, i, n, j);
    SlotMergedBytes(o, o2, p0, rt, st, k + j, t, i + j);
  }

  /** Slot by slot: the merges arrive and t keeps its bytes exactly if no merge changes a byte, where t is the snapshot's or
      the source's own table; otherwise they arrive in any case. */
  lemma MergedExact(o: Store, o2: Store, p0: seq<Byte>, rt: Page, st: Page, k: nat, t: Page, i: nat, n: nat)
    requires MergeRan(o, o2, p0, rt, st, k, t, i, n, n) && Wf(o) && Wf(o2) && IsTab(o, 0, t) && IsTab(o2, 0, t)
    ensures rt != t && st != t ==> forall j :: 0 <= j < n ==> MergedAt(o, o2, p0, rt, st, k, t, i, j)
    ensures (forall j :: 0 <= j < n ==> MergedAt(o, o2, p0, rt, st, k, t, i, j)) && SlotsAlike(o, o2, 0, t, i, i + n, true) <==>
      Neutral(o, p0, rt, st, k, t, i, n)
  {
    hide At, Wf, SlotsOnly, Merge, Zeros;
    if (forall j :: 0 <= j < n ==> MergedAt(o, o2, p0, rt, st, k, t, i, j)) && SlotsAlike(o, o2, 0, t, i, i + n, true) {
      forall j | 0 <= j < n ensures NeutralAt(o, p0, rt, st, k, t, i, j) {
        assert MergedAt(o, o2, p0, rt, st, k, t, i, j) && Like(At(o, 0, t, i + j), At(o2, 0, t, i + j), true);
      }
    }
    if rt != t && st != t {
      forall j | 0 <= j < n ensures MergedAt(o, o2, p0, rt, st, k, t, i, j) { MergedBytesAt(o, o2, p0, rt, st, k, t, i, n, j); }
    }
    if Neutral(o, p0, rt, st, k, t, i, n) {
      forall j | 0 <= j < n ensures MergedAt(o, o2, p0, rt, st, k, t, i, j) && At(o2, 0, t, i + j).bytes == At(o, 0, t, i + j).bytes {
        assert MergeResult(o, o2, p0, rt, st, k, t, i, n, j) && NeutralAt(o, p0, rt, st, k, t, i, j);
        if rt != t && st != t { MergedBytesAt(o, o2, p0, rt, st, k, t, i, n, j); }
      }
      forall z | i <= z < i + n ensures Like(At(o, 0, t, z), At(o2, 0, t, z), true) {
        assert MergedAt(o, o2, p0, rt, st, k, t, i, z - i) && At(o2, 0, t, i + (z - i)).bytes == At(o, 0, t, i + (z - i)).bytes;
      }
    }
  }

  /** Exactly when a merge within one page table on each side keeps its promise: every destination table on the way has a
      single reference, or the merge changes nothing. */
  lemma MergeExact(o: Store, o2: Store, refc: map<Page, int>, roots: set<Page>, p0: seq<Byte>, r: Page, s: Page, sva: nat, d: Page, dva: nat,
                   rt: Page, st: Page, k: nat, t: Page, i: nat, n: nat)
    requires Quiet(o, refc, roots) && r in roots && s in roots && d in roots && d != r && d != s && forall u :: u in roots ==> IsTab(o, 3, u)
    requires MergeWay(o, r, s, sva, d, dva, rt, st, k, t, i, n) && MergeRan(o, o2, p0, rt, st, k, t, i, n, n)
    ensures Wf(o2) && (forall u :: u in roots ==> IsTab(o2, 3, u)) && sva + n <= Span(4) && dva + n <= Span(4)
    ensures MergeKept(o, o2, roots, p0, r, s, sva, d, dva, n) <==>
      Lone(o, refc, d, dva, 0) || NothingMerged(o, p0, r, s, sva, d, dva, n)
  {
    hide At, TabAt, Low, Wf, Quiet, Lone, SlotsOnly, OthersKept, SlotsAlike, Neutral, Merge, Zeros, MergeResult;
    QuietWf(o, refc, roots);
    WayEnds(o, r, s, sva, d, dva, rt, st, k, t, i, n);
    OnlyWf(o, o2, 0, t, i, i + n);
    forall u | u in roots ensures IsTab(o2, 3, u) { Seen(o, o2, 0, t, i, i + n, u, 0); }
    NotZero(o, t);
    LoneOrAlike(o, o2, refc, roots, d, dva, 0, n, true);
    MergedExact(o, o2, p0, rt, st, k, t, i, n);
    PagesMerged(o, o2, p0, r, s, sva, d, dva, rt, st, k, t, i, n);
    NeutralPages(o, p0, r, s, sva, d, dva, rt, st, k, t, i, n);
    if Lone(o, refc, d, dva, 0) && rt == t { OnlyWay(o, refc, roots, d, dva, 0, r, sva); assert false; }
    if Lone(o, refc, d, dva, 0) && st == t { OnlyWay(o, refc, roots, d, dva, 0, s, sva); assert false; }
  }

  lemma PagesMerged(o: Store, o2: Store, p0: seq<Byte>, r: Page, s: Page, sva: nat, d: Page, dva: nat, rt: Page, st: Page, k: nat, t: Page, i: nat, n: nat)
    requires MergeWay(o, r, s, sva, d, dva, rt, st, k, t, i, n) && SlotsOnly(o, o2, 0, t, i, i + n) && |p0| == PAGESIZE
    ensures Wf(o) && Wf(o2) && IsTab(o, 3, d) && IsTab(o2, 3, d) && IsTab(o2, 0, t) && IsTab(o, 0, t) && TabOrNone(o, rt) && TabOrNone(o, st)
    ensures sva + n <= Span(4) && dva + n <= Span(4)
    ensures (forall x :: 0 <= x < n ==> ShowsMerge(o, o2, p0, r, s, sva, d, dva, x))
       <==> (forall j :: 0 <= j < n ==> MergedAt(o, o2, p0, rt, st, k, t, i, j))
  {
    hide At, TabAt, Low, Wf, SlotsOnly, Merge, Zeros, PageMerged, SlotMerged;
    OnlyWf(o, o2, 0, t, i, i + n);
    LeadsKept(o, o2, d, dva, 0, t, i, i, i + n);
    WayEnds(o, r, s, sva, d, dva, rt, st, k, t, i, n);
    forall x | 0 <= x < n ensures ShowsMerge(o, o2, p0, r, s, sva, d, dva, x) <==> MergedAt(o, o2, p0, rt, st, k, t, i, x) {
      WayAt(o, p0, r, s, sva, d, dva, rt, st, k, t, i, n, x);
      LeadsAt(o2, d, dva, 0, t, i, n, x);
    }
  }

  lemma NeutralPages(o: Store, p0: seq<Byte>, r: Page, s: Page, sva: nat, d: Page, dva: nat, rt: Page, st: Page, k: nat, t: Page, i: nat, n: nat)
    requires MergeWay(o, r, s, sva, d, dva, rt, st, k, t, i, n) && |p0| == PAGESIZE
    ensures Wf(o) && IsTab(o, 3, d) && IsTab(o, 0, t) && TabOrNone(o, rt) && TabOrNone(o, st) && sva + n <= Span(4) && dva + n <= Span(4)
    ensures NothingMerged(o, p0, r, s, sva, d, dva, n) <==> Neutral(o, p0, rt, st, k, t, i, n)
  {
    hide At, TabAt, Low, Wf, Merge, Zeros, PageMerged, SlotMerged;
    WayEnds(o, r, s, sva, d, dva, rt, st, k, t, i, n);
    forall x | 0 <= x < n ensures ShowsMerge(o, o, p0, r, s, sva, d, dva, x) <==> NeutralAt(o, p0, rt, st, k, t, i, x) {
      WayAt(o, p0, r, s, sva, d, dva, rt, st, k, t, i, n, x);
    }
  }

  /* ---------- the way down ---------- */

  /** No shortcut ends the way: at every level above the lowest both source and destination have changed since the snapshot,
      the destination's table is there, and above the lowest but one so are the other two. */
  predicate Diverges(o: Store, level: nat, rt: Page, st: Page, sva: nat, dt: Page, dva: nat)
    requires Wf(o) && level <= 3 && IsTab(o, level, dt) && sva < Span(level + 1) && dva < Span(level + 1)
    requires if level == 0 then TabOrNone(o, rt) && TabOrNone(o, st) else IsTab(o, level, rt) && IsTab(o, level, st)
    decreases level
  {
    IdxInside(level, sva);
    IdxInside(level, dva);
    level == 0 ||
    (var re, se, de := Entry(o, level, rt, Idx(level, sva)), Entry(o, level, st, Idx(level, sva)), Entry(o, level, dt, Idx(level, dva));
     && se != re && de != re && de.page != ZERO && (level > 1 ==> re.page != ZERO && se.page != ZERO)
     && Diverges(o, level - 1, re.page, se.page, Off(level, sva), de.page, Off(level, dva)))
  }

  function Bottom(o: Store, level: nat, t: Page, x: nat): Page
    requires Wf(o) && level <= 3 && x < Span(level + 1) && (level > 0 ==> IsTab(o, level, t))
  {
    if level == 0 then t else TabAt(o, level, t, x, 0)
  }

  lemma BottomStep(o: Store, level: nat, t: Page, x: nat)
    requires Wf(o) && 1 <= level <= 3 && IsTab(o, level, t) && x < Span(level + 1)
    ensures Idx(level, x) < ENTRIES && Low(level, x, 0) == Low(level - 1, Off(level, x), 0)
    ensures var q := o[t].es[Idx(level, x)].page;
      (level > 1 && q != ZERO ==> IsTab(o, level - 1, q)) && (level == 1 ==> TabOrNone(o, q) && Bottom(o, level, t, x) == q == Bottom(o, 0, q, Off(level, x)))
      && (q == ZERO ==> Bottom(o, level, t, x) == ZERO) && (q != ZERO ==> Bottom(o, level, t, x) == Bottom(o, level - 1, q, Off(level, x)))
  {
    IdxInside(level, x);
    EntryFits(o, level, t, Idx(level, x));
  }

  /** pmap_merge_level down to the page tables. */
  method MergeDown(pm: PageMaps, p0: seq<Byte>, level: nat, rt: Page, st: Page, sva: nat, dt: Page, dva: nat, n: nat) returns (ok: bool)
    requires pm.Valid() && Wf(pm.obj) && level <= 3 && IsTab(pm.obj, level, dt) && sva < Span(level + 1) && dva < Span(level + 1) && |p0| == PAGESIZE
    requires if level == 0 then TabOrNone(pm.obj, rt) && TabOrNone(pm.obj, st) else IsTab(pm.obj, level, rt) && IsTab(pm.obj, level, st)
    requires Diverges(pm.obj, level, rt, st, sva, dt, dva)
    requires Low(level, sva, 0) + n <= ENTRIES && Low(level, dva, 0) + n <= ENTRIES
    modifies pm`obj, pm`refc, pm`free, pm`npage, pm`held, pm`excl
    ensures pm.Valid() && pm.held == old(pm.held) && Wf(pm.obj)
    ensures Bottom(old(pm.obj), level, st, sva) != ZERO || Bottom(old(pm.obj), level, rt, sva) == ZERO ==> ok
    ensures ok ==> MergeRan(old(pm.obj), pm.obj, p0, Bottom(old(pm.obj), level, rt, sva), Bottom(old(pm.obj), level, st, sva), Low(level, sva, 0),
                            Bottom(old(pm.obj), level, dt, dva), Low(level, dva, 0), n, n)
    decreases level
  {
    hide Wf, Exact, Exclusive, FreeOk, MergeRan, TabAt, Low, Idx, Off, Bottom;
    LowestIs(sva, dva);
    if level == 0 {
      BottomLowest(pm.obj, rt, sva);
      BottomLowest(pm.obj, st, sva);
      BottomLowest(pm.obj, dt, dva);
      ok := MergeSlots(pm, p0, rt, st, sva, dt, dva, n);
    } else {
      BottomStep(pm.obj, level, rt, sva);
      BottomStep(pm.obj, level, st, sva);
      BottomStep(pm.obj, level, dt, dva);
      ok := MergeDown(pm, p0, level - 1, pm.obj[rt].es[Idx(level, sva)].page, pm.obj[st].es[Idx(level, sva)].page, Off(level, sva),
                      pm.obj[dt].es[Idx(level, dva)].page, Off(level, dva), n);
    }
  }

  lemma LowestIs(x: nat, y: nat)
    ensures x < Span(1) ==> Low(0, x, 0) == x
    ensures y < Span(1) ==> Low(0, y, 0) == y
  {
  }

  lemma BottomLowest(o: Store, t: Page, x: nat)
    requires Wf(o) && x < Span(1)
    ensures Bottom(o, 0, t, x) == t
  {
  }

  lemma BottomWay(o: Store, r: Page, s: Page, sva: nat, d: Page, dva: nat, rt: Page, st: Page, k: nat, t: Page, i: nat, n: nat)
    requires MergeWay(o, r, s, sva, d, dva, rt, st, k, t, i, n)
    ensures Wf(o) && IsTab(o, 3, d) && dva < Span(4)
    ensures Bottom(o, 3, r, sva) == rt && Bottom(o, 3, s, sva) == st && Bottom(o, 3, d, dva) == t && Low(3, dva, 0) == i
  {
  }

  /** pmap_merge of n pages within one page table on each side, whoever shares them; not ok when the kernel stops. */
  method PmapMergeWithin(pm: PageMaps, p0: seq<Byte>, rroot: Page, sroot: Page, sva: nat, droot: Page, dva: nat, n: nat,
                         ghost rt: Page, ghost st: Page, ghost k: nat, ghost t: Page, ghost i: nat) returns (ok: bool)
    requires pm.Valid() && Wf(pm.obj) && rroot in pm.roots && sroot in pm.roots && droot in pm.roots && droot != rroot && droot != sroot
    requires MergeWay(pm.obj, rroot, sroot, sva, droot, dva, rt, st, k, t, i, n) && Diverges(pm.obj, 3, rroot, sroot, sva, droot, dva)
    requires Quiet(pm.obj, pm.refc, pm.roots) && |p0| == PAGESIZE
    modifies pm`obj, pm`refc, pm`free, pm`npage, pm`held, pm`excl
    ensures pm.Valid() && pm.held == old(pm.held) && Wf(pm.obj) && Wf(old(pm.obj)) && (st != ZERO || rt == ZERO ==> ok)
    ensures ok ==> MergeRan(old(pm.obj), pm.obj, p0, rt, st, k, t, i, n, n)
    ensures ok ==> (forall u :: u in pm.roots ==> IsTab(old(pm.obj), 3, u) && IsTab(pm.obj, 3, u)) && sva + n <= Span(4) && dva + n <= Span(4)
    ensures ok ==> (MergeKept(old(pm.obj), pm.obj, pm.roots, p0, rroot, sroot, sva, droot, dva, n) <==>
                    Lone(old(pm.obj), old(pm.refc), droot, dva, 0) || NothingMerged(old(pm.obj), p0, rroot, sroot, sva, droot, dva, n))
  {
    hide Wf, Exact, Exclusive, FreeOk, MergeRan, TabAt, Low, Quiet, Lone, MergeKept, NothingMerged, Bottom, MergeWay, Diverges;
    ghost var o, r := pm.obj, pm.refc;
    RootsTabs(o, r, pm.roots);
    WayFits(o, rroot, sroot, sva, droot, dva, rt, st, k, t, i, n);
    BottomWay(o, rroot, sroot, sva, droot, dva, rt, st, k, t, i, n);
    ok := MergeDown(pm, p0, 3, rroot, sroot, sva, droot, dva, n);
    if ok {
      MergeExact(o, pm.obj, r, pm.roots, p0, rroot, sroot, sva, droot, dva, rt, st, k, t, i, n);
    }
  }

  lemma WayFits(o: Store, r: Page, s: Page, sva: nat, d: Page, dva: nat, rt: Page, st: Page, k: nat, t: Page, i: nat, n: nat)
    requires MergeWay(o, r, s, sva, d, dva, rt, st, k, t, i, n)
    ensures sva < Span(4) && dva < Span(4) && Low(3, sva, 0) + n <= ENTRIES && Low(3, dva, 0) + n <= ENTRIES
    ensures Low(3, sva, 0) == k && Low(3, dva, 0) == i
  {
  }

  /* ---------- what the others see ---------- */

  ghost predicate ShowsStill(o: Store, o2: Store, u: Page)
    requires Wf(o) && Wf(o2) && IsTab(o, 3, u) && IsTab(o2, 3, u)
  {
    forall y {:trigger At(o2, 3, u, y)} :: 0 <= y < Span(4) ==> At(o2, 3, u, y).bytes == At(o, 3, u, y).bytes
  }

  /** Wherever u leads to one of the merged slots, the merge changes nothing. */
  ghost predicate NeutralFor(o: Store, p0: seq<Byte>, rt: Page, st: Page, k: nat, t: Page, i: nat, n: nat, u: Page)
    requires Wf(o) && TabOrNone(o, rt) && TabOrNone(o, st) && IsTab(o, 0, t) && k + n <= ENTRIES && i + n <= ENTRIES && |p0| == PAGESIZE
    requires IsTab(o, 3, u)
  {
    forall y {:trigger TabAt(o, 3, u, y, 0)} :: 0 <= y < Span(4) && TabAt(o, 3, u, y, 0) == t && i <= Low(3, y, 0) < i + n ==>
      NeutralAt(o, p0, rt, st, k, t, i, Low(3, y, 0) - i)
  }

  /** Exactly when a space, such as the snapshot or a child still to be merged, keeps showing what it showed. */
  lemma ShowsStillIff(o: Store, o2: Store, p0: seq<Byte>, rt: Page, st: Page, k: nat, t: Page, i: nat, n: nat, u: Page)
    requires MergeRan(o, o2, p0, rt, st, k, t, i, n, n) && rt != t && st != t && IsTab(o, 3, u)
    ensures Wf(o) && Wf(o2) && IsTab(o2, 3, u) && IsTab(o, 0, t)
    ensures ShowsStill(o, o2, u) <==> NeutralFor(o, p0, rt, st, k, t, i, n, u)
  {
    hide At, TabAt, Low, Wf, SlotsOnly, Merge, Zeros, SlotMerged;
    OnlyWf(o, o2, 0, t, i, i + n);
    Seen(o, o2, 0, t, i, i + n, u, 0);
    if ShowsStill(o, o2, u) {
      forall y | 0 <= y < Span(4) && TabAt(o, 3, u, y, 0) == t && i <= Low(3, y, 0) < i + n
        ensures NeutralAt(o, p0, rt, st, k, t, i, Low(3, y, 0) - i)
      {
        SeenSlot(o, o2, p0, rt, st, k, t, i, n, u, y);
      }
    }
    if NeutralFor(o, p0, rt, st, k, t, i, n, u) {
      forall y | 0 <= y < Span(4) ensures At(o2, 3, u, y).bytes == At(o, 3, u, y).bytes {
        Seen(o, o2, 0, t, i, i + n, u, y);
        if TabAt(o, 3, u, y, 0) == t && i <= Low(3, y, 0) < i + n { SeenSlot(o, o2, p0, rt, st, k, t, i, n, u, y); }
      }
    }
  }

  /** Whoever leads to a merged slot, such as the child merged before, whose tables the destination has taken over, shows the
      merge there, or nothing if it was a conflict. */
  lemma SeenSlot(o: Store, o2: Store, p0: seq<Byte>, rt: Page, st: Page, k: nat, t: Page, i: nat, n: nat, u: Page, y: nat)
    requires MergeRan(o, o2, p0, rt, st, k, t, i, n, n) && Wf(o) && Wf(o2) && rt != t && st != t && IsTab(o, 0, t) && IsTab(o, 3, u) && IsTab(o2, 3, u)
    requires y < Span(4) && TabAt(o, 3, u, y, 0) == t && i <= Low(3, y, 0) < i + n
    ensures At(o2, 3, u, y).bytes == SlotMerged(o, p0, rt, st, k + (Low(3, y, 0) - i), t, Low(3, y, 0))
    ensures ViewMerged(RawView(o, p0, rt, k + (Low(3, y, 0) - i)), RawView(o, p0, st, k + (Low(3, y, 0) - i)), At(o, 3, u, y), At(o2, 3, u, y))
    ensures At(o, 3, u, y) == At(o, 0, t, Low(3, y, 0))
  {
    hide At, TabAt, Low, Wf, SlotsOnly, Merge, Zeros, SlotMerged, ViewMerged;
    Seen(o, o2, 0, t, i, i + n, u, y);
    AtLow(o, 3, u, y, 0);
    NotZero(o, t);
    SlotsTab(o, o2, 0, t, i, i + n);
    assert MergeResult(o, o2, p0, rt, st, k, t, i, n, Low(3, y, 0) - i);
    MergedBytesAt(o, o2, p0, rt, st, k, t, i, n, Low(3, y, 0) - i);
  }

  /** Where snapshot and destination have the same page table, which happens if the entries that name it differ in PTE_W only,
      the snapshot itself takes on the source's page. */
  lemma SnapshotTaken(o: Store, p0: seq<Byte>, st: Page, t: Page, i: nat)
    requires Wf(o) && IsTab(o, 0, st) && IsTab(o, 0, t) && i < ENTRIES && |p0| == PAGESIZE
    ensures SlotMerged(o, p0, t, st, i, t, i) == At(o, 0, st, i).bytes
  {
    hide At, Merge;
    NotZero(o, st);
    NotZero(o, t);
    Shortcuts(At(o, 0, t, i).bytes, At(o, 0, st, i).bytes, At(o, 0, t, i).bytes);
  }

  /* ---------- absent page tables ---------- */

  /** What was meant: an absent table maps zeros. */
  function MeantBytes(there: bool, b: seq<Byte>): seq<Byte> { if there then b else Zeros() }
  function ReadBytes(p0: seq<Byte>, there: bool, b: seq<Byte>): seq<Byte> { if there then b else p0 }

  /** The code merges as meant, whatever the pages hold. */
  ghost predicate AlwaysMeant(p0: seq<Byte>, rthere: bool, sthere: bool)
    requires |p0| == PAGESIZE
  {
    forall r, s, d :: |r| == |s| == |d| == PAGESIZE ==> AsMeant(p0, rthere, sthere, r, s, d)
  }

  predicate AsMeant(p0: seq<Byte>, rthere: bool, sthere: bool, r: seq<Byte>, s: seq<Byte>, d: seq<Byte>)
    requires |p0| == |r| == |s| == |d| == PAGESIZE
  {
    Merge(ReadBytes(p0, rthere, r), ReadBytes(p0, sthere, s), d) == Merge(MeantBytes(rthere, r), MeantBytes(sthere, s), d)
  }

  /** It does so exactly if the snapshot's and the source's page tables are both there or both absent, unless physical page 0
      happens to hold zeros only. */
  lemma MeantIff(p0: seq<Byte>, rthere: bool, sthere: bool)
    requires |p0| == PAGESIZE
    ensures AlwaysMeant(p0, rthere, sthere) <==> rthere == sthere || p0 == Zeros()
  {
    hide Merge, Conflict;
    if rthere == sthere {
      forall r, s, d | |r| == |s| == |d| == PAGESIZE ensures AsMeant(p0, rthere, sthere, r, s, d) {
        Shortcuts(p0, p0, d);
        Shortcuts(Zeros(), Zeros(), d);
      }
    } else if p0 != Zeros() {
      var z := Zeros();
      if rthere {
        Shortcuts(z, p0, z);
        Shortcuts(z, z, z);
        assert !AsMeant(p0, rthere, sthere, z, z, z);
      } else {
        OnesApart();
        NewRegion(p0, Ones(), z);
        assert !AsMeant(p0, rthere, sthere, z, Ones(), z);
      }
    }
  }

  function Ones(): seq<Byte> { seq(PAGESIZE, i => 1) }

  lemma OnesApart()
    ensures !Conflict(Zeros(), Ones(), Zeros()) && Ones() != Zeros()
  {
    assert Ones()[0] != Zeros()[0];
  }

  /** A page written since the snapshot in a region that had no page table then, by one side or by both without a conflict:
      it comes out as meant exactly if physical page 0 holds zeros only.  Otherwise the page is lost or wrong. */
  lemma NewRegion(p0: seq<Byte>, s: seq<Byte>, d: seq<Byte>)
    requires |p0| == |s| == |d| == PAGESIZE && !Conflict(Zeros(), s, d) && (s != Zeros() || d != Zeros())
    ensures AsMeant(p0, false, true, s, s, d) <==> p0 == Zeros()
  {
    var z := Zeros();
    if p0 != z {
      var i :| 0 <= i < PAGESIZE && p0[i] != 0;
      assert !Clash(z, s, d, i);
      var j := if s != z then FirstNonZero(s) else FirstNonZero(d);
      assert !Clash(z, s, d, j);
      var m, w := Merge(z, s, d), Merge(p0, s, d);
      assert m[j] != 0;
      if Conflict(p0, s, d) {
        assert w[j] == 0;
      } else {
        assert !Clash(p0, s, d, i);
        assert w[i] != m[i];
      }
    }
  }

  ghost function FirstNonZero(s: seq<Byte>): (i: nat)
    requires |s| == PAGESIZE && s != Zeros()
    ensures i < PAGESIZE && s[i] != 0
  {
    var i :| 0 <= i < PAGESIZE && s[i] != 0;
    i
  }

  /** The same for a run of the code over a region without a page table in the snapshot: a page that one side wrote, or both
      without a conflict, is merged as meant exactly if physical page 0 holds zeros only. */
  lemma NewRegionMerged(o: Store, o2: Store, p0: seq<Byte>, st: Page, k: nat, t: Page, i: nat, n: nat, j: nat)
    requires MergeRan(o, o2, p0, ZERO, st, k, t, i, n, n) && IsTab(o, 0, st) && st != t && j < n && Wf(o) && IsTab(o, 0, t)
    requires !Conflict(Zeros(), At(o, 0, st, k + j).bytes, At(o, 0, t, i + j).bytes)
    requires At(o, 0, st, k + j).bytes != Zeros() || At(o, 0, t, i + j).bytes != Zeros()
    ensures Wf(o2) && IsTab(o2, 0, t)
    ensures At(o2, 0, t, i + j).bytes == Merge(Zeros(), At(o, 0, st, k + j).bytes, At(o, 0, t, i + j).bytes) <==> p0 == Zeros()
  {
    hide At, Wf, Merge, Conflict, Zeros, SlotsOnly;
    OnlyWf(o, o2, 0, t, i, i + n);
    NotZero(o, t);
    NotZero(o, st);
    MergedBytesAt(o, o2, p0, ZERO, st, k, t, i, n, j);
    NewRegion(p0, At(o, 0, st, k + j).bytes, At(o, 0, t, i + j).bytes);
  }
}
