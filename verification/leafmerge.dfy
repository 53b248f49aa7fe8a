/** Changes of a single entry of a private page table, and the merge of one page in place or on a page of its own
    (pmap_mergepage in kern/pmap.c). */
module LeafMerge {
  import opened Paging
  import opened PageMem
  import opened Views
  import opened Private
  import opened Walk
  import opened Frames
  import opened Remove
  import opened Copy
  import opened PageCopy
  import opened Spaces
  import opened Faults
  import opened ThreeWay

  /** Among the tables only entry i of page table d changed; data pages named by other entries did not. */
  ghost predicate LeafOnly(o: Store, o2: Store, d: Page, i: nat)
  {
    && IsTab(o, 0, d) && IsTab(o2, 0, d) && i < ENTRIES
    && (forall j :: 0 <= j < ENTRIES && j != i ==> o2[d].es[j] == o[d].es[j])
    && (forall u :: u in o && o[u].Table? && u != d ==> u in o2 && o2[u] == o[u])
    && (forall u: Page, j: nat, p: Page :: (u, j) != (d, i) && Names(o, u, j, p) && p in o && o[p].Data? ==> p in o2 && o2[p] == o[p])
  }

  lemma LeafOnlyAt(o: Store, o2: Store, d: Page, i: nat, u: Page, x: nat)
    requires Wf(o) && Wf(o2) && LeafOnly(o, o2, d, i) && IsTab(o, 0, u) && x < ENTRIES && (u, x) != (d, i)
    ensures IsTab(o2, 0, u) && At(o2, 0, u, x) == At(o, 0, u, x) && (EffW(o2, 0, u, x) <==> EffW(o, 0, u, x))
  {
    EntryFits(o, 0, u, x);
    EntryFits(o2, 0, u, x);
    assert Names(o, u, x, o[u].es[x].page);
    SameLeaf(o, o2, o[u].es[x]);
  }

  lemma LeafLocal(o: Store, x: set<Page>, o2: Store, x2: set<Page>, roots: set<Page>, d: Page, i: nat, s: set<Page>)
    requires Wf(o) && Wf(o2) && LeafOnly(o, o2, d, i) && d !in s && Anchored(o, roots, s)
    requires forall u :: u in s && u in o ==> o[u].Table?
    requires HighExcl(o, x, x2, 0)
    ensures Local(o, x, o2, x2, roots, 0, d, s, i, i + 1)
  {
    forall u | IsTab(o, 0, u) && u != d ensures Same(o, o2, 0, u) {
      assert u in o2 && o2[u] == o[u];
      forall y | 0 <= y < ENTRIES ensures At(o2, 0, u, y) == At(o, 0, u, y) && (EffW(o2, 0, u, y) <==> EffW(o, 0, u, y)) {
        LeafOnlyAt(o, o2, d, i, u, y);
      }
    }
    AnchoredSame(o, o2, roots, s);
    assert Confined(o, o2, 0, d);
    assert PeersTree(o, x, o2, 0, d);
    assert PrivKept(o, o2, 0, d);
    assert KeptOutside(o, o2, 0, d, i, i + 1);
  }

  /** Entry i of page table d has its own page q, with bytes b. */
  ghost predicate OwnLeaf(o: Store, d: Page, i: nat, q: Page, b: seq<Byte>)
  {
    && Wf(o) && IsTab(o, 0, d) && i < ENTRIES && o[d].es[i].page == q && q != ZERO && q in o && o[q] == Data(b) && |b| == PAGESIZE
    && OnlyNamed(o, q, d, i)
  }

  lemma CopyLeafOnly(o: Store, n: Page, b: seq<Byte>, om: Store, o3: Store, d: Page, i: nat)
    requires Wf(o) && Wf(om) && Wf(o3) && IsTab(o, 0, d) && i < ENTRIES && n !in o && n != ZERO && |b| == PAGESIZE
    requires om == SetIn(o[n := Data(b)], d, i, Pte(n, true, true, true, true))
    requires Shrunk(om, o3) && HighSame(om, o3, 0, ZERO)
    ensures LeafOnly(o, o3, d, i) && IsTab(o3, 0, d) && o3[d] == om[d] && n in o3 && o3[n] == Data(b)
  {
    assert d in om && d != ZERO && o3[d] == om[d];
    EntryFits(o3, 0, d, i);
    forall u: Page, j: nat, p: Page | (u, j) != (d, i) && Names(o, u, j, p) && p in o && o[p].Data? ensures p in o3 && o3[p] == o[p] {
      EntryFits(o, o[u].level, u, j) by { assert ObjOk(o, u); }
      assert Names(om, u, j, p);
      assert u in om && om[u].Table? && u != ZERO && o3[u] == om[u];
      EntryFits(o3, o[u].level, u, j) by { assert ObjOk(o3, u); }
    }
  }

  /** A fresh page with bytes b takes the place of page q in entry i; the reference to q is held. */
  method NewLeaf(pm: PageMaps, d: Page, i: nat, b: seq<Byte>) returns (n: Page)
    requires pm.Valid() && Wf(pm.obj) && IsTab(pm.obj, 0, d) && i < ENTRIES && |b| == PAGESIZE
    modifies pm`obj, pm`refc, pm`free, pm`npage, pm`held, pm`excl
    ensures pm.Valid() && n !in old(pm.obj) && n != ZERO && ZERO !in old(pm.obj)
    ensures IsTab(old(pm.obj)[n := Data(b)], 0, d)
    ensures pm.obj == SetIn(old(pm.obj)[n := Data(b)], d, i, Pte(n, true, true, true, true))
    ensures pm.held == old(pm.held) + NonZero(old(pm.obj)[d].es[i].page) && pm.excl == old(pm.excl) + {n}
    ensures n in pm.refc && pm.refc[n] == 1
  {
    hide Wf, Exact, Exclusive, FreeOk, Anchored, NonZero, EntryOk;
    ghost var o, x := pm.obj, pm.excl;
    InvFacts(o, pm.refc, pm.free, pm.npage, pm.roots, pm.held, x);
    n := pm.NewPage(Data(b));
    var e := Pte(n, true, true, true, true);
    FreshEntry(pm.obj, e);
    HeldSwap(old(pm.held), n, o[d].es[i].page);
    pm.SetEntry(d, i, e);
  }

  lemma HeldSwap(h: multiset<Page>, n: Page, q: Page)
    requires n != ZERO
    ensures NonZero(n) <= h + multiset{n} + NonZero(q)
    ensures h + multiset{n} + NonZero(q) - NonZero(n) == h + NonZero(q)
  {
  }

  /* ---------- what a merge makes of a page ---------- */

  /** A page of its own, with all permissions. */
  predicate Full(e: Pte) { e.page != ZERO && e.p && e.r && e.rw }

  /** The destination address that showed d shows d2 after the merge of the page that r showed in the snapshot and s in the
      source.  On a conflict it maps nothing.  Otherwise it has the merged bytes, and keeps its page and permissions, or takes the
      source's, which it can only where it showed what the snapshot did, or gets a page of its own with all permissions. */
  predicate ViewMerged(r: View, s: View, d: View, d2: View)
    requires |r.bytes| == |s.bytes| == |d.bytes| == PAGESIZE
  {
    if Conflict(r.bytes, s.bytes, d.bytes) then d2 == Absent()
    else d2.bytes == Merge(r.bytes, s.bytes, d.bytes) && (d2.pte == d.pte || (d == r && CopyOf(d, d2, s)) || Full(d2.pte))
  }

  lemma ViewBytes(r: View, s: View, d: View, d2: View)
    requires |r.bytes| == |s.bytes| == |d.bytes| == PAGESIZE && ViewMerged(r, s, d, d2)
    ensures d2.bytes == Merge(r.bytes, s.bytes, d.bytes)
  {
  }

  /** The source shows the bytes of the snapshot, and nothing happens. */
  lemma ViewNothing(r: View, s: View, d: View)
    requires |r.bytes| == |s.bytes| == |d.bytes| == PAGESIZE && s.bytes == r.bytes
    ensures ViewMerged(r, s, d, d)
  {
  }

  /** The destination shows what the snapshot does, and takes on what the source shows. */
  lemma ViewTaken(r: View, s: View, d: View, d2: View)
    requires |r.bytes| == |s.bytes| == |d.bytes| == PAGESIZE && d == r && CopyOf(d, d2, s)
    requires d.pte.page == ZERO ==> d.bytes == Zeros()
    ensures ViewMerged(r, s, d, d2)
  {
    hide Zeros;
    Shortcuts(r.bytes, s.bytes, d.bytes);
  }

  /** Of the merged addresses, one with a conflict is not writable for the processor either. */
  lemma ConflictUnmapped(o2: Store, level: nat, d: Page, x: nat, rv: View, sv: View, dv: View)
    requires Wf(o2) && level <= 3 && IsTab(o2, level, d) && x < Span(level + 1) && |rv.bytes| == |sv.bytes| == |dv.bytes| == PAGESIZE
    requires ViewMerged(rv, sv, dv, At(o2, level, d, x)) && Conflict(rv.bytes, sv.bytes, dv.bytes)
    ensures At(o2, level, d, x) == Absent() && !EffW(o2, level, d, x)
  {
    if EffW(o2, level, d, x) { EffWPage(o2, level, d, x); }
  }

  /** Entry i of page table d after pmap_mergepage: cleared on a conflict; on a fresh page if its page was the zero page or shared;
      otherwise untouched, with the merged bytes in its page. */
  ghost predicate EntryMerged(o: Store, refc: map<Page, int>, o2: Store, d: Page, i: nat, rpg: seq<Byte>, spg: seq<Byte>)
  {
    && Wf(o) && Wf(o2) && IsTab(o, 0, d) && IsTab(o2, 0, d) && i < ENTRIES && |rpg| == |spg| == PAGESIZE
    && var e, e2, b := o[d].es[i], o2[d].es[i], At(o, 0, d, i).bytes;
       if Conflict(rpg, spg, b) then e2 == CLEAR
       else
         && e2.page in o2 && o2[e2.page] == Data(Merge(rpg, spg, b))
         && if e.page == ZERO || (e.page in refc && refc[e.page] > 1) then e2 == Pte(e2.page, true, true, true, true) && e2.page !in o
            else e2 == e
  }

  lemma EntryView(o: Store, refc: map<Page, int>, o2: Store, d: Page, i: nat, rv: View, sv: View)
    requires |rv.bytes| == |sv.bytes| == PAGESIZE && EntryMerged(o, refc, o2, d, i, rv.bytes, sv.bytes)
    ensures ViewMerged(rv, sv, At(o, 0, d, i), At(o2, 0, d, i))
  {
    hide Merge, Conflict, Zeros;
    IdxInside(0, i);
    assert Entry(o2, 0, d, i) == o2[d].es[i] && Entry(o, 0, d, i) == o[d].es[i];
    ConflictZeros(rv.bytes, sv.bytes, At(o, 0, d, i).bytes);
  }

  lemma ConflictZeros(r: seq<Byte>, s: seq<Byte>, d: seq<Byte>)
    requires |r| == |s| == |d| == PAGESIZE
    ensures Conflict(r, s, d) ==> Merge(r, s, d) == Zeros()
  {
  }

  /** The page is the zero page or shared: give the entry a copy. */
  method CopyLeaf(pm: PageMaps, d: Page, i: nat, ghost s: set<Page>) returns (n: Page)
    requires pm.Valid() && IsTab(pm.obj, 0, d) && d !in s && i < ENTRIES && Anchored(pm.obj, pm.roots, s)
    requires Wf(pm.obj) && forall u :: u in s && u in pm.obj ==> pm.obj[u].Table?
    modifies pm`obj, pm`refc, pm`free, pm`npage, pm`held, pm`excl
    ensures pm.Valid() && pm.held == old(pm.held) && Wf(pm.obj)
    ensures Local(old(pm.obj), old(pm.excl), pm.obj, pm.excl, pm.roots, 0, d, s, i, i + 1)
    ensures OwnLeaf(pm.obj, d, i, n, At(old(pm.obj), 0, d, i).bytes) && LeafElse(old(pm.obj), pm.obj, d, i)
    ensures IsTab(pm.obj, 0, d) && pm.obj[d].es[i] == Pte(n, true, true, true, true) && n !in old(pm.obj)
  {
    hide Wf, Exact, Exclusive, FreeOk, Anchored, Local, Zeros, EntryOk, Released, OnlyNamed, LeafOnly, LeafElse, HighExcl, Shrunk, HighSame;
    ghost var o, x := pm.obj, pm.excl;
    EntryFits(o, 0, d, i);
    var q := pm.obj[d].es[i].page;
    ghost var b := At(o, 0, d, i).bytes;
    DataBytes(o, q, At(o, 0, d, i));
    n := NewLeaf(pm, d, i, if q == ZERO then Zeros() else pm.obj[q].bytes);
    ghost var om, rm, xm := pm.obj, pm.refc, pm.excl;
    AnchoredNew(o, om, pm.roots, s, d, n);
    ReleasedAny(om, rm, pm.free, pm.npage, pm.roots, pm.held, xm);
    if q != ZERO {
      pm.MemDecref(0, q, s);
    }
    LeafReleased(o, x, om, rm, xm, pm.obj, pm.refc, pm.excl, n);
    WfOf(pm.obj, pm.refc, pm.free, pm.npage, pm.roots, pm.held, pm.excl);
    CopyLeafOnly(o, n, b, om, pm.obj, d, i);
    LeafLocal(o, x, pm.obj, pm.excl, pm.roots, d, i, s);
    LeafElseOf(o, pm.obj, d, i);
    StillOne(om, rm, xm, pm.obj, pm.refc, pm.free, pm.npage, pm.roots, pm.held, pm.excl, d, i, n);
    LeafOwned(pm.obj, pm.refc, pm.free, pm.npage, pm.roots, pm.held, pm.excl, d, i, n, b);
  }

  lemma LeafOwned(o: Store, refc: map<Page, int>, free: seq<Page>, npage: Page, roots: set<Page>,
                  held: multiset<Page>, x: set<Page>, d: Page, i: nat, n: Page, b: seq<Byte>)
    requires Inv(o, refc, free, npage, roots, held, x) && IsTab(o, 0, d) && i < ENTRIES
    requires o[d].es[i].page == n && n in refc && refc[n] == 1 && n in o && o[n] == Data(b) && |b| == PAGESIZE && n != ZERO
    ensures OwnLeaf(o, d, i, n, b)
  {
    SingleOwned(o, refc, free, npage, roots, held, x, d, i);
    EntryFits(o, 0, d, i);
    DataBytes(o, n, At(o, 0, d, i));
  }

  /** A stored page that had one reference still has it after others were released. */
  lemma StillOne(o: Store, r: map<Page, int>, x: set<Page>, o2: Store, r2: map<Page, int>, free: seq<Page>, npage: Page,
                 roots: set<Page>, held: multiset<Page>, x2: set<Page>, d: Page, i: nat, n: Page)
    requires Released(o, r, x, o2, r2, x2, 0, ZERO) && Inv(o2, r2, free, npage, roots, held, x2)
    requires IsTab(o2, 0, d) && i < ENTRIES && o2[d].es[i].page == n && n in o2 && n in r && r[n] == 1
    ensures n in r2 && r2[n] == 1
  {
    EntryCounted(o2, r2, roots, held, d, i);
  }

  lemma WfOf(o: Store, refc: map<Page, int>, free: seq<Page>, npage: Page, roots: set<Page>, held: multiset<Page>, x: set<Page>)
    requires Inv(o, refc, free, npage, roots, held, x)
    ensures Wf(o)
  {
  }

  lemma FreshEntry(o: Store, e: Pte)
    requires e.page in o && o[e.page].Data? && e.page != ZERO && e.p && e.r && e.rw
    ensures EntryOk(o, 0, e) && Fits(o, 0, e.page)
  {
  }

  lemma AnchoredNew(o: Store, om: Store, roots: set<Page>, s: set<Page>, d: Page, n: Page)
    requires Anchored(o, roots, s) && d !in s && n !in o && forall u :: u in o && u != d ==> u in om && om[u] == o[u]
    ensures Anchored(om, roots, s)
  {
    AnchoredSame(o, om, roots, s);
  }

  lemma ReleasedAny(o: Store, r: map<Page, int>, free: seq<Page>, npage: Page, roots: set<Page>, held: multiset<Page>, x: set<Page>)
    requires Inv(o, r, free, npage, roots, held, x)
    ensures Released(o, r, x, o, r, x, 0, ZERO) && Wf(o)
  {
  }

  lemma LeafReleased(o: Store, x: set<Page>, om: Store, rm: map<Page, int>, xm: set<Page>,
                     o3: Store, r3: map<Page, int>, x3: set<Page>, n: Page)
    requires Released(om, rm, xm, o3, r3, x3, 0, ZERO) && xm == x + {n} && ZERO !in o
    requires forall u :: u in o && o[u].Table? ==> u in om && om[u].Table?
    ensures Shrunk(om, o3) && HighSame(om, o3, 0, ZERO) && HighExcl(o, x, x3, 0) && (n in o3 ==> n in x3)
  {
  }

  /** Entries other than i of page table d show what they showed and gained no permission. */
  ghost predicate LeafElse(o: Store, o2: Store, d: Page, i: nat)
  {
    && Wf(o) && Wf(o2) && IsTab(o, 0, d) && IsTab(o2, 0, d)
    && forall x :: 0 <= x < ENTRIES && x != i ==> At(o2, 0, d, x) == At(o, 0, d, x) && (EffW(o2, 0, d, x) ==> EffW(o, 0, d, x))
  }

  lemma LeafElseOf(o: Store, o2: Store, d: Page, i: nat)
    requires Wf(o) && Wf(o2) && LeafOnly(o, o2, d, i)
    ensures LeafElse(o, o2, d, i)
  {
    forall x | 0 <= x < ENTRIES && x != i ensures At(o2, 0, d, x) == At(o, 0, d, x) && (EffW(o2, 0, d, x) ==> EffW(o, 0, d, x)) {
      LeafOnlyAt(o, o2, d, i, d, x);
    }
  }

  lemma LeafElseTrans(o: Store, o1: Store, o2: Store, d: Page, i: nat)
    requires LeafElse(o, o1, d, i) && LeafElse(o1, o2, d, i)
    ensures LeafElse(o, o2, d, i)
  {
  }

  lemma LeafElseRemoved(o: Store, o2: Store, d: Page, i: nat)
    requires Removed(o, o2, 0, d, i, i + 1) && i < ENTRIES
    ensures LeafElse(o, o2, d, i)
  {
    hide Zeros;
    assert Unmaps(At(o, 0, d, i), At(o2, 0, d, i), i <= i < i + 1);
    forall x | 0 <= x < ENTRIES && x != i ensures At(o2, 0, d, x) == At(o, 0, d, x) {
      assert Unmaps(At(o, 0, d, x), At(o2, 0, d, x), i <= x < i + 1);
    }
  }

  /** Writing to the entry's own page. */
  lemma PokeLeaf(o: Store, refc: map<Page, int>, free: seq<Page>, npage: Page, roots: set<Page>, held: multiset<Page>,
                 x: set<Page>, d: Page, i: nat, n: Page, b: seq<Byte>, m: seq<Byte>, s: set<Page>)
    requires Inv(o, refc, free, npage, roots, held, x) && OwnLeaf(o, d, i, n, b) && |m| == PAGESIZE
    requires d !in s && Anchored(o, roots, s) && forall u :: u in s && u in o ==> o[u].Table?
    ensures var o2 := o[n := Data(m)];
      && Inv(o2, refc, free, npage, roots, held, x) && Local(o, x, o2, x, roots, 0, d, s, i, i + 1)
      && LeafElse(o, o2, d, i) && Wf(o2) && IsTab(o2, 0, d) && o2[d] == o[d]
  {
    hide Exact, Exclusive, FreeOk, Anchored, Local, LeafElse, Zeros;
    var o2 := o[n := Data(m)];
    InvPoke(o, refc, free, npage, roots, held, x, n, m);
    WfOf(o2, refc, free, npage, roots, held, x);
    PokeOnly(o, d, i, n, b, m);
    LeafLocal(o, x, o2, x, roots, d, i, s);
    LeafElseOf(o, o2, d, i);
  }

  lemma PokeOnly(o: Store, d: Page, i: nat, n: Page, b: seq<Byte>, m: seq<Byte>)
    requires OwnLeaf(o, d, i, n, b)
    ensures LeafOnly(o, o[n := Data(m)], d, i)
  {
  }

  /** A page with a single reference is the entry's own. */
  lemma SingleOwned(o: Store, refc: map<Page, int>, free: seq<Page>, npage: Page, roots: set<Page>, held: multiset<Page>,
                    x: set<Page>, d: Page, i: nat)
    requires Inv(o, refc, free, npage, roots, held, x) && Wf(o) && IsTab(o, 0, d) && i < ENTRIES
    requires o[d].es[i].page != ZERO && o[d].es[i].page in refc && refc[o[d].es[i].page] == 1
    ensures OwnLeaf(o, d, i, o[d].es[i].page, At(o, 0, d, i).bytes)
  {
    var q := o[d].es[i].page;
    EntryFits(o, 0, d, i);
    DataBytes(o, q, At(o, 0, d, i));
    LowNamed(o, refc, roots, held, 0, d, i);
  }

  /** The page table entry below a table that may be the zero page, read as a table of zeros. */
  function EntryIn(o: Store, level: nat, t: Page, k: nat): (e: Pte)
    requires Wf(o) && level <= 3 && (t == ZERO || IsTab(o, level, t)) && k < ENTRIES
    ensures EntryOk(o, level, e)
  {
    if t == ZERO then CLEAR else Entry(o, level, t, k)
  }

  lemma CountOf(o: Store, refc: map<Page, int>, free: seq<Page>, npage: Page, roots: set<Page>, held: multiset<Page>,
                x: set<Page>, d: Page, i: nat)
    requires Inv(o, refc, free, npage, roots, held, x) && Wf(o) && IsTab(o, 0, d) && i < ENTRIES
    ensures o[d].es[i].page != ZERO ==> o[d].es[i].page in refc && refc[o[d].es[i].page] >= 1
  {
    EntryFits(o, 0, d, i);
    if o[d].es[i].page != ZERO { EntryCounted(o, refc, roots, held, d, i); }
  }

  /** mem_ptr(PTE_ADDR(*pte)) as bytes. */
  function PageBytes(o: Store, e: Pte): (b: seq<Byte>)
    requires Wf(o) && EntryOk(o, 0, e)
    ensures |b| == PAGESIZE && b == Leaf(o, e).bytes
  {
    if e.page == ZERO then Zeros() else assert ObjOk(o, e.page); o[e.page].bytes
  }

  /** pmap_mergepage on entries of the reference and source page tables and entry i of page table d. */
  method PmapMergepage(pm: PageMaps, re: Pte, se: Pte, d: Page, i: nat, ghost s: set<Page>)
    requires pm.Valid() && IsTab(pm.obj, 0, d) && d !in s && i < ENTRIES && Anchored(pm.obj, pm.roots, s)
    requires Wf(pm.obj) && forall u :: u in s && u in pm.obj ==> pm.obj[u].Table?
    requires EntryOk(pm.obj, 0, re) && EntryOk(pm.obj, 0, se)
    modifies pm`obj, pm`refc, pm`free, pm`npage, pm`held, pm`excl
    ensures pm.Valid() && pm.held == old(pm.held) && LeafElse(old(pm.obj), pm.obj, d, i)
    ensures Local(old(pm.obj), old(pm.excl), pm.obj, pm.excl, pm.roots, 0, d, s, i, i + 1)
    ensures EntryMerged(old(pm.obj), old(pm.refc), pm.obj, d, i, Leaf(old(pm.obj), re).bytes, Leaf(old(pm.obj), se).bytes)
    ensures ViewMerged(Leaf(old(pm.obj), re), Leaf(old(pm.obj), se), At(old(pm.obj), 0, d, i), At(pm.obj, 0, d, i))
  {
    hide Wf, Exact, Exclusive, FreeOk, Anchored, Local, LeafElse, Zeros, Merge, EntryMerged, ViewMerged;
    ghost var o, refc := pm.obj, pm.refc;
    MergeInto(pm, PageBytes(pm.obj, re), PageBytes(pm.obj, se), d, i, s);
    EntryView(o, refc, pm.obj, d, i, Leaf(o, re), Leaf(o, se));
  }

  /** The same, given what rpg and spg point to. */
  method MergeInto(pm: PageMaps, rpg: seq<Byte>, spg: seq<Byte>, d: Page, i: nat, ghost s: set<Page>)
    requires pm.Valid() && IsTab(pm.obj, 0, d) && d !in s && i < ENTRIES && Anchored(pm.obj, pm.roots, s)
    requires Wf(pm.obj) && (forall u :: u in s && u in pm.obj ==> pm.obj[u].Table?) && |rpg| == |spg| == PAGESIZE
    modifies pm`obj, pm`refc, pm`free, pm`npage, pm`held, pm`excl
    ensures pm.Valid() && pm.held == old(pm.held) && LeafElse(old(pm.obj), pm.obj, d, i)
    ensures Local(old(pm.obj), old(pm.excl), pm.obj, pm.excl, pm.roots, 0, d, s, i, i + 1)
    ensures EntryMerged(old(pm.obj), old(pm.refc), pm.obj, d, i, rpg, spg)
  {
    hide Wf, Exact, Exclusive, FreeOk, Anchored, Local, LeafElse, OwnLeaf, Zeros, Merge, Conflict, EntryOk, Removed;
    ghost var o, x, refc := pm.obj, pm.excl, pm.refc;
    ghost var b := At(o, 0, d, i).bytes;
    var q := pm.obj[d].es[i].page;
    CountOf(o, pm.refc, pm.free, pm.npage, pm.roots, pm.held, x, d, i);
    var n := q;
    if q == ZERO || pm.refc[q] > 1 {
      n := CopyLeaf(pm, d, i, s);
    } else {
      SingleOwned(o, pm.refc, pm.free, pm.npage, pm.roots, pm.held, x, d, i);
      LocalRefl(o, x, pm.roots, 0, d, s, i, i + 1);
      LeafElseRefl(o, d, i);
    }
    ghost var o1, x1 := pm.obj, pm.excl;
    LocalTab(o, x, o1, x1, pm.roots, 0, d, s, i, i + 1);
    LocalTables(o, x, o1, x1, pm.roots, d, s, i);
    OwnedBytes(o1, d, i, n, b);
    var conflict, m := MergeBytes(rpg, spg, pm.obj[n].bytes);
    if conflict {
      RemoveEntry(pm, 0, d, i, s);
      LeafElseRemoved(o1, pm.obj, d, i);
    } else {
      PokeLeaf(o1, pm.refc, pm.free, pm.npage, pm.roots, pm.held, x1, d, i, n, b, m, s);
      pm.obj := pm.obj[n := Data(m)];
    }
    LocalTrans(o, x, o1, x1, pm.obj, pm.excl, pm.roots, 0, d, s, i, i + 1, i, i + 1, i, i + 1);
    LeafElseTrans(o, o1, pm.obj, d, i);
    LeafElseWf(o, pm.obj, d, i);
  }

  lemma LeafElseWf(o: Store, o2: Store, d: Page, i: nat)
    requires LeafElse(o, o2, d, i)
    ensures Wf(o) && Wf(o2) && IsTab(o, 0, d) && IsTab(o2, 0, d)
  {
  }

  lemma OwnedBytes(o: Store, d: Page, i: nat, n: Page, b: seq<Byte>)
    requires OwnLeaf(o, d, i, n, b)
    ensures n in o && o[n].Data? && o[n].bytes == b && IsTab(o, 0, d) && o[d].es[i].page == n && n != ZERO && |b| == PAGESIZE
  {
  }

  lemma LocalTables(o: Store, x: set<Page>, o1: Store, x1: set<Page>, roots: set<Page>, d: Page, s: set<Page>, i: nat)
    requires Local(o, x, o1, x1, roots, 0, d, s, i, i + 1) && forall u :: u in s && u in o ==> o[u].Table?
    ensures forall u :: u in s && u in o1 ==> o1[u].Table?
  {
  }

  lemma LeafElseRefl(o: Store, d: Page, i: nat)
    requires Wf(o) && IsTab(o, 0, d)
    ensures LeafElse(o, o, d, i)
  {
  }
}
