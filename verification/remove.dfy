/** pmap_remove: unmap a range of pages, whole subtrees at a time where the range covers them
    (kern/pmap.c). */
module Remove {
  import opened Paging
  import opened PageMem
  import opened Views
  import opened Private
  import opened Walk
  import opened Frames

  /** What removal does to one address: mappings of real pages disappear with their permissions; an address
      that maps zeros goes on mapping zeros, and keeps its nominal permissions or loses them together with
      the page table that held them. */
  predicate Unmaps(a: View, b: View, inside: bool)
  {
    if inside then b == Absent() || (a.pte.page == ZERO && b == a) else b == a
  }

  /** Exactly the addresses lo <= x < hi were unmapped below t, and nothing became writable. */
  ghost predicate Removed(o: Store, o': Store, level: nat, t: Page, lo: int, hi: int)
  {
    && NoGain(o, o', level, t)
    && forall x :: 0 <= x < Span(level + 1) ==> Unmaps(At(o, level, t, x), At(o', level, t, x), lo <= x < hi)
  }

  /** The same for what an entry maps. */
  ghost predicate EntryRemoved(o: Store, e: Pte, o': Store, e': Pte, level: nat, lo: int, hi: int)
  {
    && Wf(o) && Wf(o') && level <= 2 && (e.page == ZERO || IsTab(o, level, e.page)) && (e'.page == ZERO || IsTab(o', level, e'.page))
    && (forall y :: 0 <= y < Span(level + 1) ==>
          Unmaps(AtIn(o, level, e.page, y), AtIn(o', level, e'.page, y), lo <= y < hi))
    && (forall y :: 0 <= y < Span(level + 1) ==> e'.w && WIn(o', level, e'.page, y) ==> e.w && WIn(o, level, e.page, y))
  }

  lemma RemovedTrans(o: Store, o1: Store, o2: Store, level: nat, t: Page, lo: int, mid: int, hi: int)
    requires lo <= mid <= hi && Removed(o, o1, level, t, lo, mid) && Removed(o1, o2, level, t, mid, hi)
    ensures Removed(o, o2, level, t, lo, hi)
  {
    forall x | 0 <= x < Span(level + 1)
      ensures Unmaps(At(o, level, t, x), At(o2, level, t, x), lo <= x < hi)
    {
      assert Unmaps(At(o, level, t, x), At(o1, level, t, x), lo <= x < mid);
      assert Unmaps(At(o1, level, t, x), At(o2, level, t, x), mid <= x < hi);
    }
  }

  lemma RemovedNothing(o: Store, o': Store, level: nat, t: Page, lo: int)
    requires Same(o, o', level, t)
    ensures Removed(o, o', level, t, lo, lo)
  {
  }

  lemma RemovedAfterSame(o: Store, o1: Store, o2: Store, level: nat, t: Page, lo: int, hi: int)
    requires Same(o, o1, level, t) && Removed(o1, o2, level, t, lo, hi) && lo <= hi
    ensures Removed(o, o2, level, t, lo, hi)
  {
    RemovedNothing(o, o1, level, t, lo);
    RemovedTrans(o, o1, o2, level, t, lo, lo, hi);
  }

  /** Unmapping within one entry unmaps the corresponding stretch of the table. */
  lemma RemovedEntry(o: Store, o': Store, level: nat, t: Page, i: nat, lo: int, hi: int)
    requires Wf(o) && Wf(o') && 1 <= level <= 3 && IsTab(o, level, t) && IsTab(o', level, t) && i < ENTRIES
    requires 0 <= lo <= hi <= Span(level)
    requires forall j :: 0 <= j < ENTRIES && j != i ==> EntryMaps(o, o[t].es[j], o', o'[t].es[j], level - 1)
    requires EntryRemoved(o, o[t].es[i], o', o'[t].es[i], level - 1, lo, hi)
    ensures Removed(o, o', level, t, Base(level, i) + lo, Base(level, i) + hi)
  {
    forall x | 0 <= x < Span(level + 1)
      ensures Unmaps(At(o, level, t, x), At(o', level, t, x), Base(level, i) + lo <= x < Base(level, i) + hi)
      ensures EffW(o', level, t, x) ==> EffW(o, level, t, x)
    {
      RemovedEntryAt(o, o', level, t, i, lo, hi, x);
    }
  }

  lemma BaseOrder(level: nat, i: int, j: int)
    requires level <= 3
    ensures i < j ==> Base(level, i) + Span(level) <= Base(level, j)
    ensures Base(level, i + 1) == Base(level, i) + Span(level)
  {
  }

  lemma RemovedEntryAt(o: Store, o': Store, level: nat, t: Page, i: nat, lo: int, hi: int, x: nat)
    requires Wf(o) && Wf(o') && 1 <= level <= 3 && IsTab(o, level, t) && IsTab(o', level, t) && i < ENTRIES
    requires 0 <= lo <= hi <= Span(level) && x < Span(level + 1)
    requires forall j :: 0 <= j < ENTRIES && j != i ==> EntryMaps(o, o[t].es[j], o', o'[t].es[j], level - 1)
    requires EntryRemoved(o, o[t].es[i], o', o'[t].es[i], level - 1, lo, hi)
    ensures Unmaps(At(o, level, t, x), At(o', level, t, x), Base(level, i) + lo <= x < Base(level, i) + hi)
    ensures EffW(o', level, t, x) ==> EffW(o, level, t, x)
  {
    IdxInside(level, x);
    var j, y := Idx(level, x), Off(level, x);
    BaseOrder(level, i, j);
    BaseOrder(level, j, i);
    AtEntry(o, level, t, j, y);
    AtEntry(o', level, t, j, y);
    if j != i {
      assert EntryMaps(o, o[t].es[j], o', o'[t].es[j], level - 1);
      assert AtIn(o', level - 1, o'[t].es[j].page, y) == AtIn(o, level - 1, o[t].es[j].page, y);
      assert o'[t].es[j].w && WIn(o', level - 1, o'[t].es[j].page, y) ==> o[t].es[j].w && WIn(o, level - 1, o[t].es[j].page, y);
    } else {
      assert Unmaps(AtIn(o, level - 1, o[t].es[i].page, y), AtIn(o', level - 1, o'[t].es[i].page, y), lo <= y < hi);
      assert o'[t].es[j].w && WIn(o', level - 1, o'[t].es[j].page, y) ==> o[t].es[j].w && WIn(o, level - 1, o[t].es[j].page, y);
    }
  }

  /** A clear entry: its whole stretch maps zeros already. */
  lemma SkipStep(o: Store, level: nat, t: Page, i: nat, lo: int, hi: int)
    requires Wf(o) && level <= 3 && IsTab(o, level, t) && i < ENTRIES && o[t].es[i].page == ZERO
    requires 0 <= lo <= hi <= Span(level)
    ensures Removed(o, o, level, t, Base(level, i) + lo, Base(level, i) + hi)
  {
    if level > 0 {
      forall j | 0 <= j < ENTRIES && j != i ensures EntryMaps(o, o[t].es[j], o, o[t].es[j], level - 1) {
        EntryFits(o, level, t, j);
        if o[t].es[j].page != ZERO { SameRefl(o, level - 1, o[t].es[j].page); }
        EntryMapsSame(o, o, o[t].es[j], level - 1);
      }
      RemovedEntry(o, o, level, t, i, lo, hi);
    }
  }

  /** A whole entry is cleared and what it named is released. */
  lemma WholeStep(o: Store, om: Store, o2: Store, level: nat, t: Page, i: nat)
    requires Wf(o) && Wf(om) && Wf(o2) && level <= 3 && IsTab(o, level, t) && i < ENTRIES
    requires o[t].es[i].page != ZERO && om == SetIn(o, t, i, CLEAR)
    requires Shrunk(om, o2) && HighSame(om, o2, level, ZERO)
    ensures Confined(o, o2, level, t) && o2[t] == om[t]
    ensures Removed(o, o2, level, t, Base(level, i), Base(level, i) + Span(level))
  {
    SetConfined(o, level, t, i, CLEAR);
    ReleasedConfined(om, o2, level, t);
    ConfinedTrans(o, om, o2, level, t);
    if level > 0 {
      EntryFits(o, level, t, i);
      RemovedEntry(o, om, level, t, i, 0, Span(level));
      RemovedBeforeSame(o, om, o2, level, t, Base(level, i), Base(level, i) + Span(level));
    }
  }

  lemma RemovedBeforeSame(o: Store, o1: Store, o2: Store, level: nat, t: Page, lo: int, hi: int)
    requires Removed(o, o1, level, t, lo, hi) && Same(o1, o2, level, t) && lo <= hi
    ensures Removed(o, o2, level, t, lo, hi)
  {
    RemovedNothing(o1, o2, level, t, hi);
    RemovedTrans(o, o1, o2, level, t, lo, hi, hi);
  }

  /** Part of an entry is unmapped in the private table below it. */
  lemma PartStep(o: Store, o2: Store, level: nat, t: Page, i: nat, c: Page, lo: int, hi: int)
    requires Wf(o) && Wf(o2) && 1 <= level <= 3 && IsTab(o, level, t) && i < ENTRIES
    requires 0 <= lo <= hi <= Span(level) && t in o2 && o2[t] == o[t]
    requires forall j :: 0 <= j < ENTRIES && j != i ==> EntryMaps(o, o[t].es[j], o2, o2[t].es[j], level - 1)
    requires o[t].es[i].page == c && c != ZERO && Removed(o, o2, level - 1, c, lo, hi)
    ensures Removed(o, o2, level, t, Base(level, i) + lo, Base(level, i) + hi)
  {
    RemovedEntry(o, o2, level, t, i, lo, hi);
  }

  /** Case 2 of the loop: a whole entry. */
  method RemoveEntry(pm: PageMaps, level: nat, pmtab: Page, i: nat, ghost s: set<Page>)
    requires pm.Valid() && level <= 3 && IsTab(pm.obj, level, pmtab) && i < ENTRIES
    requires pm.obj[pmtab].es[i].page != ZERO
    requires Anchored(pm.obj, pm.roots, s) && pmtab !in s
    modifies pm`obj, pm`refc, pm`free, pm`npage, pm`held, pm`excl
    ensures pm.Valid() && pm.held == old(pm.held)
    ensures Local(old(pm.obj), old(pm.excl), pm.obj, pm.excl, pm.roots, level, pmtab, s, Base(level, i), Base(level, i) + Span(level))
    ensures IsTab(pm.obj, level, pmtab) && pm.obj[pmtab].es == old(pm.obj)[pmtab].es[i := CLEAR]
    ensures Removed(old(pm.obj), pm.obj, level, pmtab, Base(level, i), Base(level, i) + Span(level))
    ensures Shrunk(SetIn(old(pm.obj), pmtab, i, CLEAR), pm.obj)
  {
    hide Wf, Exact, Exclusive, FreeOk, Anchored, PeersTree, PrivKept, KeptOutside, HighExcl, KeptSame, Confined, Removed;
    InvFacts(pm.obj, pm.refc, pm.free, pm.npage, pm.roots, pm.held, pm.excl);
    ghost var o, x := pm.obj, pm.excl;
    EntryFits(o, level, pmtab, i);
    var q := pm.obj[pmtab].es[i].page;
    AnchoredSet(o, pm.roots, s, pmtab, i, CLEAR);
    pm.SetEntry(pmtab, i, CLEAR);
    ghost var om, rm := pm.obj, pm.refc;
    pm.MemDecref(level, q, s);
    AnchoredRelease(om, rm, x, pm.obj, pm.refc, pm.excl, level, ZERO, pm.roots, s);
    WholeStep(o, om, pm.obj, level, pmtab, i);
    KeptWhole(o, pm.obj, pmtab, i, s);
    PrivWhole(o, om, pm.obj, x, level, pmtab, i);
    HighExclRelease(o, om, rm, x, pm.obj, pm.refc, pm.excl, level, pmtab, i);
  }

  /** A peer is untouched, and so is what another entry of t leads to, when entry i is cleared and released. */
  lemma PrivWhole(o: Store, om: Store, o2: Store, x: set<Page>, level: nat, t: Page, i: nat)
    requires Wf(o) && Wf(om) && Wf(o2) && level <= 3 && IsTab(o, level, t) && i < ENTRIES
    requires om == SetIn(o, t, i, CLEAR) && Shrunk(om, o2) && HighSame(om, o2, level, ZERO)
    ensures PeersTree(o, x, o2, level, t) && PrivKept(o, o2, level, t)
    ensures KeptOutside(o, o2, level, t, Base(level, i), Base(level, i) + Span(level))
  {
    forall u | u in x && IsTab(o, level, u) && u != t ensures TreeKept(o, o2, level, u) {
      assert IsTab(om, level, u) && u != ZERO;
      TreeLow(o, om, level, u, t);
      TreeShrunk(om, o2, level, u);
      TreeTrans(o, om, o2, level, u);
    }
    assert IsTab(om, level, t) && IsTab(o2, level, t);
    PrivCleared(o, level, t, i);
    forall y, r | 0 <= y < Span(level + 1) && PrivAt(o, level, t, y, r) ensures PrivAt(o2, level, t, y, r) {
      PrivShrunk(om, o2, level, t, y, r);
    }
    forall j | 0 <= j < ENTRIES && j != i ensures EntryKept(o, o2, level, t, j) {
      EntryWhole(o, om, o2, level, t, i, j);
    }
    EntryOutside(o, o2, level, t, i, Base(level, i), Base(level, i) + Span(level));
  }

  lemma EntryWhole(o: Store, om: Store, o2: Store, level: nat, t: Page, i: nat, j: nat)
    requires Wf(o) && Wf(om) && Wf(o2) && level <= 3 && IsTab(o, level, t) && i < ENTRIES && j < ENTRIES && j != i
    requires om == SetIn(o, t, i, CLEAR) && Shrunk(om, o2) && IsTab(o2, level, t)
    ensures EntryKept(o, o2, level, t, j)
  {
    if level > 0 && Entry(o, level, t, j).w {
      var c := o[t].es[j].page;
      EntryFits(o2, level, t, j);
      TreeLow(o, om, level - 1, c, ZERO);
      TreeShrunk(om, o2, level - 1, c);
      TreeTrans(o, om, o2, level - 1, c);
    }
  }

  lemma PrivCleared(o: Store, level: nat, t: Page, i: nat)
    requires Wf(o) && level <= 3 && IsTab(o, level, t) && i < ENTRIES && Wf(SetIn(o, t, i, CLEAR))
    ensures PrivKept(o, SetIn(o, t, i, CLEAR), level, t)
  {
    var o' := SetIn(o, t, i, CLEAR);
    forall y, r | 0 <= y < Span(level + 1) && PrivAt(o, level, t, y, r) ensures PrivAt(o', level, t, y, r) {
      IdxInside(level, y);
      var j := Idx(level, y);
      if level > 0 && j != i && !r.Whole(level, j) && o[t].es[j].page != ZERO {
        EntryFits(o, level, t, j);
        PrivLow(o, o', level - 1, o[t].es[j].page, Off(level, y), r.Down(Base(level, j)), level - 1, ZERO);
      }
    }
  }

  lemma KeptWhole(o: Store, o2: Store, t: Page, i: nat, s: set<Page>)
    requires i < Len(o, t) && Shrunk(SetIn(o, t, i, CLEAR), o2) && t !in s && s <= o2.Keys
    ensures KeptSame(o, o2, s)
  {
  }

  lemma HighExclRelease(o: Store, om: Store, r: map<Page, int>, x: set<Page>,
                        o2: Store, r2: map<Page, int>, x2: set<Page>, level: nat, t: Page, i: nat)
    requires i < Len(o, t) && om == SetIn(o, t, i, CLEAR) && Released(om, r, x, o2, r2, x2, level, ZERO) && ZERO !in o
    ensures HighExcl(o, x, x2, level)
  {
    forall u | u in x && u in o && o[u].Table? && o[u].level >= level ensures u in x2 {
      assert u in om && om[u].Table? && om[u].level >= level;
    }
  }

  /** Case 3 of the loop: part of an entry, below its private lower table. */
  method RemovePart(pm: PageMaps, level: nat, pmtab: Page, va: nat, lvahi: nat, ghost s: set<Page>)
    requires pm.Valid() && 1 <= level <= 3 && IsTab(pm.obj, level, pmtab) && pmtab in pm.excl
    requires va < lvahi && lvahi <= Base(level, Idx(level, va)) + Span(level) && va < Span(level + 1)
    requires Anchored(pm.obj, pm.roots, s) && pmtab !in s
    modifies pm`obj, pm`refc, pm`free, pm`npage, pm`held, pm`excl
    ensures pm.Valid() && pm.held == old(pm.held)
    ensures Local(old(pm.obj), old(pm.excl), pm.obj, pm.excl, pm.roots, level, pmtab, s, va, lvahi)
    ensures IsTab(pm.obj, level, pmtab) && Idx(level, va) < ENTRIES
    ensures pm.obj[pmtab].es == old(pm.obj)[pmtab].es[Idx(level, va) := pm.obj[pmtab].es[Idx(level, va)]]
    ensures Removed(old(pm.obj), pm.obj, level, pmtab, va, lvahi)
    decreases level, 0
  {
    hide Wf, Exact, Exclusive, FreeOk, Anchored, LevelPriv, PeersTree, PrivKept, HighExcl, KeptSame, Local, Removed, LevelSame;
    ghost var o, x := pm.obj, pm.excl;
    IdxInside(level, va);
    var i := Idx(level, va);
    var _ := WalkLevel(pm, level, pmtab, va, s);
    ghost var o1, x1, r1, f1, n1 := pm.obj, pm.excl, pm.refc, pm.free, pm.npage;
    WalkLocal(o, x, o1, x1, pm.roots, level, pmtab, s, i, va, lvahi);
    LocalTab(o, x, o1, x1, pm.roots, level, pmtab, s, va, lvahi);
    var c := pm.obj[pmtab].es[i].page;
    EntryFits(o1, level, pmtab, i);
    ExclusiveChild(o1, r1, pm.roots, x1, level, pmtab, i);
    ChildOutside(o1, r1, f1, n1, pm.roots, pm.held, x1, s, level, pmtab, i);
    var l := Base(level, i);
    RemoveLevel(pm, level - 1, c, va - l, lvahi - l, s);
    LiftLocal(o1, r1, f1, n1, pm.roots, pm.held, x1, pm.obj, pm.excl, level, pmtab, i, s, va - l, lvahi - l);
    PartStep(o1, pm.obj, level, pmtab, i, c, va - l, lvahi - l);
    RemovedAfterSame(o, o1, pm.obj, level, pmtab, va, lvahi);
    LocalTrans(o, x, o1, x1, pm.obj, pm.excl, pm.roots, level, pmtab, s, va, lvahi, va, lvahi, va, lvahi);
  }

  /** One turn of the loop of pmap_remove_level, at the entry for va; returns the address to go on with. */
  method RemoveTurn(pm: PageMaps, level: nat, pmtab: Page, va: nat, vahi: nat, ghost s: set<Page>) returns (va': nat)
    requires pm.Valid() && level <= 3 && IsTab(pm.obj, level, pmtab) && pmtab in pm.excl
    requires va < vahi <= Span(level + 1)
    requires Anchored(pm.obj, pm.roots, s) && pmtab !in s
    modifies pm`obj, pm`refc, pm`free, pm`npage, pm`held, pm`excl
    ensures pm.Valid() && pm.held == old(pm.held)
    ensures Local(old(pm.obj), old(pm.excl), pm.obj, pm.excl, pm.roots, level, pmtab, s, va, if va' < vahi then va' else vahi)
    ensures va < va' && Removed(old(pm.obj), pm.obj, level, pmtab, va, if va' < vahi then va' else vahi)
    ensures IsTab(pm.obj, level, pmtab) && Idx(level, va) < ENTRIES
    ensures va' == Base(level, Idx(level, va) + 1) || va' == vahi <= Base(level, Idx(level, va) + 1)
    ensures forall j :: 0 <= j < ENTRIES && j != Idx(level, va) ==> pm.obj[pmtab].es[j] == old(pm.obj)[pmtab].es[j]
    ensures Off(level, va) == 0 && vahi - va >= Span(level) ==> pm.obj[pmtab].es[Idx(level, va)].page == ZERO
    decreases level, 1
  {
    hide Wf, Exact, Exclusive, FreeOk, Anchored, Local, Removed;
    ghost var o, x := pm.obj, pm.excl;
    IdxInside(level, va);
    var i := Idx(level, va);
    BaseOrder(level, i, i + 1);
    ghost var next := Base(level, i) + Span(level);
    if pm.obj[pmtab].es[i].page == ZERO {
      SkipStep(o, level, pmtab, i, va - Base(level, i), (if next < vahi then next else vahi) - Base(level, i));
      va' := va + Span(level) - Off(level, va);
      LocalRefl(o, x, pm.roots, level, pmtab, s, va, if va' < vahi then va' else vahi);
    } else if Off(level, va) == 0 && vahi - va >= Span(level) {
      RemoveEntry(pm, level, pmtab, i, s);
      va' := va + Span(level);
    } else {
      assert level > 0;
      va' := va - Off(level, va) + Span(level);
      if va' > vahi { va' := vahi; }
      RemovePart(pm, level, pmtab, va, va', s);
    }
  }

  /** pmap_remove_level */
  method RemoveLevel(pm: PageMaps, level: nat, pmtab: Page, va0: nat, vahi: nat, ghost s: set<Page>)
    requires pm.Valid() && level <= 3 && IsTab(pm.obj, level, pmtab) && pmtab in pm.excl
    requires va0 <= vahi <= Span(level + 1)
    requires Anchored(pm.obj, pm.roots, s) && pmtab !in s
    modifies pm`obj, pm`refc, pm`free, pm`npage, pm`held, pm`excl
    ensures pm.Valid() && pm.held == old(pm.held)
    ensures Local(old(pm.obj), old(pm.excl), pm.obj, pm.excl, pm.roots, level, pmtab, s, va0, vahi)
    ensures Removed(old(pm.obj), pm.obj, level, pmtab, va0, vahi)
    ensures IsTab(pm.obj, level, pmtab)
    ensures forall j :: 0 <= j < ENTRIES && va0 <= Base(level, j) && Base(level, j) + Span(level) <= vahi ==>
              pm.obj[pmtab].es[j].page == ZERO
    decreases level, 2
  {
    hide Wf, Exact, Exclusive, FreeOk, Anchored, Local, Removed;
    ghost var o, x := pm.obj, pm.excl;
    SameRefl(o, level, pmtab);
    RemovedNothing(o, o, level, pmtab, va0);
    LocalRefl(o, x, pm.roots, level, pmtab, s, va0, vahi);
    var va := va0;
    while va < vahi
      invariant va0 <= va && (va == va0 || va >= vahi || Off(level, va) == 0)
      invariant pm.Valid() && pm.held == old(pm.held) && Local(o, x, pm.obj, pm.excl, pm.roots, level, pmtab, s, va0, vahi)
      invariant Removed(o, pm.obj, level, pmtab, va0, if va < vahi then va else vahi)
      invariant IsTab(pm.obj, level, pmtab)
      invariant forall j :: 0 <= j < ENTRIES && va0 <= Base(level, j) && Base(level, j) + Span(level) <= (if va < vahi then va else vahi)
                  ==> pm.obj[pmtab].es[j].page == ZERO
      decreases vahi - va
    {
      ghost var o1, x1, va1 := pm.obj, pm.excl, va;
      LocalTab(o, x, o1, x1, pm.roots, level, pmtab, s, va0, vahi);
      NextIdx(level, Idx(level, va));
      va := RemoveTurn(pm, level, pmtab, va, vahi, s);
      RemovedTrans(o, o1, pm.obj, level, pmtab, va0, va1, if va < vahi then va else vahi);
      LocalTrans(o, x, o1, x1, pm.obj, pm.excl, pm.roots, level, pmtab, s, va0, vahi, va0, vahi,
                 va1, if va < vahi then va else vahi);
    }
  }

  lemma NextIdx(level: nat, i: nat)
    requires level <= 3
    ensures Base(level, i + 1) >= 0 && Idx(level, Base(level, i + 1)) == i + 1
    ensures Off(level, Base(level, i + 1)) == 0 && Base(level, i + 1) == Base(level, i) + Span(level)
  {
  }
}
