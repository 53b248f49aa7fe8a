/** Mapping single pages: pmap_insert and the copy-on-write fault handler (kern/pmap.c). */
module Faults {
  import opened Paging
  import opened PageMem
  import opened Views
  import opened Private
  import opened Walk
  import opened Frames
  import opened Remove
  import opened PageCopy
  import opened Spaces

  /** Address va of t shows v and is writable iff w; every other address shows what it did, none became writable. */
  ghost predicate Replaced(o: Store, o': Store, level: nat, t: Page, va: nat, v: View, w: bool)
  {
    && Wf(o) && Wf(o') && level <= 3 && IsTab(o, level, t) && IsTab(o', level, t) && va < Span(level + 1)
    && At(o', level, t, va) == v && (EffW(o', level, t, va) <==> w)
    && (forall x :: 0 <= x < Span(level + 1) && x != va ==> At(o', level, t, x) == At(o, level, t, x))
    && (forall x :: 0 <= x < Span(level + 1) && x != va && EffW(o', level, t, x) ==> EffW(o, level, t, x))
  }

  lemma ReplacedAfterSame(o: Store, o1: Store, o2: Store, level: nat, t: Page, va: nat, v: View, w: bool)
    requires Same(o, o1, level, t) && Replaced(o1, o2, level, t, va, v, w)
    ensures Replaced(o, o2, level, t, va, v, w)
  {
  }

  lemma LeafFits(o: Store, level: nat, t: Page, va: nat)
    requires Wf(o) && level <= 3 && IsTab(o, level, t) && va < Span(level + 1) && OpenPath(o, level, t, va)
    ensures IsTab(o, 0, LeafTable(o, level, t, va)) && LeafIndex(level, va) < ENTRIES
    decreases level
  {
    IdxInside(level, va);
    LeafIndexSmall(level, va);
    if level > 0 { LeafFits(o, level - 1, Child(o, level, t, va), Off(level, va)); }
  }

  /** Setting the entry of an address whose tables are private concerns that address of that table only. */
  lemma {:induction false} LeafSet(o: Store, refc: map<Page, int>, free: seq<Page>, npage: Page, roots: set<Page>,
                                   held: multiset<Page>, x: set<Page>, level: nat, t: Page, va: nat, e: Pte)
    requires Inv(o, refc, free, npage, roots, held, x) && level <= 3 && IsTab(o, level, t) && t in x
    requires va < Span(level + 1) && OpenPath(o, level, t, va) && EntryOk(o, 0, e)
    requires IsTab(o, 0, LeafTable(o, level, t, va)) && LeafIndex(level, va) < ENTRIES
    requires Wf(SetIn(o, LeafTable(o, level, t, va), LeafIndex(level, va), e))
    ensures var o' := SetIn(o, LeafTable(o, level, t, va), LeafIndex(level, va), e);
            Confined(o, o', level, t) && Fits(o', 0, e.page) && Replaced(o, o', level, t, va, Leaf(o', e), e.w)
    decreases level
  {
    hide Wf, Exact, FreeOk, Confined, Replaced, EntryMaps, EffW, OnlyNamed, Leaf;
    var o' := SetIn(o, LeafTable(o, level, t, va), LeafIndex(level, va), e);
    FitsSet(o, 0, LeafTable(o, level, t, va), LeafIndex(level, va), e, e);
    if level == 0 {
      SetConfined(o, 0, t, va, e);
      LeafSet0(o, t, va, e);
    } else {
      IdxInside(level, va);
      var i, y := Idx(level, va), Off(level, va);
      var c := o[t].es[i].page;
      ExclusiveChild(o, refc, roots, x, level, t, i);
      EntryFits(o, level, t, i);
      LeafSet(o, refc, free, npage, roots, held, x, level - 1, c, y, e);
      assert Names(o, t, i, c);
      ExclusiveOnlyNamed(o, refc, roots, held, x, c, t, i);
      LiftConfined(o, o', level, t, i, c);
      LeafSetLift(o, o', level, t, va, Leaf(o', e), e.w);
    }
  }

  lemma LeafSet0(o: Store, t: Page, i: nat, e: Pte)
    requires Wf(o) && IsTab(o, 0, t) && i < ENTRIES && EntryOk(o, 0, e) && Wf(SetIn(o, t, i, e)) && Fits(SetIn(o, t, i, e), 0, e.page)
    ensures Replaced(o, SetIn(o, t, i, e), 0, t, i, Leaf(SetIn(o, t, i, e), e), e.w)
  {
    hide Zeros;
    var o' := SetIn(o, t, i, e);
    forall x | 0 <= x < ENTRIES
      ensures At(o', 0, t, x) == if x == i then Leaf(o', e) else At(o, 0, t, x)
      ensures EffW(o', 0, t, x) <==> if x == i then e.w else EffW(o, 0, t, x)
    {
      EntryFits(o, 0, t, x);
      EntryFits(o', 0, t, x);
      assert Entry(o', 0, t, x) == if x == i then e else o[t].es[x];
    }
  }

  lemma LeafSetLift(o: Store, o': Store, level: nat, t: Page, va: nat, v: View, w: bool)
    requires Wf(o) && Wf(o') && 1 <= level <= 3 && IsTab(o, level, t) && t in o' && o'[t] == o[t] && va < Span(level + 1)
    requires Opened(o, level, t, Idx(level, va))
    requires Replaced(o, o', level - 1, o[t].es[Idx(level, va)].page, Off(level, va), v, w)
    requires forall j :: 0 <= j < ENTRIES && j != Idx(level, va) ==> EntryMaps(o, o[t].es[j], o', o'[t].es[j], level - 1)
    ensures Replaced(o, o', level, t, va, v, w)
  {
    IdxInside(level, va);
    var i := Idx(level, va);
    forall x | 0 <= x < Span(level + 1) && x != va
      ensures At(o', level, t, x) == At(o, level, t, x)
      ensures EffW(o', level, t, x) ==> EffW(o, level, t, x)
    {
      IdxInside(level, x);
      var j := Idx(level, x);
      EntryFits(o, level, t, j);
      EntryFits(o', level, t, j);
      if j != i {
        assert EntryMaps(o, o[t].es[j], o', o'[t].es[j], level - 1);
        assert AtIn(o', level - 1, o'[t].es[j].page, Off(level, x)) == AtIn(o, level - 1, o[t].es[j].page, Off(level, x));
        if EffW(o', level, t, x) { assert WIn(o', level - 1, o'[t].es[j].page, Off(level, x)); }
      }
    }
  }

  /** *pte = e, for an address whose tables are private. */
  method SetLeaf(pm: PageMaps, root: Page, va: nat, e: Pte)
    requires pm.Valid() && root in pm.roots && Wf(pm.obj) && IsTab(pm.obj, 3, root) && va < Span(4)
    requires OpenPath(pm.obj, 3, root, va) && EntryOk(pm.obj, 0, e)
    requires NonZero(e.page) <= pm.held + NonZero(At(pm.obj, 3, root, va).pte.page)
    requires e.w ==> e.page in pm.excl
    modifies pm`obj, pm`held
    ensures pm.Valid() && pm.held == old(pm.held) + NonZero(At(old(pm.obj), 3, root, va).pte.page) - NonZero(e.page)
    ensures DataSame(old(pm.obj), pm.obj) && Fits(pm.obj, 0, e.page) && Wf(pm.obj)
    ensures Replaced(old(pm.obj), pm.obj, 3, root, va, Leaf(pm.obj, e), e.w)
    ensures OthersSame(old(pm.obj), pm.obj, pm.roots, root)
  {
    hide Exact, Exclusive, FreeOk, NonZero, Wf, OthersSame, Replaced, Confined, EntryOk, OpenPath, EffW;
    ghost var o := pm.obj;
    LeafFits(o, 3, root, va);
    RootFacts(o, pm.refc, pm.free, pm.npage, pm.roots, pm.held, pm.excl, root);
    LeafAt(o, 3, root, va);
    var pt, i := LeafTable(pm.obj, 3, root, va), LeafIndex(3, va);
    pm.SetEntry(pt, i, e);
    LeafSet(o, pm.refc, pm.free, pm.npage, pm.roots, old(pm.held), pm.excl, 3, root, va, e);
    ConfinedOthers(o, pm.obj, pm.roots, root);
  }

  lemma ConfinedOthers(o: Store, o': Store, roots: set<Page>, root: Page)
    requires Confined(o, o', 3, root) && forall u :: u in roots ==> IsTab(o, 3, u)
    ensures OthersSame(o, o', roots, root)
  {
  }

  lemma LeafAtRoot(o: Store, root: Page, va: nat)
    requires Wf(o) && IsTab(o, 3, root) && va < Span(4)
    ensures Fits(o, 0, At(o, 3, root, va).pte.page)
  {
  }

  /** Effective permission does not depend on pages that are released. */
  lemma {:induction false} ShrunkW(o: Store, o': Store, level: nat, u: Page, x: nat)
    requires Wf(o) && Wf(o') && Shrunk(o, o') && level <= 3 && IsTab(o', level, u) && x < Span(level + 1)
    ensures EffW(o', level, u, x) <==> EffW(o, level, u, x)
    decreases level
  {
    IdxInside(level, x);
    EntryFits(o', level, u, Idx(level, x));
    if level > 0 && o[u].es[Idx(level, x)].w {
      ShrunkW(o, o', level - 1, o[u].es[Idx(level, x)].page, Off(level, x));
    }
  }

  /** Releasing a data page that is no longer mapped here shows nowhere. */
  method DropPage(pm: PageMaps, q: Page)
    requires pm.Valid() && q in pm.held && Fits(pm.obj, 0, q) && q != ZERO
    modifies pm`obj, pm`refc, pm`free, pm`held, pm`excl
    ensures pm.Valid() && pm.held == old(pm.held) - multiset{q} && Wf(pm.obj) && Wf(old(pm.obj))
    ensures Shrunk(old(pm.obj), pm.obj)
    ensures forall u :: u in pm.roots ==> Same(old(pm.obj), pm.obj, 3, u)
  {
    hide Exact, Exclusive, FreeOk, Same, Wf;
    ghost var o := pm.obj;
    pm.MemDecref(0, q, {});
    RootTabs(pm.obj, pm.refc, pm.free, pm.npage, pm.roots, pm.held, pm.excl);
    forall u | u in pm.roots ensures Same(o, pm.obj, 3, u) { ShrunkSame(o, pm.obj, 3, u); }
  }

  lemma RootTabs(o: Store, refc: map<Page, int>, free: seq<Page>, npage: Page, roots: set<Page>, held: multiset<Page>, x: set<Page>)
    requires Inv(o, refc, free, npage, roots, held, x)
    ensures Wf(o) && roots <= x && forall u :: u in roots ==> IsTab(o, 3, u)
    ensures forall p :: p in held ==> p in o
  {
  }

  lemma ReplacedBeforeDrop(o: Store, o1: Store, o2: Store, root: Page, va: nat, v: View, w: bool)
    requires Replaced(o, o1, 3, root, va, v, w) && Same(o1, o2, 3, root) && Shrunk(o1, o2)
    ensures Replaced(o, o2, 3, root, va, v, w)
  {
    ShrunkW(o1, o2, 3, root, va);
  }

  lemma OthersTrans(o: Store, o1: Store, o2: Store, roots: set<Page>, root: Page)
    requires OthersSame(o, o1, roots, root) && OthersSame(o1, o2, roots, root)
    ensures OthersSame(o, o2, roots, root)
  {
    forall u | u in roots && u != root ensures Same(o, o2, 3, u) { SameTrans(o, o1, o2, 3, u); }
  }

  /** pmap_walk(pml4, va, 1) */
  method PmapWalk(pm: PageMaps, root: Page, va: nat)
    requires pm.Valid() && root in pm.roots && USERLO <= va < USERHI
    modifies pm`obj, pm`refc, pm`free, pm`npage, pm`held, pm`excl
    ensures pm.Valid() && pm.held == old(pm.held)
    ensures Wf(pm.obj) && IsTab(pm.obj, 3, root) && OpenPath(pm.obj, 3, root, va) && DataSame(old(pm.obj), pm.obj)
    ensures Same(old(pm.obj), pm.obj, 3, root) && OthersSame(old(pm.obj), pm.obj, pm.roots, root)
  {
    hide Wf, Exact, Exclusive, FreeOk, Anchored, OpenPath, LevelPriv, HighExcl, KeptSame, DataSame, LevelSame, OthersSame;
    ghost var o, x := pm.obj, pm.excl;
    RootFacts(o, pm.refc, pm.free, pm.npage, pm.roots, pm.held, x, root);
    var _ := WalkLevel(pm, 3, root, va, pm.roots - {root});
    WalkPeers(o, pm.obj, pm.roots, root);
  }

  lemma WalkPeers(o: Store, o2: Store, roots: set<Page>, root: Page)
    requires LevelSame(o, o2, 3, root) && IsTab(o, 3, root) && forall u :: u in roots ==> IsTab(o, 3, u)
    ensures Wf(o2) && Same(o, o2, 3, root) && OthersSame(o, o2, roots, root) && DataSame(o, o2)
  {
    assert Same(o, o2, 3, root);
  }

  /** pmap_insert of a page that exists already, mapped without PTE_W (perhaps here, perhaps elsewhere too). */
  method PmapInsert(pm: PageMaps, root: Page, p: Page, va: nat, r: bool, rw: bool)
    requires pm.Valid() && root in pm.roots && USERLO <= va < USERHI
    requires p in pm.obj && pm.obj[p].Data? && Unwritable(pm.obj, pm.excl, p)
    modifies pm`obj, pm`refc, pm`free, pm`npage, pm`held, pm`excl
    ensures pm.Valid() && pm.held == old(pm.held)
    ensures Replaced(old(pm.obj), pm.obj, 3, root, va, View(Pte(p, true, false, r, rw), old(pm.obj)[p].bytes), false)
    ensures OthersSame(old(pm.obj), pm.obj, pm.roots, root)
  {
    hide Wf, Exact, Exclusive, FreeOk, OpenPath, OthersSame, Replaced, Unwritable, Same, NonZero, DataSame, EntryOk;
    ghost var o := pm.obj;
    RootFacts(o, pm.refc, pm.free, pm.npage, pm.roots, pm.held, pm.excl, root);
    InvFacts(o, pm.refc, pm.free, pm.npage, pm.roots, pm.held, pm.excl);
    pm.MemIncref(p);
    PmapWalk(pm, root, va);
    ghost var o1 := pm.obj;
    PageEntry(o, o1, p, r, rw);
    HeldOne(pm.held, p, At(o1, 3, root, va).pte.page);
    var q := At(pm.obj, 3, root, va).pte.page;
    var e := Pte(p, true, false, r, rw);
    SetLeaf(pm, root, va, e);
    ReplacedAfterSame(o, o1, pm.obj, 3, root, va, Leaf(pm.obj, e), false);
    OthersTrans(o, o1, pm.obj, pm.roots, root);
    InsertedBytes(o, o1, pm.obj, p, e);
    LeafAtRoot(o1, root, va);
    DroppedFits(o1, pm.obj, pm.refc, pm.free, pm.npage, pm.roots, pm.held, pm.excl, q);
    FinishDrop(pm, q, o, root, va, Leaf(pm.obj, e), false);
  }

  lemma PageEntry(o: Store, o1: Store, p: Page, r: bool, rw: bool)
    requires p in o && o[p].Data? && p != ZERO && DataSame(o, o1)
    ensures EntryOk(o1, 0, Pte(p, true, false, r, rw))
  {
  }

  lemma InsertedBytes(o: Store, o1: Store, o2: Store, p: Page, e: Pte)
    requires p in o && o[p].Data? && p != ZERO && DataSame(o, o1) && DataSame(o1, o2) && Wf(o2)
    requires Fits(o2, 0, p) && e.page == p
    ensures Leaf(o2, e) == View(e.(w := false), o[p].bytes)
  {
  }

  lemma LeafBytes(o: Store, e: Pte)
    requires Wf(o) && Fits(o, 0, e.page) && e.page != ZERO
    ensures e.page in o && o[e.page].Data? && Leaf(o, e) == View(e.(w := false), o[e.page].bytes)
  {
  }

  /** Let go of the page q that used to be mapped at va, if it was not the zero page. */
  method FinishDrop(pm: PageMaps, q: Page, ghost o: Store, root: Page, va: nat, ghost v: View, ghost w: bool)
    requires pm.Valid() && root in pm.roots && NonZero(q) <= pm.held && (q != ZERO ==> Fits(pm.obj, 0, q))
    requires Replaced(o, pm.obj, 3, root, va, v, w) && OthersSame(o, pm.obj, pm.roots, root)
    modifies pm`obj, pm`refc, pm`free, pm`held, pm`excl
    ensures pm.Valid() && pm.held == old(pm.held) - NonZero(q)
    ensures Replaced(o, pm.obj, 3, root, va, v, w) && OthersSame(o, pm.obj, pm.roots, root)
  {
    hide Wf, Exact, Exclusive, FreeOk, Replaced, Same;
    ghost var o1 := pm.obj;
    if q != ZERO {
      DropPage(pm, q);
      ReplacedBeforeDrop(o, o1, pm.obj, root, va, v, w);
      OthersTrans(o, o1, pm.obj, pm.roots, root);
    }
  }

  /* ---------- the fault handler ---------- */

  /** As the handler's first loop finds out: every table on the way is present. */
  method TablesPresent(pm: PageMaps, root: Page, fva: nat) returns (present: bool)
    requires Wf(pm.obj) && IsTab(pm.obj, 3, root) && fva < Span(4)
    ensures !present ==> !At(pm.obj, 3, root, fva).pte.p
  {
    var level: nat, t: Page, x: nat := 3, root, fva;
    while level >= 1
      invariant level <= 3 && IsTab(pm.obj, level, t) && x < Span(level + 1)
      invariant At(pm.obj, 3, root, fva) == At(pm.obj, level, t, x)
    {
      IdxInside(level, x);
      EntryFits(pm.obj, level, t, Idx(level, x));
      var e := pm.obj[t].es[Idx(level, x)];
      if !e.p {
        return false;
      }
      t, x, level := e.page, Off(level, x), level - 1;
    }
    return true;
  }

  /** A present leaf entry with PTE_W behind private tables is effectively writable. */
  lemma {:induction false} OpenW(o: Store, level: nat, t: Page, x: nat)
    requires Wf(o) && level <= 3 && IsTab(o, level, t) && x < Span(level + 1) && OpenPath(o, level, t, x)
    requires IsTab(o, 0, LeafTable(o, level, t, x)) && LeafIndex(level, x) < ENTRIES
    ensures EffW(o, level, t, x) <==> o[LeafTable(o, level, t, x)].es[LeafIndex(level, x)].w
    decreases level
  {
    IdxInside(level, x);
    if level > 0 { OpenW(o, level - 1, Child(o, level, t, x), Off(level, x)); }
  }

  /** A page added to the store shows in no address space. */
  lemma GrownSame(o: Store, o': Store, level: nat, u: Page)
    requires Wf(o) && Wf(o') && Shrunk(o', o) && level <= 3 && IsTab(o, level, u)
    ensures Same(o, o', level, u)
  {
    forall k: nat, t | k <= level && IsTab(o, k, t) ensures SameShape(o, o', k, t) { }
    ShapeSame(o, o', level, u);
  }

  lemma {:induction false} OpenGrown(o: Store, o': Store, level: nat, t: Page, x: nat)
    requires Wf(o) && Wf(o') && Shrunk(o', o) && level <= 3 && IsTab(o, level, t) && x < Span(level + 1)
    requires OpenPath(o, level, t, x)
    ensures IsTab(o', level, t) && OpenPath(o', level, t, x)
    decreases level
  {
    IdxInside(level, x);
    if level > 0 { OpenGrown(o, o', level - 1, Child(o, level, t, x), Off(level, x)); }
  }

  lemma AdoptData(o: Store, refc: map<Page, int>, free: seq<Page>, npage: Page, roots: set<Page>, held: multiset<Page>,
                  x: set<Page>, q: Page)
    requires Inv(o, refc, free, npage, roots, held, x) && q in o && o[q].Data? && q in refc && refc[q] == 1
    ensures Inv(o, refc, free, npage, roots, held, x + {q})
  {
  }

  /** A data page mapped somewhere is counted. */
  lemma MappedCounted(o: Store, refc: map<Page, int>, roots: set<Page>, held: multiset<Page>, root: Page, va: nat)
    requires Wf(o) && Exact(o, refc, roots, held) && IsTab(o, 3, root) && va < Span(4)
    ensures var q := At(o, 3, root, va).pte.page; q == ZERO || (q in o && o[q].Data? && q in refc && refc[q] >= 1)
  {
    LeafAt(o, 3, root, va);
    var q := At(o, 3, root, va).pte.page;
    if q != ZERO { EntryCounted(o, refc, roots, held, LeafTable(o, 3, root, va), LeafIndex(3, va)); }
  }

  lemma LeafPte(o: Store, root: Page, va: nat)
    requires Wf(o) && IsTab(o, 3, root) && va < Span(4) && OpenPath(o, 3, root, va)
    ensures LeafIndex(3, va) < ENTRIES && IsTab(o, 0, LeafTable(o, 3, root, va))
    ensures o[LeafTable(o, 3, root, va)].es[LeafIndex(3, va)].(w := false) == At(o, 3, root, va).pte
  {
    LeafFits(o, 3, root, va);
    LeafAt(o, 3, root, va);
  }

  /** The same permissions and contents on page pg. */
  function OnPage(v: View, pg: Page): View { v.(pte := v.pte.(page := pg)) }

  /** Address va of root now shows its old contents, with its old nominal permissions, on a page of its own, and is writable for
      the processor. */
  ghost predicate Owned(o: Store, o': Store, roots: set<Page>, root: Page, va: nat)
  {
    && Wf(o) && IsTab(o, 3, root) && va < Span(4) && OthersSame(o, o', roots, root)
    && exists pg :: Replaced(o, o', 3, root, va, OnPage(At(o, 3, root, va), pg), true)
  }

  lemma OwnedAfterSame(o: Store, o1: Store, o2: Store, roots: set<Page>, root: Page, va: nat)
    requires Same(o, o1, 3, root) && OthersSame(o, o1, roots, root) && Owned(o1, o2, roots, root, va)
    ensures Owned(o, o2, roots, root, va)
  {
    OthersTrans(o, o1, o2, roots, root);
    var pg :| Replaced(o1, o2, 3, root, va, OnPage(At(o1, 3, root, va), pg), true);
    ReplacedAfterSame(o, o1, o2, 3, root, va, OnPage(At(o1, 3, root, va), pg), true);
  }

  /** The page is shared, or the zero page: copy it and drop the old reference. */
  method OwnCopy(pm: PageMaps, root: Page, va: nat, pg: Page)
    requires pm.Valid() && root in pm.roots && Wf(pm.obj) && IsTab(pm.obj, 3, root) && va < Span(4)
    requires OpenPath(pm.obj, 3, root, va) && pg == At(pm.obj, 3, root, va).pte.page && Writable(At(pm.obj, 3, root, va))
    modifies pm`obj, pm`refc, pm`free, pm`npage, pm`held, pm`excl
    ensures pm.Valid() && pm.held == old(pm.held) && Owned(old(pm.obj), pm.obj, pm.roots, root, va)
  {
    hide Wf, Exact, Exclusive, FreeOk, OpenPath, OthersSame, Replaced, Same, EffW, Zeros, NonZero, At;
    ghost var o := pm.obj;
    DataBytes(o, pg, At(o, 3, root, va));
    var npg := pm.NewPage(Data(if pg == ZERO then Zeros() else pm.obj[pg].bytes));
    ghost var o1 := pm.obj;
    RootTabs(o1, pm.refc, pm.free, pm.npage, pm.roots, pm.held, pm.excl);
    OpenGrown(o, o1, 3, root, va);
    GrownRoots(o, o1, pm.roots, root);
    AtOf(o, o1, root, va);
    var e := Pte(npg, true, true, true, true);
    HeldOne(pm.held, npg, pg);
    SetLeaf(pm, root, va, e);
    LeafBytes(pm.obj, e);
    ReplacedAfterSame(o, o1, pm.obj, 3, root, va, Leaf(pm.obj, e), true);
    OthersTrans(o, o1, pm.obj, pm.roots, root);
    DroppedFits(o, pm.obj, pm.refc, pm.free, pm.npage, pm.roots, pm.held, pm.excl, pg);
    FinishDrop(pm, pg, o, root, va, Leaf(pm.obj, e), true);
    assert Replaced(o, pm.obj, 3, root, va, OnPage(At(o, 3, root, va), npg), true);
  }

  lemma HeldOne(h: multiset<Page>, n: Page, q: Page)
    requires n in h && n != ZERO
    ensures NonZero(n) <= h + NonZero(q)
    ensures NonZero(q) <= h + NonZero(q) - NonZero(n)
    ensures h + NonZero(q) - NonZero(n) - NonZero(q) == h - multiset{n}
  {
  }

  lemma GrownRoots(o: Store, o1: Store, roots: set<Page>, root: Page)
    requires Wf(o) && Wf(o1) && Shrunk(o1, o) && root in roots && forall u :: u in roots ==> IsTab(o, 3, u)
    ensures Same(o, o1, 3, root) && OthersSame(o, o1, roots, root)
  {
    forall u | u in roots ensures Same(o, o1, 3, u) { GrownSame(o, o1, 3, u); }
    OthersFrom(o, o1, roots, root);
  }

  /** Nobody else has the page: keep it. */
  method OwnInPlace(pm: PageMaps, root: Page, va: nat, pg: Page)
    requires pm.Valid() && root in pm.roots && Wf(pm.obj) && IsTab(pm.obj, 3, root) && va < Span(4)
    requires OpenPath(pm.obj, 3, root, va) && pg == At(pm.obj, 3, root, va).pte.page && Writable(At(pm.obj, 3, root, va))
    requires pg in pm.obj && pm.obj[pg].Data? && pg in pm.refc && pm.refc[pg] == 1
    modifies pm`obj, pm`refc, pm`free, pm`npage, pm`held, pm`excl
    ensures pm.Valid() && pm.held == old(pm.held) && Owned(old(pm.obj), pm.obj, pm.roots, root, va)
  {
    hide Wf, Exact, Exclusive, FreeOk, OpenPath, OthersSame, Replaced, Same, EffW, Zeros;
    ghost var o := pm.obj;
    RootTabs(o, pm.refc, pm.free, pm.npage, pm.roots, pm.held, pm.excl);
    AdoptData(o, pm.refc, pm.free, pm.npage, pm.roots, pm.held, pm.excl, pg);
    pm.excl := pm.excl + {pg};
    var e := Pte(pg, true, true, true, true);
    SetLeaf(pm, root, va, e);
    LeafBytes(pm.obj, e);
    DataBytes(o, pg, At(o, 3, root, va));
    assert Replaced(o, pm.obj, 3, root, va, OnPage(At(o, 3, root, va), pg), true);
  }

  /** Give the address a page of its own with the same contents, or keep the page if nobody else has it. */
  method OwnPage(pm: PageMaps, root: Page, va: nat)
    requires pm.Valid() && root in pm.roots && Wf(pm.obj) && IsTab(pm.obj, 3, root) && va < Span(4)
    requires OpenPath(pm.obj, 3, root, va) && Writable(At(pm.obj, 3, root, va))
    modifies pm`obj, pm`refc, pm`free, pm`npage, pm`held, pm`excl
    ensures pm.Valid() && pm.held == old(pm.held) && Owned(old(pm.obj), pm.obj, pm.roots, root, va)
  {
    hide Wf, Exact, Exclusive, FreeOk, OpenPath, Owned, EffW, Zeros;
    var pg := At(pm.obj, 3, root, va).pte.page;
    MappedCounted(pm.obj, pm.refc, pm.roots, pm.held, root, va);
    if pg == ZERO || pm.refc[pg] > 1 {
      OwnCopy(pm, root, va, pg);
    } else {
      OwnInPlace(pm, root, va, pg);
    }
  }

  lemma DataBytes(o: Store, q: Page, v: View)
    requires Wf(o) && Fits(o, 0, q) && v.pte.page == q && Leaf(o, v.pte) == v
    ensures v.bytes == (if q == ZERO then Zeros() else o[q].bytes) && |v.bytes| == PAGESIZE
  {
  }

  lemma AtOf(o: Store, o1: Store, root: Page, va: nat)
    requires Same(o, o1, 3, root) && va < Span(4)
    ensures At(o1, 3, root, va) == At(o, 3, root, va)
  {
  }

  lemma OthersFrom(o: Store, o1: Store, roots: set<Page>, root: Page)
    requires forall u :: u in roots ==> Same(o, o1, 3, u)
    ensures OthersSame(o, o1, roots, root)
  {
  }

  lemma DroppedFits(o: Store, o': Store, refc: map<Page, int>, free: seq<Page>, npage: Page, roots: set<Page>,
                    held: multiset<Page>, x: set<Page>, q: Page)
    requires Inv(o', refc, free, npage, roots, held, x) && Fits(o, 0, q)
    requires NonZero(q) <= held && DataSame(o, o')
    ensures q != ZERO ==> Fits(o', 0, q)
  {
    if q != ZERO { assert q in NonZero(q); }
  }

  /** pmap_pagefault: handled iff the program may nominally write there; then it can, and sees the permissions and bytes it saw. */
  method PmapPagefault(pm: PageMaps, root: Page, fva: nat, write: bool) returns (handled: bool)
    requires pm.Valid() && root in pm.roots
    requires write && USERLO <= fva < USERHI ==> Wf(pm.obj) && IsTab(pm.obj, 3, root) && !EffW(pm.obj, 3, root, fva)
    modifies pm`obj, pm`refc, pm`free, pm`npage, pm`held, pm`excl
    ensures pm.Valid() && pm.held == old(pm.held)
    ensures handled <==> write && USERLO <= fva < USERHI && Writable(At(old(pm.obj), 3, root, fva))
    ensures !handled ==> Same(old(pm.obj), pm.obj, 3, root) && OthersSame(old(pm.obj), pm.obj, pm.roots, root)
    ensures handled ==> Owned(old(pm.obj), pm.obj, pm.roots, root, fva)
  {
    hide Wf, Exact, Exclusive, FreeOk, OpenPath, OthersSame, Owned, Same, EffW, Zeros;
    ghost var o := pm.obj;
    RootTabs(o, pm.refc, pm.free, pm.npage, pm.roots, pm.held, pm.excl);
    forall u | u in pm.roots ensures Same(o, o, 3, u) { SameRefl(o, 3, u); }
    OthersFrom(o, o, pm.roots, root);
    if fva < USERLO || fva >= USERHI || !write {
      return false;
    }
    var present := TablesPresent(pm, root, fva);
    if !present {
      return false;
    }
    PmapWalk(pm, root, fva);
    ghost var o1 := pm.obj;
    AtOf(o, o1, root, fva);
    LeafFits(o1, 3, root, fva);
    LeafPte(o1, root, fva);
    var pte := pm.obj[LeafTable(pm.obj, 3, root, fva)].es[LeafIndex(3, fva)];
    if !(pte.p && pte.r && pte.rw) {
      return false;
    }
    assert !pte.w by { OpenW(o1, 3, root, fva); NoGainAt(o, o1, root, fva); }
    OwnPage(pm, root, fva);
    OwnedAfterSame(o, o1, pm.obj, pm.roots, root, fva);
    return true;
  }

  lemma NoGainAt(o: Store, o1: Store, root: Page, va: nat)
    requires Same(o, o1, 3, root) && va < Span(4)
    ensures EffW(o1, 3, root, va) ==> EffW(o, 3, root, va)
  {
  }

  /* ---------- a program's stores ---------- */

  /** Byte off of address va of root became b, on whatever page; no address space shows any other difference. */
  ghost predicate Stored(o: Store, o': Store, roots: set<Page>, root: Page, va: nat, off: nat, b: Byte)
    requires off < PAGESIZE
  {
    Wf(o) && Wf(o') && forall u :: u in roots ==>
      && IsTab(o, 3, u) && IsTab(o', 3, u)
      && forall x :: 0 <= x < Span(4) ==>
           var v, v' := At(o, 3, u, x), At(o', 3, u, x);
           if u == root && x == va then v' == OnPage(v, v'.pte.page).(bytes := v.bytes[off := b]) else v' == v
  }

  lemma StoredByFault(o: Store, o1: Store, o2: Store, roots: set<Page>, root: Page, va: nat, off: nat, b: Byte)
    requires Owned(o, o1, roots, root, va) && off < PAGESIZE && Written(o1, o2, roots, root, va, off, b) && root in roots
    ensures Stored(o, o2, roots, root, va, off, b)
  {
    forall u | u in roots && u != root ensures Same(o, o1, 3, u) { }
    var pg :| Replaced(o, o1, 3, root, va, OnPage(At(o, 3, root, va), pg), true);
  }

  lemma OwnedEffW(o: Store, o1: Store, roots: set<Page>, root: Page, va: nat)
    requires Owned(o, o1, roots, root, va)
    ensures Wf(o1) && IsTab(o1, 3, root) && EffW(o1, 3, root, va)
  {
    var pg :| Replaced(o, o1, 3, root, va, OnPage(At(o, 3, root, va), pg), true);
  }

  /** A store instruction of a user program: the processor carries it out or faults, and after a fault that was handled carries it
      out.  Sharing and copying on write stay invisible: the nominal permissions alone decide whether it succeeds. */
  method UserStore(pm: PageMaps, root: Page, va: nat, off: nat, b: Byte) returns (ok: bool)
    requires pm.Valid() && root in pm.roots && USERLO <= va < USERHI && off < PAGESIZE
    modifies pm`obj, pm`refc, pm`free, pm`npage, pm`held, pm`excl
    ensures pm.Valid() && pm.held == old(pm.held) && Wf(old(pm.obj)) && IsTab(old(pm.obj), 3, root)
    ensures ok <==> Writable(At(old(pm.obj), 3, root, va))
    ensures ok ==> Stored(old(pm.obj), pm.obj, pm.roots, root, va, off, b)
    ensures !ok ==> Same(old(pm.obj), pm.obj, 3, root) && OthersSame(old(pm.obj), pm.obj, pm.roots, root)
  {
    hide Wf, Exact, Exclusive, FreeOk, OthersSame, Owned, Same, EffW, Written, Stored;
    ghost var o := pm.obj;
    RootTabs(o, pm.refc, pm.free, pm.npage, pm.roots, pm.held, pm.excl);
    if EffW(pm.obj, 3, root, va) {
      EffWWritable(o, 3, root, va);
      UserWrite(pm, root, va, off, b);
      StoredAtOnce(o, pm.obj, pm.roots, root, va, off, b);
      return true;
    }
    ok := PmapPagefault(pm, root, va, true);
    if ok {
      ghost var o1 := pm.obj;
      OwnedEffW(o, o1, pm.roots, root, va);
      UserWrite(pm, root, va, off, b);
      StoredByFault(o, o1, pm.obj, pm.roots, root, va, off, b);
    }
  }

  lemma StoredAtOnce(o: Store, o1: Store, roots: set<Page>, root: Page, va: nat, off: nat, b: Byte)
    requires off < PAGESIZE && Written(o, o1, roots, root, va, off, b) && root in roots
    ensures Stored(o, o1, roots, root, va, off, b)
  {
  }
}
