/** pmap_copy within one table on either side, whoever shares those tables (kern/pmap.c). */
module SlotCopy {
  import opened Paging
  import opened PageMem
  import opened Views
  import opened Private
  import opened Walk
  import opened Frames
  import opened Remove
  import opened PageCopy
  import opened Sharing

  /** What entry e of a table of level l shows at offset y. */
  function SlotView(o: Store, l: nat, e: Pte, y: nat): View
    requires Wf(o) && l <= 3 && Fits(o, l, e.page) && y < Span(l)
  {
    if l == 0 then Leaf(o, e) else AtIn(o, l - 1, e.page, y)
  }

  /** What table t shows at offset y of slot i. */
  function AtSlot(o: Store, l: nat, t: Page, i: nat, y: nat): View
    requires Wf(o) && l <= 3 && IsTab(o, l, t) && i < ENTRIES && y < Span(l)
  {
    BaseInside(l, i);
    At(o, l, t, Base(l, i) + y)
  }

  lemma SlotAt(o: Store, l: nat, t: Page, i: nat, y: nat)
    requires Wf(o) && l <= 3 && IsTab(o, l, t) && i < ENTRIES && y < Span(l)
    ensures Fits(o, l, o[t].es[i].page) && AtSlot(o, l, t, i, y) == SlotView(o, l, o[t].es[i], y)
  {
    BaseInside(l, i);
    EntryFits(o, l, t, i);
    if l > 0 { AtEntry(o, l, t, i, y); } else { IdxInside(0, i); }
  }

  /** Every address of a table is in one of its slots. */
  lemma InSlot(l: nat, z: nat)
    requires l <= 3 && z < Span(l + 1)
    ensures Idx(l, z) < ENTRIES && Off(l, z) < Span(l) && z == Base(l, Idx(l, z)) + Off(l, z)
    ensures forall i: nat :: i < ENTRIES && Base(l, i) <= z < Base(l, i) + Span(l) ==> i == Idx(l, z)
  {
    IdxInside(l, z);
    forall i: nat | i < ENTRIES && Base(l, i) <= z < Base(l, i) + Span(l) ensures i == Idx(l, z) {
      Decompose(l, z, i, z - Base(l, i));
    }
  }

  /** Storing an entry changes what its slot shows, wherever the table is reached from, and nothing else. */
  lemma SetSlot(o: Store, l: nat, t: Page, i: nat, e: Pte)
    requires Wf(o) && l <= 3 && IsTab(o, l, t) && i < ENTRIES && Wf(SetIn(o, t, i, e)) && Fits(o, l, e.page)
    ensures SlotsOnly(o, SetIn(o, t, i, e), l, t, Base(l, i), Base(l, i) + Span(l))
    ensures forall y :: 0 <= y < Span(l) ==> AtSlot(SetIn(o, t, i, e), l, t, i, y) == SlotView(o, l, e, y)
  {
    hide Wf, At, EntryMaps;
    var o2 := SetIn(o, t, i, e);
    SetConfined(o, l, t, i, e);
    forall z | 0 <= z < Span(l + 1) && !(Base(l, i) <= z < Base(l, i) + Span(l)) ensures At(o2, l, t, z) == At(o, l, t, z) {
      InSlot(l, z);
      BaseInside(l, i);
      SlotElse(o, l, t, i, e, Idx(l, z), Off(l, z));
    }
    forall y | 0 <= y < Span(l) ensures AtSlot(o2, l, t, i, y) == SlotView(o, l, e, y) {
      SlotAt(o2, l, t, i, y);
      SlotNew(o, l, t, i, e, y);
    }
    forall u | IsTab(o, l, u) ensures ElseSame(o, o2, l, u, t, Base(l, i), Base(l, i) + Span(l)) {
      if u != t { assert Same(o, o2, l, u); }
    }
  }

  lemma SlotElse(o: Store, l: nat, t: Page, i: nat, e: Pte, j: nat, y: nat)
    requires Wf(o) && l <= 3 && IsTab(o, l, t) && i < ENTRIES && Wf(SetIn(o, t, i, e)) && j < ENTRIES && j != i && y < Span(l)
    ensures AtSlot(SetIn(o, t, i, e), l, t, j, y) == AtSlot(o, l, t, j, y)
  {
    hide Wf, At, EntryMaps;
    var o2 := SetIn(o, t, i, e);
    SlotAt(o, l, t, j, y);
    SlotAt(o2, l, t, j, y);
    SetConfined(o, l, t, i, e);
    if l == 0 {
      SameData(o, o2, o[t].es[j]);
    } else {
      assert EntryMaps(o, o[t].es[j], o2, o2[t].es[j], l - 1);
      MapsAt(o, o[t].es[j], o2, o2[t].es[j], l - 1, y);
    }
  }

  lemma MapsAt(o: Store, e: Pte, o2: Store, e2: Pte, l: nat, y: nat)
    requires EntryMaps(o, e, o2, e2, l) && y < Span(l + 1)
    ensures AtIn(o2, l, e2.page, y) == AtIn(o, l, e.page, y)
  {
  }

  lemma SameData(o: Store, o2: Store, e: Pte)
    requires Wf(o) && Wf(o2) && Fits(o, 0, e.page) && Fits(o2, 0, e.page) && (e.page != ZERO ==> o2[e.page] == o[e.page])
    ensures Leaf(o2, e) == Leaf(o, e)
  {
  }

  lemma SlotNew(o: Store, l: nat, t: Page, i: nat, e: Pte, y: nat)
    requires Wf(o) && l <= 3 && IsTab(o, l, t) && i < ENTRIES && Wf(SetIn(o, t, i, e)) && Fits(o, l, e.page) && y < Span(l)
    requires Fits(SetIn(o, t, i, e), l, e.page)
    ensures SlotView(SetIn(o, t, i, e), l, e, y) == SlotView(o, l, e, y)
  {
    hide Wf, At, EntryMaps;
    var o2 := SetIn(o, t, i, e);
    SetConfined(o, l, t, i, e);
    if l == 0 {
      SameData(o, o2, e);
    } else if e.page != ZERO {
      assert Same(o, o2, l - 1, e.page);
    }
  }

  /* ---------- one slot ---------- */

  /** Slot i of t now shows what slot k of sp showed; if they are one and the same and not empty, nothing. */
  ghost predicate SlotTaken(o: Store, o2: Store, l: nat, sp: Page, k: nat, t: Page, i: nat)
  {
    && Wf(o) && Wf(o2) && l <= 3 && IsTab(o, l, sp) && IsTab(o, l, t) && IsTab(o2, l, t) && k < ENTRIES && i < ENTRIES
    && (forall y :: 0 <= y < Span(l) ==> AtSlot(o2, l, t, i, y) == TakenView(o, l, sp, k, t, i, y))
    && forall j :: 0 <= j < ENTRIES && j != i ==> o2[t].es[j].page == o[t].es[j].page
  }

  function TakenView(o: Store, l: nat, sp: Page, k: nat, t: Page, i: nat, y: nat): View
    requires Wf(o) && l <= 3 && IsTab(o, l, sp) && IsTab(o, l, t) && k < ENTRIES && i < ENTRIES && y < Span(l)
  {
    if sp == t && k == i && o[t].es[i].page != ZERO then Absent() else AtSlot(o, l, sp, k, y)
  }

  /** pmap_remove_level on a whole entry, without regard to who shares the table. */
  method EmptySlot(pm: PageMaps, l: nat, t: Page, i: nat)
    requires pm.Valid() && Wf(pm.obj) && l <= 3 && IsTab(pm.obj, l, t) && i < ENTRIES && pm.obj[t].es[i].page != ZERO
    modifies pm`obj, pm`refc, pm`free, pm`npage, pm`held, pm`excl
    ensures pm.Valid() && pm.held == old(pm.held) && Wf(pm.obj)
    ensures SlotsOnly(old(pm.obj), pm.obj, l, t, Base(l, i), Base(l, i) + Span(l))
    ensures pm.obj[t].es == old(pm.obj)[t].es[i := CLEAR] && Shrunk(SetIn(old(pm.obj), t, i, CLEAR), pm.obj)
  {
    hide Wf, Exact, Exclusive, FreeOk, Local, Removed, SlotsOnly, Shrunk;
    ghost var o, x := pm.obj, pm.excl;
    RemoveEntry(pm, l, t, i, {});
    InvWf(pm.obj, pm.refc, pm.free, pm.npage, pm.roots, pm.held, pm.excl);
    BaseInside(l, i);
    RemovedSlots(o, x, pm.obj, pm.excl, pm.roots, l, t, Base(l, i), Base(l, i) + Span(l));
  }

  lemma InvWf(o: Store, refc: map<Page, int>, free: seq<Page>, npage: Page, roots: set<Page>, held: multiset<Page>, x: set<Page>)
    requires Inv(o, refc, free, npage, roots, held, x)
    ensures Wf(o)
  {
  }

  lemma RemovedSlots(o: Store, x: set<Page>, o2: Store, x2: set<Page>, roots: set<Page>, l: nat, t: Page, lo: int, hi: int)
    requires Wf(o) && Wf(o2) && l <= 3 && IsTab(o, l, t) && Local(o, x, o2, x2, roots, l, t, {}, lo, hi) && Removed(o, o2, l, t, lo, hi)
    ensures SlotsOnly(o, o2, l, t, lo, hi)
  {
    hide At;
    NotZero(o, t);
    forall u | IsTab(o, l, u) ensures ElseSame(o, o2, l, u, t, lo, hi) {
      if u != t {
        assert Same(o, o2, l, u);
      } else {
        forall z | 0 <= z < Span(l + 1) && !(lo <= z < hi) ensures At(o2, l, t, z) == At(o, l, t, z) {
          assert Unmaps(At(o, l, t, z), At(o2, l, t, z), lo <= z < hi);
        }
      }
    }
  }

  /** The tables left in o2 have the entries they had in o, but for entry i of t; entry k of sp may have lost PTE_W. */
  ghost predicate TablesKept(o: Store, o2: Store, sp: Page, k: nat, t: Page, i: nat)
  {
    forall u :: u in o2 && o2[u].Table? ==> EntriesKept(o, o2, u, sp, k, t, i)
  }

  ghost predicate EntriesKept(o: Store, o2: Store, u: Page, sp: Page, k: nat, t: Page, i: nat)
    requires u in o2 && o2[u].Table?
  {
    && u in o && o[u].Table? && o[u].level == o2[u].level && |o[u].es| == |o2[u].es|
    && forall j :: 0 <= j < |o[u].es| && !(u == t && j == i) ==>
         o2[u].es[j] == o[u].es[j] || (u == sp && j == k && o2[u].es[j] == o[u].es[j].(w := false))
  }

  lemma SharedKept(o: Store, o1: Store, sp: Page, k: nat, t: Page, i: nat)
    requires k < Len(o, sp) && i < Len(o, t) && k < Len(o1, sp) && i < Len(o1, t)
    requires o1 == o || Shrunk(SetIn(o, t, i, CLEAR), o1)
    requires !(sp == t && k == i) && (o1 == o ==> o[t].es[i].page == ZERO)
    ensures var e := o1[sp].es[k].(w := false); var om := SetIn(o1, sp, k, e);
            i < Len(om, t) && e == o[sp].es[k].(w := false) && TablesKept(o, SetIn(om, t, i, e), sp, k, t, i) && SetIn(om, t, i, e)[t].es[i] == e
  {
    var e := o1[sp].es[k].(w := false);
    var o2 := SetIn(SetIn(o1, sp, k, e), t, i, e);
    forall u | u in o2 && o2[u].Table? ensures EntriesKept(o, o2, u, sp, k, t, i) { }
  }

  /** One turn of the loop of pmap_copy_level that shares a whole entry. */
  method ShareSlot(pm: PageMaps, l: nat, sp: Page, k: nat, t: Page, i: nat)
    requires pm.Valid() && Wf(pm.obj) && l <= 3 && IsTab(pm.obj, l, sp) && IsTab(pm.obj, l, t) && k < ENTRIES && i < ENTRIES
    modifies pm`obj, pm`refc, pm`free, pm`npage, pm`held, pm`excl
    ensures pm.Valid() && pm.held == old(pm.held) && Wf(pm.obj)
    ensures SlotsOnly(old(pm.obj), pm.obj, l, t, Base(l, i), Base(l, i) + Span(l))
    ensures SlotTaken(old(pm.obj), pm.obj, l, sp, k, t, i)
    ensures !(sp == t && k == i) ==>
              TablesKept(old(pm.obj), pm.obj, sp, k, t, i) && pm.obj[t].es[i] == old(pm.obj)[sp].es[k].(w := false)
  {
    hide Wf, Exact, Exclusive, FreeOk, SlotsOnly, SlotTaken, Shrunk, TablesKept;
    ghost var o := pm.obj;
    if pm.obj[t].es[i].page != ZERO {
      EmptySlot(pm, l, t, i);
    } else {
      NoSlots(o, l, t, i);
    }
    ghost var o1 := pm.obj;
    SourceTab(o, o1, l, t, i, sp);
    ghost var e := o1[sp].es[k].(w := false);
    var pte := TakeWrite(pm, l, sp, k);
    EmptyStill(o1, sp, k, t, i, pte);
    StoreEntry(pm, l, t, i, pte);
    SharedSlot(o, o1, SetIn(o1, sp, k, e), pm.obj, l, sp, k, t, i, e);
    if !(sp == t && k == i) { SharedKept(o, o1, sp, k, t, i); }
  }

  /** *spmte &= ~PTE_W */
  method TakeWrite(pm: PageMaps, l: nat, sp: Page, k: nat) returns (e: Pte)
    requires pm.Valid() && Wf(pm.obj) && l <= 3 && IsTab(pm.obj, l, sp) && k < ENTRIES
    modifies pm`obj, pm`held
    ensures pm.Valid() && pm.held == old(pm.held) && Wf(pm.obj) && e == old(pm.obj)[sp].es[k].(w := false)
    ensures pm.obj == SetIn(old(pm.obj), sp, k, e) && EntryOk(pm.obj, l, e)
    ensures e.page != ZERO ==> Unwritable(pm.obj, pm.excl, e.page) && e.page !in pm.roots && e.page in pm.obj
  {
    hide Wf, Exact, Exclusive, FreeOk, Unwritable, EntryOk, Names, NonZero;
    ghost var o := pm.obj;
    e := pm.obj[sp].es[k].(w := false);
    EntryFits(o, l, sp, k);
    WithoutWrite(o, l, o[sp].es[k]);
    HeldLink(pm.held, e.page);
    pm.SetEntry(sp, k, e);
    InvWf(pm.obj, pm.refc, pm.free, pm.npage, pm.roots, pm.held, pm.excl);
    FitsSet(o, l, sp, k, e, e);
    if e.page != ZERO { ReadOnlyShared(pm.obj, pm.refc, pm.free, pm.npage, pm.roots, pm.held, pm.excl, l, sp, k); }
  }

  /** *dpmte = *spmte, and one more reference. */
  method StoreEntry(pm: PageMaps, l: nat, t: Page, i: nat, e: Pte)
    requires pm.Valid() && l <= 3 && IsTab(pm.obj, l, t) && i < ENTRIES && pm.obj[t].es[i].page == ZERO && EntryOk(pm.obj, l, e) && !e.w
    requires e.page != ZERO ==> Unwritable(pm.obj, pm.excl, e.page) && e.page !in pm.roots && e.page in pm.obj
    modifies pm`obj, pm`refc, pm`held, pm`excl
    ensures pm.Valid() && pm.held == old(pm.held) && Wf(pm.obj) && pm.obj == SetIn(old(pm.obj), t, i, e)
  {
    hide Wf, Exact, Exclusive, FreeOk, Unwritable, EntryOk, Names, NonZero;
    HeldLink(pm.held, e.page);
    if e.page != ZERO {
      pm.MemIncref(e.page);
    }
    pm.SetEntry(t, i, e);
    InvWf(pm.obj, pm.refc, pm.free, pm.npage, pm.roots, pm.held, pm.excl);
  }

  lemma EmptyStill(o: Store, sp: Page, k: nat, t: Page, i: nat, e: Pte)
    requires k < Len(o, sp) && i < Len(o, t) && o[t].es[i].page == ZERO && e == o[sp].es[k].(w := false)
    ensures i < Len(SetIn(o, sp, k, e), t) && SetIn(o, sp, k, e)[t].es[i].page == ZERO
    ensures SetIn(o, sp, k, e)[t].level == o[t].level && Len(SetIn(o, sp, k, e), t) == Len(o, t)
  {
  }

  lemma HeldLink(h: multiset<Page>, p: Page)
    ensures NonZero(p) <= h + NonZero(p) && h + NonZero(p) - NonZero(p) == h
    ensures NonZero(ZERO) == multiset{} && (p != ZERO ==> NonZero(p) == multiset{p})
    ensures NonZero(p) <= h + NonZero(p) + NonZero(ZERO) && h + NonZero(p) + NonZero(ZERO) - NonZero(p) == h
  {
  }

  lemma NoSlots(o: Store, l: nat, t: Page, i: nat)
    requires Wf(o) && l <= 3 && IsTab(o, l, t)
    ensures SlotsOnly(o, o, l, t, Base(l, i), Base(l, i) + Span(l))
  {
  }

  lemma SourceTab(o: Store, o1: Store, l: nat, t: Page, i: nat, sp: Page)
    requires l <= 3 && SlotsOnly(o, o1, l, t, Base(l, i), Base(l, i) + Span(l)) && IsTab(o, l, sp)
    ensures IsTab(o1, l, sp) && IsTab(o1, l, t)
  {
    assert ElseSame(o, o1, l, sp, t, Base(l, i), Base(l, i) + Span(l));
  }

  lemma OnlyTrans(o: Store, o1: Store, o2: Store, l: nat, t: Page, lo: int, hi: int)
    requires SlotsOnly(o, o1, l, t, lo, hi) && SlotsOnly(o1, o2, l, t, lo, hi)
    ensures SlotsOnly(o, o2, l, t, lo, hi)
  {
    hide At;
    forall u | IsTab(o, l, u) ensures ElseSame(o, o2, l, u, t, lo, hi) {
      assert ElseSame(o, o1, l, u, t, lo, hi) && ElseSame(o1, o2, l, u, t, lo, hi);
    }
  }

  lemma OnlyWider(o: Store, o2: Store, l: nat, t: Page, lo: int, hi: int, lo2: int, hi2: int)
    requires SlotsOnly(o, o2, l, t, lo, hi) && lo2 <= lo && hi <= hi2
    ensures SlotsOnly(o, o2, l, t, lo2, hi2)
  {
    hide At;
    forall u | IsTab(o, l, u) ensures ElseSame(o, o2, l, u, t, lo2, hi2) {
      assert ElseSame(o, o2, l, u, t, lo, hi);
    }
  }

  /** Taking PTE_W away shows nowhere. */
  lemma ClearedSame(o: Store, l: nat, sp: Page, k: nat, t: Page, lo: int)
    requires Wf(o) && l <= 3 && IsTab(o, l, sp) && IsTab(o, l, t) && k < ENTRIES && Wf(SetIn(o, sp, k, o[sp].es[k].(w := false)))
    ensures SlotsOnly(o, SetIn(o, sp, k, o[sp].es[k].(w := false)), l, t, lo, lo)
  {
    hide At, Wf;
    var o2 := SetIn(o, sp, k, o[sp].es[k].(w := false));
    assert LowShape(o, o2, l);
    forall u | IsTab(o, l, u) ensures ElseSame(o, o2, l, u, t, lo, lo) { ShapeSame(o, o2, l, u); }
  }

  lemma SameSlot(o: Store, o2: Store, l: nat, t: Page, i: nat, u: Page, j: nat, y: nat)
    requires l <= 3 && SlotsOnly(o, o2, l, t, Base(l, i), Base(l, i) + Span(l)) && i < ENTRIES && j < ENTRIES && !(u == t && j == i)
    requires IsTab(o, l, u) && y < Span(l)
    ensures IsTab(o2, l, u) && AtSlot(o2, l, u, j, y) == AtSlot(o, l, u, j, y)
  {
    hide At, Wf;
    assert ElseSame(o, o2, l, u, t, Base(l, i), Base(l, i) + Span(l));
    BaseInside(l, j);
    InSlot(l, Base(l, j) + y);
  }

  lemma SharedSlot(o: Store, o1: Store, om: Store, o2: Store, l: nat, sp: Page, k: nat, t: Page, i: nat, e: Pte)
    requires l <= 3 && SlotsOnly(o, o1, l, t, Base(l, i), Base(l, i) + Span(l)) && IsTab(o, l, sp) && k < ENTRIES && i < ENTRIES
    requires IsTab(o1, l, sp) && IsTab(o1, l, t)
    requires if o[t].es[i].page != ZERO then o1[t].es == o[t].es[i := CLEAR] else o1 == o
    requires e == o1[sp].es[k].(w := false) && om == SetIn(o1, sp, k, e) && Wf(om) && IsTab(om, l, t) && o2 == SetIn(om, t, i, e) && Wf(o2)
    ensures SlotsOnly(o, o2, l, t, Base(l, i), Base(l, i) + Span(l)) && SlotTaken(o, o2, l, sp, k, t, i)
  {
    hide At, Wf, SlotsOnly, AtSlot, SlotView, Absent;
    OnlyWf(o, o1, l, t, Base(l, i), Base(l, i) + Span(l));
    ClearedSame(o1, l, sp, k, t, Base(l, i));
    OnlyWider(o1, om, l, t, Base(l, i), Base(l, i), Base(l, i), Base(l, i) + Span(l));
    EntryFits(om, l, sp, k);
    SetSlot(om, l, t, i, e);
    OnlyTrans(o, o1, om, l, t, Base(l, i), Base(l, i) + Span(l));
    OnlyTrans(o, om, o2, l, t, Base(l, i), Base(l, i) + Span(l));
    forall y | 0 <= y < Span(l) ensures AtSlot(o2, l, t, i, y) == TakenView(o, l, sp, k, t, i, y) {
      SlotAt(om, l, sp, k, y);
      ClearedSlot(o1, om, l, sp, k, t, Base(l, i), y);
      if sp == t && k == i {
        if o[t].es[i].page != ZERO {
          SlotAt(o1, l, t, i, y);
          ClearView(o1, l, y);
        }
      } else {
        SameSlot(o, o1, l, t, i, sp, k, y);
      }
    }
  }

  lemma OnlyWf(o: Store, o2: Store, l: nat, t: Page, lo: int, hi: int)
    requires SlotsOnly(o, o2, l, t, lo, hi)
    ensures Wf(o) && Wf(o2) && l <= 3 && IsTab(o, l, t) && IsTab(o2, l, t)
  {
  }

  lemma ClearedSlot(o: Store, o2: Store, l: nat, sp: Page, k: nat, t: Page, lo: int, y: nat)
    requires SlotsOnly(o, o2, l, t, lo, lo) && IsTab(o, l, sp) && k < ENTRIES && y < Span(l)
    ensures IsTab(o2, l, sp) && AtSlot(o2, l, sp, k, y) == AtSlot(o, l, sp, k, y)
  {
    hide At, Wf;
    BaseInside(l, k);
    assert ElseSame(o, o2, l, sp, t, lo, lo);
  }

  lemma ClearView(o: Store, l: nat, y: nat)
    requires Wf(o) && l <= 3 && y < Span(l)
    ensures SlotView(o, l, CLEAR, y) == Absent()
  {
  }

  /* ---------- a run of slots ---------- */

  /** All n slots of t show in o2 what n slots of sp show in o. */
  ghost predicate EqualSlots(o: Store, l: nat, sp: Page, k: nat, o2: Store, t: Page, i: nat, n: nat)
    requires Wf(o) && Wf(o2) && l <= 3 && IsTab(o, l, sp) && IsTab(o2, l, t) && k + n <= ENTRIES && i + n <= ENTRIES
  {
    forall j, y :: 0 <= j < n && 0 <= y < Span(l) ==> SlotsEqual(o, l, sp, k, o2, t, i, j, y)
  }

  /** Slot k + j of sp shows in store o what slot i + j of t shows in o2. */
  predicate SlotsEqual(o: Store, l: nat, sp: Page, k: nat, o2: Store, t: Page, i: nat, j: nat, y: nat)
    requires Wf(o) && Wf(o2) && l <= 3 && IsTab(o, l, sp) && IsTab(o2, l, t) && k + j < ENTRIES && i + j < ENTRIES && y < Span(l)
  {
    AtSlot(o2, l, t, i + j, y) == AtSlot(o, l, sp, k + j, y)
  }

  /** What slot i + j of t shows after the copy, as far as it does not depend on the order of the turns. */
  ghost predicate SlotResult(o: Store, o2: Store, l: nat, sp: Page, k: nat, t: Page, i: nat, n: nat, j: nat, y: nat)
    requires Wf(o) && Wf(o2) && l <= 3 && IsTab(o, l, sp) && IsTab(o, l, t) && IsTab(o2, l, t)
    requires k + n <= ENTRIES && i + n <= ENTRIES && j < n && y < Span(l)
  {
    if sp != t || k == i then AtSlot(o2, l, t, i + j, y) == TakenView(o, l, sp, k + j, t, i + j, y)
    else EqualSlots(o, l, sp, k, o, t, i, n) ==> AtSlot(o2, l, t, i + j, y) == AtSlot(o, l, t, i + j, y)
  }

  /** The first m of n slots have been copied. */
  ghost predicate Ran(o: Store, o2: Store, l: nat, sp: Page, k: nat, t: Page, i: nat, n: nat, m: nat)
  {
    && l <= 3 && IsTab(o, l, sp) && k + n <= ENTRIES && i + n <= ENTRIES && m <= n
    && SlotsOnly(o, o2, l, t, Base(l, i), Base(l, i + m))
    && (forall j, y :: 0 <= j < m && 0 <= y < Span(l) ==> SlotResult(o, o2, l, sp, k, t, i, n, j, y))
    && forall j :: i + m <= j < ENTRIES ==> o2[t].es[j].page == o[t].es[j].page
  }

  lemma BaseStep(l: nat, i: nat)
    requires l <= 3
    ensures Base(l, i + 1) == Base(l, i) + Span(l)
  {
  }

  lemma BaseMono(l: nat, i: nat, j: nat)
    requires l <= 3 && i <= j
    ensures 0 <= Base(l, i) <= Base(l, j) && (i < j ==> Base(l, i) + Span(l) <= Base(l, j))
  {
  }

  lemma SlotLater(o: Store, o2: Store, l: nat, t: Page, lo: int, hi: int, u: Page, j: nat, y: nat)
    requires l <= 3 && SlotsOnly(o, o2, l, t, lo, hi) && IsTab(o, l, u) && j < ENTRIES && y < Span(l)
    requires u != t || hi <= Base(l, j) || Base(l, j) + Span(l) <= lo
    ensures IsTab(o2, l, u) && AtSlot(o2, l, u, j, y) == AtSlot(o, l, u, j, y)
  {
    hide At, Wf;
    assert ElseSame(o, o2, l, u, t, lo, hi);
    BaseInside(l, j);
  }

  lemma RanStep(o: Store, o1: Store, o2: Store, l: nat, sp: Page, k: nat, t: Page, i: nat, n: nat, m: nat)
    requires Ran(o, o1, l, sp, k, t, i, n, m) && m < n
    requires SlotsOnly(o1, o2, l, t, Base(l, i + m), Base(l, i + m) + Span(l)) && SlotTaken(o1, o2, l, sp, k + m, t, i + m)
    ensures Ran(o, o2, l, sp, k, t, i, n, m + 1)
  {
    hide At, Wf, SlotsOnly, AtSlot, TakenView, EqualSlots, Base;
    BaseStep(l, i + m);
    BaseMono(l, i, i + m);
    OnlyWf(o, o1, l, t, Base(l, i), Base(l, i + m));
    OnlyWf(o1, o2, l, t, Base(l, i + m), Base(l, i + m) + Span(l));
    OnlyWider(o, o1, l, t, Base(l, i), Base(l, i + m), Base(l, i), Base(l, i + m + 1));
    OnlyWider(o1, o2, l, t, Base(l, i + m), Base(l, i + m) + Span(l), Base(l, i), Base(l, i + m + 1));
    OnlyTrans(o, o1, o2, l, t, Base(l, i), Base(l, i + m + 1));
    forall j, y | 0 <= j < m + 1 && 0 <= y < Span(l) ensures SlotResult(o, o2, l, sp, k, t, i, n, j, y) {
      if j < m {
        assert SlotResult(o, o1, l, sp, k, t, i, n, j, y);
        SameSlot(o1, o2, l, t, i + m, t, i + j, y);
      } else {
        LastSlot(o, o1, o2, l, sp, k, t, i, n, m, y);
      }
    }
  }

  lemma LastSlot(o: Store, o1: Store, o2: Store, l: nat, sp: Page, k: nat, t: Page, i: nat, n: nat, m: nat, y: nat)
    requires Ran(o, o1, l, sp, k, t, i, n, m) && m < n && y < Span(l) && SlotTaken(o1, o2, l, sp, k + m, t, i + m)
    ensures SlotResult(o, o2, l, sp, k, t, i, n, m, y)
  {
    hide At, Wf, SlotsOnly, AtSlot, Base;
    OnlyWf(o, o1, l, t, Base(l, i), Base(l, i + m));
    assert AtSlot(o2, l, t, i + m, y) == TakenView(o1, l, sp, k + m, t, i + m, y);
    if sp != t {
      SlotLater(o, o1, l, t, Base(l, i), Base(l, i + m), sp, k + m, y);
    } else if k == i {
      SlotLater(o, o1, l, t, Base(l, i), Base(l, i + m), t, i + m, y);
    } else if EqualSlots(o, l, sp, k, o, t, i, n) {
      StillAlike(o, o1, l, sp, k, t, i, n, m, y);
    }
  }

  lemma StillAlike(o: Store, o1: Store, l: nat, sp: Page, k: nat, t: Page, i: nat, n: nat, m: nat, y: nat)
    requires Ran(o, o1, l, sp, k, t, i, n, m) && m < n && y < Span(l) && sp == t && k != i
    requires Wf(o) && IsTab(o, l, t) && EqualSlots(o, l, sp, k, o, t, i, n)
    ensures Wf(o1) && IsTab(o1, l, t) && AtSlot(o1, l, t, k + m, y) == AtSlot(o, l, t, i + m, y)
  {
    hide At, Wf, SlotsOnly, AtSlot, Base, TakenView;
    OnlyWf(o, o1, l, t, Base(l, i), Base(l, i + m));
    assert SlotsEqual(o, l, sp, k, o, t, i, m, y);
    if i <= k + m < i + m {
      assert SlotResult(o, o1, l, sp, k, t, i, n, k + m - i, y);
    } else {
      if k + m < i { BaseMono(l, k + m, i); } else { BaseMono(l, i + m, k + m); }
      SlotLater(o, o1, l, t, Base(l, i), Base(l, i + m), t, k + m, y);
    }
  }

  lemma RanNone(o: Store, l: nat, sp: Page, k: nat, t: Page, i: nat, n: nat)
    requires Wf(o) && l <= 3 && IsTab(o, l, sp) && IsTab(o, l, t) && k + n <= ENTRIES && i + n <= ENTRIES
    ensures Ran(o, o, l, sp, k, t, i, n, 0)
  {
  }

  /** The loop of pmap_copy_level at the level to which the range is aligned. */
  method CopySlots(pm: PageMaps, l: nat, sp: Page, k: nat, t: Page, i: nat, n: nat)
    requires pm.Valid() && Wf(pm.obj) && l <= 3 && IsTab(pm.obj, l, sp) && IsTab(pm.obj, l, t) && k + n <= ENTRIES && i + n <= ENTRIES
    modifies pm`obj, pm`refc, pm`free, pm`npage, pm`held, pm`excl
    ensures pm.Valid() && pm.held == old(pm.held) && Wf(pm.obj)
    ensures Ran(old(pm.obj), pm.obj, l, sp, k, t, i, n, n)
  {
    hide Wf, Exact, Exclusive, FreeOk, SlotsOnly, SlotTaken, Ran;
    ghost var o := pm.obj;
    RanNone(o, l, sp, k, t, i, n);
    var j := 0;
    while j < n
      invariant j <= n && pm.Valid() && pm.held == old(pm.held) && Wf(pm.obj) && IsTab(pm.obj, l, sp) && IsTab(pm.obj, l, t)
      invariant Ran(o, pm.obj, l, sp, k, t, i, n, j)
    {
      ghost var o1 := pm.obj;
      ShareSlot(pm, l, sp, k + j, t, i + j);
      SourceTab(o1, pm.obj, l, t, i + j, sp);
      RanStep(o, o1, pm.obj, l, sp, k, t, i, n, j);
      j := j + 1;
    }
  }

  /* ---------- who sees such a copy ---------- */

  /** The slots map nothing that could be lost. */
  ghost predicate NothingThere(o: Store, l: nat, t: Page, i: nat, n: nat)
    requires Wf(o) && l <= 3 && IsTab(o, l, t) && i + n <= ENTRIES
  {
    forall j, y :: 0 <= j < n && 0 <= y < Span(l) ==> NothingAt(o, l, t, i, j, y)
  }

  predicate NothingAt(o: Store, l: nat, t: Page, i: nat, j: nat, y: nat)
    requires Wf(o) && l <= 3 && IsTab(o, l, t) && i + j < ENTRIES && y < Span(l)
  {
    o[t].es[i + j].page == ZERO || AtSlot(o, l, t, i + j, y) == Absent()
  }

  /** Slot by slot: the copy arrives and t shows what it showed, exactly if they agreed already and, should they be the
      same slots, there was nothing in them. */
  lemma SlotsExact(o: Store, o2: Store, l: nat, sp: Page, k: nat, t: Page, i: nat, n: nat)
    requires Ran(o, o2, l, sp, k, t, i, n, n) && Wf(o) && Wf(o2) && IsTab(o, l, t) && IsTab(o2, l, t)
    ensures sp != t ==> EqualSlots(o, l, sp, k, o2, t, i, n)
    ensures EqualSlots(o, l, sp, k, o2, t, i, n) && EqualSlots(o, l, t, i, o2, t, i, n) <==>
      EqualSlots(o, l, sp, k, o, t, i, n) && (sp == t && k == i ==> NothingThere(o, l, t, i, n))
  {
    hide At, AtSlot, Wf, SlotsOnly, Base, Absent;
    forall j, y | 0 <= j < n && 0 <= y < Span(l)
      ensures sp != t ==> SlotsEqual(o, l, sp, k, o2, t, i, j, y)
      ensures SlotsEqual(o, l, sp, k, o2, t, i, j, y) && SlotsEqual(o, l, t, i, o2, t, i, j, y) ==>
        SlotsEqual(o, l, sp, k, o, t, i, j, y) && (sp == t && k == i ==> NothingAt(o, l, t, i, j, y))
    {
      assert SlotResult(o, o2, l, sp, k, t, i, n, j, y);
    }
    if EqualSlots(o, l, sp, k, o, t, i, n) && (sp == t && k == i ==> NothingThere(o, l, t, i, n)) {
      forall j, y | 0 <= j < n && 0 <= y < Span(l)
        ensures SlotsEqual(o, l, sp, k, o2, t, i, j, y) && SlotsEqual(o, l, t, i, o2, t, i, j, y)
      {
        assert SlotResult(o, o2, l, sp, k, t, i, n, j, y) && SlotsEqual(o, l, sp, k, o, t, i, j, y);
        assert sp == t && k == i ==> NothingAt(o, l, t, i, j, y);
      }
    }
  }

  /** An address of a run of slots is in one of its slots. */
  lemma RunAddress(l: nat, i: nat, n: nat, x: nat)
    requires l <= 3 && i + n <= ENTRIES && x < Base(l, n)
    ensures Idx(l, x) < n && Base(l, i) + x == Base(l, i + Idx(l, x)) + Off(l, x)
    ensures 0 <= Base(l, i) && Base(l, i) + Base(l, n) == Base(l, i + n) <= Span(l + 1)
  {
  }

  lemma SlotInRun(l: nat, i: nat, n: nat, j: nat, y: nat)
    requires l <= 3 && i + n <= ENTRIES && j < n && y < Span(l)
    ensures 0 <= Base(l, j) + y < Base(l, n) && Base(l, i + j) + y == Base(l, i) + (Base(l, j) + y)
    ensures 0 <= Base(l, i) && Base(l, i) + Base(l, n) == Base(l, i + n) <= Span(l + 1)
  {
  }

  /** From addresses of two spaces to slots of two tables. */
  ghost predicate EqualPages(o: Store, s: Page, sva: nat, o2: Store, d: Page, dva: nat, m: nat)
    requires Wf(o) && Wf(o2) && IsTab(o, 3, s) && IsTab(o2, 3, d) && sva + m <= Span(4) && dva + m <= Span(4)
  {
    forall x :: 0 <= x < m ==> PageEqual(o, s, sva, o2, d, dva, x)
  }

  predicate PageEqual(o: Store, s: Page, sva: nat, o2: Store, d: Page, dva: nat, x: nat)
    requires Wf(o) && Wf(o2) && IsTab(o, 3, s) && IsTab(o2, 3, d) && sva + x < Span(4) && dva + x < Span(4)
  {
    At(o2, 3, d, dva + x) == At(o, 3, s, sva + x)
  }

  /** sva lies at slot k of table sp on the way from s. */
  ghost predicate Leads(o: Store, s: Page, sva: nat, l: nat, sp: Page, k: nat)
  {
    && Wf(o) && IsTab(o, 3, s) && l <= 3 && sva < Span(4) && IsTab(o, l, sp)
    && TabAt(o, 3, s, sva, l) == sp && Low(3, sva, l) == Base(l, k)
  }

  lemma LeadsAt(o: Store, s: Page, sva: nat, l: nat, sp: Page, k: nat, n: nat, x: nat)
    requires Leads(o, s, sva, l, sp, k) && k + n <= ENTRIES && x < Base(l, n)
    ensures sva + x < Span(4) && Idx(l, x) < n
    ensures At(o, 3, s, sva + x) == AtSlot(o, l, sp, k + Idx(l, x), Off(l, x))
    ensures TabAt(o, 3, s, sva + x, l) == sp && Low(3, sva + x, l) == Base(l, k) + x
  {
    hide At, TabAt, Low, Wf;
    RunAddress(l, k, n, x);
    Sibling(o, 3, s, sva, l, Base(l, k) + x);
    AtLow(o, 3, s, sva + x, l);
    NotZero(o, sp);
  }

  lemma LeadsEnd(o: Store, s: Page, sva: nat, l: nat, sp: Page, k: nat, n: nat)
    requires Leads(o, s, sva, l, sp, k) && k + n <= ENTRIES
    ensures 0 <= Base(l, n) && sva + Base(l, n) <= Span(4) && 0 <= Base(l, k) && Base(l, k) + Base(l, n) <= Span(l + 1)
  {
    BaseMono(l, 0, n);
    if n > 0 {
      BaseMono(l, 0, n - 1);
      BaseStep(l, n - 1);
      LeadsAt(o, s, sva, l, sp, k, n, Base(l, n) - 1);
      RunAddress(l, k, n, 0);
    } else {
      BaseInside2(l, k);
    }
  }

  lemma BaseInside2(l: nat, k: nat)
    requires l <= 3 && k <= ENTRIES
    ensures 0 <= Base(l, k) <= Span(l + 1) && Base(l, 0) == 0
  {
  }

  lemma PagesSlots(o: Store, s: Page, sva: nat, o2: Store, d: Page, dva: nat, l: nat, sp: Page, k: nat, t: Page, i: nat, n: nat)
    requires Leads(o, s, sva, l, sp, k) && Leads(o2, d, dva, l, t, i) && k + n <= ENTRIES && i + n <= ENTRIES
    ensures 0 <= Base(l, n) && sva + Base(l, n) <= Span(4) && dva + Base(l, n) <= Span(4)
    ensures EqualPages(o, s, sva, o2, d, dva, Base(l, n)) <==> EqualSlots(o, l, sp, k, o2, t, i, n)
  {
    hide At, AtSlot, TabAt, Low, Wf, Base;
    LeadsEnd(o, s, sva, l, sp, k, n);
    LeadsEnd(o2, d, dva, l, t, i, n);
    forall x | 0 <= x < Base(l, n)
      ensures Idx(l, x) < n && (PageEqual(o, s, sva, o2, d, dva, x) <==> SlotsEqual(o, l, sp, k, o2, t, i, Idx(l, x), Off(l, x)))
    {
      LeadsAt(o, s, sva, l, sp, k, n, x);
      LeadsAt(o2, d, dva, l, t, i, n, x);
    }
    if EqualPages(o, s, sva, o2, d, dva, Base(l, n)) {
      forall j, y | 0 <= j < n && 0 <= y < Span(l) ensures SlotsEqual(o, l, sp, k, o2, t, i, j, y) {
        SlotInRun(l, i, n, j, y);
        Decompose(l, Base(l, j) + y, j, y);
        assert PageEqual(o, s, sva, o2, d, dva, Base(l, j) + y);
      }
    }
  }

  /** The same slots of a table in two stores. */
  lemma AlikeEqual(o: Store, o2: Store, l: nat, t: Page, i: nat, n: nat)
    requires Wf(o) && Wf(o2) && l <= 3 && IsTab(o, l, t) && IsTab(o2, l, t) && i + n <= ENTRIES
    ensures 0 <= Base(l, i) && Base(l, i) + Base(l, n) == Base(l, i + n) <= Span(l + 1)
    ensures SlotsAlike(o, o2, l, t, Base(l, i), Base(l, i + n), false) <==> EqualSlots(o, l, t, i, o2, t, i, n)
  {
    hide At, Wf, Base;
    RunEnds(l, i, n);
    if EqualSlots(o, l, t, i, o2, t, i, n) {
      forall z | Base(l, i) <= z < Base(l, i + n) ensures Like(At(o, l, t, z), At(o2, l, t, z), false) {
        RunAddress(l, i, n, z - Base(l, i));
        assert SlotsEqual(o, l, t, i, o2, t, i, Idx(l, z - Base(l, i)), Off(l, z - Base(l, i)));
      }
    }
    if SlotsAlike(o, o2, l, t, Base(l, i), Base(l, i + n), false) {
      forall j, y | 0 <= j < n && 0 <= y < Span(l) ensures SlotsEqual(o, l, t, i, o2, t, i, j, y) {
        SlotInRun(l, i, n, j, y);
        assert Like(At(o, l, t, Base(l, i + j) + y), At(o2, l, t, Base(l, i + j) + y), false);
      }
    }
  }

  lemma RunEnds(l: nat, i: nat, n: nat)
    requires l <= 3 && i + n <= ENTRIES
    ensures 0 <= Base(l, i) && 0 <= Base(l, n) && Base(l, i) + Base(l, n) == Base(l, i + n) <= Span(l + 1)
  {
  }

  lemma LeadsKept(o: Store, o2: Store, d: Page, dva: nat, l: nat, t: Page, i: nat, lo: int, hi: int)
    requires Leads(o, d, dva, l, t, i) && SlotsOnly(o, o2, l, t, lo, hi)
    ensures Leads(o2, d, dva, l, t, i)
  {
    hide At, TabAt, Low, Wf;
    Seen(o, o2, l, t, lo, hi, d, dva);
    NotZero(o, t);
    TabKept(o, o2, 3, d, dva, l);
  }

  /** What a copy promises: the destination shows what the source showed, and nobody sees anything else. */
  ghost predicate CopyKept(o: Store, o2: Store, roots: set<Page>, s: Page, sva: nat, d: Page, dva: nat, m: nat)
    requires Wf(o) && Wf(o2) && IsTab(o, 3, s) && IsTab(o2, 3, d) && sva + m <= Span(4) && dva + m <= Span(4)
    requires forall u :: u in roots ==> IsTab(o, 3, u) && IsTab(o2, 3, u)
  {
    EqualPages(o, s, sva, o2, d, dva, m) && OthersKept(o, o2, roots, d, dva, dva + m, false)
  }

  /** Exactly when a copy within one table on either side keeps its promise: every destination table on the way has a
      single reference, or the pages show the same already (and are not the very same slots with something in them). */
  lemma CopyExact(o: Store, o2: Store, refc: map<Page, int>, roots: set<Page>, s: Page, sva: nat, d: Page, dva: nat,
                  l: nat, sp: Page, k: nat, t: Page, i: nat, n: nat)
    requires Quiet(o, refc, roots) && s in roots && d in roots && s != d && forall u :: u in roots ==> IsTab(o, 3, u)
    requires Leads(o, s, sva, l, sp, k) && Leads(o, d, dva, l, t, i) && Ran(o, o2, l, sp, k, t, i, n, n)
    ensures Wf(o2) && (forall u :: u in roots ==> IsTab(o2, 3, u))
    ensures 0 <= Base(l, n) && sva + Base(l, n) <= Span(4) && dva + Base(l, n) <= Span(4)
    ensures CopyKept(o, o2, roots, s, sva, d, dva, Base(l, n)) <==>
      Lone(o, refc, d, dva, l)
      || (EqualPages(o, s, sva, o, d, dva, Base(l, n)) && (sp == t && k == i ==> NothingThere(o, l, t, i, n)))
  {
    hide At, AtSlot, TabAt, Low, Wf, Base, Quiet, Lone, SlotsOnly, EqualPages, EqualSlots, OthersKept, SlotsAlike, NothingThere;
    QuietWf(o, refc, roots);
    RunEnds(l, i, n);
    OnlyWf(o, o2, l, t, Base(l, i), Base(l, i + n));
    forall u | u in roots ensures IsTab(o2, 3, u) { Seen(o, o2, l, t, Base(l, i), Base(l, i + n), u, 0); }
    LeadsKept(o, o2, d, dva, l, t, i, Base(l, i), Base(l, i + n));
    PagesSlots(o, s, sva, o2, d, dva, l, sp, k, t, i, n);
    PagesSlots(o, s, sva, o, d, dva, l, sp, k, t, i, n);
    AlikeEqual(o, o2, l, t, i, n);
    SlotsExact(o, o2, l, sp, k, t, i, n);
    NotZero(o, t);
    LoneOrAlike(o, o2, refc, roots, d, dva, l, Base(l, n), false);
    if sp == t && Lone(o, refc, d, dva, l) {
      OnlyWay(o, refc, roots, d, dva, l, s, sva);
      assert false;
    }
  }

  /** A second space that leads to the same slots, such as a snapshot taken by sharing tables, takes on the copied pages; so
      it shows what it showed exactly if it showed those pages already. */
  lemma SharedTableLeaks(o: Store, o2: Store, s: Page, sva: nat, u: Page, uva: nat, l: nat, sp: Page, k: nat, t: Page, i: nat, n: nat)
    requires Leads(o, s, sva, l, sp, k) && Leads(o, u, uva, l, t, i) && Ran(o, o2, l, sp, k, t, i, n, n) && sp != t
    ensures Wf(o2) && IsTab(o2, 3, u) && 0 <= Base(l, n) && sva + Base(l, n) <= Span(4) && uva + Base(l, n) <= Span(4)
    ensures EqualPages(o, s, sva, o2, u, uva, Base(l, n))
    ensures EqualPages(o, u, uva, o2, u, uva, Base(l, n)) <==> EqualPages(o, s, sva, o, u, uva, Base(l, n))
  {
    hide At, AtSlot, TabAt, Low, Wf, Base, SlotsOnly, EqualPages, EqualSlots;
    OnlyWf(o, o2, l, t, Base(l, i), Base(l, i + n));
    LeadsKept(o, o2, u, uva, l, t, i, Base(l, i), Base(l, i + n));
    PagesSlots(o, s, sva, o2, u, uva, l, sp, k, t, i, n);
    PagesSlots(o, u, uva, o2, u, uva, l, t, i, t, i, n);
    PagesSlots(o, s, sva, o, u, uva, l, sp, k, t, i, n);
    SlotsExact(o, o2, l, sp, k, t, i, n);
  }

  /* ---------- the way down ---------- */

  /** Above the level of alignment the loop makes one turn, which is the partial one, for all of the range. */
  lemma {:induction false} OneTurn(level: nat, sva: nat, dva: nat, l: nat, n: nat)
    requires l < level <= 3 && sva < Span(level + 1) && dva < Span(level + 1) && 0 < n < ENTRIES
    requires 0 <= Base(l, n) && Low(level, sva, l) + Base(l, n) <= Span(l + 1) && Low(level, dva, l) + Base(l, n) <= Span(l + 1)
    ensures Base(l, n) < Span(level) && PartSize(level, sva, dva, Base(l, n)) == Base(l, n)
  {
    LowRoom(level, sva, l);
    LowRoom(level, dva, l);
  }

  lemma {:induction false} LowRoom(level: nat, x: nat, l: nat)
    requires l < level <= 3 && x < Span(level + 1)
    ensures Off(level, x) + (Span(l + 1) - Low(level, x, l)) <= Span(level)
    decreases level
  {
    if l < level - 1 {
      IdxInside(level - 1, Off(level, x));
      LowRoom(level - 1, Off(level, x), l);
    }
  }

  /** pmap_copy_level for a range within one table on either side, both there: down to those tables, then slot by slot. */
  method CopyDown(pm: PageMaps, level: nat, spmtab: Page, sva: nat, dpmtab: Page, dva: nat, l: nat, n: nat)
    requires pm.Valid() && Wf(pm.obj) && l <= level <= 3 && IsTab(pm.obj, level, spmtab) && IsTab(pm.obj, level, dpmtab)
    requires sva < Span(level + 1) && dva < Span(level + 1) && 0 < n < ENTRIES
    requires TabAt(pm.obj, level, spmtab, sva, l) != ZERO && TabAt(pm.obj, level, dpmtab, dva, l) != ZERO
    requires Off(l, Low(level, sva, l)) == 0 && Off(l, Low(level, dva, l)) == 0
    requires Idx(l, Low(level, sva, l)) + n <= ENTRIES && Idx(l, Low(level, dva, l)) + n <= ENTRIES
    modifies pm`obj, pm`refc, pm`free, pm`npage, pm`held, pm`excl
    ensures pm.Valid() && pm.held == old(pm.held) && Wf(pm.obj)
    ensures Ran(old(pm.obj), pm.obj, l, TabAt(old(pm.obj), level, spmtab, sva, l), Idx(l, Low(level, sva, l)),
                TabAt(old(pm.obj), level, dpmtab, dva, l), Idx(l, Low(level, dva, l)), n, n)
    decreases level
  {
    hide Wf, Exact, Exclusive, FreeOk, Ran;
    IdxInside(level, sva);
    IdxInside(level, dva);
    if level == l {
      CopySlots(pm, l, spmtab, Idx(l, sva), dpmtab, Idx(l, dva), n);
    } else {
      EntryFits(pm.obj, level, spmtab, Idx(level, sva));
      EntryFits(pm.obj, level, dpmtab, Idx(level, dva));
      CopyDown(pm, level - 1, pm.obj[spmtab].es[Idx(level, sva)].page, Off(level, sva),
               pm.obj[dpmtab].es[Idx(level, dva)].page, Off(level, dva), l, n);
    }
  }

  /** pmap_copy of n entries of level l within one table on either side, whoever shares those tables. */
  method PmapCopyWithin(pm: PageMaps, sroot: Page, sva: nat, droot: Page, dva: nat, l: nat, n: nat, ghost sp: Page, ghost k: nat, ghost t: Page, ghost i: nat)
    requires pm.Valid() && sroot in pm.roots && droot in pm.roots && sroot != droot && 0 < n < ENTRIES
    requires Leads(pm.obj, sroot, sva, l, sp, k) && Leads(pm.obj, droot, dva, l, t, i) && k + n <= ENTRIES && i + n <= ENTRIES
    requires Quiet(pm.obj, pm.refc, pm.roots)
    modifies pm`obj, pm`refc, pm`free, pm`npage, pm`held, pm`excl
    ensures pm.Valid() && pm.held == old(pm.held) && Wf(pm.obj) && Wf(old(pm.obj))
    ensures Ran(old(pm.obj), pm.obj, l, sp, k, t, i, n, n)
    ensures forall u :: u in pm.roots ==> IsTab(old(pm.obj), 3, u) && IsTab(pm.obj, 3, u)
    ensures 0 <= Base(l, n) && sva + Base(l, n) <= Span(4) && dva + Base(l, n) <= Span(4)
    ensures CopyKept(old(pm.obj), pm.obj, pm.roots, sroot, sva, droot, dva, Base(l, n)) <==>
      Lone(old(pm.obj), old(pm.refc), droot, dva, l)
      || (EqualPages(old(pm.obj), sroot, sva, old(pm.obj), droot, dva, Base(l, n)) && (sp == t && k == i ==> NothingThere(old(pm.obj), l, t, i, n)))
  {
    hide Wf, Exact, Exclusive, FreeOk, Ran, TabAt, Low, Quiet, Lone, CopyKept, EqualPages, NothingThere, Idx, Off, Base;
    ghost var o, r := pm.obj, pm.refc;
    LeadsSlot(o, sroot, sva, l, sp, k);
    LeadsSlot(o, droot, dva, l, t, i);
    RootsTabs(o, r, pm.roots);
    CopyDown(pm, 3, sroot, sva, droot, dva, l, n);
    CopyExact(o, pm.obj, r, pm.roots, sroot, sva, droot, dva, l, sp, k, t, i, n);
  }

  lemma LeadsSlot(o: Store, s: Page, sva: nat, l: nat, sp: Page, k: nat)
    requires Leads(o, s, sva, l, sp, k)
    ensures Idx(l, Low(3, sva, l)) == k && Off(l, Low(3, sva, l)) == 0 && TabAt(o, 3, s, sva, l) == sp != ZERO
  {
    hide TabAt, Low, Wf;
    NotZero(o, sp);
    Decompose(l, Low(3, sva, l), k, 0);
  }

  lemma RootsTabs(o: Store, refc: map<Page, int>, roots: set<Page>)
    requires Quiet(o, refc, roots)
    ensures Wf(o) && forall u :: u in roots ==> IsTab(o, 3, u)
  {
  }
}
