/** pmap_copy_level: the two ways a turn of the copying loop can go, and the loop (kern/pmap.c). */
module PageCopy {
  import opened Paging
  import opened PageMem
  import opened Views
  import opened Private
  import opened Walk
  import opened Frames
  import opened Remove
  import opened Copy

  /* ---------- from entries to tables ---------- */

  /** Copied, for what entries map: n addresses from dva below e come from sva below c. */
  ghost predicate EntryCopied(o: Store, e: Pte, o': Store, e': Pte, c: Pte, level: nat, sva: nat, dva: nat, n: nat)
  {
    && Wf(o) && Wf(o') && level <= 2 && (e.page == ZERO || IsTab(o, level, e.page)) && (e'.page == ZERO || IsTab(o', level, e'.page))
    && (c.page == ZERO || IsTab(o, level, c.page)) && sva + n <= Span(level + 1) && dva + n <= Span(level + 1)
    && (forall y :: 0 <= y < Span(level + 1) && !(dva <= y < dva + n) ==> AtIn(o', level, e'.page, y) == AtIn(o, level, e.page, y))
    && (forall y :: dva <= y < dva + n ==>
          CopyOf(AtIn(o, level, e.page, y), AtIn(o', level, e'.page, y), AtIn(o, level, c.page, y - dva + sva)))
    && (forall y :: 0 <= y < Span(level + 1) && e'.w && WIn(o', level, e'.page, y) ==>
          e.w && WIn(o, level, e.page, y) && !(dva <= y < dva + n))
  }

  /** Copying within one entry copies the corresponding stretch of the table. */
  lemma CopiedEntry(o: Store, o': Store, level: nat, sp: Page, k: nat, d: Page, i: nat, sva: nat, dva: nat, n: nat)
    requires Wf(o) && Wf(o') && 1 <= level <= 3 && IsTab(o, level, sp) && IsTab(o, level, d) && IsTab(o', level, d)
    requires k < ENTRIES && i < ENTRIES && sva + n <= Span(level) && dva + n <= Span(level)
    requires forall j :: 0 <= j < ENTRIES && j != i ==> EntryMaps(o, o[d].es[j], o', o'[d].es[j], level - 1)
    requires EntryCopied(o, o[d].es[i], o', o'[d].es[i], o[sp].es[k], level - 1, sva, dva, n)
    ensures Base(level, k) >= 0 && Base(level, i) >= 0
    ensures Copied(o, o', level, sp, d, Base(level, k) + sva, Base(level, i) + dva, n)
  {
    hide Wf, EntryMaps, EntryCopied, CopyOf;
    BaseInside(level, k);
    BaseInside(level, i);
    forall x | 0 <= x < Span(level + 1)
      ensures var s, t := Base(level, k) + sva, Base(level, i) + dva;
        && (!(t <= x < t + n) ==> At(o', level, d, x) == At(o, level, d, x))
        && (t <= x < t + n ==> 0 <= x - t + s < Span(level + 1) && CopyOf(At(o, level, d, x), At(o', level, d, x), At(o, level, sp, x - t + s)))
        && (EffW(o', level, d, x) ==> EffW(o, level, d, x) && !(t <= x < t + n))
    {
      CopiedEntryAt(o, o', level, sp, k, d, i, sva, dva, n, x);
    }
  }

  lemma BaseInside(level: nat, i: nat)
    requires level <= 3 && i < ENTRIES
    ensures 0 <= Base(level, i) && Base(level, i) + Span(level) <= Span(level + 1)
  {
  }

  lemma CopiedEntryAt(o: Store, o': Store, level: nat, sp: Page, k: nat, d: Page, i: nat, sva: nat, dva: nat, n: nat, x: nat)
    requires Wf(o) && Wf(o') && 1 <= level <= 3 && IsTab(o, level, sp) && IsTab(o, level, d) && IsTab(o', level, d)
    requires k < ENTRIES && i < ENTRIES && sva + n <= Span(level) && dva + n <= Span(level) && x < Span(level + 1)
    requires forall j :: 0 <= j < ENTRIES && j != i ==> EntryMaps(o, o[d].es[j], o', o'[d].es[j], level - 1)
    requires EntryCopied(o, o[d].es[i], o', o'[d].es[i], o[sp].es[k], level - 1, sva, dva, n)
    ensures var s, t := Base(level, k) + sva, Base(level, i) + dva;
      && (!(t <= x < t + n) ==> At(o', level, d, x) == At(o, level, d, x))
      && (t <= x < t + n ==> 0 <= x - t + s < Span(level + 1) && CopyOf(At(o, level, d, x), At(o', level, d, x), At(o, level, sp, x - t + s)))
      && (EffW(o', level, d, x) ==> EffW(o, level, d, x) && !(t <= x < t + n))
  {
    hide Wf, CopyOf;
    IdxInside(level, x);
    BaseInside(level, k);
    BaseInside(level, i);
    var j, y := Idx(level, x), Off(level, x);
    BaseOrder(level, i, j);
    BaseOrder(level, j, i);
    AtEntry(o, level, d, j, y);
    AtEntry(o', level, d, j, y);
    if j != i {
      assert EntryMaps(o, o[d].es[j], o', o'[d].es[j], level - 1);
      assert AtIn(o', level - 1, o'[d].es[j].page, y) == AtIn(o, level - 1, o[d].es[j].page, y);
      assert o'[d].es[j].w && WIn(o', level - 1, o'[d].es[j].page, y) ==> o[d].es[j].w && WIn(o, level - 1, o[d].es[j].page, y);
    } else if dva <= y < dva + n {
      AtEntry(o, level, sp, k, y - dva + sva);
    }
  }

  lemma {:induction false} EffWPage(o: Store, level: nat, t: Page, x: nat)
    requires Wf(o) && level <= 3 && IsTab(o, level, t) && x < Span(level + 1) && EffW(o, level, t, x)
    ensures At(o, level, t, x).pte.page != ZERO
  {
    IdxInside(level, x);
    EntryFits(o, level, t, Idx(level, x));
    if level > 0 {
      EffWPage(o, level - 1, o[t].es[Idx(level, x)].page, Off(level, x));
    }
  }

  /** Unmapping before copying makes no difference to what is copied. */
  lemma CopiedAfterRemoved(o: Store, o1: Store, o2: Store, level: nat, sp: Page, d: Page, sva: nat, dva: nat, n: nat)
    requires Removed(o, o1, level, d, dva, dva + n) && Same(o, o1, level, sp)
    requires Copied(o1, o2, level, sp, d, sva, dva, n)
    ensures Copied(o, o2, level, sp, d, sva, dva, n)
  {
    forall x | 0 <= x < Span(level + 1)
      ensures !(dva <= x < dva + n) ==> At(o2, level, d, x) == At(o, level, d, x)
      ensures dva <= x < dva + n ==> CopyOf(At(o, level, d, x), At(o2, level, d, x), At(o, level, sp, x - dva + sva))
    {
      assert Unmaps(At(o, level, d, x), At(o1, level, d, x), dva <= x < dva + n);
      if dva <= x < dva + n {
        assert At(o1, level, sp, x - dva + sva) == At(o, level, sp, x - dva + sva);
      }
    }
  }

  /** A change the copied stretch does not show. */
  lemma CopiedAfterSame(o: Store, o1: Store, o2: Store, level: nat, sp: Page, d: Page, sva: nat, dva: nat, n: nat)
    requires Same(o, o1, level, d) && Same(o, o1, level, sp) && Copied(o1, o2, level, sp, d, sva, dva, n)
    ensures Copied(o, o2, level, sp, d, sva, dva, n)
  {
    forall x | dva <= x < dva + n
      ensures CopyOf(At(o, level, d, x), At(o2, level, d, x), At(o, level, sp, x - dva + sva)) {
      assert At(o1, level, sp, x - dva + sva) == At(o, level, sp, x - dva + sva);
    }
  }

  /** Where the source has no table, unmapping is copying. */
  lemma CopiedRemoved(o: Store, o': Store, level: nat, sp: Page, d: Page, sva: nat, dva: nat, n: nat)
    requires Removed(o, o', level, d, dva, dva + n) && IsTab(o, level, sp) && 1 <= level
    requires sva + n <= Span(level + 1) && dva + n <= Span(level + 1)
    requires Idx(level, sva) < ENTRIES && o[sp].es[Idx(level, sva)].page == ZERO && Off(level, sva) + n <= Span(level)
    ensures Copied(o, o', level, sp, d, sva, dva, n)
  {
    forall x | 0 <= x < Span(level + 1)
      ensures !(dva <= x < dva + n) ==> At(o', level, d, x) == At(o, level, d, x)
      ensures dva <= x < dva + n ==> CopyOf(At(o, level, d, x), At(o', level, d, x), At(o, level, sp, x - dva + sva))
      ensures EffW(o', level, d, x) ==> !(dva <= x < dva + n)
    {
      assert Unmaps(At(o, level, d, x), At(o', level, d, x), dva <= x < dva + n);
      if dva <= x < dva + n {
        Decompose(level, x - dva + sva, Idx(level, sva), Off(level, sva) + x - dva);
        IdxInside(level, x - dva + sva);
        assert At(o, level, sp, x - dva + sva) == Absent();
        if EffW(o', level, d, x) { EffWPage(o', level, d, x); }
      }
    }
  }

  /* ---------- a whole entry ---------- */

  /** Entry k of sp loses PTE_W and is stored as entry i of d. */
  function Shared(o: Store, sp: Page, k: nat, d: Page, i: nat): Store
    requires k < Len(o, sp) && i < Len(o, d)
  {
    var e := o[sp].es[k].(w := false);
    SetIn(SetIn(o, sp, k, e), d, i, e)
  }

  lemma SharedCopied(o: Store, level: nat, sp: Page, k: nat, d: Page, i: nat)
    requires Wf(o) && level <= 3 && IsTab(o, level, sp) && IsTab(o, level, d) && sp != d && k < ENTRIES && i < ENTRIES
    requires Wf(Shared(o, sp, k, d, i)) && Wf(SetIn(o, sp, k, o[sp].es[k].(w := false)))
    ensures Base(level, k) >= 0 && Base(level, i) >= 0
    ensures Copied(o, Shared(o, sp, k, d, i), level, sp, d, Base(level, k), Base(level, i), Span(level))
    ensures PeersSame(o, Shared(o, sp, k, d, i), level, d)
  {
    hide Wf, Copied, Confined, Same, EntryMaps, EntryCopied;
    var e := o[sp].es[k].(w := false);
    var o1 := SetIn(o, sp, k, e);
    var o2 := SetIn(o1, d, i, e);
    assert LowShape(o, o1, level);
    SetConfined(o1, level, d, i, e);
    PeersAfterShape(o, o1, o2, level, d);
    if level == 0 {
      SharedLeaf(o, sp, k, d, i);
    } else {
      forall j | 0 <= j < ENTRIES && j != i ensures EntryMaps(o, o[d].es[j], o2, o2[d].es[j], level - 1) {
        EntryFits(o, level, d, j);
        if o[d].es[j].page != ZERO { ShapeSame(o, o1, level - 1, o[d].es[j].page); }
        EntryMapsAfter(o, o1, o2, level, d, j);
      }
      EntryFits(o, level, sp, k);
      if e.page != ZERO {
        ShapeSame(o, o1, level - 1, e.page);
        SameTrans(o, o1, o2, level - 1, e.page);
      }
      EntryFits(o, level, d, i);
      SharedEntry(o, o2, o[d].es[i], o[sp].es[k], level - 1);
      CopiedEntry(o, o2, level, sp, k, d, i, 0, 0, Span(level));
    }
  }

  lemma EntryMapsAfter(o: Store, o1: Store, o2: Store, level: nat, d: Page, j: nat)
    requires Wf(o) && Wf(o1) && Wf(o2) && 1 <= level <= 3 && IsTab(o, level, d) && IsTab(o1, level, d) && IsTab(o2, level, d)
    requires j < ENTRIES && o1[d].es[j] == o[d].es[j]
    requires o[d].es[j].page != ZERO ==> Same(o, o1, level - 1, o[d].es[j].page)
    requires EntryMaps(o1, o1[d].es[j], o2, o2[d].es[j], level - 1)
    ensures EntryMaps(o, o[d].es[j], o2, o2[d].es[j], level - 1)
  {
    EntryFits(o, level, d, j);
  }

  lemma PeersAfterShape(o: Store, o1: Store, o2: Store, level: nat, d: Page)
    requires Wf(o) && Wf(o1) && Wf(o2) && level <= 3 && LowShape(o, o1, level) && PeersSame(o1, o2, level, d)
    ensures PeersSame(o, o2, level, d)
  {
    forall u | IsTab(o, level, u) && u != d ensures Same(o, o2, level, u) {
      ShapeSame(o, o1, level, u);
      assert SameShape(o, o1, level, u);
      SameTrans(o, o1, o2, level, u);
    }
  }

  lemma SharedLeaf(o: Store, sp: Page, k: nat, d: Page, i: nat)
    requires Wf(o) && IsTab(o, 0, sp) && IsTab(o, 0, d) && sp != d && k < ENTRIES && i < ENTRIES
    requires Wf(Shared(o, sp, k, d, i))
    ensures Copied(o, Shared(o, sp, k, d, i), 0, sp, d, Base(0, k), Base(0, i), 1)
  {
    hide Zeros;
    var o' := Shared(o, sp, k, d, i);
    forall x | 0 <= x < ENTRIES
      ensures At(o', 0, d, x) == if x == i then At(o, 0, sp, k) else At(o, 0, d, x)
      ensures EffW(o', 0, d, x) ==> EffW(o, 0, d, x) && x != i
    {
      EntryFits(o, 0, d, x);
      EntryFits(o, 0, sp, k);
      EntryFits(o', 0, d, x);
      assert Entry(o', 0, d, x) == if x == i then o[sp].es[k].(w := false) else o[d].es[x];
      SameLeaf(o, o', Entry(o', 0, d, x));
    }
  }

  lemma SameLeaf(o: Store, o': Store, e: Pte)
    requires Wf(o) && Wf(o') && Fits(o, 0, e.page) && Fits(o', 0, e.page)
    requires e.page != ZERO ==> o'[e.page] == o[e.page]
    ensures Leaf(o', e) == Leaf(o, e)
  {
  }

  /** A read-only copy of entry c maps what c maps. */
  lemma SharedEntry(o: Store, o': Store, e: Pte, c: Pte, level: nat)
    requires Wf(o) && Wf(o') && level <= 2 && (e.page == ZERO || IsTab(o, level, e.page))
    requires c.page == ZERO || (IsTab(o, level, c.page) && Same(o, o', level, c.page))
    ensures EntryCopied(o, e, o', c.(w := false), c, level, 0, 0, Span(level + 1))
  {
  }

  /** A private table stays private where the entry on the way is unchanged and so is everything below. */
  lemma PrivBelow(o: Store, o': Store, level: nat, u: Page, y: nat, r: Range)
    requires Wf(o) && Wf(o') && level <= 3 && IsTab(o, level, u) && IsTab(o', level, u) && y < Span(level + 1)
    requires level > 0 ==> LowSame(o, o', level - 1, ZERO)
    requires Idx(level, y) < ENTRIES && o'[u].es[Idx(level, y)] == o[u].es[Idx(level, y)]
    requires PrivAt(o, level, u, y, r)
    ensures PrivAt(o', level, u, y, r)
  {
    IdxInside(level, y);
    var i := Idx(level, y);
    var e := o[u].es[i];
    if level > 0 && !r.Whole(level, i) && e.page != ZERO {
      EntryFits(o, level, u, i);
      PrivLow(o, o', level - 1, e.page, Off(level, y), r.Down(Base(level, i)), level - 1, ZERO);
    }
  }

  lemma SharedPriv(o: Store, x: set<Page>, level: nat, sp: Page, k: nat, d: Page, i: nat, s: set<Page>)
    requires Wf(o) && level <= 3 && IsTab(o, level, sp) && IsTab(o, level, d) && sp != d && k < ENTRIES && i < ENTRIES
    requires Wf(Shared(o, sp, k, d, i)) && sp in s
    ensures PeersPriv(o, x, Shared(o, sp, k, d, i), level, d, s)
    ensures PrivOutside(o, Shared(o, sp, k, d, i), level, d, Base(level, i), Base(level, i) + Span(level))
    ensures KeptOutside(o, Shared(o, sp, k, d, i), level, d, Base(level, i), Base(level, i) + Span(level))
  {
    var o' := Shared(o, sp, k, d, i);
    assert level > 0 ==> LowSame(o, o', level - 1, ZERO);
    forall u | u in x && IsTab(o, level, u) && u !in s && u != d ensures TreeKept(o, o', level, u) {
      if level > 0 {
        forall j | 0 <= j < ENTRIES && Entry(o, level, u, j).w ensures TreeKept(o, o', level - 1, o[u].es[j].page) {
          TreeLow(o, o', level - 1, o[u].es[j].page, ZERO);
        }
      }
    }
    forall y, r | 0 <= y < Span(level + 1) && !(Base(level, i) <= y < Base(level, i) + Span(level)) && PrivAt(o, level, d, y, r)
      ensures PrivAt(o', level, d, y, r)
    {
      IdxInside(level, y);
      assert Idx(level, y) != i;
      PrivBelow(o, o', level, d, y, r);
    }
    forall j | 0 <= j < ENTRIES && j != i ensures EntryKept(o, o', level, d, j) {
      if level > 0 && Entry(o, level, d, j).w { TreeLow(o, o', level - 1, o[d].es[j].page, ZERO); }
    }
    EntryOutside(o, o', level, d, i, Base(level, i), Base(level, i) + Span(level));
  }

  lemma SharedLocal(o: Store, x: set<Page>, x': set<Page>, roots: set<Page>, level: nat, sp: Page, k: nat, d: Page, i: nat, s: set<Page>)
    requires Wf(o) && level <= 3 && IsTab(o, level, sp) && IsTab(o, level, d) && sp in s && d !in s && k < ENTRIES && i < ENTRIES
    requires Wf(Shared(o, sp, k, d, i)) && Wf(SetIn(o, sp, k, o[sp].es[k].(w := false)))
    requires Anchored(o, roots, s) && (x' == x || x' == x - {o[sp].es[k].page})
    ensures CopyLocal(o, x, Shared(o, sp, k, d, i), x', roots, level, d, s, Base(level, i), Base(level, i) + Span(level))
  {
    hide Wf, Anchored, PeersSame, PeersPriv, PrivOutside, KeptOutside;
    var o' := Shared(o, sp, k, d, i);
    SharedCopied(o, level, sp, k, d, i);
    SharedPriv(o, x, level, sp, k, d, i, s);
    EntryFits(o, level, sp, k);
    AnchoredIn(o, roots, s);
    SharedShape(o, level, sp, k, d, i, s);
    AnchoredShape(o, o', roots, s);
    SharedExcl(o, x, x', level, o[sp].es[k].page);
  }

  lemma SharedExcl(o: Store, x: set<Page>, x': set<Page>, level: nat, q: Page)
    requires Fits(o, level, q) && (x' == x || x' == x - {q})
    requires Wf(o)
    ensures HighExcl(o, x, x', level)
  {
  }

  lemma SharedShape(o: Store, level: nat, sp: Page, k: nat, d: Page, i: nat, s: set<Page>)
    requires Wf(o) && level <= 3 && IsTab(o, level, sp) && IsTab(o, level, d) && sp in s && d !in s && k < ENTRIES && i < ENTRIES
    requires s <= o.Keys
    ensures KeptShape(o, Shared(o, sp, k, d, i), s) && HighKept(o, Shared(o, sp, k, d, i), level, d, s)
  {
    var o' := Shared(o, sp, k, d, i);
    forall u | u in o && u != d ensures u in o' && (if o[u].Table? then SameShape(o, o', o[u].level, u) else o'[u] == o[u])
      ensures u !in s ==> o'[u] == o[u] {
      assert ObjOk(o, u);
    }
  }

  /** A page named by an entry without PTE_W of some table is reached writably from nowhere. */
  lemma ReadOnlyShared(o: Store, refc: map<Page, int>, free: seq<Page>, npage: Page,
                       roots: set<Page>, held: multiset<Page>, x: set<Page>, level: nat, t: Page, k: nat)
    requires Inv(o, refc, free, npage, roots, held, x) && level <= 3 && IsTab(o, level, t) && k < ENTRIES
    requires !o[t].es[k].w && o[t].es[k].page != ZERO
    ensures Unwritable(o, x, o[t].es[k].page) && o[t].es[k].page !in roots && o[t].es[k].page in o
  {
    var q := o[t].es[k].page;
    EntryFits(o, level, t, k);
    assert Names(o, t, k, q);
    forall u: Page, i: nat | u in x && Names(o, u, i, q) ensures !o[u].es[i].w {
      if o[u].es[i].w {
        assert q in x;
        ExclusiveOnlyNamed(o, refc, roots, held, x, q, t, k);
      }
    }
  }

  lemma SharedSealed(o: Store, o': Store, level: nat, sp: Page, k: nat, d: Page, i: nat)
    requires level <= 3 && IsTab(o, level, sp) && IsTab(o, level, d) && sp != d && k < ENTRIES && i < ENTRIES
    requires o' == Shared(o, sp, k, d, i) && Wf(o')
    ensures Base(level, k) >= 0 && Sealed(o', level, sp, Base(level, k), Span(level))
  {
    BaseInside(level, k);
    SealedEntry(o', level, sp, Base(level, k), Span(level));
  }

  /** Share entry k of the source as entry i of the destination, which has been emptied. */
  method ShareInto(pm: PageMaps, level: nat, spmtab: Page, k: nat, dpmtab: Page, i: nat, ghost s: set<Page>)
    requires pm.Valid() && level <= 3 && IsTab(pm.obj, level, spmtab) && IsTab(pm.obj, level, dpmtab)
    requires dpmtab in pm.excl && k < ENTRIES && i < ENTRIES && pm.obj[dpmtab].es[i].page == ZERO
    requires Anchored(pm.obj, pm.roots, s) && spmtab in s && dpmtab !in s
    modifies pm`obj, pm`refc, pm`held, pm`excl
    ensures pm.Valid() && pm.held == old(pm.held)
    ensures CopyLocal(old(pm.obj), old(pm.excl), pm.obj, pm.excl, pm.roots, level, dpmtab, s, Base(level, i), Base(level, i) + Span(level))
    ensures Base(level, k) >= 0 && Base(level, i) >= 0
    ensures Copied(old(pm.obj), pm.obj, level, spmtab, dpmtab, Base(level, k), Base(level, i), Span(level))
    ensures PrivOutside(old(pm.obj), pm.obj, level, dpmtab, Base(level, i), Base(level, i) + Span(level))
    ensures Sealed(pm.obj, level, spmtab, Base(level, k), Span(level))
  {
    hide Wf, Exact, Exclusive, FreeOk, Anchored, Copied, CopyLocal, PrivOutside, Unwritable, Same, EntryOk, Names, Sealed;
    ghost var o, x := pm.obj, pm.excl;
    InvFacts(pm.obj, pm.refc, pm.free, pm.npage, pm.roots, pm.held, pm.excl);
    var e := pm.obj[spmtab].es[k].(w := false);
    EntryFits(o, level, spmtab, k);
    WithoutWrite(o, level, o[spmtab].es[k]);
    pm.SetEntry(spmtab, k, e);
    FitsSet(o, level, spmtab, k, e, e);
    if e.page != ZERO {
      ReadOnlyShared(pm.obj, pm.refc, pm.free, pm.npage, pm.roots, pm.held, pm.excl, level, spmtab, k);
      pm.MemIncref(e.page);
    }
    pm.SetEntry(dpmtab, i, e);
    assert pm.obj == Shared(o, spmtab, k, dpmtab, i);
    SharedLocal(o, x, pm.excl, pm.roots, level, spmtab, k, dpmtab, i, s);
    SharedCopied(o, level, spmtab, k, dpmtab, i);
    SharedPriv(o, x, level, spmtab, k, dpmtab, i, s);
    SharedSealed(o, pm.obj, level, spmtab, k, dpmtab, i);
  }

  /** First case of the loop: share a whole entry. */
  method ShareEntry(pm: PageMaps, level: nat, spmtab: Page, k: nat, dpmtab: Page, i: nat, ghost s: set<Page>)
    requires pm.Valid() && level <= 3 && IsTab(pm.obj, level, spmtab) && IsTab(pm.obj, level, dpmtab)
    requires dpmtab in pm.excl && k < ENTRIES && i < ENTRIES
    requires Anchored(pm.obj, pm.roots, s) && spmtab in s && dpmtab !in s
    modifies pm`obj, pm`refc, pm`free, pm`npage, pm`held, pm`excl
    ensures pm.Valid() && pm.held == old(pm.held)
    ensures CopyLocal(old(pm.obj), old(pm.excl), pm.obj, pm.excl, pm.roots, level, dpmtab, s, Base(level, i), Base(level, i) + Span(level))
    ensures Base(level, k) >= 0 && Base(level, i) >= 0
    ensures Copied(old(pm.obj), pm.obj, level, spmtab, dpmtab, Base(level, k), Base(level, i), Span(level))
    ensures PrivOutside(old(pm.obj), pm.obj, level, dpmtab, Base(level, i), Base(level, i) + Span(level))
    ensures Sealed(pm.obj, level, spmtab, Base(level, k), Span(level))
  {
    hide Wf, Exact, Exclusive, FreeOk, Anchored, Local, Removed, Copied, CopyLocal, PrivOutside, Same, Sealed;
    ghost var o, x := pm.obj, pm.excl;
    BaseInside(level, k);
    BaseInside(level, i);
    if pm.obj[dpmtab].es[i].page != ZERO {
      RemoveLevel(pm, level, dpmtab, Base(level, i), Base(level, i) + Span(level), s);
    } else {
      SkipStep(o, level, dpmtab, i, 0, Span(level));
      LocalRefl(o, x, pm.roots, level, dpmtab, s, Base(level, i), Base(level, i) + Span(level));
    }
    ghost var o1, x1 := pm.obj, pm.excl;
    AfterRemove(o, x, o1, x1, pm.roots, level, spmtab, dpmtab, Base(level, i), Base(level, i) + Span(level), s);
    ShareInto(pm, level, spmtab, k, dpmtab, i, s);
    CopiedAfterRemoved(o, o1, pm.obj, level, spmtab, dpmtab, Base(level, k), Base(level, i), Span(level));
    CopyLocalTrans(o, x, o1, x1, pm.obj, pm.excl, pm.roots, level, dpmtab, s, Base(level, i), Base(level, i) + Span(level),
                   Base(level, i), Base(level, i) + Span(level), Base(level, i), Base(level, i) + Span(level));
    PrivOutsideTrans(o, o1, pm.obj, level, dpmtab, Base(level, i), Base(level, i), Base(level, i) + Span(level));
  }

  lemma WithoutWrite(o: Store, level: nat, e: Pte)
    requires EntryOk(o, level, e)
    ensures EntryOk(o, level, e.(w := false))
  {
  }

  lemma FitsSet(o: Store, level: nat, t: Page, i: nat, e: Pte, e1: Pte)
    requires IsTab(o, level, t) && i < ENTRIES && EntryOk(o, level, e1) && level <= 3
    ensures EntryOk(SetIn(o, t, i, e), level, e1)
  {
  }

  /** After removal below d: the source tables are as they were, d no less private. */
  lemma AfterRemove(o: Store, x: set<Page>, o1: Store, x1: set<Page>, roots: set<Page>, level: nat, sp: Page, d: Page,
                    lo: int, hi: int, s: set<Page>)
    requires Wf(o) && Wf(o1) && level <= 3 && IsTab(o, level, sp) && IsTab(o, level, d) && d in x && sp in s && d !in s
    requires Local(o, x, o1, x1, roots, level, d, s, lo, hi)
    ensures IsTab(o1, level, sp) && IsTab(o1, level, d) && d in x1 && Anchored(o1, roots, s)
    ensures Same(o, o1, level, sp) && o1[sp] == o[sp]
    ensures CopyLocal(o, x, o1, x1, roots, level, d, s, lo, hi)
    ensures PrivOutside(o, o1, level, d, lo, lo)
  {
    LocalCopy(o, x, o1, x1, roots, level, d, s, lo, hi);
    assert PrivKept(o, o1, level, d);
  }

  lemma PrivOutsideTrans(o: Store, o1: Store, o2: Store, level: nat, d: Page, lo: int, mid: int, hi: int)
    requires lo <= mid <= hi && PrivOutside(o, o1, level, d, lo, mid) && PrivOutside(o1, o2, level, d, mid, hi)
    ensures PrivOutside(o, o2, level, d, lo, hi)
  {
  }

  /* ---------- part of an entry ---------- */

  function Min(a: nat, b: nat): nat { if a <= b then a else b }
  function Max(a: nat, b: nat): nat { if a >= b then a else b }

  /** x is a multiple of Span(level). */
  predicate Multiple(level: nat, x: int)
    requires level <= 3
  {
    if level == 0 then true
    else if level == 1 then x % 512 == 0
    else if level == 2 then x % 262144 == 0
    else x % 134217728 == 0
  }

  lemma MultipleSum(level: nat, x: int, y: int)
    requires level <= 3 && Multiple(level, x) && Multiple(level, y)
    ensures Multiple(level, x + y) && Multiple(level, x - y)
  {
    if level == 1 { Sum512(x, y); }
    else if level == 2 { Sum262144(x, y); }
    else if level == 3 { Sum134217728(x, y); }
  }

  lemma Sum512(x: int, y: int)
    requires x % 512 == 0 && y % 512 == 0
    ensures (x + y) % 512 == 0 && (x - y) % 512 == 0
  {
  }

  lemma Sum262144(x: int, y: int)
    requires x % 262144 == 0 && y % 262144 == 0
    ensures (x + y) % 262144 == 0 && (x - y) % 262144 == 0
  {
  }

  lemma Sum134217728(x: int, y: int)
    requires x % 134217728 == 0 && y % 134217728 == 0
    ensures (x + y) % 134217728 == 0 && (x - y) % 134217728 == 0
  {
  }

  lemma MultipleFiner(level: nat, k: nat, x: int)
    requires k <= level <= 3 && Multiple(level, x)
    ensures Multiple(k, x)
  {
  }

  lemma MultipleBase(level: nat, i: int)
    requires level <= 3
    ensures Multiple(level, Base(level, i)) && Multiple(level, Span(level))
  {
  }

  lemma MultipleOff(level: nat, x: nat)
    requires level <= 3
    ensures Multiple(level, x) <==> Off(level, x) == 0
  {
  }

  /** No multiple lies strictly between zero and the span. */
  lemma MultipleGap(level: nat, x: int)
    requires level <= 3 && Multiple(level, x) && x > 0
    ensures x >= Span(level)
  {
  }

  /** A stretch the loop may still have to copy at this level: its ends are those of the whole range, or aligned. */
  predicate Ranged(level: nat, sva: nat, dva: nat, n: nat, r: Range)
    requires level <= 3
  {
    r.a <= 3 &&
    var u := Min(level, r.a);
    Multiple(u, sva - dva) && (n > 0 ==> (dva == r.lo || Multiple(u, dva)) && (dva + n == r.hi || Multiple(u, dva + n)))
  }

  /** Where the destination may be replaced as a whole, the loop does replace it as a whole. */
  lemma TurnWhole(level: nat, sva: nat, dva: nat, n: nat, r: Range)
    requires level <= 3 && Ranged(level, sva, dva, n, r) && n > 0 && r.Whole(level, Idx(level, dva))
    ensures Off(level, sva) == 0 && Off(level, dva) == 0 && n >= Span(level)
  {
    hide Multiple, Base, Idx;
    MultipleOff(level, dva);
    MultipleSum(level, sva - dva, dva);
    MultipleOff(level, sva);
    if Multiple(level, dva + n) {
      MultipleSum(level, dva + n, dva);
      MultipleGap(level, n);
    }
  }

  function PartSize(level: nat, sva: nat, dva: nat, n: nat): (size: nat)
    requires level <= 3
    ensures size <= n && (n > 0 ==> size > 0)
    ensures Off(level, sva) + size <= Span(level) && Off(level, dva) + size <= Span(level)
  {
    Min(Span(level) - Max(Off(level, sva), Off(level, dva)), n)
  }

  /** Unless it stops at the end of the range, a turn stops where source or destination starts a new entry. */
  lemma PartEnd(level: nat, sva: nat, dva: nat, n: nat, u: nat)
    requires u <= level <= 3 && Multiple(u, sva - dva)
    ensures var size := PartSize(level, sva, dva, n); size == n || Multiple(u, dva + size)
  {
    hide Multiple, Base, Idx, Off;
    var size := PartSize(level, sva, dva, n);
    if size != n {
      if Off(level, sva) > Off(level, dva) {
        assert sva + size == Base(level, Idx(level, sva)) + Span(level);
        MultipleBase(level, Idx(level, sva));
        MultipleSum(level, Base(level, Idx(level, sva)), Span(level));
        MultipleFiner(level, u, sva + size);
        MultipleSum(u, sva + size, sva - dva);
        assert sva + size - (sva - dva) == dva + size;
      } else {
        assert dva + size == Base(level, Idx(level, dva)) + Span(level);
        MultipleBase(level, Idx(level, dva));
        MultipleSum(level, Base(level, Idx(level, dva)), Span(level));
        MultipleFiner(level, u, dva + size);
      }
    }
  }

  lemma TurnPart(level: nat, sva: nat, dva: nat, n: nat, r: Range)
    requires 1 <= level <= 3 && Ranged(level, sva, dva, n, r) && n > 0
    ensures var size := PartSize(level, sva, dva, n);
      && Ranged(level - 1, Off(level, sva), Off(level, dva), size, r.Down(Base(level, Idx(level, dva))))
      && Ranged(level, sva + size, dva + size, n - size, r)
  {
    hide Multiple, Base, Idx, Off;
    var size, u, v := PartSize(level, sva, dva, n), Min(level, r.a), Min(level - 1, r.a);
    var bs, bd := Base(level, Idx(level, sva)), Base(level, Idx(level, dva));
    PartEnd(level, sva, dva, n, u);
    MultipleBase(level, Idx(level, sva));
    MultipleBase(level, Idx(level, dva));
    MultipleFiner(level, v, bs);
    MultipleFiner(level, v, bd);
    MultipleFiner(u, v, sva - dva);
    MultipleSum(v, sva - dva, bs);
    MultipleSum(v, sva - dva - bs, bd);
    assert sva - dva - bs + bd == Off(level, sva) - Off(level, dva);
    if Multiple(u, dva) {
      MultipleFiner(u, v, dva);
      MultipleSum(v, dva, bd);
    }
    if Multiple(u, dva + size) {
      MultipleFiner(u, v, dva + size);
      MultipleSum(v, dva + size, bd);
    }
    assert dva - bd == Off(level, dva) && dva + size - bd == Off(level, dva) + size;
    assert (sva + size) - (dva + size) == sva - dva && dva + size + (n - size) == dva + n;
  }

  lemma TurnNext(level: nat, sva: nat, dva: nat, n: nat, r: Range)
    requires level <= 3 && Ranged(level, sva, dva, n, r) && n >= Span(level) && Off(level, dva) == 0
    ensures Ranged(level, sva + Span(level), dva + Span(level), n - Span(level), r)
  {
    hide Multiple, Base, Idx, Off, Span;
    var u, z := Min(level, r.a), Span(level);
    MultipleOff(level, dva);
    MultipleBase(level, 1);
    MultipleSum(level, dva, z);
    MultipleFiner(level, u, dva + z);
    assert (sva + z) - (dva + z) == sva - dva && dva + z + (n - z) == dva + n;
  }

  /** The destination is private throughout. */
  ghost predicate Privs(o: Store, level: nat, d: Page, lo: nat, hi: nat, r: Range)
  {
    && Wf(o) && level <= 3 && IsTab(o, level, d) && hi <= Span(level + 1)
    && forall y :: lo <= y < hi ==> PrivAt(o, level, d, y, r)
  }

  lemma PrivsRest(o: Store, o': Store, level: nat, d: Page, lo: nat, mid: nat, hi: nat, r: Range)
    requires Privs(o, level, d, lo, hi, r) && PrivOutside(o, o', level, d, lo, mid) && lo <= mid <= hi
    ensures Privs(o', level, d, mid, hi, r)
  {
  }

  lemma PrivsPart(o: Store, level: nat, d: Page, lo: nat, mid: nat, hi: nat, r: Range)
    requires Privs(o, level, d, lo, hi, r) && lo <= mid <= hi
    ensures Privs(o, level, d, lo, mid, r)
  {
  }

  lemma PrivsKept(o: Store, o': Store, level: nat, d: Page, lo: nat, hi: nat, r: Range)
    requires Privs(o, level, d, lo, hi, r) && PrivKept(o, o', level, d)
    ensures Privs(o', level, d, lo, hi, r)
  {
  }

  lemma ChildPrivs(o: Store, level: nat, d: Page, dva: nat, n: nat, r: Range)
    requires 1 <= level && Privs(o, level, d, dva, dva + n, r) && n > 0 && Off(level, dva) + n <= Span(level)
    requires Idx(level, dva) < ENTRIES && o[d].es[Idx(level, dva)].page != ZERO && !r.Whole(level, Idx(level, dva))
    ensures o[d].es[Idx(level, dva)].w
    ensures Privs(o, level - 1, o[d].es[Idx(level, dva)].page, Off(level, dva), Off(level, dva) + n, r.Down(Base(level, Idx(level, dva))))
  {
    var i := Idx(level, dva);
    EntryFits(o, level, d, i);
    assert PrivAt(o, level, d, dva, r);
    var l, c, below, lo := level - 1, o[d].es[i].page, r.Down(Base(level, i)), Off(level, dva);
    forall y | lo <= y < lo + n ensures PrivAt(o, l, c, y, below) {
      AtEntry(o, level, d, i, y);
      assert PrivAt(o, level, d, Base(level, i) + y, r);
    }
  }

  /** What is private below one entry stays so outside the part that was copied. */
  lemma PrivPart(o: Store, o': Store, level: nat, d: Page, i: nat, lo: int, hi: int)
    requires Wf(o) && Wf(o') && 1 <= level <= 3 && IsTab(o, level, d) && d in o' && o'[d] == o[d] && i < ENTRIES
    requires o[d].es[i].page != ZERO && PrivOutside(o, o', level - 1, o[d].es[i].page, lo, hi)
    requires forall j :: 0 <= j < ENTRIES && j != i && o[d].es[j].w ==> PrivKept(o, o', level - 1, o[d].es[j].page)
    ensures PrivOutside(o, o', level, d, Base(level, i) + lo, Base(level, i) + hi)
  {
    forall y, r | 0 <= y < Span(level + 1) && !(Base(level, i) + lo <= y < Base(level, i) + hi) && PrivAt(o, level, d, y, r)
      ensures PrivAt(o', level, d, y, r)
    {
      IdxInside(level, y);
      var j := Idx(level, y);
      if !r.Whole(level, j) && o[d].es[j].page != ZERO && j != i {
        assert PrivKept(o, o', level - 1, o[d].es[j].page);
      }
    }
  }

  lemma CopiedPart(o: Store, o': Store, level: nat, sp: Page, k: nat, d: Page, i: nat, sva: nat, dva: nat, n: nat)
    requires Wf(o) && Wf(o') && 1 <= level <= 3 && IsTab(o, level, sp) && IsTab(o, level, d) && d in o' && o'[d] == o[d]
    requires k < ENTRIES && i < ENTRIES && o[sp].es[k].page != ZERO && o[d].es[i].page != ZERO
    requires forall j :: 0 <= j < ENTRIES && j != i ==> EntryMaps(o, o[d].es[j], o', o'[d].es[j], level - 1)
    requires Copied(o, o', level - 1, o[sp].es[k].page, o[d].es[i].page, sva, dva, n)
    ensures Base(level, k) >= 0 && Base(level, i) >= 0
    ensures Copied(o, o', level, sp, d, Base(level, k) + sva, Base(level, i) + dva, n)
  {
    assert EntryCopied(o, o[d].es[i], o', o'[d].es[i], o[sp].es[k], level - 1, sva, dva, n);
    CopiedEntry(o, o', level, sp, k, d, i, sva, dva, n);
  }

  /** The source table below entry k can be set apart, together with the tables already set apart. */
  lemma SourceChild(o: Store, refc: map<Page, int>, free: seq<Page>, npage: Page, roots: set<Page>, held: multiset<Page>,
                    x: set<Page>, level: nat, sp: Page, k: nat, d: Page, i: nat, s: set<Page>)
    requires Inv(o, refc, free, npage, roots, held, x) && 1 <= level <= 3 && Anchored(o, roots, s)
    requires IsTab(o, level, sp) && sp in s && k < ENTRIES && o[sp].es[k].page != ZERO
    requires IsTab(o, level, d) && d in x && d !in s && i < ENTRIES && o[d].es[i].w
    ensures IsTab(o, level - 1, o[sp].es[k].page) && IsTab(o, level - 1, o[d].es[i].page)
    ensures Anchored(o, roots, s + {o[sp].es[k].page}) && Below(o, level, s, s + {o[sp].es[k].page})
    ensures o[d].es[i].page in x && o[d].es[i].page !in s + {o[sp].es[k].page}
  {
    var c, sc := o[d].es[i].page, o[sp].es[k].page;
    EntryFits(o, level, sp, k);
    EntryFits(o, level, d, i);
    ExclusiveChild(o, refc, roots, x, level, d, i);
    ChildOutside(o, refc, free, npage, roots, held, x, s, level, d, i);
    assert Names(o, d, i, c) && Names(o, sp, k, sc);
    ExclusiveOnlyNamed(o, refc, roots, held, x, c, d, i);
  }

  /** Make sure that a lower destination table exists. */
  method Ensure(pm: PageMaps, level: nat, spmtab: Page, dpmtab: Page, dva: nat, n: nat, ghost s: set<Page>, ghost r: Range)
    requires pm.Valid() && 1 <= level <= 3 && n > 0 && IsTab(pm.obj, level, dpmtab) && dpmtab in pm.excl && dva < Span(level + 1)
    requires Anchored(pm.obj, pm.roots, s) && dpmtab !in s && IsTab(pm.obj, level, spmtab) && spmtab in s
    requires Privs(pm.obj, level, dpmtab, dva, dva + n, r) && Off(level, dva) + n <= Span(level)
    modifies pm`obj, pm`refc, pm`free, pm`npage, pm`held, pm`excl
    ensures pm.Valid() && pm.held == old(pm.held)
    ensures CopyLocal(old(pm.obj), old(pm.excl), pm.obj, pm.excl, pm.roots, level, dpmtab, s, dva, dva + n)
    ensures IsTab(pm.obj, level, dpmtab) && dpmtab in pm.excl && Anchored(pm.obj, pm.roots, s) && IsTab(pm.obj, level, spmtab)
    ensures Same(old(pm.obj), pm.obj, level, dpmtab) && Same(old(pm.obj), pm.obj, level, spmtab)
    ensures pm.obj[spmtab] == old(pm.obj)[spmtab]
    ensures PrivOutside(old(pm.obj), pm.obj, level, dpmtab, dva, dva)
    ensures Privs(pm.obj, level, dpmtab, dva, dva + n, r)
    ensures Idx(level, dva) < ENTRIES && pm.obj[dpmtab].es[Idx(level, dva)].page != ZERO
  {
    hide Wf, Exact, Exclusive, FreeOk, Anchored, Local, CopyLocal, PrivOutside, Privs, Same, LevelSame, KeptSame, HighExcl, LevelPriv, PeersTree, KeptOutside;
    ghost var o, x := pm.obj, pm.excl;
    IdxInside(level, dva);
    if pm.obj[dpmtab].es[Idx(level, dva)].page == ZERO {
      var _ := WalkLevel(pm, level, dpmtab, dva, s);
      WalkLocal(o, x, pm.obj, pm.excl, pm.roots, level, dpmtab, s, Idx(level, dva), dva, dva + n);
    } else {
      LocalRefl(o, x, pm.roots, level, dpmtab, s, dva, dva + n);
      SameRefl(o, level, dpmtab);
    }
    AfterRemove(o, x, pm.obj, pm.excl, pm.roots, level, spmtab, dpmtab, dva, dva + n, s);
    LocalTab(o, x, pm.obj, pm.excl, pm.roots, level, dpmtab, s, dva, dva + n);
    PrivsKept(o, pm.obj, level, dpmtab, dva, dva + n, r);
  }

  /** Second case of the loop, source present: copy below the destination's own lower table. */
  method CopyBelow(pm: PageMaps, level: nat, spmtab: Page, sva: nat, dpmtab: Page, dva: nat, n: nat, ghost s: set<Page>, ghost r: Range)
    requires pm.Valid() && 1 <= level <= 3 && IsTab(pm.obj, level, spmtab) && IsTab(pm.obj, level, dpmtab)
    requires dpmtab in pm.excl && Anchored(pm.obj, pm.roots, s) && spmtab in s && dpmtab !in s
    requires sva + n <= Span(level + 1) && dva + n <= Span(level + 1) && n > 0
    requires Off(level, sva) + n <= Span(level) && Off(level, dva) + n <= Span(level)
    requires Idx(level, sva) < ENTRIES && Idx(level, dva) < ENTRIES
    requires pm.obj[spmtab].es[Idx(level, sva)].page != ZERO && pm.obj[dpmtab].es[Idx(level, dva)].page != ZERO
    requires Privs(pm.obj, level, dpmtab, dva, dva + n, r) && !r.Whole(level, Idx(level, dva))
    requires Ranged(level - 1, Off(level, sva), Off(level, dva), n, r.Down(Base(level, Idx(level, dva))))
    modifies pm`obj, pm`refc, pm`free, pm`npage, pm`held, pm`excl
    ensures pm.Valid() && pm.held == old(pm.held)
    ensures CopyLocal(old(pm.obj), old(pm.excl), pm.obj, pm.excl, pm.roots, level, dpmtab, s, dva, dva + n)
    ensures Copied(old(pm.obj), pm.obj, level, spmtab, dpmtab, sva, dva, n)
    ensures PrivOutside(old(pm.obj), pm.obj, level, dpmtab, dva, dva + n)
    ensures Sealed(pm.obj, level, spmtab, sva, n)
    decreases level, 0
  {
    hide Wf, Exact, Exclusive, FreeOk, Anchored, Copied, CopyLocal, PrivOutside, Privs, Same, EntryMaps, PrivKept, Ranged, Below, Sealed;
    ghost var o, x, rc, f, np := pm.obj, pm.excl, pm.refc, pm.free, pm.npage;
    var k, i := Idx(level, sva), Idx(level, dva);
    var sc, c := pm.obj[spmtab].es[k].page, pm.obj[dpmtab].es[i].page;
    ChildPrivs(o, level, dpmtab, dva, n, r);
    SourceChild(o, rc, f, np, pm.roots, pm.held, x, level, spmtab, k, dpmtab, i, s);
    CopyLevel(pm, level - 1, sc, Off(level, sva), c, Off(level, dva), n, s + {sc}, r.Down(Base(level, i)));
    CopyLift(o, rc, f, np, pm.roots, pm.held, x, pm.obj, pm.excl, level, dpmtab, i, s + {sc}, s,
             Off(level, dva), Off(level, dva) + n);
    CopiedPart(o, pm.obj, level, spmtab, k, dpmtab, i, Off(level, sva), Off(level, dva), n);
    SourceNames(o, x, pm.obj, pm.excl, pm.roots, level, spmtab, k, dpmtab, s, dva, dva + n);
    SealedBelow(pm.obj, level, spmtab, sva, n);
    PrivPart(o, pm.obj, level, dpmtab, i, Off(level, dva), Off(level, dva) + n);
  }

  lemma SourceNames(o: Store, x: set<Page>, o': Store, x': set<Page>, roots: set<Page>, level: nat, sp: Page, k: nat, d: Page,
                    s: set<Page>, lo: int, hi: int)
    requires IsTab(o, level, sp) && sp in s && k < ENTRIES && CopyLocal(o, x, o', x', roots, level, d, s, lo, hi)
    ensures IsTab(o', level, sp) && o'[sp].es[k].page == o[sp].es[k].page
  {
    assert o'[sp].es[k].(w := false) == o[sp].es[k].(w := false);
  }

  /** Second case of the loop: part of an entry. */
  method CopyPart(pm: PageMaps, level: nat, spmtab: Page, sva: nat, dpmtab: Page, dva: nat, n: nat, ghost s: set<Page>, ghost r: Range)
    requires pm.Valid() && 1 <= level <= 3 && IsTab(pm.obj, level, spmtab) && IsTab(pm.obj, level, dpmtab)
    requires dpmtab in pm.excl && Anchored(pm.obj, pm.roots, s) && spmtab in s && dpmtab !in s
    requires sva + n <= Span(level + 1) && dva + n <= Span(level + 1) && n > 0
    requires Off(level, sva) + n <= Span(level) && Off(level, dva) + n <= Span(level)
    requires Privs(pm.obj, level, dpmtab, dva, dva + n, r) && !r.Whole(level, Idx(level, dva))
    requires Ranged(level - 1, Off(level, sva), Off(level, dva), n, r.Down(Base(level, Idx(level, dva))))
    modifies pm`obj, pm`refc, pm`free, pm`npage, pm`held, pm`excl
    ensures pm.Valid() && pm.held == old(pm.held)
    ensures CopyLocal(old(pm.obj), old(pm.excl), pm.obj, pm.excl, pm.roots, level, dpmtab, s, dva, dva + n)
    ensures Copied(old(pm.obj), pm.obj, level, spmtab, dpmtab, sva, dva, n)
    ensures PrivOutside(old(pm.obj), pm.obj, level, dpmtab, dva, dva + n)
    ensures Sealed(pm.obj, level, spmtab, sva, n)
    decreases level, 1
  {
    hide Wf, Exact, Exclusive, FreeOk, Anchored, Local, Removed, Copied, CopyLocal, PrivOutside, Privs, Same, Ranged, Sealed;
    ghost var o, x := pm.obj, pm.excl;
    IdxInside(level, sva);
    IdxInside(level, dva);
    if pm.obj[spmtab].es[Idx(level, sva)].page == ZERO {
      RemoveLevel(pm, level, dpmtab, dva, dva + n, s);
      AfterRemove(o, x, pm.obj, pm.excl, pm.roots, level, spmtab, dpmtab, dva, dva + n, s);
      CopiedRemoved(o, pm.obj, level, spmtab, dpmtab, sva, dva, n);
      SourceNames(o, x, pm.obj, pm.excl, pm.roots, level, spmtab, Idx(level, sva), dpmtab, s, dva, dva + n);
      EntryFits(pm.obj, level, spmtab, Idx(level, sva));
      SealedEntry(pm.obj, level, spmtab, sva, n);
      PrivOutsideMore(o, pm.obj, level, dpmtab, dva, dva + n);
    } else {
      Ensure(pm, level, spmtab, dpmtab, dva, n, s, r);
      ghost var o1, x1 := pm.obj, pm.excl;
      CopyBelow(pm, level, spmtab, sva, dpmtab, dva, n, s, r);
      CopiedAfterSame(o, o1, pm.obj, level, spmtab, dpmtab, sva, dva, n);
      CopyLocalTrans(o, x, o1, x1, pm.obj, pm.excl, pm.roots, level, dpmtab, s, dva, dva + n, dva, dva + n, dva, dva + n);
      PrivOutsideTrans(o, o1, pm.obj, level, dpmtab, dva, dva, dva + n);
    }
  }

  lemma PrivOutsideMore(o: Store, o': Store, level: nat, d: Page, lo: int, hi: int)
    requires PrivOutside(o, o', level, d, lo, lo)
    ensures PrivOutside(o, o', level, d, lo, hi)
  {
  }

  /** One turn of the loop of pmap_copy_level; returns how many pages it dealt with. */
  method CopyTurn(pm: PageMaps, level: nat, spmtab: Page, sva: nat, dpmtab: Page, dva: nat, n: nat, ghost s: set<Page>, ghost r: Range)
    returns (size: nat)
    requires pm.Valid() && level <= 3 && IsTab(pm.obj, level, spmtab) && IsTab(pm.obj, level, dpmtab)
    requires dpmtab in pm.excl && Anchored(pm.obj, pm.roots, s) && spmtab in s && dpmtab !in s
    requires sva + n <= Span(level + 1) && dva + n <= Span(level + 1) && n > 0
    requires Privs(pm.obj, level, dpmtab, dva, dva + n, r) && Ranged(level, sva, dva, n, r)
    modifies pm`obj, pm`refc, pm`free, pm`npage, pm`held, pm`excl
    ensures pm.Valid() && pm.held == old(pm.held) && 0 < size <= n && Ranged(level, sva + size, dva + size, n - size, r)
    ensures CopyLocal(old(pm.obj), old(pm.excl), pm.obj, pm.excl, pm.roots, level, dpmtab, s, dva, dva + size)
    ensures Copied(old(pm.obj), pm.obj, level, spmtab, dpmtab, sva, dva, size)
    ensures PrivOutside(old(pm.obj), pm.obj, level, dpmtab, dva, dva + size)
    ensures Sealed(pm.obj, level, spmtab, sva, size)
    decreases level, 2
  {
    hide Wf, Exact, Exclusive, FreeOk, Anchored, Copied, CopyLocal, PrivOutside, Privs, Ranged, Sealed;
    IdxInside(level, sva);
    IdxInside(level, dva);
    if Off(level, sva) == 0 && Off(level, dva) == 0 && n >= Span(level) {
      size := Span(level);
      TurnNext(level, sva, dva, n, r);
      ShareEntry(pm, level, spmtab, Idx(level, sva), dpmtab, Idx(level, dva), s);
    } else {
      assert level > 0;
      size := Span(level);
      if Off(level, sva) > Off(level, dva) {
        size := size - Off(level, sva);
      } else {
        size := size - Off(level, dva);
      }
      if size > n {
        size := n;
      }
      TurnPart(level, sva, dva, n, r);
      if r.Whole(level, Idx(level, dva)) { TurnWhole(level, sva, dva, n, r); }
      PrivsPart(pm.obj, level, dpmtab, dva, dva + size, dva + n, r);
      CopyPart(pm, level, spmtab, sva, dpmtab, dva, size, s, r);
    }
  }

  /** pmap_copy_level, for n pages: svahi == sva0 + n. */
  method CopyLevel(pm: PageMaps, level: nat, spmtab: Page, sva0: nat, dpmtab: Page, dva0: nat, n: nat, ghost s: set<Page>, ghost r: Range)
    requires pm.Valid() && level <= 3 && IsTab(pm.obj, level, spmtab) && IsTab(pm.obj, level, dpmtab)
    requires dpmtab in pm.excl && Anchored(pm.obj, pm.roots, s) && spmtab in s && dpmtab !in s
    requires sva0 + n <= Span(level + 1) && dva0 + n <= Span(level + 1)
    requires Privs(pm.obj, level, dpmtab, dva0, dva0 + n, r) && Ranged(level, sva0, dva0, n, r)
    modifies pm`obj, pm`refc, pm`free, pm`npage, pm`held, pm`excl
    ensures pm.Valid() && pm.held == old(pm.held)
    ensures CopyLocal(old(pm.obj), old(pm.excl), pm.obj, pm.excl, pm.roots, level, dpmtab, s, dva0, dva0 + n)
    ensures Copied(old(pm.obj), pm.obj, level, spmtab, dpmtab, sva0, dva0, n)
    ensures PrivOutside(old(pm.obj), pm.obj, level, dpmtab, dva0, dva0 + n)
    ensures Sealed(pm.obj, level, spmtab, sva0, n)
    decreases level, 3
  {
    hide Wf, Exact, Exclusive, FreeOk, Anchored, Copied, CopyLocal, PrivOutside, Privs, Ranged, Same, Sealed;
    ghost var o, x := pm.obj, pm.excl;
    CopyNothing(o, x, pm.roots, level, spmtab, dpmtab, sva0, dva0, s);
    var sva, dva := sva0, dva0;
    var svahi := sva0 + n;
    while sva < svahi
      invariant sva0 <= sva <= svahi && dva - dva0 == sva - sva0
      invariant pm.Valid() && pm.held == old(pm.held)
      invariant CopyLocal(o, x, pm.obj, pm.excl, pm.roots, level, dpmtab, s, dva0, dva)
      invariant Copied(o, pm.obj, level, spmtab, dpmtab, sva0, dva0, sva - sva0)
      invariant PrivOutside(o, pm.obj, level, dpmtab, dva0, dva) && Sealed(pm.obj, level, spmtab, sva0, sva - sva0)
      invariant Privs(pm.obj, level, dpmtab, dva, dva0 + n, r) && Ranged(level, sva, dva, svahi - sva, r)
    {
      ghost var o1, x1 := pm.obj, pm.excl;
      CopyLocalFacts(o, x, o1, x1, pm.roots, level, spmtab, dpmtab, s, dva0, dva);
      var size := CopyTurn(pm, level, spmtab, sva, dpmtab, dva, svahi - sva, s, r);
      CopyLocalFacts(o1, x1, pm.obj, pm.excl, pm.roots, level, spmtab, dpmtab, s, dva, dva + size);
      SealedOn(o1, pm.obj, level, spmtab, sva0, sva - sva0, size);
      CopiedTrans(o, o1, pm.obj, level, spmtab, dpmtab, sva0, dva0, sva - sva0, size);
      CopyLocalTrans(o, x, o1, x1, pm.obj, pm.excl, pm.roots, level, dpmtab, s, dva0, dva + size, dva0, dva, dva, dva + size);
      PrivOutsideTrans(o, o1, pm.obj, level, dpmtab, dva0, dva, dva + size);
      PrivsRest(o1, pm.obj, level, dpmtab, dva, dva + size, dva0 + n, r);
      dva := dva + size;
      sva := sva + size;
    }
  }

  lemma CopyNothing(o: Store, x: set<Page>, roots: set<Page>, level: nat, sp: Page, d: Page, sva: nat, dva: nat, s: set<Page>)
    requires Wf(o) && level <= 3 && IsTab(o, level, sp) && IsTab(o, level, d) && Anchored(o, roots, s)
    requires sva <= Span(level + 1) && dva <= Span(level + 1)
    ensures CopyLocal(o, x, o, x, roots, level, d, s, dva, dva) && Copied(o, o, level, sp, d, sva, dva, 0)
    ensures PrivOutside(o, o, level, d, dva, dva) && Sealed(o, level, sp, sva, 0)
  {
    LocalRefl(o, x, roots, level, d, s, dva, dva);
    LocalCopy(o, x, o, x, roots, level, d, s, dva, dva);
  }

  lemma CopyLocalFacts(o: Store, x: set<Page>, o1: Store, x1: set<Page>, roots: set<Page>, level: nat, sp: Page, d: Page,
                       s: set<Page>, lo: int, hi: int)
    requires Wf(o) && level <= 3 && IsTab(o, level, sp) && IsTab(o, level, d) && d in x && sp in s && d !in s
    requires CopyLocal(o, x, o1, x1, roots, level, d, s, lo, hi)
    ensures IsTab(o1, level, sp) && IsTab(o1, level, d) && d in x1 && Anchored(o1, roots, s) && Same(o, o1, level, sp)
  {
  }
}
