/** pmap_setperm: set the nominal permissions of a range of pages, at every level that the range covers
    (kern/pmap.c). */
module Permissions {
  import opened Paging
  import opened PageMem
  import opened Views
  import opened Private
  import opened Walk
  import opened Frames
  import opened Remove
  import opened Spaces
  import opened Faults

  /** What one entry becomes: no access without read permission; PTE_W is taken away but never added. */
  function WithPerm(e: Pte, read: bool, write: bool): Pte
  {
    e.(p := read, w := e.w && read && write, r := read, rw := read && write)
  }

  /** A page, and what zero pages become readable, takes the permissions and keeps its contents; taking all
      permissions from an address without a page does nothing. */
  predicate Permits(a: View, b: View, inside: bool, read: bool, write: bool)
  {
    if inside && (read || a.pte.page != ZERO) then b == View(WithPerm(a.pte, read, write), a.bytes) else b == a
  }

  /** Exactly the addresses lo <= x < hi below t got these permissions; nothing became writable for the processor, and
      without write permission nothing there is. */
  ghost predicate Permitted(o: Store, o': Store, level: nat, t: Page, lo: int, hi: int, read: bool, write: bool)
  {
    && NoGain(o, o', level, t)
    && (forall x :: 0 <= x < Span(level + 1) ==> Permits(At(o, level, t, x), At(o', level, t, x), lo <= x < hi, read, write))
    && (!(read && write) ==> forall x :: 0 <= x < Span(level + 1) && lo <= x < hi ==> !EffW(o', level, t, x))
  }

  lemma PermittedTrans(o: Store, o1: Store, o2: Store, level: nat, t: Page, lo: int, mid: int, hi: int, read: bool, write: bool)
    requires lo <= mid <= hi
    requires Permitted(o, o1, level, t, lo, mid, read, write) && Permitted(o1, o2, level, t, mid, hi, read, write)
    ensures Permitted(o, o2, level, t, lo, hi, read, write)
  {
    forall x | 0 <= x < Span(level + 1)
      ensures Permits(At(o, level, t, x), At(o2, level, t, x), lo <= x < hi, read, write)
    {
      assert Permits(At(o, level, t, x), At(o1, level, t, x), lo <= x < mid, read, write);
      assert Permits(At(o1, level, t, x), At(o2, level, t, x), mid <= x < hi, read, write);
    }
  }

  lemma PermittedAfterSame(o: Store, o1: Store, o2: Store, level: nat, t: Page, lo: int, hi: int, read: bool, write: bool)
    requires Same(o, o1, level, t) && Permitted(o1, o2, level, t, lo, hi, read, write) && lo <= hi
    ensures Permitted(o, o2, level, t, lo, hi, read, write)
  {
    PermittedTrans(o, o1, o2, level, t, lo, lo, hi, read, write);
  }

  /** The permissions within one entry are those of the corresponding stretch of the table. */
  lemma PermittedEntry(o: Store, o': Store, level: nat, t: Page, i: nat, c: Page, lo: int, hi: int, read: bool, write: bool)
    requires Wf(o) && Wf(o') && 1 <= level <= 3 && IsTab(o, level, t) && t in o' && o'[t] == o[t] && i < ENTRIES
    requires 0 <= lo <= hi <= Span(level) && o[t].es[i].page == c && c != ZERO
    requires forall j :: 0 <= j < ENTRIES && j != i ==> EntryMaps(o, o[t].es[j], o', o'[t].es[j], level - 1)
    requires Permitted(o, o', level - 1, c, lo, hi, read, write)
    ensures Permitted(o, o', level, t, Base(level, i) + lo, Base(level, i) + hi, read, write)
  {
    hide Permits;
    forall x | 0 <= x < Span(level + 1)
      ensures Permits(At(o, level, t, x), At(o', level, t, x), Base(level, i) + lo <= x < Base(level, i) + hi, read, write)
      ensures EffW(o', level, t, x) ==> EffW(o, level, t, x)
      ensures !(read && write) && Base(level, i) + lo <= x < Base(level, i) + hi ==> !EffW(o', level, t, x)
    {
      PermittedEntryAt(o, o', level, t, i, c, lo, hi, read, write, x);
    }
  }

  lemma PermittedEntryAt(o: Store, o': Store, level: nat, t: Page, i: nat, c: Page, lo: int, hi: int, read: bool, write: bool, x: nat)
    requires Wf(o) && Wf(o') && 1 <= level <= 3 && IsTab(o, level, t) && t in o' && o'[t] == o[t] && i < ENTRIES
    requires 0 <= lo <= hi <= Span(level) && o[t].es[i].page == c && c != ZERO && x < Span(level + 1)
    requires forall j :: 0 <= j < ENTRIES && j != i ==> EntryMaps(o, o[t].es[j], o', o'[t].es[j], level - 1)
    requires Permitted(o, o', level - 1, c, lo, hi, read, write)
    ensures Permits(At(o, level, t, x), At(o', level, t, x), Base(level, i) + lo <= x < Base(level, i) + hi, read, write)
    ensures EffW(o', level, t, x) ==> EffW(o, level, t, x)
    ensures !(read && write) && Base(level, i) + lo <= x < Base(level, i) + hi ==> !EffW(o', level, t, x)
  {
    IdxInside(level, x);
    var j, y := Idx(level, x), Off(level, x);
    BaseOrder(level, i, j);
    BaseOrder(level, j, i);
    AtEntry(o, level, t, j, y);
    AtEntry(o', level, t, j, y);
    if j != i {
      assert EntryMaps(o, o[t].es[j], o', o'[t].es[j], level - 1);
      assert AtIn(o', level - 1, o'[t].es[j].page, y) == AtIn(o, level - 1, o[t].es[j].page, y);
      assert o'[t].es[j].w && WIn(o', level - 1, o'[t].es[j].page, y) ==> o[t].es[j].w && WIn(o, level - 1, o[t].es[j].page, y);
    } else {
      assert Permits(At(o, level - 1, c, y), At(o', level - 1, c, y), lo <= y < hi, read, write);
    }
  }

  /** No such page, and no permission to give: its whole stretch has none already. */
  lemma SkipPermitted(o: Store, level: nat, t: Page, i: nat, lo: int, hi: int, write: bool)
    requires Wf(o) && level <= 3 && IsTab(o, level, t) && i < ENTRIES && o[t].es[i].page == ZERO
    requires Base(level, i) <= lo <= hi <= Base(level, i) + Span(level)
    ensures Permitted(o, o, level, t, lo, hi, false, write)
  {
    forall x | 0 <= x < Span(level + 1) && lo <= x < hi
      ensures At(o, level, t, x).pte.page == ZERO && !EffW(o, level, t, x)
    {
      IdxInside(level, x);
      Decompose(level, x, i, x - Base(level, i));
      assert EntryOk(o, level, Entry(o, level, t, i));
    }
  }

  /** *pmte = (*pmte & pteand) | pteor, in a page table. */
  lemma LeafPermitted(o: Store, t: Page, i: nat, read: bool, write: bool)
    requires Wf(o) && IsTab(o, 0, t) && i < ENTRIES && (read || o[t].es[i].page != ZERO)
    ensures EntryOk(o, 0, WithPerm(o[t].es[i], read, write)) && Wf(SetIn(o, t, i, WithPerm(o[t].es[i], read, write)))
    ensures Permitted(o, SetIn(o, t, i, WithPerm(o[t].es[i], read, write)), 0, t, i, i + 1, read, write)
  {
    var e := Entry(o, 0, t, i);
    var o' := SetIn(o, t, i, WithPerm(e, read, write));
    WfSet(o, t, i, WithPerm(e, read, write));
    forall x | 0 <= x < Span(1)
      ensures Permits(At(o, 0, t, x), At(o', 0, t, x), i <= x < i + 1, read, write)
    {
      IdxInside(0, x);
      assert Entry(o', 0, t, x) == if x == i then WithPerm(e, read, write) else Entry(o, 0, t, x);
    }
  }

  /** Setting an entry of a page table is local to it. */
  lemma LeafLocal(o: Store, x: set<Page>, roots: set<Page>, t: Page, s: set<Page>, i: nat, e: Pte)
    requires Wf(o) && IsTab(o, 0, t) && i < ENTRIES && Wf(SetIn(o, t, i, e)) && Anchored(o, roots, s) && t !in s
    requires ZERO !in o
    ensures Local(o, x, SetIn(o, t, i, e), x, roots, 0, t, s, i, i + 1)
  {
    var o' := SetIn(o, t, i, e);
    SetConfined(o, 0, t, i, e);
    AnchoredSet(o, roots, s, t, i, e);
    AnchoredIn(o, roots, s);
    LeafPriv(o, x, t, i, e);
    EntryOutside(o, o', 0, t, i, i, i + 1);
  }

  lemma LeafPriv(o: Store, x: set<Page>, t: Page, i: nat, e: Pte)
    requires Wf(o) && IsTab(o, 0, t) && i < ENTRIES && Wf(SetIn(o, t, i, e))
    ensures PeersTree(o, x, SetIn(o, t, i, e), 0, t) && PrivKept(o, SetIn(o, t, i, e), 0, t)
    ensures forall j :: 0 <= j < ENTRIES && j != i ==> EntryKept(o, SetIn(o, t, i, e), 0, t, j)
  {
  }

  method SetLeafPerm(pm: PageMaps, pmtab: Page, i: nat, read: bool, write: bool, ghost s: set<Page>)
    requires pm.Valid() && IsTab(pm.obj, 0, pmtab) && i < ENTRIES && (read || pm.obj[pmtab].es[i].page != ZERO)
    requires Anchored(pm.obj, pm.roots, s) && pmtab !in s && pmtab in pm.excl
    modifies pm`obj, pm`held
    ensures pm.Valid() && pm.held == old(pm.held)
    ensures Local(old(pm.obj), old(pm.excl), pm.obj, pm.excl, pm.roots, 0, pmtab, s, i, i + 1)
    ensures Permitted(old(pm.obj), pm.obj, 0, pmtab, i, i + 1, read, write)
  {
    hide Wf, Exact, Exclusive, FreeOk, Anchored, Local, Permitted, NonZero, EntryOk;
    ghost var o, x := pm.obj, pm.excl;
    InvFacts(pm.obj, pm.refc, pm.free, pm.npage, pm.roots, pm.held, pm.excl);
    LeafPermitted(o, pmtab, i, read, write);
    var e := WithPerm(pm.obj[pmtab].es[i], read, write);
    SameReference(pm.held, e.page);
    if pm.obj[pmtab].es[i].w { ExclusiveChild(pm.obj, pm.refc, pm.roots, pm.excl, 0, pmtab, i); }
    pm.SetEntry(pmtab, i, e);
    LeafLocal(o, x, pm.roots, pmtab, s, i, e);
  }

  lemma SameReference(held: multiset<Page>, p: Page)
    ensures NonZero(p) <= held + NonZero(p) && held + NonZero(p) - NonZero(p) == held
  {
  }

  /** An entry of a higher table: make it private, then go on below it. */
  method SetPermBelow(pm: PageMaps, level: nat, pmtab: Page, va: nat, lvahi: nat, read: bool, write: bool, ghost s: set<Page>)
    requires pm.Valid() && 1 <= level <= 3 && IsTab(pm.obj, level, pmtab) && pmtab in pm.excl
    requires va < lvahi && lvahi <= Base(level, Idx(level, va)) + Span(level) && va < Span(level + 1)
    requires Anchored(pm.obj, pm.roots, s) && pmtab !in s
    modifies pm`obj, pm`refc, pm`free, pm`npage, pm`held, pm`excl
    ensures pm.Valid() && pm.held == old(pm.held)
    ensures Local(old(pm.obj), old(pm.excl), pm.obj, pm.excl, pm.roots, level, pmtab, s, va, lvahi)
    ensures Permitted(old(pm.obj), pm.obj, level, pmtab, va, lvahi, read, write)
    decreases level, 0
  {
    hide Wf, Exact, Exclusive, FreeOk, Anchored, LevelPriv, PeersTree, PrivKept, HighExcl, KeptSame, Local, Permitted, LevelSame;
    ghost var o, x := pm.obj, pm.excl;
    IdxInside(level, va);
    var i := Idx(level, va);
    var _ := WalkLevel(pm, level, pmtab, va, s);
    ghost var o1, x1, r1, f1, n1 := pm.obj, pm.excl, pm.refc, pm.free, pm.npage;
    WalkLocal(o, x, o1, x1, pm.roots, level, pmtab, s, i, va, lvahi);
    LocalTab(o, x, o1, x1, pm.roots, level, pmtab, s, va, lvahi);
    var c := pm.obj[pmtab].es[i].page;
    EntryFits(o1, level, pmtab, i);
    ExclusiveChild(o1, r1, pm.roots, x1, level, pmtab, i);
    ChildOutside(o1, r1, f1, n1, pm.roots, pm.held, x1, s, level, pmtab, i);
    var l := Base(level, i);
    SetPermLevel(pm, level - 1, c, va - l, lvahi - l, read, write, s);
    LiftLocal(o1, r1, f1, n1, pm.roots, pm.held, x1, pm.obj, pm.excl, level, pmtab, i, s, va - l, lvahi - l);
    PermittedEntry(o1, pm.obj, level, pmtab, i, c, va - l, lvahi - l, read, write);
    PermittedAfterSame(o, o1, pm.obj, level, pmtab, va, lvahi, read, write);
    LocalTrans(o, x, o1, x1, pm.obj, pm.excl, pm.roots, level, pmtab, s, va, lvahi, va, lvahi, va, lvahi);
  }

  /** One turn of the loop, at the entry for va; returns the address to go on with. */
  method SetPermTurn(pm: PageMaps, level: nat, pmtab: Page, va: nat, vahi: nat, read: bool, write: bool, ghost s: set<Page>)
    returns (va': nat)
    requires pm.Valid() && level <= 3 && IsTab(pm.obj, level, pmtab) && pmtab in pm.excl
    requires va < vahi <= Span(level + 1)
    requires Anchored(pm.obj, pm.roots, s) && pmtab !in s
    modifies pm`obj, pm`refc, pm`free, pm`npage, pm`held, pm`excl
    ensures pm.Valid() && pm.held == old(pm.held)
    ensures Local(old(pm.obj), old(pm.excl), pm.obj, pm.excl, pm.roots, level, pmtab, s, va, if va' < vahi then va' else vahi)
    ensures va < va' && Permitted(old(pm.obj), pm.obj, level, pmtab, va, if va' < vahi then va' else vahi, read, write)
    decreases level, 1
  {
    hide Wf, Exact, Exclusive, FreeOk, Anchored, Local, Permitted;
    ghost var o, x := pm.obj, pm.excl;
    IdxInside(level, va);
    var i := Idx(level, va);
    BaseOrder(level, i, i + 1);
    if pm.obj[pmtab].es[i].page == ZERO && !read {
      va' := va - Off(level, va) + Span(level);
      SkipPermitted(o, level, pmtab, i, va, if va' < vahi then va' else vahi, write);
      LocalRefl(o, x, pm.roots, level, pmtab, s, va, if va' < vahi then va' else vahi);
    } else if level == 0 {
      SetLeafPerm(pm, pmtab, i, read, write, s);
      va' := va + 1;
    } else {
      va' := va - Off(level, va) + Span(level);
      if va' > vahi { va' := vahi; }
      SetPermBelow(pm, level, pmtab, va, va', read, write, s);
    }
  }

  /** pmap_setperm_level */
  method SetPermLevel(pm: PageMaps, level: nat, pmtab: Page, va0: nat, vahi: nat, read: bool, write: bool, ghost s: set<Page>)
    requires pm.Valid() && level <= 3 && IsTab(pm.obj, level, pmtab) && pmtab in pm.excl
    requires va0 <= vahi <= Span(level + 1)
    requires Anchored(pm.obj, pm.roots, s) && pmtab !in s
    modifies pm`obj, pm`refc, pm`free, pm`npage, pm`held, pm`excl
    ensures pm.Valid() && pm.held == old(pm.held)
    ensures Local(old(pm.obj), old(pm.excl), pm.obj, pm.excl, pm.roots, level, pmtab, s, va0, vahi)
    ensures Permitted(old(pm.obj), pm.obj, level, pmtab, va0, vahi, read, write)
    decreases level, 2
  {
    hide Wf, Exact, Exclusive, FreeOk, Anchored, Local, Permitted;
    ghost var o, x := pm.obj, pm.excl;
    PermittedNothing(o, level, pmtab, va0, read, write);
    LocalRefl(o, x, pm.roots, level, pmtab, s, va0, vahi);
    var va := va0;
    while va < vahi
      invariant va0 <= va
      invariant pm.Valid() && pm.held == old(pm.held) && Local(o, x, pm.obj, pm.excl, pm.roots, level, pmtab, s, va0, vahi)
      invariant Permitted(o, pm.obj, level, pmtab, va0, if va < vahi then va else vahi, read, write)
      invariant IsTab(pm.obj, level, pmtab)
      decreases vahi - va
    {
      ghost var o1, x1, va1 := pm.obj, pm.excl, va;
      LocalTab(o, x, o1, x1, pm.roots, level, pmtab, s, va0, vahi);
      va := SetPermTurn(pm, level, pmtab, va, vahi, read, write, s);
      ghost var end := if va < vahi then va else vahi;
      PermittedTrans(o, o1, pm.obj, level, pmtab, va0, va1, end, read, write);
      LocalTrans(o, x, o1, x1, pm.obj, pm.excl, pm.roots, level, pmtab, s, va0, vahi, va0, vahi, va1, end);
      LocalTab(o1, x1, pm.obj, pm.excl, pm.roots, level, pmtab, s, va1, end);
    }
  }

  lemma PermittedNothing(o: Store, level: nat, t: Page, lo: int, read: bool, write: bool)
    requires Wf(o) && level <= 3 && IsTab(o, level, t)
    ensures Permitted(o, o, level, t, lo, lo, read, write)
  {
  }

  /** pmap_setperm */
  method PmapSetperm(pm: PageMaps, root: Page, va: nat, size: nat, read: bool, write: bool)
    requires pm.Valid() && root in pm.roots
    requires USERLO <= va < USERHI && size <= USERHI - va
    modifies pm`obj, pm`refc, pm`free, pm`npage, pm`held, pm`excl
    ensures pm.Valid() && pm.held == old(pm.held)
    ensures Permitted(old(pm.obj), pm.obj, 3, root, va, va + size, read, write)
    ensures OthersSame(old(pm.obj), pm.obj, pm.roots, root)
  {
    hide Wf, Exact, Exclusive, FreeOk, Anchored, Permitted, OthersSame, Local;
    ghost var o, x := pm.obj, pm.excl;
    RootFacts(o, pm.refc, pm.free, pm.npage, pm.roots, pm.held, x, root);
    SetPermLevel(pm, 3, root, va, va + size, read, write, pm.roots - {root});
    LocalTab(o, x, pm.obj, pm.excl, pm.roots, 3, root, pm.roots - {root}, va, va + size);
    OthersOf(o, pm.obj, pm.roots, root);
  }

  /* ---------- what a program may do afterwards ---------- */

  /** The entry names the zero page and allows everything: fresh memory that nobody has written yet. */
  predicate Untouched(v: View) { v.pte.page == ZERO && Writable(v) }

  /** Exactly which addresses of the range can be written afterwards: all if both permissions were given; if none were, the fresh
      memory that the loop jumps over, which keeps its permissions; otherwise none. */
  lemma AfterPermitted(o: Store, o': Store, root: Page, va: nat, size: nat, read: bool, write: bool, x: nat)
    requires Permitted(o, o', 3, root, va, va + size, read, write) && va <= x < va + size && x < Span(4)
    ensures Writable(At(o', 3, root, x)) <==> (read && write) || (!read && Untouched(At(o, 3, root, x)))
    ensures !(read && write) ==> !EffW(o', 3, root, x)
  {
    assert Permits(At(o, 3, root, x), At(o', 3, root, x), va <= x < va + size, read, write);
  }

  /** A store in the range after pmap_setperm succeeds in exactly these cases; so taking the write permission away is final, except
      for fresh memory from which all permissions were taken. */
  method StoreAfterSetperm(pm: PageMaps, root: Page, va: nat, size: nat, read: bool, write: bool, x: nat, off: nat, b: Byte) returns (ok: bool)
    requires pm.Valid() && root in pm.roots && off < PAGESIZE
    requires USERLO <= va < USERHI && size <= USERHI - va && va <= x < va + size
    modifies pm`obj, pm`refc, pm`free, pm`npage, pm`held, pm`excl
    ensures pm.Valid() && Wf(old(pm.obj)) && IsTab(old(pm.obj), 3, root)
    ensures ok <==> (read && write) || (!read && Untouched(At(old(pm.obj), 3, root, x)))
  {
    hide Wf, Exact, Exclusive, FreeOk, Permitted, OthersSame, Stored, Same, At, Writable;
    ghost var o := pm.obj;
    RootTabs(o, pm.refc, pm.free, pm.npage, pm.roots, pm.held, pm.excl);
    PmapSetperm(pm, root, va, size, read, write);
    AfterPermitted(o, pm.obj, root, va, size, read, write, x);
    ok := UserStore(pm, root, x, off, b);
  }

  /** A run that shows it: memory is given to a program and, before it is touched, taken away again.  The store still succeeds. */
  method TakenTooLate(pm: PageMaps, root: Page, va: nat, off: nat, b: Byte) returns (ok: bool)
    requires pm.Valid() && root in pm.roots && USERLO <= va < USERHI && off < PAGESIZE
    requires Wf(pm.obj) && IsTab(pm.obj, 3, root) && At(pm.obj, 3, root, va) == Absent()
    modifies pm`obj, pm`refc, pm`free, pm`npage, pm`held, pm`excl
    ensures pm.Valid() && ok
  {
    hide Wf, Exact, Exclusive, FreeOk, Permitted, OthersSame, At, Zeros;
    ghost var o := pm.obj;
    PmapSetperm(pm, root, va, 1, true, true);
    GivenPage(o, pm.obj, root, va);
    ok := StoreAfterSetperm(pm, root, va, 1, false, false, va, off, b);
  }

  lemma GivenPage(o: Store, o': Store, root: Page, va: nat)
    requires Permitted(o, o', 3, root, va, va + 1, true, true) && va < Span(4) && At(o, 3, root, va) == Absent()
    ensures Untouched(At(o', 3, root, va))
  {
    hide Zeros;
    assert Permits(At(o, 3, root, va), At(o', 3, root, va), va <= va < va + 1, true, true);
  }
}
