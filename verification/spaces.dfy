/** Address spaces: the kernel's operations on page-map roots, and what a user's write can be seen through (kern/pmap.c). */
module Spaces {
  import opened Paging
  import opened PageMem
  import opened Views
  import opened Private
  import opened Walk
  import opened Frames
  import opened Remove
  import opened Copy
  import opened PageCopy

  const USERLO: nat := 262144       // VM_USERLO / PAGESIZE
  const USERHI: nat := 34359738368  // VM_USERHI / PAGESIZE

  /** Every other address space is what it was, with no more write permission. */
  ghost predicate OthersSame(o: Store, o': Store, roots: set<Page>, root: Page)
  {
    forall u :: u in roots && u != root ==> Same(o, o', 3, u)
  }

  lemma RootFacts(o: Store, refc: map<Page, int>, free: seq<Page>, npage: Page, roots: set<Page>, held: multiset<Page>,
                  x: set<Page>, root: Page)
    requires Inv(o, refc, free, npage, roots, held, x) && root in roots
    ensures Wf(o) && IsTab(o, 3, root) && root in x && Anchored(o, roots, roots - {root})
    ensures forall u :: u in roots ==> IsTab(o, 3, u)
  {
  }

  lemma OthersOf(o: Store, o': Store, roots: set<Page>, root: Page)
    requires PeersSame(o, o', 3, root) && forall u :: u in roots ==> IsTab(o, 3, u)
    ensures OthersSame(o, o', roots, root)
  {
  }

  /** On the way to an effectively writable address every page has exactly one reference, and so has the data page. */
  ghost predicate SinglePath(o: Store, refc: map<Page, int>, level: nat, t: Page, x: nat)
    requires Wf(o) && IsTab(o, level, t) && level <= 3 && x < Span(level + 1)
    decreases level
  {
    t in refc && refc[t] == 1 &&
    (IdxInside(level, x);
     var q := Entry(o, level, t, Idx(level, x)).page;
     q != ZERO && q in refc && refc[q] == 1 && (level > 0 ==> SinglePath(o, refc, level - 1, q, Off(level, x))))
  }

  lemma {:induction false} Unshared(o: Store, refc: map<Page, int>, roots: set<Page>, x: set<Page>, level: nat, t: Page, va: nat)
    requires Wf(o) && Exclusive(o, refc, roots, x) && level <= 3 && IsTab(o, level, t) && t in x
    requires va < Span(level + 1) && EffW(o, level, t, va)
    ensures SinglePath(o, refc, level, t, va) && At(o, level, t, va).pte.page in x
    decreases level
  {
    IdxInside(level, va);
    var i := Idx(level, va);
    EntryFits(o, level, t, i);
    ExclusiveChild(o, refc, roots, x, level, t, i);
    if level > 0 {
      Unshared(o, refc, roots, x, level - 1, o[t].es[i].page, Off(level, va));
    }
  }

  /** No other address, of this or any other table of the level, shows a page that is effectively writable. */
  lemma {:induction false} SoleReader(o: Store, refc: map<Page, int>, free: seq<Page>, npage: Page, roots: set<Page>,
                                      held: multiset<Page>, x: set<Page>, level: nat, t: Page, va: nat, u: Page, vb: nat)
    requires Inv(o, refc, free, npage, roots, held, x) && level <= 3 && IsTab(o, level, t) && t in x && IsTab(o, level, u)
    requires va < Span(level + 1) && vb < Span(level + 1) && EffW(o, level, t, va)
    requires At(o, level, u, vb).pte.page == At(o, level, t, va).pte.page
    ensures u == t && vb == va
    decreases level
  {
    IdxInside(level, va);
    IdxInside(level, vb);
    var i, j := Idx(level, va), Idx(level, vb);
    EntryFits(o, level, t, i);
    EntryFits(o, level, u, j);
    ExclusiveChild(o, refc, roots, x, level, t, i);
    EffWPage(o, level, t, va);
    if level > 0 {
      SoleReader(o, refc, free, npage, roots, held, x, level - 1, o[t].es[i].page, Off(level, va), o[u].es[j].page, Off(level, vb));
    }
    assert Names(o, t, i, o[t].es[i].page) && Names(o, u, j, o[t].es[i].page);
    ExclusiveOnlyNamed(o, refc, roots, held, x, o[t].es[i].page, t, i);
  }

  /* ---------- a user's write ---------- */

  lemma {:induction false} PokedAt(o: Store, q: Page, b: seq<Byte>, level: nat, t: Page, x: nat)
    requires Wf(o) && level <= 3 && IsTab(o, level, t) && x < Span(level + 1)
    requires q in o && o[q].Data? && |b| == PAGESIZE && Wf(o[q := Data(b)])
    ensures var o' := o[q := Data(b)];
      && IsTab(o', level, t) && (EffW(o', level, t, x) <==> EffW(o, level, t, x))
      && At(o', level, t, x) == var v := At(o, level, t, x); if v.pte.page == q then v.(bytes := b) else v
    decreases level
  {
    IdxInside(level, x);
    EntryFits(o, level, t, Idx(level, x));
    if level > 0 && o[t].es[Idx(level, x)].page != ZERO {
      PokedAt(o, q, b, level - 1, o[t].es[Idx(level, x)].page, Off(level, x));
    }
  }

  lemma InvPoke(o: Store, refc: map<Page, int>, free: seq<Page>, npage: Page, roots: set<Page>, held: multiset<Page>,
                x: set<Page>, q: Page, b: seq<Byte>)
    requires Inv(o, refc, free, npage, roots, held, x) && q in o && o[q].Data? && |b| == PAGESIZE
    ensures Inv(o[q := Data(b)], refc, free, npage, roots, held, x)
  {
    hide Wf, Exact, FreeOk, Exclusive;
    PokeWf(o, q, b);
    PokeExact(o, refc, roots, held, q, b);
    PokeFree(o, refc, free, npage, q, b);
    PokeExclusive(o, refc, roots, x, q, b);
  }

  lemma PokeWf(o: Store, q: Page, b: seq<Byte>)
    requires Wf(o) && q in o && o[q].Data? && |b| == PAGESIZE
    ensures Wf(o[q := Data(b)])
  {
    var o' := o[q := Data(b)];
    forall t | t in o' ensures ObjOk(o', t) { assert ObjOk(o, t); }
  }

  lemma PokeExact(o: Store, refc: map<Page, int>, roots: set<Page>, held: multiset<Page>, q: Page, b: seq<Byte>)
    requires Exact(o, refc, roots, held) && q in o && o[q].Data?
    ensures Exact(o[q := Data(b)], refc, roots, held)
  {
    hide Slots;
    var o' := o[q := Data(b)];
    forall p | p in o' ensures Counted(o', refc, roots, held, p) {
      assert Counted(o, refc, roots, held, p);
      forall u: Page, j: nat ensures Names(o, u, j, p) <==> Names(o', u, j, p) { }
      SlotsSame(o, o', p);
    }
  }

  lemma PokeExclusive(o: Store, refc: map<Page, int>, roots: set<Page>, x: set<Page>, q: Page, b: seq<Byte>)
    requires Exclusive(o, refc, roots, x) && q in o && o[q].Data?
    ensures Exclusive(o[q := Data(b)], refc, roots, x)
  {
    var o' := o[q := Data(b)];
    forall t: Page, i: nat | t in x && i < Len(o', t) && o'[t].es[i].w ensures o'[t].es[i].page in x {
      assert i < Len(o, t);
    }
  }

  lemma PokeFree(o: Store, refc: map<Page, int>, free: seq<Page>, npage: Page, q: Page, b: seq<Byte>)
    requires FreeOk(o, refc, free, npage) && q in o
    ensures FreeOk(o[q := Data(b)], refc, free, npage)
  {
  }

  /** From o to o' byte off of address va of root became b; no address space shows any other difference. */
  ghost predicate Written(o: Store, o': Store, roots: set<Page>, root: Page, va: nat, off: nat, b: Byte)
    requires off < PAGESIZE
  {
    Wf(o) && Wf(o') && forall u :: u in roots ==>
      && IsTab(o, 3, u) && IsTab(o', 3, u)
      && (forall x :: 0 <= x < Span(4) ==> (EffW(o', 3, u, x) <==> EffW(o, 3, u, x)))
      && (forall x :: 0 <= x < Span(4) ==>
            At(o', 3, u, x) == var v := At(o, 3, u, x); if u == root && x == va then v.(bytes := v.bytes[off := b]) else v)
  }

  lemma WrittenTo(o: Store, refc: map<Page, int>, free: seq<Page>, npage: Page, roots: set<Page>, held: multiset<Page>,
                  x: set<Page>, root: Page, va: nat, off: nat, b: Byte, q: Page)
    requires Inv(o, refc, free, npage, roots, held, x) && root in roots && IsTab(o, 3, root) && va < Span(4) && off < PAGESIZE
    requires EffW(o, 3, root, va) && q == At(o, 3, root, va).pte.page
    ensures q in o && o[q].Data? && |o[q].bytes| == PAGESIZE
    ensures Inv(o[q := Data(o[q].bytes[off := b])], refc, free, npage, roots, held, x)
    ensures Written(o, o[q := Data(o[q].bytes[off := b])], roots, root, va, off, b)
  {
    hide FreeOk, Exact, Exclusive, Wf;
    EffWPage(o, 3, root, va);
    DataPage(o, q);
    var bytes := At(o, 3, root, va).bytes;
    InvPoke(o, refc, free, npage, roots, held, x, q, bytes[off := b]);
    var o' := o[q := Data(bytes[off := b])];
    RootFacts(o, refc, free, npage, roots, held, x, root);
    forall u, y | u in roots && 0 <= y < Span(4)
      ensures IsTab(o', 3, u) && (EffW(o', 3, u, y) <==> EffW(o, 3, u, y))
      ensures At(o', 3, u, y) == var v := At(o, 3, u, y); if u == root && y == va then v.(bytes := v.bytes[off := b]) else v
    {
      PokedAt(o, q, bytes[off := b], 3, u, y);
      if At(o, 3, u, y).pte.page == q {
        SoleReader(o, refc, free, npage, roots, held, x, 3, root, va, u, y);
      }
    }
  }

  /** A store instruction at a writable address: nobody else sees it, and nothing else changes. */
  method UserWrite(pm: PageMaps, root: Page, va: nat, off: nat, b: Byte)
    requires pm.Valid() && root in pm.roots && va < Span(4) && off < PAGESIZE
    requires Wf(pm.obj) && IsTab(pm.obj, 3, root) && EffW(pm.obj, 3, root, va)
    modifies pm`obj
    ensures pm.Valid() && Written(old(pm.obj), pm.obj, pm.roots, root, va, off, b)
  {
    hide FreeOk, Exact, Exclusive, Wf, Written;
    var q := At(pm.obj, 3, root, va).pte.page;
    WrittenTo(pm.obj, pm.refc, pm.free, pm.npage, pm.roots, pm.held, pm.excl, root, va, off, b, q);
    pm.obj := pm.obj[q := Data(pm.obj[q].bytes[off := b])];
  }

  lemma DataPage(o: Store, q: Page)
    requires Wf(o) && Fits(o, 0, q) && q != ZERO
    ensures q in o && o[q].Data? && |o[q].bytes| == PAGESIZE && Leaf(o, CLEAR.(page := q)).bytes == o[q].bytes
    ensures forall e: Pte :: e.page == q ==> Leaf(o, e).bytes == o[q].bytes
  {
    assert ObjOk(o, q);
  }

  /* ---------- remove, copy ---------- */

  /** pmap_remove */
  method PmapRemove(pm: PageMaps, root: Page, va: nat, size: nat)
    requires pm.Valid() && root in pm.roots
    requires USERLO <= va < USERHI && size <= USERHI - va
    modifies pm`obj, pm`refc, pm`free, pm`npage, pm`held, pm`excl
    ensures pm.Valid() && pm.held == old(pm.held)
    ensures Removed(old(pm.obj), pm.obj, 3, root, va, va + size)
    ensures OthersSame(old(pm.obj), pm.obj, pm.roots, root)
  {
    hide Wf, Exact, Exclusive, FreeOk, Anchored, Removed, OthersSame, Local;
    ghost var o, x := pm.obj, pm.excl;
    RootFacts(o, pm.refc, pm.free, pm.npage, pm.roots, pm.held, x, root);
    RemoveLevel(pm, 3, root, va, va + size, pm.roots - {root});
    LocalTab(o, x, pm.obj, pm.excl, pm.roots, 3, root, pm.roots - {root}, va, va + size);
    OthersOf(o, pm.obj, pm.roots, root);
  }

  /** pmap_copy between two address spaces. */
  method PmapCopy(pm: PageMaps, sroot: Page, sva: nat, droot: Page, dva: nat, size: nat, ghost a: nat)
    requires pm.Valid() && sroot in pm.roots && droot in pm.roots && sroot != droot
    requires USERLO <= sva < USERHI && USERLO <= dva < USERHI && size <= USERHI - sva && size <= USERHI - dva
    requires a <= 3 && Multiple(a, sva - dva)
    requires Privs(pm.obj, 3, droot, dva, dva + size, Range(dva, dva + size, a))
    modifies pm`obj, pm`refc, pm`free, pm`npage, pm`held, pm`excl
    ensures pm.Valid() && pm.held == old(pm.held)
    ensures Copied(old(pm.obj), pm.obj, 3, sroot, droot, sva, dva, size) && Sealed(pm.obj, 3, sroot, sva, size)
    ensures OthersSame(old(pm.obj), pm.obj, pm.roots, droot)
  {
    hide Sealed, Wf, Exact, Exclusive, FreeOk, Anchored, Copied, OthersSame, CopyLocal, Privs, Multiple;
    ghost var o, x := pm.obj, pm.excl;
    RootFacts(o, pm.refc, pm.free, pm.npage, pm.roots, pm.held, x, droot);
    CopyLevel(pm, 3, sroot, sva, droot, dva, size, pm.roots - {droot}, Range(dva, dva + size, a));
    CopyPeers(o, x, pm.obj, pm.excl, pm.roots, droot, pm.roots - {droot}, dva, dva + size);
    OthersOf(o, pm.obj, pm.roots, droot);
  }

  lemma CopyPeers(o: Store, x: set<Page>, o2: Store, x2: set<Page>, roots: set<Page>, d: Page, s: set<Page>,
                  lo: int, hi: int)
    requires CopyLocal(o, x, o2, x2, roots, 3, d, s, lo, hi)
    ensures PeersSame(o, o2, 3, d)
  {
  }

  /** Ends and distance aligned to Span(2): all the copy asks is that the destination's root entries be missing or
      carry PTE_W.  Both hold for copies of the whole user space between fresh page maps. */
  lemma AlignedPrivate(o: Store, root: Page, lo: nat, hi: nat, a: nat)
    requires Wf(o) && IsTab(o, 3, root) && lo <= hi <= Span(4) && 2 <= a && Off(2, lo) == 0 && Off(2, hi) == 0
    requires forall i :: 0 <= i < ENTRIES && o[root].es[i].page != ZERO ==> o[root].es[i].w
    ensures Privs(o, 3, root, lo, hi, Range(lo, hi, a))
  {
    var r := Range(lo, hi, a);
    forall y | lo <= y < hi ensures PrivAt(o, 3, root, y, r) {
      IdxInside(3, y);
      var i := Idx(3, y);
      EntryFits(o, 3, root, i);
      if !r.Whole(3, i) && o[root].es[i].page != ZERO {
        var z := Off(3, y);
        IdxInside(2, z);
        assert z == Base(2, Idx(2, z)) + Off(2, z);
        assert r.Down(Base(3, i)).Whole(2, Idx(2, z)) by { Aligned2(lo, hi, i, z); }
      }
    }
  }

  lemma Aligned2(lo: nat, hi: nat, i: nat, z: nat)
    requires Off(2, lo) == 0 && Off(2, hi) == 0 && lo <= Base(3, i) + z < hi
    ensures lo - Base(3, i) <= Base(2, Idx(2, z)) && Base(2, Idx(2, z)) + Span(2) <= hi - Base(3, i)
  {
    var k, p, q := Idx(2, z), Idx(2, lo), Idx(2, hi);
    var z0 := Off(2, z);
    hide Idx, Off;
    GridBelow(p, q, 512 * i + k, z0);
  }

  /** A point of a grid cell between two grid lines: the cell lies between them. */
  lemma GridBelow(p: int, q: int, m: int, z0: int)
    requires 0 <= z0 < 262144 && 262144 * p <= 262144 * m + z0 < 262144 * q
    ensures p <= m < q
  {
  }

  /* ---------- new page maps ---------- */

  /** A PML4 table whose only reference is held becomes the root of an address space. */
  lemma InvRoot(o: Store, refc: map<Page, int>, free: seq<Page>, npage: Page, roots: set<Page>, held: multiset<Page>,
                x: set<Page>, p: Page)
    requires Inv(o, refc, free, npage, roots, held, x) && IsTab(o, 3, p) && p in held && p in x && p !in roots
    ensures Inv(o, refc, free, npage, roots + {p}, held - multiset{p}, x)
  {
    forall q | q in o ensures Counted(o, refc, roots + {p}, held - multiset{p}, q) {
      assert Counted(o, refc, roots, held, q);
    }
  }

  lemma GrownPeers(o: Store, o': Store, roots: set<Page>)
    requires Wf(o) && Wf(o') && LowShape(o, o', 3) && forall u :: u in roots ==> IsTab(o, 3, u)
    ensures OthersSame(o, o', roots, ZERO)
  {
    forall u | u in roots ensures Same(o, o', 3, u) { ShapeSame(o, o', 3, u); }
  }

  /** Everything below a root with the single entry of pmap_newpmap is absent. */
  lemma NewRootEmpty(o: Store, root: Page, pdp: Page)
    requires Wf(o) && IsTab(o, 3, root) && IsTab(o, 2, pdp) && o[pdp] == ClearTable(2)
    requires o[root].es[0] == TableEntry(pdp) && forall j :: 0 < j < ENTRIES ==> o[root].es[j] == CLEAR
    ensures forall x :: 0 <= x < Span(4) ==> At(o, 3, root, x) == Absent() && !EffW(o, 3, root, x)
  {
    hide Zeros;
    forall x | 0 <= x < Span(4) ensures At(o, 3, root, x) == Absent() && !EffW(o, 3, root, x) {
      IdxInside(3, x);
      IdxInside(2, Off(3, x));
      if Idx(3, x) != 0 { assert o[root].es[Idx(3, x)] == CLEAR; }
    }
  }

  /** The two tables of a new page map, the reference to the root still held. */
  method NewTables(pm: PageMaps) returns (root: Page)
    requires pm.Valid() && ZERO !in pm.obj
    modifies pm`obj, pm`refc, pm`free, pm`npage, pm`held, pm`excl
    ensures pm.Valid() && pm.held == old(pm.held) + multiset{root} && root !in old(pm.obj) && root in pm.excl
    ensures Len(pm.obj, root) == ENTRIES
    ensures var pdp := pm.obj[root].es[0].page;
      && pdp !in old(pm.obj) && pdp != root && pdp != ZERO
      && pm.obj == SetIn(old(pm.obj)[root := ClearTable(3)][pdp := ClearTable(2)], root, 0, TableEntry(pdp))
  {
    hide Wf, Exact, Exclusive, FreeOk, EntryOk, NonZero;
    root := pm.NewPage(ClearTable(3));
    var pdp := pm.NewPage(ClearTable(2));
    NewHeld(pm.held, root, pdp);
    NewEntry(pm.obj, pdp);
    pm.SetEntry(root, 0, TableEntry(pdp));
  }

  /** pmap_newpmap, its user half: a root and one private page-directory-pointer table. */
  method PmapNew(pm: PageMaps) returns (root: Page)
    requires pm.Valid()
    modifies pm
    ensures pm.Valid() && pm.held == old(pm.held) && pm.roots == old(pm.roots) + {root} && root !in old(pm.roots)
    ensures Wf(pm.obj) && IsTab(pm.obj, 3, root)
    ensures forall x :: 0 <= x < Span(4) ==> At(pm.obj, 3, root, x) == Absent() && !EffW(pm.obj, 3, root, x)
    ensures OthersSame(old(pm.obj), pm.obj, old(pm.roots), ZERO)
    ensures forall i :: 0 <= i < ENTRIES && pm.obj[root].es[i].page != ZERO ==> pm.obj[root].es[i].w
  {
    hide Wf, Exact, Exclusive, FreeOk, EntryOk, NonZero, OthersSame, At, EffW, LowShape;
    ghost var o, roots := pm.obj, pm.roots;
    RootsIn(o, pm.refc, pm.free, pm.npage, roots, pm.held, pm.excl);
    root := NewTables(pm);
    ghost var pdp := pm.obj[root].es[0].page;
    InvRoot(pm.obj, pm.refc, pm.free, pm.npage, pm.roots, pm.held, pm.excl, root);
    pm.roots := pm.roots + {root};
    pm.held := pm.held - multiset{root};
    NewShape(o, root, pdp);
    GrownPeers(o, pm.obj, roots);
    NewRootEmpty(pm.obj, root, pdp);
  }

  lemma RootsIn(o: Store, refc: map<Page, int>, free: seq<Page>, npage: Page, roots: set<Page>, held: multiset<Page>, x: set<Page>)
    requires Inv(o, refc, free, npage, roots, held, x)
    ensures Wf(o) && roots <= x <= o.Keys && ZERO !in o && forall u :: u in roots ==> IsTab(o, 3, u)
  {
  }

  lemma NewHeld(h: multiset<Page>, root: Page, pdp: Page)
    requires root != ZERO && pdp != ZERO && root in h && pdp in h
    ensures NonZero(pdp) <= h + NonZero(ZERO) && h + NonZero(ZERO) - NonZero(pdp) == h - multiset{pdp}
  {
  }

  lemma NewEntry(o: Store, pdp: Page)
    requires IsTab(o, 2, pdp) && pdp != ZERO
    ensures EntryOk(o, 3, TableEntry(pdp))
  {
  }

  lemma NewShape(o: Store, root: Page, pdp: Page)
    requires Wf(o) && root !in o && pdp !in o && root != pdp
    ensures LowShape(o, SetIn(o[root := ClearTable(3)][pdp := ClearTable(2)], root, 0, TableEntry(pdp)), 3)
  {
  }
}
