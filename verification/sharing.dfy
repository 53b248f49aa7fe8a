/** Changes of a table that several address spaces share: who sees them (kern/pmap.c). */
module Sharing {
  import opened Paging
  import opened PageMem
  import opened Views
  import opened Frames

  /* ---------- the tables on the way to an address ---------- */

  /** The table of level l on the way to x below t, or ZERO. */
  function TabAt(o: Store, level: nat, t: Page, x: nat, l: nat): (p: Page)
    requires Wf(o) && IsTab(o, level, t) && l <= level <= 3 && x < Span(level + 1)
    ensures p == ZERO || IsTab(o, l, p)
    decreases level
  {
    if level == l then t
    else
      IdxInside(level, x);
      var e := Entry(o, level, t, Idx(level, x));
      if e.page == ZERO then ZERO else TabAt(o, level - 1, e.page, Off(level, x), l)
  }

  /** The part of x that is looked up in that table. */
  function Low(level: nat, x: nat, l: nat): (y: nat)
    requires l <= level <= 3 && x < Span(level + 1)
    ensures y < Span(l + 1) && y <= x
    decreases level
  {
    if level == l then x else Low(level - 1, Off(level, x), l)
  }

  /** An address shows what its table of level l shows. */
  lemma {:induction false} AtLow(o: Store, level: nat, t: Page, x: nat, l: nat)
    requires Wf(o) && IsTab(o, level, t) && l <= level <= 3 && x < Span(level + 1)
    ensures At(o, level, t, x) == var p := TabAt(o, level, t, x, l); if p == ZERO then Absent() else At(o, l, p, Low(level, x, l))
    decreases level
  {
    if level > l {
      IdxInside(level, x);
      var e := Entry(o, level, t, Idx(level, x));
      if e.page != ZERO { AtLow(o, level - 1, e.page, Off(level, x), l); }
    }
  }

  /** Tables above level l are untouched. */
  ghost predicate AboveKept(o: Store, o2: Store, l: nat)
  {
    forall u :: u in o && o[u].Table? && o[u].level > l ==> u in o2 && o2[u] == o[u]
  }

  lemma {:induction false} TabKept(o: Store, o2: Store, level: nat, t: Page, x: nat, l: nat)
    requires Wf(o) && Wf(o2) && IsTab(o, level, t) && l <= level <= 3 && x < Span(level + 1) && AboveKept(o, o2, l)
    requires level == l ==> IsTab(o2, level, t)
    requires TabAt(o, level, t, x, l) != ZERO ==> IsTab(o2, l, TabAt(o, level, t, x, l))
    ensures IsTab(o2, level, t) && TabAt(o2, level, t, x, l) == TabAt(o, level, t, x, l)
    decreases level
  {
    if level > l {
      IdxInside(level, x);
      var e := Entry(o, level, t, Idx(level, x));
      if e.page != ZERO { TabKept(o, o2, level - 1, e.page, Off(level, x), l); }
    }
  }

  /** One level further up. */
  lemma {:induction false} TabStep(o: Store, level: nat, t: Page, x: nat, l: nat)
    requires Wf(o) && IsTab(o, level, t) && l < level <= 3 && x < Span(level + 1) && TabAt(o, level, t, x, l) != ZERO
    ensures var p, y := TabAt(o, level, t, x, l + 1), Low(level, x, l + 1);
      && p != ZERO && Idx(l + 1, y) < ENTRIES && o[p].es[Idx(l + 1, y)].page == TabAt(o, level, t, x, l)
      && Low(level, x, l) == Off(l + 1, y)
    decreases level
  {
    IdxInside(level, x);
    if level > l + 1 {
      TabStep(o, level - 1, Entry(o, level, t, Idx(level, x)).page, Off(level, x), l);
    }
  }

  /** The address with another low part. */
  lemma {:induction false} Sibling(o: Store, level: nat, t: Page, x: nat, l: nat, z: nat)
    requires Wf(o) && IsTab(o, level, t) && l <= level <= 3 && x < Span(level + 1) && z < Span(l + 1)
    ensures var y := x - Low(level, x, l) + z;
      0 <= y < Span(level + 1) && TabAt(o, level, t, y, l) == TabAt(o, level, t, x, l) && Low(level, y, l) == z
    decreases level
  {
    hide Base, Idx, Off, Wf;
    if level > l {
      SiblingLow(level, x, l, z);
      IdxInside(level, x);
      var e := Entry(o, level, t, Idx(level, x));
      if e.page != ZERO { Sibling(o, level - 1, e.page, Off(level, x), l, z); }
    }
  }

  lemma {:induction false} SiblingLow(level: nat, x: nat, l: nat, z: nat)
    requires l <= level <= 3 && x < Span(level + 1) && z < Span(l + 1)
    ensures var y := x - Low(level, x, l) + z; 0 <= y < Span(level + 1) && Low(level, y, l) == z
    ensures var y, f := x - Low(level, x, l) + z, Off(level, x);
            level > l ==> Idx(level, y) == Idx(level, x) && Off(level, y) == f - Low(level - 1, f, l) + z
    decreases level
  {
    if level > l {
      IdxInside(level, x);
      var i, f := Idx(level, x), Off(level, x);
      var g := f - Low(level - 1, f, l) + z;
      SiblingLow(level - 1, f, l, z);
      Decompose(level, Base(level, i) + g, i, g);
      IdxInside(level, Base(level, i) + g);
    }
  }

  /* ---------- who sees a change ---------- */

  /** Of the tables of level l only t changed, at addresses lo <= z < hi, and no table above. */
  ghost predicate SlotsOnly(o: Store, o2: Store, l: nat, t: Page, lo: int, hi: int)
  {
    && Wf(o) && Wf(o2) && l <= 3 && IsTab(o, l, t) && IsTab(o2, l, t) && AboveKept(o, o2, l)
    && forall u :: IsTab(o, l, u) ==> ElseSame(o, o2, l, u, t, lo, hi)
  }

  ghost predicate ElseSame(o: Store, o2: Store, l: nat, u: Page, t: Page, lo: int, hi: int)
    requires Wf(o) && Wf(o2) && l <= 3 && IsTab(o, l, u)
  {
    IsTab(o2, l, u) && forall z :: 0 <= z < Span(l + 1) && (u != t || !(lo <= z < hi)) ==> At(o2, l, u, z) == At(o, l, u, z)
  }

  /** An address space sees the change exactly where its own way leads through t. */
  lemma Seen(o: Store, o2: Store, l: nat, t: Page, lo: int, hi: int, r: Page, x: nat)
    requires SlotsOnly(o, o2, l, t, lo, hi) && IsTab(o, 3, r) && x < Span(4)
    ensures IsTab(o2, 3, r)
    ensures TabAt(o, 3, r, x, l) == t && lo <= Low(3, x, l) < hi ==> At(o2, 3, r, x) == At(o2, l, t, Low(3, x, l))
    ensures !(TabAt(o, 3, r, x, l) == t && lo <= Low(3, x, l) < hi) ==> At(o2, 3, r, x) == At(o, 3, r, x)
  {
    hide At, TabAt, Low, Wf;
    var p := TabAt(o, 3, r, x, l);
    TopItself(o, r, x);
    NotZero(o, t);
    if p != ZERO { assert ElseSame(o, o2, l, p, t, lo, hi); }
    if l == 3 { assert ElseSame(o, o2, l, r, t, lo, hi); }
    TabKept(o, o2, 3, r, x, l);
    AtLow(o, 3, r, x, l);
    AtLow(o2, 3, r, x, l);
  }

  lemma NotZero(o: Store, t: Page)
    requires Wf(o) && t in o
    ensures t != ZERO
  {
  }

  lemma TopItself(o: Store, r: Page, x: nat)
    requires Wf(o) && IsTab(o, 3, r) && x < Span(4)
    ensures TabAt(o, 3, r, x, 3) == r && Low(3, x, 3) == x
  {
  }

  /** Compared by what a program reads, or by everything that is mapped. */
  predicate Like(a: View, b: View, bytes: bool) { if bytes then a.bytes == b.bytes else a == b }

  /** Every address of every space, but for lo <= y < hi of d, shows what it showed. */
  ghost predicate OthersKept(o: Store, o2: Store, roots: set<Page>, d: Page, lo: nat, hi: nat, bytes: bool)
    requires Wf(o) && Wf(o2) && forall u :: u in roots ==> IsTab(o, 3, u) && IsTab(o2, 3, u)
  {
    forall u, y :: u in roots && 0 <= y < Span(4) && !(u == d && lo <= y < hi) ==> Like(At(o, 3, u, y), At(o2, 3, u, y), bytes)
  }

  ghost predicate SlotsAlike(o: Store, o2: Store, l: nat, t: Page, lo: int, hi: int, bytes: bool)
    requires Wf(o) && Wf(o2) && l <= 3 && IsTab(o, l, t) && IsTab(o2, l, t) && 0 <= lo && hi <= Span(l + 1)
  {
    forall z :: lo <= z < hi ==> Like(At(o, l, t, z), At(o2, l, t, z), bytes)
  }

  /** Every table below the root on the way to x, down to level l, has a single reference. */
  ghost predicate Lone(o: Store, refc: map<Page, int>, d: Page, x: nat, l: nat)
    requires Wf(o) && IsTab(o, 3, d) && x < Span(4) && l <= 3
  {
    forall k: nat :: l <= k < 3 ==> TabAt(o, 3, d, x, k) in refc && refc[TabAt(o, 3, d, x, k)] == 1
  }

  /** Between kernel entries: nothing is held, every page in use is referenced, every top-level table is a root. */
  ghost predicate Quiet(o: Store, refc: map<Page, int>, roots: set<Page>)
  {
    && Wf(o) && Exact(o, refc, roots, multiset{})
    && (forall p :: p in o ==> p in refc && refc[p] >= 1) && forall p :: IsTab(o, 3, p) ==> p in roots
  }

  lemma NamedTwice(o: Store, p: Page, t: Page, i: nat)
    requires |Slots(o, p)| >= 1
    ensures exists u: Page, j: nat :: Names(o, u, j, p)
    ensures |Slots(o, p)| >= 2 ==> exists u: Page, j: nat :: Names(o, u, j, p) && !(u == t && j == i)
  {
    var s := Slots(o, p);
    var y :| y in s;
    assert Names(o, y.0, y.1, p);
    if |s| >= 2 {
      var z :| z in s - {(t, i)} by { if s - {(t, i)} == {} { assert s <= {(t, i)}; CardSub(s, {(t, i)}); } }
      assert Names(o, z.0, z.1, p);
    }
  }

  lemma CardSub<T>(a: set<T>, b: set<T>)
    requires a <= b
    ensures |a| <= |b|
  {
    assert b == a + (b - a);
  }

  /** The table that names a table is one level up. */
  lemma NamerLevel(o: Store, u: Page, j: nat, l: nat, p: Page)
    requires Wf(o) && Names(o, u, j, p) && IsTab(o, l, p) && l < 3
    ensures IsTab(o, l + 1, u) && j < ENTRIES
  {
    assert ObjOk(o, u) && ZERO !in o;
  }

  /** Every table is on the way to some address of some space. */
  lemma {:induction false} Reached(o: Store, refc: map<Page, int>, roots: set<Page>, l: nat, t: Page) returns (u: Page, y: nat)
    requires Quiet(o, refc, roots) && l <= 3 && IsTab(o, l, t)
    ensures u in roots && IsTab(o, 3, u) && y < Span(4) && TabAt(o, 3, u, y, l) == t
    decreases 3 - l
  {
    if l == 3 {
      u, y := t, 0;
    } else {
      assert Counted(o, refc, roots, multiset{}, t);
      NamedTwice(o, t, t, 0);
      var v: Page, j: nat :| Names(o, v, j, t);
      NamerLevel(o, v, j, l, t);
      u, y := ReachedSlot(o, refc, roots, l, v, j, 0);
    }
  }

  /** So is every slot of every table, with any address below it. */
  lemma {:induction false} ReachedSlot(o: Store, refc: map<Page, int>, roots: set<Page>, l: nat, v: Page, j: nat, z: nat)
    returns (u: Page, y: nat)
    requires Quiet(o, refc, roots) && l < 3 && IsTab(o, l + 1, v) && j < ENTRIES && o[v].es[j].page != ZERO && z < Span(l + 1)
    ensures u in roots && IsTab(o, 3, u) && y < Span(4) && TabAt(o, 3, u, y, l + 1) == v && Low(3, y, l + 1) == Base(l + 1, j) + z
    ensures TabAt(o, 3, u, y, l) == o[v].es[j].page && Low(3, y, l) == z
    decreases 3 - l, 1
  {
    hide Wf, Exact, TabAt, Low, Idx, Off, Base;
    QuietWf(o, refc, roots);
    NotZero(o, v);
    var y0;
    u, y0 := Reached(o, refc, roots, l + 1, v);
    SlotAddress(l + 1, j, z);
    Sibling(o, 3, u, y0, l + 1, Base(l + 1, j) + z);
    y := y0 - Low(3, y0, l + 1) + Base(l + 1, j) + z;
    EntryFits(o, l + 1, v, j);
    TabBelow(o, 3, u, y, l);
  }

  lemma QuietWf(o: Store, refc: map<Page, int>, roots: set<Page>)
    requires Quiet(o, refc, roots)
    ensures Wf(o)
  {
  }

  lemma SlotAddress(l: nat, j: nat, z: nat)
    requires 1 <= l <= 3 && j < ENTRIES && z < Span(l)
    ensures 0 <= Base(l, j) + z < Span(l + 1) && Idx(l, Base(l, j) + z) == j && Off(l, Base(l, j) + z) == z
  {
    Decompose(l, Base(l, j) + z, j, z);
    IdxInside(l, Base(l, j) + z);
  }

  lemma {:induction false} TabBelow(o: Store, level: nat, t: Page, x: nat, l: nat)
    requires Wf(o) && IsTab(o, level, t) && l < level <= 3 && x < Span(level + 1) && TabAt(o, level, t, x, l + 1) != ZERO
    ensures Idx(l + 1, Low(level, x, l + 1)) < ENTRIES
    ensures TabAt(o, level, t, x, l) == o[TabAt(o, level, t, x, l + 1)].es[Idx(l + 1, Low(level, x, l + 1))].page
    ensures Low(level, x, l) == Off(l + 1, Low(level, x, l + 1))
    decreases level
  {
    IdxInside(level, x);
    if level > l + 1 { TabBelow(o, level - 1, Entry(o, level, t, Idx(level, x)).page, Off(level, x), l); }
  }

  lemma {:induction false} TabVia(o: Store, level: nat, t: Page, x: nat, k: nat, l: nat)
    requires Wf(o) && IsTab(o, level, t) && l <= k <= level <= 3 && x < Span(level + 1) && TabAt(o, level, t, x, k) != ZERO
    ensures TabAt(o, level, t, x, l) == TabAt(o, k, TabAt(o, level, t, x, k), Low(level, x, k), l)
    ensures Low(level, x, l) == Low(k, Low(level, x, k), l)
    decreases level
  {
    if level > k {
      IdxInside(level, x);
      TabVia(o, level - 1, Entry(o, level, t, Idx(level, x)).page, Off(level, x), k, l);
    }
  }

  lemma {:induction false} TabAbove(o: Store, t: Page, x: nat, k: nat, l: nat)
    requires Wf(o) && IsTab(o, 3, t) && l <= k <= 3 && x < Span(4) && TabAt(o, 3, t, x, l) != ZERO
    ensures TabAt(o, 3, t, x, k) != ZERO
    decreases k - l
  {
    if l < k {
      TabStep(o, 3, t, x, l);
      TabAbove(o, t, x, k, l + 1);
    }
  }

  /** A table with a single reference is named by one entry. */
  lemma SoleSlot(o: Store, refc: map<Page, int>, roots: set<Page>, l: nat, p: Page, t: Page, i: nat)
    requires Quiet(o, refc, roots) && l < 3 && IsTab(o, l, p) && Names(o, t, i, p)
    ensures p in refc && refc[p] == |Slots(o, p)|
    ensures refc[p] == 1 ==> forall u: Page, j: nat :: Names(o, u, j, p) ==> u == t && j == i
  {
    hide Slots, Wf;
    assert Counted(o, refc, roots, multiset{}, p);
    SlotCount(o, p, t, i);
  }

  /** With single references on the way, there is no other way. */
  lemma {:induction false} OnlyWay(o: Store, refc: map<Page, int>, roots: set<Page>, d: Page, x: nat, l: nat, u: Page, y: nat)
    requires Quiet(o, refc, roots) && d in roots && u in roots && IsTab(o, 3, d) && IsTab(o, 3, u) && l <= 3
    requires x < Span(4) && y < Span(4) && Lone(o, refc, d, x, l)
    requires TabAt(o, 3, d, x, l) != ZERO && TabAt(o, 3, u, y, l) == TabAt(o, 3, d, x, l)
    ensures u == d && y - Low(3, y, l) == x - Low(3, x, l)
    decreases 3 - l
  {
    hide Wf, Exact, Slots, Idx, Base, TabAt, Low;
    if l == 3 {
      TopItself(o, d, x);
      TopItself(o, u, y);
    } else {
      TabStep(o, 3, d, x, l);
      TabStep(o, 3, u, y, l);
      var p, q, t := TabAt(o, 3, d, x, l + 1), TabAt(o, 3, u, y, l + 1), TabAt(o, 3, d, x, l);
      var i, j := Idx(l + 1, Low(3, x, l + 1)), Idx(l + 1, Low(3, y, l + 1));
      assert Names(o, p, i, t) && Names(o, q, j, t);
      SoleSlot(o, refc, roots, l, t, p, i);
      assert q == p && j == i;
      OnlyWay(o, refc, roots, d, x, l + 1, u, y);
    }
  }

  /** With more references somewhere on the way, there is another one. */
  lemma AnotherWay(o: Store, refc: map<Page, int>, roots: set<Page>, d: Page, x: nat, l: nat) returns (u: Page, y: nat)
    requires Quiet(o, refc, roots) && d in roots && IsTab(o, 3, d) && l <= 3 && x < Span(4)
    requires TabAt(o, 3, d, x, l) != ZERO && !Lone(o, refc, d, x, l)
    ensures u in roots && IsTab(o, 3, u) && y < Span(4) && TabAt(o, 3, u, y, l) == TabAt(o, 3, d, x, l)
    ensures Low(3, y, l) == Low(3, x, l) && !(u == d && y == x)
  {
    hide Wf, Exact, Slots, Base, TabAt, Low;
    var k: nat :| l <= k < 3 && !(TabAt(o, 3, d, x, k) in refc && refc[TabAt(o, 3, d, x, k)] == 1);
    var c := TabAt(o, 3, d, x, k);
    TabAbove(o, d, x, k, l);
    TabStep(o, 3, d, x, k);
    var p, i := TabAt(o, 3, d, x, k + 1), Idx(k + 1, Low(3, x, k + 1));
    assert Names(o, p, i, c);
    SoleSlot(o, refc, roots, k, c, p, i);
    NamedTwice(o, c, p, i);
    var v: Page, j: nat :| Names(o, v, j, c) && !(v == p && j == i);
    NamerLevel(o, v, j, k, c);
    u, y := ReachedSlot(o, refc, roots, k, v, j, Low(3, x, k));
    TabVia(o, 3, d, x, k, l);
    TabVia(o, 3, u, y, k, l);
    SlotAddress(k + 1, j, Low(3, x, k));
  }

  /** Whatever is done to the slots of a table that d reaches from address dva on: everybody else sees what they saw
      exactly if every table on the way has a single reference, or the slots show what they showed. */
  lemma LoneOrAlike(o: Store, o2: Store, refc: map<Page, int>, roots: set<Page>, d: Page, dva: nat, l: nat, m: nat, bytes: bool)
    requires Quiet(o, refc, roots) && Wf(o2) && d in roots && (forall u :: u in roots ==> IsTab(o, 3, u) && IsTab(o2, 3, u))
    requires l <= 3 && dva < Span(4) && TabAt(o, 3, d, dva, l) != ZERO && Low(3, dva, l) + m <= Span(l + 1)
    requires SlotsOnly(o, o2, l, TabAt(o, 3, d, dva, l), Low(3, dva, l), Low(3, dva, l) + m)
    ensures OthersKept(o, o2, roots, d, dva, dva + m, bytes) <==>
      Lone(o, refc, d, dva, l) || SlotsAlike(o, o2, l, TabAt(o, 3, d, dva, l), Low(3, dva, l), Low(3, dva, l) + m, bytes)
  {
    hide Wf, Quiet, Lone, At, TabAt, Low, SlotsOnly, SlotsAlike, OthersKept;
    QuietWf(o, refc, roots);
    SlotsTab(o, o2, l, TabAt(o, 3, d, dva, l), Low(3, dva, l), Low(3, dva, l) + m);
    if Lone(o, refc, d, dva, l) {
      LoneKept(o, o2, refc, roots, d, dva, l, m, bytes);
    } else if SlotsAlike(o, o2, l, TabAt(o, 3, d, dva, l), Low(3, dva, l), Low(3, dva, l) + m, bytes) {
      AlikeKept(o, o2, roots, d, dva, l, m, bytes);
    } else if OthersKept(o, o2, roots, d, dva, dva + m, bytes) {
      KeptAlike(o, o2, refc, roots, d, dva, l, m, bytes);
      assert false;
    }
  }

  lemma SlotsTab(o: Store, o2: Store, l: nat, t: Page, lo: int, hi: int)
    requires SlotsOnly(o, o2, l, t, lo, hi)
    ensures IsTab(o, l, t) && IsTab(o2, l, t)
  {
  }

  lemma LoneKept(o: Store, o2: Store, refc: map<Page, int>, roots: set<Page>, d: Page, dva: nat, l: nat, m: nat, bytes: bool)
    requires Quiet(o, refc, roots) && Wf(o2) && d in roots && (forall u :: u in roots ==> IsTab(o, 3, u) && IsTab(o2, 3, u))
    requires l <= 3 && dva < Span(4) && TabAt(o, 3, d, dva, l) != ZERO && Low(3, dva, l) + m <= Span(l + 1)
    requires SlotsOnly(o, o2, l, TabAt(o, 3, d, dva, l), Low(3, dva, l), Low(3, dva, l) + m) && Lone(o, refc, d, dva, l)
    ensures OthersKept(o, o2, roots, d, dva, dva + m, bytes)
  {
    hide Wf, Quiet, Lone, At, TabAt, Low, SlotsOnly;
    QuietWf(o, refc, roots);
    var t, z := TabAt(o, 3, d, dva, l), Low(3, dva, l);
    forall u, y | u in roots && 0 <= y < Span(4) && !(u == d && dva <= y < dva + m)
      ensures Like(At(o, 3, u, y), At(o2, 3, u, y), bytes)
    {
      Seen(o, o2, l, t, z, z + m, u, y);
      if TabAt(o, 3, u, y, l) == t { OnlyWay(o, refc, roots, d, dva, l, u, y); }
    }
  }

  lemma AlikeKept(o: Store, o2: Store, roots: set<Page>, d: Page, dva: nat, l: nat, m: nat, bytes: bool)
    requires Wf(o) && Wf(o2) && d in roots && (forall u :: u in roots ==> IsTab(o, 3, u) && IsTab(o2, 3, u))
    requires l <= 3 && dva < Span(4) && TabAt(o, 3, d, dva, l) != ZERO && Low(3, dva, l) + m <= Span(l + 1)
    requires SlotsOnly(o, o2, l, TabAt(o, 3, d, dva, l), Low(3, dva, l), Low(3, dva, l) + m)
    requires SlotsAlike(o, o2, l, TabAt(o, 3, d, dva, l), Low(3, dva, l), Low(3, dva, l) + m, bytes)
    ensures OthersKept(o, o2, roots, d, dva, dva + m, bytes)
  {
    hide Wf, At, TabAt, Low, SlotsOnly;
    SlotsTab(o, o2, l, TabAt(o, 3, d, dva, l), Low(3, dva, l), Low(3, dva, l) + m);
    var t, z := TabAt(o, 3, d, dva, l), Low(3, dva, l);
    forall u, y | u in roots && 0 <= y < Span(4) && !(u == d && dva <= y < dva + m)
      ensures Like(At(o, 3, u, y), At(o2, 3, u, y), bytes)
    {
      Seen(o, o2, l, t, z, z + m, u, y);
      AtLow(o, 3, u, y, l);
      if TabAt(o, 3, u, y, l) == t && z <= Low(3, y, l) < z + m {
        assert Like(At(o, l, t, Low(3, y, l)), At(o2, l, t, Low(3, y, l)), bytes);
        NotZero(o, t);
      }
    }
  }

  lemma KeptAlike(o: Store, o2: Store, refc: map<Page, int>, roots: set<Page>, d: Page, dva: nat, l: nat, m: nat, bytes: bool)
    requires Quiet(o, refc, roots) && Wf(o2) && d in roots && (forall u :: u in roots ==> IsTab(o, 3, u) && IsTab(o2, 3, u))
    requires l <= 3 && dva < Span(4) && TabAt(o, 3, d, dva, l) != ZERO && Low(3, dva, l) + m <= Span(l + 1)
    requires SlotsOnly(o, o2, l, TabAt(o, 3, d, dva, l), Low(3, dva, l), Low(3, dva, l) + m) && !Lone(o, refc, d, dva, l)
    requires OthersKept(o, o2, roots, d, dva, dva + m, bytes)
    ensures SlotsAlike(o, o2, l, TabAt(o, 3, d, dva, l), Low(3, dva, l), Low(3, dva, l) + m, bytes)
  {
    hide Wf, Quiet, Lone, At, TabAt, Low, SlotsOnly;
    QuietWf(o, refc, roots);
    SlotsTab(o, o2, l, TabAt(o, 3, d, dva, l), Low(3, dva, l), Low(3, dva, l) + m);
    var t, z0 := TabAt(o, 3, d, dva, l), Low(3, dva, l);
    var u, y0 := AnotherWay(o, refc, roots, d, dva, l);
    forall z | z0 <= z < z0 + m ensures Like(At(o, l, t, z), At(o2, l, t, z), bytes) {
      Sibling(o, 3, u, y0, l, z);
      var y := y0 - z0 + z;
      Seen(o, o2, l, t, z0, z0 + m, u, y);
      AtLow(o, 3, u, y, l);
      Prefix(dva, y0, l, m, z);
      assert Like(At(o, 3, u, y), At(o2, 3, u, y), bytes);
    }
  }

  /** Addresses with different upper parts do not meet in a range below one table. */
  lemma Prefix(x: nat, y: nat, l: nat, m: nat, z: nat)
    requires l <= 3 && x < Span(4) && y < Span(4) && Low(3, x, l) == Low(3, y, l) && Low(3, x, l) + m <= Span(l + 1)
    requires Low(3, x, l) <= z < Low(3, x, l) + m
    ensures x <= y - Low(3, y, l) + z < x + m ==> y == x
  {
    hide Low;
    var q := y - Low(3, y, l) + z - x;
    if 0 <= q < m {
      SiblingLow(3, y, l, z);
      SiblingLow(3, x, l, Low(3, x, l) + q);
    }
  }
}
