/** Joining children by the merge as it is written (kern/pmap.c), which works in tables that earlier joins have shared. */
module WrittenJoins {
  import opened Paging
  import opened PageMem
  import opened Views
  import opened Frames
  import opened Copy
  import opened PageCopy
  import opened Spaces
  import opened ThreeWay
  import opened LeafMerge
  import opened TableMerge
  import opened Sharing
  import opened SlotCopy
  import opened SlotMerge
  import opened Joins

  /* ---------- the entries on the way to an address ---------- */

  /** The entry of level l on the way to x in address space a. */
  function EntAt(o: Store, a: Page, x: nat, l: nat): (e: Pte)
    requires Wf(o) && IsTab(o, 3, a) && x < Span(4) && l <= 3
  {
    var t := TabAt(o, 3, a, x, l);
    if t == ZERO then CLEAR
    else
      IdxInside(l, Low(3, x, l));
      Entry(o, l, t, Idx(l, Low(3, x, l)))
  }

  /** Where the addresses of that entry start. */
  function Start(x: nat, l: nat): int
    requires x < Span(4) && l <= 3
  {
    x - Off(l, Low(3, x, l))
  }

  /** The entry lies in the range as a whole. */
  predicate Within(x: nat, l: nat, lo: nat, hi: nat)
    requires x < Span(4) && l <= 3
  {
    lo <= Start(x, l) && Start(x, l) + Span(l) <= hi
  }

  lemma {:induction false} NextTab(o: Store, level: nat, t: Page, x: nat, l: nat)
    requires Wf(o) && IsTab(o, level, t) && l < level <= 3 && x < Span(level + 1)
    ensures Low(level, x, l) == Off(l + 1, Low(level, x, l + 1)) && Idx(l + 1, Low(level, x, l + 1)) < ENTRIES
    ensures var p := TabAt(o, level, t, x, l + 1);
            TabAt(o, level, t, x, l) == if p == ZERO then ZERO else Entry(o, l + 1, p, Idx(l + 1, Low(level, x, l + 1))).page
    decreases level
  {
    IdxInside(level, x);
    if level > l + 1 {
      NextLow(level, x, l);
      var e := Entry(o, level, t, Idx(level, x));
      if e.page != ZERO { NextTab(o, level - 1, e.page, Off(level, x), l); }
    }
  }

  lemma {:induction false} NextLow(level: nat, x: nat, l: nat)
    requires l < level <= 3 && x < Span(level + 1)
    ensures Low(level, x, l) == Off(l + 1, Low(level, x, l + 1)) && Idx(l + 1, Low(level, x, l + 1)) < ENTRIES
    decreases level
  {
    IdxInside(level, x);
    if level > l + 1 { NextLow(level - 1, Off(level, x), l); } else { IdxInside(l + 1, Low(level, x, l + 1)); }
  }

  /** The entry names the next table. */
  lemma EntTab(o: Store, a: Page, x: nat, l: nat)
    requires Wf(o) && IsTab(o, 3, a) && x < Span(4) && 1 <= l <= 3
    ensures EntAt(o, a, x, l).page == TabAt(o, 3, a, x, l - 1)
  {
    NextTab(o, 3, a, x, l - 1);
  }

  lemma StartLow(x: nat, l: nat)
    requires x < Span(4) && l < 3
    ensures Start(x, l + 1) == x - Low(3, x, l)
  {
    NextLow(3, x, l);
  }

  /** The addresses of one entry have the entries above in common. */
  lemma {:induction false} Inside(x: nat, y: nat, l: nat, m: nat)
    requires x < Span(4) && y < Span(4) && l <= m <= 3 && Start(x, l) <= y < Start(x, l) + Span(l)
    ensures Start(x, m) <= y < Start(x, m) + Span(m) && Start(y, m) == Start(x, m)
    ensures Low(3, y, m) - Low(3, x, m) == y - x && Idx(m, Low(3, y, m)) == Idx(m, Low(3, x, m)) < ENTRIES
    decreases m - l
  {
    if m == l {
      InsideLow(x, y, l);
    } else {
      Inside(x, y, l, m - 1);
      StartLow(x, m - 1);
      InsideLow(x, y, m) by { assert Low(3, y, m - 1) < Span(m); }
    }
  }

  lemma InsideLow(x: nat, y: nat, l: nat)
    requires x < Span(4) && y < Span(4) && l <= 3 && Start(x, l) <= y < Start(x, l) + Span(l)
    ensures Start(y, l) == Start(x, l)
    ensures Low(3, y, l) - Low(3, x, l) == y - x && Idx(l, Low(3, y, l)) == Idx(l, Low(3, x, l)) < ENTRIES
  {
    hide Low;
    var z := Low(3, x, l);
    IdxInside(l, z);
    assert z == Base(l, Idx(l, z)) + Off(l, z);
    var w := z + (y - x);
    Decompose(l, w, Idx(l, z), Off(l, z) + (y - x));
    BaseInside(l, Idx(l, z));
    SiblingLow(3, x, l, w);
    assert x - z + w == y;
  }

  lemma SameEnt(o: Store, a: Page, x: nat, y: nat, l: nat, m: nat)
    requires Wf(o) && IsTab(o, 3, a) && x < Span(4) && y < Span(4) && l <= m <= 3 && Start(x, l) <= y < Start(x, l) + Span(l)
    ensures TabAt(o, 3, a, y, m) == TabAt(o, 3, a, x, m) && EntAt(o, a, y, m) == EntAt(o, a, x, m)
  {
    hide TabAt, Low, Idx;
    Inside(x, y, l, m);
    Sibling(o, 3, a, x, m, Low(3, y, m));
    assert x - Low(3, x, m) + Low(3, y, m) == y;
  }

  /* ---------- one step in a table ---------- */

  /** Nobody else, and nowhere else, leads to the table of level l that a leads to at x. */
  ghost predicate TabSole(o: Store, us: set<Page>, a: Page, x: nat, l: nat)
    requires Wf(o) && (forall u :: u in us ==> IsTab(o, 3, u)) && a in us && x < Span(4) && l <= 3
  {
    forall u: Page, y: nat {:trigger TabAt(o, 3, u, y, l)} :: u in us && y < Span(4) && TabAt(o, 3, u, y, l) == TabAt(o, 3, a, x, l) ==>
      u == a && y - Low(3, y, l) == x - Low(3, x, l)
  }

  /** A way that does not pass the changed entry is what it was. */
  lemma {:induction false} PathKept(o: Store, o2: Store, level: nat, t: Page, x: nat, m: nat, l: nat, sp: Page, k: nat, dt: Page, i: nat)
    requires Wf(o) && Wf(o2) && IsTab(o, level, t) && IsTab(o2, level, t) && m <= level <= 3 && l <= 3 && x < Span(level + 1)
    requires TablesKept(o, o2, sp, k, dt, i) && IsTab(o, l, dt)
    requires m < l <= level ==> !(TabAt(o, level, t, x, l) == dt && Idx(l, Low(level, x, l)) == i)
    ensures TabAt(o2, level, t, x, m) == TabAt(o, level, t, x, m)
    decreases level
  {
    if level > m {
      IdxInside(level, x);
      var j := Idx(level, x);
      assert EntriesKept(o, o2, t, sp, k, dt, i);
      var e, e2 := Entry(o, level, t, j), Entry(o2, level, t, j);
      if t == dt { assert level == l && TabAt(o, level, t, x, l) == t && Low(level, x, l) == x; }
      assert e2.page == e.page;
      if e.page != ZERO {
        EntryFits(o, level, t, j);
        EntryFits(o2, level, t, j);
        PathKept(o, o2, level - 1, e.page, Off(level, x), m, l, sp, k, dt, i);
      }
    }
  }

  /** The way through the changed entry goes on as that of the entry it took on. */
  lemma PathTaken(o: Store, o2: Store, x: nat, m: nat, l: nat, sp: Page, k: nat, dt: Page, i: nat)
    requires Wf(o) && Wf(o2) && m < l <= 3 && x < Span(l + 1)
    requires TablesKept(o, o2, sp, k, dt, i) && IsTab(o, l, dt) && IsTab(o2, l, dt) && IsTab(o, l, sp) && k == i < ENTRIES
    requires o2[dt].es[i].page == o[sp].es[k].page && Idx(l, x) == i
    ensures TabAt(o2, l, dt, x, m) == TabAt(o, l, sp, x, m)
  {
    IdxInside(l, x);
    var e, e2 := Entry(o, l, sp, k), Entry(o2, l, dt, i);
    if e.page != ZERO {
      EntryFits(o, l, sp, k);
      EntryFits(o2, l, dt, i);
      PathKept(o, o2, l - 1, e.page, Off(l, x), m, l, sp, k, dt, i);
    }
  }

  /** The way down to level l, and from there on. */
  lemma {:induction false} PathSplit(o: Store, level: nat, t: Page, x: nat, l: nat, m: nat)
    requires Wf(o) && IsTab(o, level, t) && m <= l <= level <= 3 && x < Span(level + 1)
    ensures Low(level, x, m) == Low(l, Low(level, x, l), m)
    ensures var p := TabAt(o, level, t, x, l); TabAt(o, level, t, x, m) == if p == ZERO then ZERO else TabAt(o, l, p, Low(level, x, l), m)
    decreases level
  {
    if level > l {
      IdxInside(level, x);
      LowSplit(level, x, l, m);
      var e := Entry(o, level, t, Idx(level, x));
      if e.page != ZERO { PathSplit(o, level - 1, e.page, Off(level, x), l, m); }
    }
  }

  lemma {:induction false} LowSplit(level: nat, x: nat, l: nat, m: nat)
    requires m <= l <= level <= 3 && x < Span(level + 1)
    ensures Low(level, x, m) == Low(l, Low(level, x, l), m)
    decreases level
  {
    if level > l { LowSplit(level - 1, Off(level, x), l, m); }
  }

  /** Entry i of table dt of level l took on what entry i of st names. */
  ghost predicate Took(o: Store, o2: Store, l: nat, st: Page, dt: Page, i: nat)
  {
    && l <= 3 && i < ENTRIES && st != dt && SlotsOnly(o, o2, l, dt, Base(l, i), Base(l, i) + Span(l)) && SlotTaken(o, o2, l, st, i, dt, i)
    && TablesKept(o, o2, st, i, dt, i) && o2[dt].es[i] == o[st].es[i].(w := false)
  }

  /** x is reached through entry i of table dt of level l. */
  predicate Through(o: Store, a: Page, x: nat, l: nat, dt: Page, i: nat)
    requires Wf(o) && IsTab(o, 3, a) && x < Span(4) && l <= 3
  {
    TabAt(o, 3, a, x, l) == dt && Idx(l, Low(3, x, l)) == i
  }

  lemma TookElse(o: Store, o2: Store, l: nat, st: Page, dt: Page, i: nat, a: Page, x: nat, m: nat)
    requires Took(o, o2, l, st, dt, i) && IsTab(o, 3, a) && IsTab(o2, 3, a) && x < Span(4) && m <= 3
    requires !Through(o, a, x, l, dt, i) || m > l
    ensures EntAt(o2, a, x, m) == EntAt(o, a, x, m)
            || (Through(o, a, x, l, st, i) && m == l && EntAt(o2, a, x, m) == EntAt(o, a, x, m).(w := false))
  {
    hide Low, SlotTaken, SlotsOnly;
    TookTabs(o, o2, l, st, dt, i);
    PathKept(o, o2, 3, a, x, m, l, st, i, dt, i);
    var t := TabAt(o, 3, a, x, m);
    IdxInside(m, Low(3, x, m));
    if t != ZERO { assert EntriesKept(o, o2, t, st, i, dt, i); }
  }

  lemma TookTabs(o: Store, o2: Store, l: nat, st: Page, dt: Page, i: nat)
    requires Took(o, o2, l, st, dt, i)
    ensures Wf(o) && Wf(o2) && IsTab(o, l, dt) && IsTab(o2, l, dt) && IsTab(o, l, st)
  {
  }

  lemma TookThere(o: Store, o2: Store, l: nat, st: Page, dt: Page, i: nat, d: Page, s: Page, x: nat, m: nat)
    requires Took(o, o2, l, st, dt, i) && IsTab(o, 3, d) && IsTab(o2, 3, d) && IsTab(o, 3, s) && x < Span(4) && m <= l
    requires Through(o, d, x, l, dt, i) && Through(o, s, x, l, st, i)
    ensures EntAt(o2, d, x, m) == if m == l then EntAt(o, s, x, m).(w := false) else EntAt(o, s, x, m)
  {
    hide Low, SlotTaken, SlotsOnly;
    TookTabs(o, o2, l, st, dt, i);
    PathKept(o, o2, 3, d, x, l, l, st, i, dt, i);
    if m < l {
      PathSplit(o2, 3, d, x, l, m);
      PathSplit(o, 3, s, x, l, m);
      PathTaken(o, o2, Low(3, x, l), m, l, st, i, dt, i);
      var t := TabAt(o, 3, s, x, m);
      IdxInside(m, Low(3, x, m));
      if t != ZERO { assert EntriesKept(o, o2, t, st, i, dt, i); }
    }
  }

  /** From then on both spaces lead to the same tables there: this is how a snapshot comes to share tables with its space, and a
      destination with a child it has been joined with. */
  lemma TookShared(o: Store, o2: Store, l: nat, st: Page, dt: Page, i: nat, d: Page, s: Page, x: nat, m: nat)
    requires Took(o, o2, l, st, dt, i) && IsTab(o, 3, d) && IsTab(o2, 3, d) && IsTab(o, 3, s) && IsTab(o2, 3, s) && x < Span(4) && m < l
    requires Through(o, d, x, l, dt, i) && Through(o, s, x, l, st, i)
    ensures TabAt(o2, 3, d, x, m) == TabAt(o2, 3, s, x, m) == TabAt(o, 3, s, x, m)
  {
    hide Low, SlotTaken, SlotsOnly;
    TookTabs(o, o2, l, st, dt, i);
    PathKept(o, o2, 3, d, x, l, l, st, i, dt, i);
    PathKept(o, o2, 3, s, x, m, l, st, i, dt, i);
    PathSplit(o2, 3, d, x, l, m);
    PathSplit(o, 3, s, x, l, m);
    PathTaken(o, o2, Low(3, x, l), m, l, st, i, dt, i);
  }

  /* ---------- what a merge does, seen from the address spaces ---------- */

  ghost predicate There(o: Store, us: set<Page>) { Wf(o) && forall u :: u in us ==> IsTab(o, 3, u) }

  /** The entry of the destination is what it was, or the source's, taken as part of the range lo <= y < hi. */
  predicate Mixed(de: Pte, de2: Pte, re: Pte, se: Pte, within: bool)
  {
    de2 == de || (within && (de2 == se || (se.page != re.page && de2 == se.(w := false))))
  }

  /** Merging s into d, up to the part lo <= x < hi: there d shows the merge, by way of its own tables or those of s; elsewhere,
      and in all other spaces of us, everything is what it was, except that PTE_W may be gone from entries of s. */
  ghost predicate Went(o: Store, o2: Store, us: set<Page>, r: Page, s: Page, d: Page, lo: nat, hi: nat)
  {
    && There(o, us) && There(o2, us) && r in us && s in us && d in us && r != d && s != d && lo <= hi <= Span(4)
    && (forall u, x {:trigger At(o2, 3, u, x)} :: u in us && 0 <= x < Span(4) && (u != d || !(lo <= x < hi)) ==> At(o2, 3, u, x) == At(o, 3, u, x))
    && (forall u, x, m {:trigger EntAt(o2, u, x, m)} :: u in us && 0 <= x < Span(4) && 1 <= m <= 3 ==> WentAt(o, o2, r, s, d, u, x, m, lo, hi))
    && (forall x {:trigger At(o2, 3, d, x)} :: lo <= x < hi ==>
          ViewMerged(At(o, 3, r, x), At(o, 3, s, x), At(o, 3, d, x), At(o2, 3, d, x)))
  }

  ghost predicate WentAt(o: Store, o2: Store, r: Page, s: Page, d: Page, u: Page, x: nat, m: nat, lo: nat, hi: nat)
    requires Wf(o) && Wf(o2) && IsTab(o, 3, u) && IsTab(o2, 3, u) && IsTab(o, 3, r) && IsTab(o, 3, s) && x < Span(4) && m <= 3
  {
    if u == d && lo <= x < hi then
      Mixed(EntAt(o, d, x, m), EntAt(o2, d, x, m), EntAt(o, r, x, m), EntAt(o, s, x, m), Within(x, m, lo, hi))
    else
      EntAt(o2, u, x, m) == EntAt(o, u, x, m)
      || (u == s && Within(x, m, lo, hi) && EntAt(o2, u, x, m) == EntAt(o, u, x, m).(w := false))
  }

  lemma WentNothing(o: Store, us: set<Page>, r: Page, s: Page, d: Page, lo: nat)
    requires There(o, us) && r in us && s in us && d in us && r != d && s != d && lo <= Span(4)
    ensures Went(o, o, us, r, s, d, lo, lo)
  {
    hide At, EntAt, Start;
    forall u, x, m | u in us && 0 <= x < Span(4) && 1 <= m <= 3 ensures WentAt(o, o, r, s, d, u, x, m, lo, lo) { }
  }

  lemma WithinMore(x: nat, m: nat, lo: nat, hi: nat, lo2: nat, hi2: nat)
    requires x < Span(4) && m <= 3 && Within(x, m, lo, hi) && lo2 <= lo && hi <= hi2
    ensures Within(x, m, lo2, hi2) && lo2 <= x < hi2
  {
  }

  lemma WentOn(o: Store, o1: Store, o2: Store, us: set<Page>, r: Page, s: Page, d: Page, lo: nat, mid: nat, hi: nat)
    requires Went(o, o1, us, r, s, d, lo, mid) && Went(o1, o2, us, r, s, d, mid, hi)
    ensures Went(o, o2, us, r, s, d, lo, hi)
  {
    hide At, EntAt, ViewMerged, Wf, Start;
    forall u, x, m | u in us && 0 <= x < Span(4) && 1 <= m <= 3 ensures WentAt(o, o2, r, s, d, u, x, m, lo, hi) {
      assert WentAt(o, o1, r, s, d, u, x, m, lo, mid) && WentAt(o1, o2, r, s, d, u, x, m, mid, hi);
      assert WentAt(o, o1, r, s, d, s, x, m, lo, mid) && WentAt(o, o1, r, s, d, r, x, m, lo, mid);
      if Within(x, m, lo, mid) { WithinMore(x, m, lo, mid, lo, hi); }
      if Within(x, m, mid, hi) { WithinMore(x, m, mid, hi, lo, hi); }
      WithinOne(x, m, lo, mid, hi);
    }
    forall x | lo <= x < hi
      ensures ViewMerged(At(o, 3, r, x), At(o, 3, s, x), At(o, 3, d, x), At(o2, 3, d, x))
    {
      assert At(o1, 3, r, x) == At(o, 3, r, x) && At(o1, 3, s, x) == At(o, 3, s, x);
    }
  }

  lemma WithinOne(x: nat, m: nat, lo: nat, mid: nat, hi: nat)
    requires x < Span(4) && m <= 3
    ensures Within(x, m, lo, mid) ==> lo <= x < mid
    ensures Within(x, m, mid, hi) ==> mid <= x < hi
  {
  }

  /* ---------- the two changes a turn makes ---------- */

  /** What is reached through entry i of the sole way's table is one stretch of addresses. */
  lemma SoleStretch(o: Store, us: set<Page>, a: Page, va: nat, l: nat, u: Page, x: nat)
    requires There(o, us) && a in us && u in us && va < Span(4) && x < Span(4) && l <= 3 && TabSole(o, us, a, va, l)
    ensures Through(o, u, x, l, TabAt(o, 3, a, va, l), Idx(l, Low(3, va, l))) <==>
              u == a && Start(va, l) <= x < Start(va, l) + Span(l)
  {
    hide TabAt, Low, Idx, Base, Off;
    var t, i := TabAt(o, 3, a, va, l), Idx(l, Low(3, va, l));
    if Through(o, u, x, l, t, i) {
      assert u == a && x - Low(3, x, l) == va - Low(3, va, l);
      assert Low(3, x, l) == Base(l, i) + Off(l, Low(3, x, l)) && Low(3, va, l) == Base(l, i) + Off(l, Low(3, va, l));
    }
    if u == a && Start(va, l) <= x < Start(va, l) + Span(l) {
      Inside(va, x, l, l);
      SameEnt(o, a, va, x, l, l);
    }
  }

  /** Taking a whole entry is such a step. */
  lemma TookWent(o: Store, o2: Store, us: set<Page>, r: Page, s: Page, d: Page, va: nat, l: nat)
    requires There(o, us) && r in us && s in us && d in us && r != d && s != d && va < Span(4) && l <= 3 && Start(va, l) == va
    requires TabSole(o, us, d, va, l) && TabSole(o, us, s, va, l)
    requires Took(o, o2, l, TabAt(o, 3, s, va, l), TabAt(o, 3, d, va, l), Idx(l, Low(3, va, l)))
    requires EntAt(o, d, va, l) == EntAt(o, r, va, l) && EntAt(o, s, va, l).page != EntAt(o, r, va, l).page
    requires TabAt(o, 3, r, va, l) != ZERO
    ensures Went(o, o2, us, r, s, d, va, va + Span(l))
  {
    hide TabAt, Low, Idx, Base, Off, Took, EntAt, At, ViewMerged, TabSole;
    var st, dt, i := TabAt(o, 3, s, va, l), TabAt(o, 3, d, va, l), Idx(l, Low(3, va, l));
    TookRoots(o, o2, us, l, st, dt, i);
    TookEnds(o, d, va, l);
    var hi := va + Span(l);
    forall u, x | u in us && 0 <= x < Span(4) && (u != d || !(va <= x < va + Span(l))) ensures At(o2, 3, u, x) == At(o, 3, u, x) {
      SoleStretch(o, us, d, va, l, u, x);
      TookSeen(o, o2, l, st, dt, i, u, x);
    }
    forall u, x, m | u in us && 0 <= x < Span(4) && 1 <= m <= 3 ensures WentAt(o, o2, r, s, d, u, x, m, va, hi) {
      TookEntries(o, o2, us, r, s, d, va, l, u, x, m);
    }
    forall x | va <= x < va + Span(l)
      ensures ViewMerged(At(o, 3, r, x), At(o, 3, s, x), At(o, 3, d, x), At(o2, 3, d, x))
    {
      TookShows(o, o2, us, r, s, d, va, l, x);
    }
  }

  lemma TookRoots(o: Store, o2: Store, us: set<Page>, l: nat, st: Page, dt: Page, i: nat)
    requires Took(o, o2, l, st, dt, i) && There(o, us)
    ensures There(o2, us)
  {
    forall u | u in us ensures IsTab(o2, 3, u) {
      if l == 3 { assert ElseSame(o, o2, l, u, dt, Base(l, i), Base(l, i) + Span(l)); }
    }
  }

  lemma TookEnds(o: Store, d: Page, va: nat, l: nat)
    requires va < Span(4) && l <= 3 && Start(va, l) == va
    ensures va + Span(l) <= Span(4)
  {
  }

  lemma TookSeen(o: Store, o2: Store, l: nat, st: Page, dt: Page, i: nat, u: Page, x: nat)
    requires Took(o, o2, l, st, dt, i) && IsTab(o, 3, u) && x < Span(4) && !Through(o, u, x, l, dt, i)
    ensures IsTab(o2, 3, u) && At(o2, 3, u, x) == At(o, 3, u, x)
  {
    hide TabAt, Low, At;
    Seen(o, o2, l, dt, Base(l, i), Base(l, i) + Span(l), u, x);
    InSlot(l, Low(3, x, l));
  }

  lemma TookEntries(o: Store, o2: Store, us: set<Page>, r: Page, s: Page, d: Page, va: nat, l: nat, u: Page, x: nat, m: nat)
    requires There(o, us) && There(o2, us) && r in us && s in us && d in us && r != d && s != d && va < Span(4) && l <= 3 && Start(va, l) == va
    requires TabSole(o, us, d, va, l) && TabSole(o, us, s, va, l) && u in us && x < Span(4) && 1 <= m <= 3
    requires Took(o, o2, l, TabAt(o, 3, s, va, l), TabAt(o, 3, d, va, l), Idx(l, Low(3, va, l)))
    requires EntAt(o, s, va, l).page != EntAt(o, r, va, l).page
    ensures WentAt(o, o2, r, s, d, u, x, m, va, va + Span(l))
  {
    hide TabAt, Low, Idx, Base, Off, Took, EntAt, TabSole;
    var st, dt, i := TabAt(o, 3, s, va, l), TabAt(o, 3, d, va, l), Idx(l, Low(3, va, l));
    SoleStretch(o, us, d, va, l, u, x);
    SoleStretch(o, us, s, va, l, u, x);
    SoleStretch(o, us, s, va, l, s, x);
    if Through(o, u, x, l, dt, i) && m <= l {
      TookThere(o, o2, l, st, dt, i, d, s, x, m);
      if m == l {
        SameEnt(o, s, va, x, l, l);
        SameEnt(o, r, va, x, l, l);
      }
      Inside(va, x, l, l);
      WithinSmaller(va, x, m, l);
    } else {
      TookElse(o, o2, l, st, dt, i, u, x, m);
      if Through(o, u, x, l, st, i) { Inside(va, x, l, l); }
    }
  }

  /** An address shows what its entry of level l shows. */
  lemma EntShows(o: Store, a: Page, x: nat, l: nat)
    requires Wf(o) && IsTab(o, 3, a) && x < Span(4) && l <= 3 && TabAt(o, 3, a, x, l) != ZERO
    ensures Idx(l, Low(3, x, l)) < ENTRIES && Fits(o, l, EntAt(o, a, x, l).page)
    ensures At(o, 3, a, x) == At(o, l, TabAt(o, 3, a, x, l), Low(3, x, l)) == SlotView(o, l, EntAt(o, a, x, l), Off(l, Low(3, x, l)))
    ensures At(o, 3, a, x) == AtSlot(o, l, TabAt(o, 3, a, x, l), Idx(l, Low(3, x, l)), Off(l, Low(3, x, l)))
  {
    hide At, TabAt, Low, SlotView;
    AtLow(o, 3, a, x, l);
    IdxInside(l, Low(3, x, l));
    SlotAt(o, l, TabAt(o, 3, a, x, l), Idx(l, Low(3, x, l)), Off(l, Low(3, x, l)));
  }

  lemma TookShows(o: Store, o2: Store, us: set<Page>, r: Page, s: Page, d: Page, va: nat, l: nat, x: nat)
    requires There(o, us) && There(o2, us) && r in us && s in us && d in us && r != d && s != d && va < Span(4) && l <= 3 && Start(va, l) == va
    requires Took(o, o2, l, TabAt(o, 3, s, va, l), TabAt(o, 3, d, va, l), Idx(l, Low(3, va, l)))
    requires EntAt(o, d, va, l) == EntAt(o, r, va, l) && TabAt(o, 3, r, va, l) != ZERO && va <= x < va + Span(l) && x < Span(4)
    ensures ViewMerged(At(o, 3, r, x), At(o, 3, s, x), At(o, 3, d, x), At(o2, 3, d, x))
  {
    hide TabAt, Low, Idx, Base, Off, EntAt, At, ViewMerged, SlotView, SlotsOnly, SlotTaken, AtSlot, TablesKept;
    var st, dt, i := TabAt(o, 3, s, va, l), TabAt(o, 3, d, va, l), Idx(l, Low(3, va, l));
    Inside(va, x, l, l);
    SameEnt(o, r, va, x, l, l);
    SameEnt(o, s, va, x, l, l);
    SameEnt(o, d, va, x, l, l);
    TookTabs(o, o2, l, st, dt, i);
    NotZero(o, st);
    NotZero(o, dt);
    EntShows(o, r, x, l);
    EntShows(o, s, x, l);
    EntShows(o, d, x, l);
    TookSlot(o, o2, l, st, dt, i, d, x);
    ViewTaken(At(o, 3, r, x), At(o, 3, s, x), At(o, 3, d, x), At(o2, 3, d, x));
  }

  lemma TookSlot(o: Store, o2: Store, l: nat, st: Page, dt: Page, i: nat, d: Page, x: nat)
    requires Took(o, o2, l, st, dt, i) && IsTab(o, 3, d) && x < Span(4) && Through(o, d, x, l, dt, i)
    ensures IsTab(o2, 3, d) && Off(l, Low(3, x, l)) < Span(l) && At(o2, 3, d, x) == AtSlot(o, l, st, i, Off(l, Low(3, x, l)))
  {
    hide TabAt, Low, At, TablesKept;
    var z := Low(3, x, l);
    Seen(o, o2, l, dt, Base(l, i), Base(l, i) + Span(l), d, x);
    InSlot(l, z);
    assert AtSlot(o2, l, dt, i, Off(l, z)) == TakenView(o, l, st, i, dt, i, Off(l, z));
  }

  lemma WithinSmaller(va: nat, x: nat, m: nat, l: nat)
    requires va < Span(4) && x < Span(4) && m <= l <= 3 && Start(va, l) == va == Start(x, l)
    ensures Within(x, m, va, va + Span(l))
    decreases l - m
  {
  }

  lemma AboveEnt(o: Store, o2: Store, u: Page, x: nat, m: nat)
    requires Wf(o) && Wf(o2) && AboveKept(o, o2, 0) && IsTab(o, 3, u) && IsTab(o2, 3, u) && x < Span(4) && 1 <= m <= 3
    ensures EntAt(o2, u, x, m) == EntAt(o, u, x, m)
  {
    hide TabAt, Low;
    IdxInside(m, Low(3, x, m));
    TabKept(o, o2, 3, u, x, m);
  }

  /** Merging a page is such a step. */
  lemma LeafWent(o: Store, o2: Store, us: set<Page>, r: Page, s: Page, d: Page, va: nat, p0: seq<Byte>)
    requires There(o, us) && r in us && s in us && d in us && r != d && s != d && va < Span(4) && TabSole(o, us, d, va, 0)
    requires TabAt(o, 3, r, va, 0) != ZERO && TabAt(o, 3, s, va, 0) != ZERO && TabAt(o, 3, d, va, 0) != ZERO
    requires Low(3, va, 0) < ENTRIES && |p0| == PAGESIZE && SlotsOnly(o, o2, 0, TabAt(o, 3, d, va, 0), Low(3, va, 0), Low(3, va, 0) + 1)
    requires SlotViewMerged(o, o2, p0, TabAt(o, 3, r, va, 0), TabAt(o, 3, s, va, 0), Low(3, va, 0), TabAt(o, 3, d, va, 0), Low(3, va, 0))
    ensures Went(o, o2, us, r, s, d, va, va + 1)
  {
    hide TabAt, Low, EntAt, At, ViewMerged, TabSole, Start, SlotsOnly;
    var dt, i := TabAt(o, 3, d, va, 0), Low(3, va, 0);
    LeafRoots(o, o2, us, dt, i);
    LeafStart(va);
    var hi := va + 1;
    forall u, x | u in us && 0 <= x < Span(4) && (u != d || !(va <= x < hi)) ensures At(o2, 3, u, x) == At(o, 3, u, x) {
      LeafStart(x);
      SoleStretch(o, us, d, va, 0, u, x);
      LeafSeen(o, o2, dt, i, u, x);
    }
    forall u, x, m | u in us && 0 <= x < Span(4) && 1 <= m <= 3 ensures WentAt(o, o2, r, s, d, u, x, m, va, hi) {
      AboveEnt(o, o2, u, x, m);
    }
    forall x | va <= x < hi ensures ViewMerged(At(o, 3, r, x), At(o, 3, s, x), At(o, 3, d, x), At(o2, 3, d, x)) {
      AtLow(o, 3, r, x, 0);
      AtLow(o, 3, s, x, 0);
      AtLow(o, 3, d, x, 0);
      LeafHere(o, o2, dt, i, d, x);
    }
  }

  lemma LeafStart(x: nat)
    requires x < Span(4)
    ensures Start(x, 0) == x && Idx(0, Low(3, x, 0)) == Low(3, x, 0)
  {
  }

  lemma LeafRoots(o: Store, o2: Store, us: set<Page>, t: Page, i: nat)
    requires SlotsOnly(o, o2, 0, t, i, i + 1) && There(o, us)
    ensures There(o2, us) && Wf(o2) && AboveKept(o, o2, 0) && IsTab(o2, 0, t)
  {
  }

  lemma LeafSeen(o: Store, o2: Store, t: Page, i: nat, u: Page, x: nat)
    requires SlotsOnly(o, o2, 0, t, i, i + 1) && IsTab(o, 3, u) && x < Span(4) && !Through(o, u, x, 0, t, i)
    ensures IsTab(o2, 3, u) && At(o2, 3, u, x) == At(o, 3, u, x)
  {
    hide TabAt, Low, At;
    Seen(o, o2, 0, t, i, i + 1, u, x);
  }

  lemma LeafHere(o: Store, o2: Store, t: Page, i: nat, u: Page, x: nat)
    requires SlotsOnly(o, o2, 0, t, i, i + 1) && IsTab(o, 3, u) && x < Span(4) && TabAt(o, 3, u, x, 0) == t && Low(3, x, 0) == i
    ensures IsTab(o2, 3, u) && i < Span(1) && At(o2, 3, u, x) == At(o2, 0, t, i)
  {
    hide TabAt, Low, At;
    Seen(o, o2, 0, t, i, i + 1, u, x);
  }

  /* ---------- when the merge as written is right ---------- */

  /** Nobody else, and nowhere else, uses what the entry of level l on the way to x names. */
  ghost predicate Sole(o: Store, us: set<Page>, a: Page, x: nat, l: nat)
    requires There(o, us) && a in us && x < Span(4) && l <= 3
  {
    forall u: Page, y: nat {:trigger EntAt(o, u, y, l)} :: u in us && y < Span(4) && EntAt(o, u, y, l).page == EntAt(o, a, x, l).page ==>
      u == a && Start(y, l) == Start(x, l)
  }

  /** Compared with the snapshot's, the entry of a is the same, or names a table that is its own; neither side lacks a table that
      the other has. */
  ghost predicate Apiece(o: Store, us: set<Page>, a: Page, r: Page, x: nat, l: nat)
    requires There(o, us) && a in us && r in us && x < Span(4) && l <= 3
  {
    var ae, re := EntAt(o, a, x, l), EntAt(o, r, x, l);
    (ae.page == re.page ==> ae == re) && (ae.page == ZERO <==> re.page == ZERO) && (ae.page != re.page ==> Sole(o, us, a, x, l))
  }

  /** An entry that goes beyond the range is not taken from the source. */
  ghost predicate Keeps(o: Store, r: Page, s: Page, d: Page, x: nat, l: nat, lo: nat, hi: nat)
    requires Wf(o) && IsTab(o, 3, r) && IsTab(o, 3, s) && IsTab(o, 3, d) && x < Span(4) && l <= 3
  {
    Within(x, l, lo, hi) || EntAt(o, s, x, l) == EntAt(o, r, x, l) || EntAt(o, d, x, l).page != EntAt(o, r, x, l).page
  }

  ghost predicate ReadyAt(o: Store, us: set<Page>, r: Page, s: Page, d: Page, x: nat, l: nat, lo: nat, hi: nat)
    requires There(o, us) && r in us && s in us && d in us && x < Span(4) && l <= 3
  {
    Apiece(o, us, d, r, x, l) && Apiece(o, us, s, r, x, l) && Keeps(o, r, s, d, x, l, lo, hi)
  }

  /** The merge of s with snapshot r into d over lo <= x < hi can go on from mid. */
  ghost predicate Ready(o: Store, us: set<Page>, r: Page, s: Page, d: Page, lo: nat, mid: nat, hi: nat)
  {
    && There(o, us) && r in us && s in us && d in us && r != d && s != d && r != s && hi <= Span(4)
    && forall x, l {:trigger EntAt(o, d, x, l)} :: mid <= x < hi && 1 <= l <= 3 ==> ReadyAt(o, us, r, s, d, x, l, lo, hi)
  }

  /** What has been merged so far does not stand in the way of the rest. */
  lemma ReadyOn(o: Store, o1: Store, us: set<Page>, r: Page, s: Page, d: Page, lo: nat, mid: nat, m2: nat, hi: nat)
    requires Ready(o, us, r, s, d, lo, mid, hi) && Went(o, o1, us, r, s, d, mid, m2) && m2 <= hi
    ensures Ready(o1, us, r, s, d, lo, m2, hi)
  {
    hide At, EntAt, ViewMerged, Wf, Start, Within;
    forall x, l | m2 <= x < hi && 1 <= l <= 3 ensures ReadyAt(o1, us, r, s, d, x, l, lo, hi) {
      assert ReadyAt(o, us, r, s, d, x, l, lo, hi);
      Beyond(o, o1, us, r, s, d, mid, m2, d, x, l);
      Beyond(o, o1, us, r, s, d, mid, m2, s, x, l);
      Beyond(o, o1, us, r, s, d, mid, m2, r, x, l);
      if EntAt(o, d, x, l).page != EntAt(o, r, x, l).page { SoleOn(o, o1, us, r, s, d, mid, m2, d, x, l); }
      if EntAt(o, s, x, l).page != EntAt(o, r, x, l).page { SoleOn(o, o1, us, r, s, d, mid, m2, s, x, l); }
    }
  }

  lemma Beyond(o: Store, o1: Store, us: set<Page>, r: Page, s: Page, d: Page, lo: nat, hi: nat, a: Page, x: nat, l: nat)
    requires Went(o, o1, us, r, s, d, lo, hi) && a in us && hi <= x < Span(4) && 1 <= l <= 3
    ensures EntAt(o1, a, x, l) == EntAt(o, a, x, l)
  {
    hide At, EntAt, ViewMerged, Start, Within;
    assert WentAt(o, o1, r, s, d, a, x, l, lo, hi);
    if Within(x, l, lo, hi) { WithinMore(x, l, lo, hi, lo, hi); assert false; }
  }

  lemma SoleOn(o: Store, o1: Store, us: set<Page>, r: Page, s: Page, d: Page, lo: nat, hi: nat, a: Page, x: nat, l: nat)
    requires Went(o, o1, us, r, s, d, lo, hi) && hi <= x < Span(4) && 1 <= l <= 3 && (a == d || a == s) && Sole(o, us, a, x, l)
    ensures Sole(o1, us, a, x, l)
  {
    hide At, EntAt, ViewMerged, Start, Within;
    Beyond(o, o1, us, r, s, d, lo, hi, a, x, l);
    forall u: Page, y: nat | u in us && y < Span(4) && EntAt(o1, u, y, l).page == EntAt(o1, a, x, l).page
      ensures u == a && Start(y, l) == Start(x, l)
    {
      assert WentAt(o, o1, r, s, d, u, y, l, lo, hi);
      var mine := EntAt(o, a, x, l).page;
      if EntAt(o, u, y, l).page != mine {
        assert u == d && EntAt(o, s, y, l).page == mine && Within(y, l, lo, hi);
        assert a == s && Start(y, l) == Start(x, l);
        NotBeyond(x, y, l, lo, hi);
      }
    }
  }

  lemma NotBeyond(x: nat, y: nat, l: nat, lo: nat, hi: nat)
    requires x < Span(4) && y < Span(4) && l <= 3 && Within(y, l, lo, hi) && Start(y, l) == Start(x, l)
    ensures x < hi
  {
  }

  /* ---------- the code ---------- */

  lemma SoleTab(o: Store, us: set<Page>, a: Page, x: nat, l: nat)
    requires There(o, us) && a in us && x < Span(4) && l < 3
    ensures TabSole(o, us, a, x, l) <==> Sole(o, us, a, x, l + 1)
  {
    hide TabAt, Low, EntAt, Start, Wf;
    EntTab(o, a, x, l + 1);
    StartLow(x, l);
    forall u: Page, y: nat | u in us && y < Span(4)
      ensures EntAt(o, u, y, l + 1).page == TabAt(o, 3, u, y, l) && Start(y, l + 1) == y - Low(3, y, l)
    {
      EntTab(o, u, y, l + 1);
      StartLow(y, l);
    }
    var k := l + 1;
    if TabSole(o, us, a, x, l) {
      forall u: Page, y: nat | u in us && y < Span(4) && EntAt(o, u, y, k).page == EntAt(o, a, x, k).page
        ensures u == a && Start(y, k) == Start(x, k)
      {
        assert TabAt(o, 3, u, y, l) == TabAt(o, 3, a, x, l);
      }
    }
    if Sole(o, us, a, x, l + 1) {
      forall u: Page, y: nat | u in us && y < Span(4) && TabAt(o, 3, u, y, l) == TabAt(o, 3, a, x, l)
        ensures u == a && y - Low(3, y, l) == x - Low(3, x, l)
      {
        assert EntAt(o, u, y, l + 1).page == EntAt(o, a, x, l + 1).page;
      }
    }
  }

  /** The merge has come to address va, which is looked up at y in tables rt, st and dt; the last two are nobody else's. */
  ghost predicate Here(o: Store, us: set<Page>, r: Page, s: Page, d: Page, va: nat, l: nat, rt: Page, st: Page, dt: Page, y: nat)
  {
    && There(o, us) && r in us && s in us && d in us && va < Span(4) && l <= 3 && y == Low(3, va, l)
    && TabAt(o, 3, r, va, l) == rt && TabAt(o, 3, s, va, l) == st && TabAt(o, 3, d, va, l) == dt
    && rt != ZERO && st != ZERO && dt != ZERO && TabSole(o, us, d, va, l) && TabSole(o, us, s, va, l)
  }

  lemma HereFacts(o: Store, us: set<Page>, r: Page, s: Page, d: Page, va: nat, l: nat, rt: Page, st: Page, dt: Page, y: nat)
    requires Here(o, us, r, s, d, va, l, rt, st, dt, y) && r != d && s != d
    ensures Wf(o) && IsTab(o, l, rt) && IsTab(o, l, st) && IsTab(o, l, dt) && st != dt && y < Span(l + 1) && Idx(l, y) < ENTRIES
    ensures EntAt(o, r, va, l) == o[rt].es[Idx(l, y)] && EntAt(o, s, va, l) == o[st].es[Idx(l, y)] && EntAt(o, d, va, l) == o[dt].es[Idx(l, y)]
    ensures Start(va, l) == va - Off(l, y)
  {
    hide TabAt, Low;
    IdxInside(l, y);
  }

  lemma HereTop(o: Store, us: set<Page>, r: Page, s: Page, d: Page, va: nat)
    requires There(o, us) && r in us && s in us && d in us && va < Span(4)
    ensures Here(o, us, r, s, d, va, 3, r, s, d, va)
  {
    TopItself(o, r, va);
    forall u | u in us ensures u != ZERO { }
  }

  /** One level down, where both sides have tables of their own. */
  lemma HereDown(o: Store, us: set<Page>, r: Page, s: Page, d: Page, va: nat, l: nat, rt: Page, st: Page, dt: Page, y: nat,
                 lo: nat, mid: nat, hi: nat)
    requires Here(o, us, r, s, d, va, l, rt, st, dt, y) && Ready(o, us, r, s, d, lo, mid, hi) && 1 <= l && mid <= va < hi
    requires EntAt(o, s, va, l) != EntAt(o, r, va, l) && EntAt(o, d, va, l) != EntAt(o, r, va, l)
    ensures Here(o, us, r, s, d, va, l - 1, EntAt(o, r, va, l).page, EntAt(o, s, va, l).page, EntAt(o, d, va, l).page, Off(l, y))
  {
    hide TabAt, Low, EntAt, Start, Within;
    assert ReadyAt(o, us, r, s, d, va, l, lo, hi);
    EntTab(o, r, va, l);
    EntTab(o, s, va, l);
    EntTab(o, d, va, l);
    NextLow(3, va, l - 1);
    SoleTab(o, us, d, va, l - 1);
    SoleTab(o, us, s, va, l - 1);
  }

  lemma MoveSole(o: Store, us: set<Page>, a: Page, va: nat, x: nat, l: nat)
    requires There(o, us) && a in us && va < Span(4) && x < Span(4) && l <= 3 && TabSole(o, us, a, va, l)
    requires TabAt(o, 3, a, x, l) == TabAt(o, 3, a, va, l) && x - Low(3, x, l) == va - Low(3, va, l)
    ensures TabSole(o, us, a, x, l)
  {
    hide TabAt, Low;
    forall u: Page, y: nat | u in us && y < Span(4) && TabAt(o, 3, u, y, l) == TabAt(o, 3, a, x, l)
      ensures u == a && y - Low(3, y, l) == x - Low(3, x, l)
    {
      assert TabAt(o, 3, u, y, l) == TabAt(o, 3, a, va, l);
    }
  }

  /** Further on in the same tables. */
  lemma HereOn(o: Store, o1: Store, us: set<Page>, r: Page, s: Page, d: Page, va: nat, l: nat, rt: Page, st: Page, dt: Page, y: nat, m: nat)
    requires Here(o, us, r, s, d, va, l, rt, st, dt, y) && Went(o, o1, us, r, s, d, va, va + m) && y + m < Span(l + 1) && m > 0
    ensures va + m < Span(4) && Here(o1, us, r, s, d, va + m, l, rt, st, dt, y + m)
  {
    hide TabAt, Low, EntAt, Start, Within, Went, TabSole, Sole;
    var x := va + m;
    assert va - y + (y + m) == x;
    SiblingLow(3, va, l, y + m);
    WentThere(o, o1, us, r, s, d, va, x);
    Sibling(o, 3, r, va, l, y + m);
    Sibling(o, 3, s, va, l, y + m);
    Sibling(o, 3, d, va, l, y + m);
    MoveSole(o, us, d, va, x, l);
    MoveSole(o, us, s, va, x, l);
    if l == 3 {
      HereTop(o1, us, r, s, d, x);
      TopItself(o, r, x);
      TopItself(o, s, x);
      TopItself(o, d, x);
    } else {
      TabOn(o, o1, us, r, s, d, va, x, r, l);
      TabOn(o, o1, us, r, s, d, va, x, s, l);
      TabOn(o, o1, us, r, s, d, va, x, d, l);
      SoleTab(o, us, d, x, l);
      SoleTab(o, us, s, x, l);
      SoleOn(o, o1, us, r, s, d, va, x, d, x, l + 1);
      SoleOn(o, o1, us, r, s, d, va, x, s, x, l + 1);
      SoleTab(o1, us, d, x, l);
      SoleTab(o1, us, s, x, l);
    }
  }

  lemma WentThere(o: Store, o1: Store, us: set<Page>, r: Page, s: Page, d: Page, lo: nat, hi: nat)
    requires Went(o, o1, us, r, s, d, lo, hi)
    ensures There(o1, us) && r in us && s in us && d in us
  {
  }

  lemma TabOn(o: Store, o1: Store, us: set<Page>, r: Page, s: Page, d: Page, lo: nat, x: nat, a: Page, l: nat)
    requires Went(o, o1, us, r, s, d, lo, x) && a in us && x < Span(4) && l < 3
    ensures There(o, us) && There(o1, us) && TabAt(o1, 3, a, x, l) == TabAt(o, 3, a, x, l)
  {
    hide TabAt, Low, EntAt, Start, Within, At, ViewMerged;
    Beyond(o, o1, us, r, s, d, lo, x, a, x, l + 1);
    EntTab(o, a, x, l + 1);
    EntTab(o1, a, x, l + 1);
  }

  /** First case: the source entry has not changed since the snapshot. */
  lemma SameWent(o: Store, us: set<Page>, r: Page, s: Page, d: Page, va: nat, l: nat, m: nat)
    requires There(o, us) && r in us && s in us && d in us && r != d && s != d && va < Span(4) && 1 <= l <= 3
    requires EntAt(o, s, va, l) == EntAt(o, r, va, l) && va + m <= Start(va, l) + Span(l)
    requires TabAt(o, 3, r, va, l) != ZERO && TabAt(o, 3, s, va, l) != ZERO
    ensures Went(o, o, us, r, s, d, va, va + m)
  {
    hide TabAt, Low, EntAt, At, ViewMerged, SlotView, AtSlot;
    var hi := va + m;
    RegionEnds(va, l);
    forall u, x, k | u in us && 0 <= x < Span(4) && 1 <= k <= 3 ensures WentAt(o, o, r, s, d, u, x, k, va, hi) { }
    forall x | va <= x < hi ensures ViewMerged(At(o, 3, r, x), At(o, 3, s, x), At(o, 3, d, x), At(o, 3, d, x)) {
      SameEnt(o, r, va, x, l, l);
      SameEnt(o, s, va, x, l, l);
      EntShows(o, r, x, l);
      EntShows(o, s, x, l);
      ViewNothing(At(o, 3, r, x), At(o, 3, s, x), At(o, 3, d, x));
    }
  }

  lemma RegionEnds(x: nat, l: nat)
    requires x < Span(4) && l <= 3
    ensures 0 <= Start(x, l) <= x && Start(x, l) + Span(l) <= Span(4)
  {
    hide Low, Idx;
    var z := Low(3, x, l);
    IdxInside(l, z);
    BaseInside(l, Idx(l, z));
    assert z == Base(l, Idx(l, z)) + Off(l, z);
    SiblingLow(3, x, l, Base(l, Idx(l, z)) + Span(l) - 1);
  }

  /** Second case: the destination entry has not changed; take the source's, which lies in the range as a whole. */
  method TakeEntry(pm: PageMaps, l: nat, st: Page, dt: Page, i: nat, ghost us: set<Page>, ghost r: Page, ghost s: Page, ghost d: Page,
                   ghost va: nat, ghost rt: Page, ghost y: nat)
    requires pm.Valid() && Here(pm.obj, us, r, s, d, va, l, rt, st, dt, y) && r != d && s != d && i == Idx(l, y) && Off(l, y) == 0
    requires EntAt(pm.obj, d, va, l) == EntAt(pm.obj, r, va, l) && EntAt(pm.obj, s, va, l).page != EntAt(pm.obj, r, va, l).page
    modifies pm`obj, pm`refc, pm`free, pm`npage, pm`held, pm`excl
    ensures pm.Valid() && pm.held == old(pm.held) && Went(old(pm.obj), pm.obj, us, r, s, d, va, va + Span(l))
  {
    hide Wf, Exact, Exclusive, FreeOk, SlotsOnly, SlotTaken, TablesKept, TabAt, Low, EntAt, Start, Went, TabSole, IsTab, Idx;
    ghost var o := pm.obj;
    HereFacts(o, us, r, s, d, va, l, rt, st, dt, y);
    ShareSlot(pm, l, st, i, dt, i);
    TookWent(o, pm.obj, us, r, s, d, va, l);
  }

  /** Third case at the lowest level, shortcuts included. */
  method MergePage(pm: PageMaps, rt: Page, st: Page, dt: Page, i: nat, ghost us: set<Page>, ghost r: Page, ghost s: Page, ghost d: Page,
                   ghost va: nat)
    requires pm.Valid() && Here(pm.obj, us, r, s, d, va, 0, rt, st, dt, i) && r != d && s != d
    modifies pm`obj, pm`refc, pm`free, pm`npage, pm`held, pm`excl
    ensures pm.Valid() && pm.held == old(pm.held) && Went(old(pm.obj), pm.obj, us, r, s, d, va, va + 1)
  {
    hide Wf, Exact, Exclusive, FreeOk, SlotsOnly, TabAt, Low, EntAt, Start, Went, TabSole, IsTab, SlotViewMerged, Zeros, At;
    ghost var o := pm.obj;
    HereFacts(o, us, r, s, d, va, 0, rt, st, dt, i);
    LowestIndex(i);
    var ok := MergeSlot(pm, Zeros(), rt, st, i, dt, i);
    LeafWent(o, pm.obj, us, r, s, d, va, Zeros());
  }

  lemma LowestIndex(i: nat)
    ensures Idx(0, i) == i && |Zeros()| == PAGESIZE
  {
  }

  /** The condition of a turn, as the code sees it. */
  lemma TurnReady(o: Store, us: set<Page>, r: Page, s: Page, d: Page, va: nat, l: nat, rt: Page, st: Page, dt: Page, y: nat,
                  lo: nat, hi: nat, n: nat)
    requires Here(o, us, r, s, d, va, l, rt, st, dt, y) && Ready(o, us, r, s, d, lo, va, hi) && 1 <= l && 0 < n && va + n <= hi && lo <= va
    requires Plan(l, y, y, n, Stretch(lo - (va - y), hi - (va - y), true))
    ensures EntAt(o, s, va, l) != EntAt(o, r, va, l) ==> EntAt(o, s, va, l).page != EntAt(o, r, va, l).page
    ensures EntAt(o, s, va, l) != EntAt(o, r, va, l) && EntAt(o, d, va, l) == EntAt(o, r, va, l) ==>
              Off(l, y) == 0 && TurnSize(l, y, n) == Span(l)
    ensures va + TurnSize(l, y, n) <= Start(va, l) + Span(l)
    ensures Plan(l - 1, Off(l, y), Off(l, y), TurnSize(l, y, n), Stretch(lo - (va - Off(l, y)), hi - (va - Off(l, y)), true))
  {
    hide TabAt, Low, EntAt, TabSole, Multiple, Sole;
    HereFacts(o, us, r, s, d, va, l, rt, st, dt, y);
    assert ReadyAt(o, us, r, s, d, va, l, lo, hi);
    var q := Stretch(lo - (va - y), hi - (va - y), true);
    PlanTurn(l, y, y, n, q);
    assert y == Base(l, Idx(l, y)) + Off(l, y);
    assert q.Down(Base(l, Idx(l, y))) == Stretch(lo - (va - Off(l, y)), hi - (va - Off(l, y)), true);
  }

  /** One turn of the loop of pmap_merge_level as written, in whatever tables it finds. */
  method WrittenTurn(pm: PageMaps, l: nat, rt: Page, st: Page, dt: Page, y: nat, n: nat, ghost us: set<Page>, ghost r: Page, ghost s: Page,
                     ghost d: Page, ghost va: nat, ghost lo: nat, ghost hi: nat)
    requires pm.Valid() && Here(pm.obj, us, r, s, d, va, l, rt, st, dt, y) && Ready(pm.obj, us, r, s, d, lo, va, hi)
    requires 0 < n && va + n <= hi && lo <= va && Plan(l, y, y, n, Stretch(lo - (va - y), hi - (va - y), true))
    modifies pm`obj, pm`refc, pm`free, pm`npage, pm`held, pm`excl
    ensures pm.Valid() && pm.held == old(pm.held) && Went(old(pm.obj), pm.obj, us, r, s, d, va, va + TurnSize(l, y, n))
    decreases l, 0
  {
    hide Wf, Exact, Exclusive, FreeOk, TabAt, Low, EntAt, Start, Went, TabSole, Here, Ready, Plan, Idx, Off, Base;
    ghost var o := pm.obj;
    HereReady(o, us, r, s, d, va, l, rt, st, dt, y, lo, va, hi);
    HereFacts(o, us, r, s, d, va, l, rt, st, dt, y);
    if l == 0 {
      LowestSize(y, n);
      MergePage(pm, rt, st, dt, y, us, r, s, d, va);
    } else {
      TurnReady(o, us, r, s, d, va, l, rt, st, dt, y, lo, hi, n);
      var i := Idx(l, y);
      var re, se, de := pm.obj[rt].es[i], pm.obj[st].es[i], pm.obj[dt].es[i];
      if se == re {
        SameWent(o, us, r, s, d, va, l, TurnSize(l, y, n));
      } else if de == re {
        TakeEntry(pm, l, st, dt, i, us, r, s, d, va, rt, y);
      } else {
        HereDown(o, us, r, s, d, va, l, rt, st, dt, y, lo, va, hi);
        WrittenLevel(pm, l - 1, re.page, se.page, de.page, Off(l, y), TurnSize(l, y, n), us, r, s, d, va, lo, hi);
      }
    }
  }

  lemma HereReady(o: Store, us: set<Page>, r: Page, s: Page, d: Page, va: nat, l: nat, rt: Page, st: Page, dt: Page, y: nat,
                  lo: nat, mid: nat, hi: nat)
    requires Here(o, us, r, s, d, va, l, rt, st, dt, y) && Ready(o, us, r, s, d, lo, mid, hi)
    ensures r != d && s != d && There(o, us) && r in us && s in us && d in us && va < Span(4) && hi <= Span(4)
    ensures TabAt(o, 3, r, va, l) != ZERO && TabAt(o, 3, s, va, l) != ZERO && l <= 3
  {
  }

  lemma LowestSize(y: nat, n: nat)
    requires n > 0
    ensures TurnSize(0, y, n) == 1
  {
  }

  /** pmap_merge_level as written. */
  method WrittenLevel(pm: PageMaps, l: nat, rt: Page, st: Page, dt: Page, y0: nat, n: nat, ghost us: set<Page>, ghost r: Page, ghost s: Page,
                      ghost d: Page, ghost va0: nat, ghost lo: nat, ghost hi: nat)
    requires pm.Valid() && Here(pm.obj, us, r, s, d, va0, l, rt, st, dt, y0) && Ready(pm.obj, us, r, s, d, lo, va0, hi)
    requires 0 < n && va0 + n <= hi && lo <= va0 && y0 + n <= Span(l + 1)
    requires Plan(l, y0, y0, n, Stretch(lo - (va0 - y0), hi - (va0 - y0), true))
    modifies pm`obj, pm`refc, pm`free, pm`npage, pm`held, pm`excl
    ensures pm.Valid() && pm.held == old(pm.held) && Went(old(pm.obj), pm.obj, us, r, s, d, va0, va0 + n)
    decreases l, 1
  {
    hide Wf, Exact, Exclusive, FreeOk, TabAt, Low, EntAt, Start, Went, TabSole, IsTab, Here, Ready, Plan, Idx, Off, Base;
    ghost var o := pm.obj;
    HereReady(o, us, r, s, d, va0, l, rt, st, dt, y0, lo, va0, hi);
    WentNothing(o, us, r, s, d, va0);
    ghost var done, b := 0, va0 - y0;
    var y := y0;
    while y < y0 + n
      invariant done <= n && (y < y0 + n <==> done < n) && (done < n ==> y == y0 + done)
      invariant pm.Valid() && pm.held == old(pm.held) && Went(o, pm.obj, us, r, s, d, va0, va0 + done)
      invariant Ready(pm.obj, us, r, s, d, lo, va0 + done, hi)
      invariant done < n ==> Here(pm.obj, us, r, s, d, va0 + done, l, rt, st, dt, y) && Plan(l, y, y, n - done, Stretch(lo - b, hi - b, true))
    {
      ghost var o1, m, va := pm.obj, TurnSize(l, y, n - done), va0 + done;
      WrittenTurn(pm, l, rt, st, dt, y, y0 + n - y, us, r, s, d, va, lo, hi);
      PlanTurn(l, y, y, n - done, Stretch(lo - b, hi - b, true));
      WentOn(o, o1, pm.obj, us, r, s, d, va0, va, va + m);
      ReadyOn(o1, pm.obj, us, r, s, d, lo, va, va + m, hi);
      if done + m < n { HereOn(o1, pm.obj, us, r, s, d, va, l, rt, st, dt, y, m); }
      y := y + Span(l);
      done := done + m;
    }
  }

  /** pmap_merge as written, over a range at the same place on both sides. */
  method MergeWritten(pm: PageMaps, r: Page, s: Page, d: Page, va: nat, n: nat, ghost us: set<Page>)
    requires pm.Valid() && Ready(pm.obj, us, r, s, d, va, va, va + n) && Plan(3, va, va, n, Stretch(va, va + n, true))
    modifies pm`obj, pm`refc, pm`free, pm`npage, pm`held, pm`excl
    ensures pm.Valid() && pm.held == old(pm.held) && Went(old(pm.obj), pm.obj, us, r, s, d, va, va + n)
  {
    hide Wf, Exact, Exclusive, FreeOk, Went, Here, Ready, Plan;
    ReadyFacts(pm.obj, us, r, s, d, va, va, va + n);
    if n == 0 {
      WentNothing(pm.obj, us, r, s, d, va);
    } else {
      HereTop(pm.obj, us, r, s, d, va);
      WrittenLevel(pm, 3, r, s, d, va, n, us, r, s, d, va, va, va + n);
    }
  }

  lemma ReadyFacts(o: Store, us: set<Page>, r: Page, s: Page, d: Page, lo: nat, mid: nat, hi: nat)
    requires Ready(o, us, r, s, d, lo, mid, hi)
    ensures There(o, us) && r in us && s in us && d in us && r != d && s != d && hi <= Span(4)
  {
  }

  /* ---------- joining the children one after another ---------- */

  /** From child i on, everything is apiece with every snapshot; us are the spaces that count. */
  ghost predicate JoinReady(o: Store, us: set<Page>, rs: seq<Page>, cs: seq<Page>, d: Page, i: nat, lo: nat, hi: nat)
  {
    && There(o, us) && d in us && |rs| == |cs| && i <= |cs| && lo <= hi <= Span(4)
    && (forall j :: i <= j < |cs| ==> Parties(us, rs[j], cs[j], d))
    && (forall j, k :: i <= j < |cs| && i <= k < |cs| ==> rs[j] != cs[k] && (j != k ==> cs[j] != cs[k]))
    && (forall j, k :: i <= j < |cs| && i <= k < |cs| ==> AllApiece(o, us, cs[j], rs[k], lo, hi))
    && (forall k :: i <= k < |cs| ==> AllApiece(o, us, d, rs[k], lo, hi))
    && (forall k :: i <= k < |cs| ==> AllKeep(o, us, rs[k], cs[k], d, lo, hi))
  }

  predicate Parties(us: set<Page>, r: Page, c: Page, d: Page) { r in us && c in us && r != d && c != d }

  ghost predicate AllApiece(o: Store, us: set<Page>, a: Page, r: Page, lo: nat, hi: nat)
  {
    There(o, us) && a in us && r in us && hi <= Span(4)
    && forall x, l {:trigger EntAt(o, a, x, l)} :: lo <= x < hi && 1 <= l <= 3 ==> Apiece(o, us, a, r, x, l)
  }

  ghost predicate AllKeep(o: Store, us: set<Page>, r: Page, s: Page, d: Page, lo: nat, hi: nat)
  {
    There(o, us) && r in us && s in us && d in us && hi <= Span(4)
    && forall x, l {:trigger EntAt(o, d, x, l)} :: lo <= x < hi && 1 <= l <= 3 ==> Keeps(o, r, s, d, x, l, lo, hi)
  }

  lemma FirstReady(o: Store, us: set<Page>, rs: seq<Page>, cs: seq<Page>, d: Page, i: nat, lo: nat, hi: nat)
    requires JoinReady(o, us, rs, cs, d, i, lo, hi) && i < |cs|
    ensures Ready(o, us, rs[i], cs[i], d, lo, lo, hi)
  {
    hide Apiece, Keeps, EntAt, Wf;
    assert Parties(us, rs[i], cs[i], d);
    assert AllApiece(o, us, cs[i], rs[i], lo, hi) && AllApiece(o, us, d, rs[i], lo, hi) && AllKeep(o, us, rs[i], cs[i], d, lo, hi);
    forall x, l | lo <= x < hi && 1 <= l <= 3 ensures ReadyAt(o, us, rs[i], cs[i], d, x, l, lo, hi) {
      var e, f := EntAt(o, d, x, l), EntAt(o, cs[i], x, l);
    }
  }

  /** After a merge the entry is apiece with the other snapshots as well, if the source's and the destination's were. */
  lemma ApieceOn(o: Store, o2: Store, us: set<Page>, r: Page, s: Page, d: Page, lo: nat, hi: nat, a: Page, r2: Page, x: nat, l: nat)
    requires Went(o, o2, us, r, s, d, lo, hi) && lo <= x < hi && 1 <= l <= 3 && a in us - {s} && r2 in us - {s} && r2 != d
    requires Apiece(o, us, a, r2, x, l) && Apiece(o, us, s, r2, x, l) && Apiece(o, us, d, r2, x, l) && Apiece(o, us, s, r, x, l)
    ensures There(o2, us - {s}) && Apiece(o2, us - {s}, a, r2, x, l)
  {
    hide At, EntAt, ViewMerged, Start, Within, Sole;
    assert WentAt(o, o2, r, s, d, r2, x, l, lo, hi) && WentAt(o, o2, r, s, d, a, x, l, lo, hi);
    var se, re, re2 := EntAt(o, s, x, l), EntAt(o, r, x, l), EntAt(o, r2, x, l);
    if se.page != re.page && se.page == re2.page { SoleElse(o, us, s, x, l, r2); assert false; }
    if EntAt(o2, a, x, l).page != re2.page {
      if a != d || EntAt(o2, a, x, l).page == EntAt(o, a, x, l).page {
        SoleKept(o, o2, us, r, s, d, lo, hi, a, x, l);
      } else {
        SoleTaken(o, o2, us, r, s, d, lo, hi, x, l);
      }
    }
  }

  lemma SoleElse(o: Store, us: set<Page>, a: Page, x: nat, l: nat, u: Page)
    requires There(o, us) && a in us && u in us && u != a && x < Span(4) && l <= 3 && Sole(o, us, a, x, l)
    ensures EntAt(o, u, x, l).page != EntAt(o, a, x, l).page
  {
  }

  lemma SoleKept(o: Store, o2: Store, us: set<Page>, r: Page, s: Page, d: Page, lo: nat, hi: nat, a: Page, x: nat, l: nat)
    requires Went(o, o2, us, r, s, d, lo, hi) && x < Span(4) && 1 <= l <= 3 && a in us - {s} && Sole(o, us, a, x, l)
    requires EntAt(o2, a, x, l).page == EntAt(o, a, x, l).page
    ensures There(o2, us - {s}) && Sole(o2, us - {s}, a, x, l)
  {
    hide At, EntAt, ViewMerged, Start, Within;
    forall u: Page, y: nat | u in us - {s} && y < Span(4) && EntAt(o2, u, y, l).page == EntAt(o2, a, x, l).page
      ensures u == a && Start(y, l) == Start(x, l)
    {
      assert WentAt(o, o2, r, s, d, u, y, l, lo, hi);
      var mine, source := EntAt(o, u, y, l).page, EntAt(o, s, y, l).page;
    }
  }

  lemma SoleTaken(o: Store, o2: Store, us: set<Page>, r: Page, s: Page, d: Page, lo: nat, hi: nat, x: nat, l: nat)
    requires Went(o, o2, us, r, s, d, lo, hi) && x < Span(4) && 1 <= l <= 3 && Sole(o, us, s, x, l)
    requires EntAt(o2, d, x, l).page == EntAt(o, s, x, l).page
    ensures There(o2, us - {s}) && Sole(o2, us - {s}, d, x, l)
  {
    hide At, EntAt, ViewMerged, Start, Within;
    forall u: Page, y: nat | u in us - {s} && y < Span(4) && EntAt(o2, u, y, l).page == EntAt(o2, d, x, l).page
      ensures u == d && Start(y, l) == Start(x, l)
    {
      assert WentAt(o, o2, r, s, d, u, y, l, lo, hi);
      var mine, source := EntAt(o, u, y, l).page, EntAt(o, s, y, l).page;
    }
  }

  lemma KeepsOn(o: Store, o2: Store, us: set<Page>, r: Page, s: Page, d: Page, lo: nat, hi: nat, r2: Page, c: Page, x: nat, l: nat)
    requires Went(o, o2, us, r, s, d, lo, hi) && lo <= x < hi && 1 <= l <= 3 && c in us - {s} && r2 in us - {s} && r2 != d && c != d
    requires Keeps(o, r2, c, d, x, l, lo, hi)
    ensures Keeps(o2, r2, c, d, x, l, lo, hi)
  {
    hide At, EntAt, ViewMerged, Start, Within;
    assert WentAt(o, o2, r, s, d, r2, x, l, lo, hi) && WentAt(o, o2, r, s, d, c, x, l, lo, hi) && WentAt(o, o2, r, s, d, d, x, l, lo, hi);
  }

  lemma AllApieceOn(o: Store, o2: Store, us: set<Page>, r: Page, s: Page, d: Page, lo: nat, hi: nat, a: Page, r2: Page)
    requires Went(o, o2, us, r, s, d, lo, hi) && a in us - {s} && r2 in us - {s} && r2 != d
    requires AllApiece(o, us, a, r2, lo, hi) && AllApiece(o, us, s, r2, lo, hi) && AllApiece(o, us, d, r2, lo, hi) && AllApiece(o, us, s, r, lo, hi)
    ensures AllApiece(o2, us - {s}, a, r2, lo, hi)
  {
    hide At, EntAt, ViewMerged, Start, Apiece, Within;
    forall x, l | lo <= x < hi && 1 <= l <= 3 ensures Apiece(o2, us - {s}, a, r2, x, l) {
      var e, f, g := EntAt(o, a, x, l), EntAt(o, s, x, l), EntAt(o, d, x, l);
      ApieceOn(o, o2, us, r, s, d, lo, hi, a, r2, x, l);
    }
  }

  lemma AllKeepOn(o: Store, o2: Store, us: set<Page>, r: Page, s: Page, d: Page, lo: nat, hi: nat, r2: Page, c: Page)
    requires Went(o, o2, us, r, s, d, lo, hi) && c in us - {s} && r2 in us - {s} && r2 != d && c != d && AllKeep(o, us, r2, c, d, lo, hi)
    ensures AllKeep(o2, us - {s}, r2, c, d, lo, hi)
  {
    hide At, EntAt, ViewMerged, Start, Keeps, Within;
    forall x, l | lo <= x < hi && 1 <= l <= 3 ensures Keeps(o2, r2, c, d, x, l, lo, hi) {
      var e := EntAt(o, d, x, l);
      KeepsOn(o, o2, us, r, s, d, lo, hi, r2, c, x, l);
    }
  }

  /** The next merge finds what it needs, once the child just merged no longer counts. */
  lemma NextReady(o: Store, o2: Store, us: set<Page>, rs: seq<Page>, cs: seq<Page>, d: Page, i: nat, lo: nat, hi: nat)
    requires JoinReady(o, us, rs, cs, d, i, lo, hi) && i < |cs| && Went(o, o2, us, rs[i], cs[i], d, lo, hi)
    ensures JoinReady(o2, us - {cs[i]}, rs, cs, d, i + 1, lo, hi)
  {
    hide AllApiece, AllKeep, Went, Wf;
    var s, us2 := cs[i], us - {cs[i]};
    assert Parties(us, rs[i], cs[i], d);
    WentThere(o, o2, us, rs[i], s, d, lo, hi);
    forall j | i + 1 <= j < |cs| ensures Parties(us2, rs[j], cs[j], d) { assert Parties(us, rs[j], cs[j], d); }
    forall j, k | i + 1 <= j < |cs| && i + 1 <= k < |cs| ensures AllApiece(o2, us2, cs[j], rs[k], lo, hi) {
      assert Parties(us, rs[j], cs[j], d) && Parties(us, rs[k], cs[k], d);
      AllApieceOn(o, o2, us, rs[i], s, d, lo, hi, cs[j], rs[k]);
    }
    forall k | i + 1 <= k < |cs| ensures AllApiece(o2, us2, d, rs[k], lo, hi) && AllKeep(o2, us2, rs[k], cs[k], d, lo, hi) {
      assert Parties(us, rs[k], cs[k], d);
      AllApieceOn(o, o2, us, rs[i], s, d, lo, hi, d, rs[k]);
      AllKeepOn(o, o2, us, rs[i], s, d, lo, hi, rs[k], cs[k]);
    }
  }

  /** The joining so far: what the spaces of us other than d show has not changed. */
  ghost predicate SoFar(o: Store, us: set<Page>, os: seq<Store>, o2: Store, rs: seq<Page>, cs: seq<Page>, d: Page, va: nat, n: nat, i: nat)
  {
    && Steps(os, rs, cs, d, va, n, i) && os[0] == o && os[i] == o2 && There(o, us) && There(o2, us)
    && forall u, x {:trigger At(o2, 3, u, x)} :: u in us && u != d && 0 <= x < Span(4) ==> At(o2, 3, u, x) == At(o, 3, u, x)
  }

  lemma JoinedNone(o: Store, us: set<Page>, rs: seq<Page>, cs: seq<Page>, d: Page, va: nat, n: nat) returns (os: seq<Store>)
    requires There(o, us) && |rs| == |cs|
    ensures SoFar(o, us, os, o, rs, cs, d, va, n, 0)
  {
    os := [o];
  }

  /** The spaces that count while child i is being merged. */
  function Counting(us: set<Page>, cs: seq<Page>, i: nat): set<Page>
    requires i <= |cs|
  {
    us - (set j | 0 <= j < i :: cs[j])
  }

  lemma CountingNext(us: set<Page>, cs: seq<Page>, i: nat)
    requires i < |cs|
    ensures Counting(us, cs, 0) == us && Counting(us, cs, i + 1) == Counting(us, cs, i) - {cs[i]}
  {
  }

  lemma WrittenStep(o: Store, o2: Store, us: set<Page>, rs: seq<Page>, cs: seq<Page>, d: Page, i: nat, va: nat, n: nat)
    requires JoinReady(o, us, rs, cs, d, i, va, va + n) && i < |cs| && Went(o, o2, us, rs[i], cs[i], d, va, va + n)
    ensures JoinedOne(o, o2, rs[i], cs[i], d, Rest(rs, cs, i), va, n)
  {
    hide At, EntAt, ViewMerged, AllApiece, AllKeep, Wf, Start, Within;
    assert Parties(us, rs[i], cs[i], d);
    var rest := Rest(rs, cs, i);
    RestParties(us, rs, cs, d, i);
    forall x | va <= x < va + n ensures PagesAt(o2, rest, x) == PagesAt(o, rest, x) {
      forall k | 0 <= k < |rest| ensures At(o2, 3, rest[k], x) == At(o, 3, rest[k], x) { assert rest[k] in us && rest[k] != d; }
    }
  }

  lemma RestParties(us: set<Page>, rs: seq<Page>, cs: seq<Page>, d: Page, i: nat)
    requires |rs| == |cs| && i < |cs| && forall j :: i <= j < |cs| ==> Parties(us, rs[j], cs[j], d)
    ensures forall u :: u in Rest(rs, cs, i) ==> u in us && u != d
  {
    var rest := Rest(rs, cs, i);
    forall u | u in rest ensures u in us && u != d {
      var k :| 0 <= k < |rest| && rest[k] == u;
      var j := if k < |rs| - i - 1 then i + 1 + k else i + 1 + (k - (|rs| - i - 1));
      assert Parties(us, rs[j], cs[j], d);
    }
  }

  lemma JoinedMore(o: Store, us: set<Page>, os: seq<Store>, o1: Store, o2: Store, rs: seq<Page>, cs: seq<Page>, d: Page, va: nat, n: nat, i: nat)
    returns (qs: seq<Store>)
    requires i < |cs| && JoinReady(o1, Counting(us, cs, i), rs, cs, d, i, va, va + n)
    requires SoFar(o, Counting(us, cs, i), os, o1, rs, cs, d, va, n, i)
    requires Went(o1, o2, Counting(us, cs, i), rs[i], cs[i], d, va, va + n)
    ensures SoFar(o, Counting(us, cs, i + 1), qs, o2, rs, cs, d, va, n, i + 1)
    ensures JoinReady(o2, Counting(us, cs, i + 1), rs, cs, d, i + 1, va, va + n)
  {
    hide At, EntAt, ViewMerged, JoinedOne, JoinReady, Rest, Start, Within, Wf;
    var now := Counting(us, cs, i);
    Lengths(o1, now, rs, cs, d, i, va, va + n);
    CountingNext(us, cs, i);
    NextReady(o1, o2, now, rs, cs, d, i, va, va + n);
    WrittenStep(o1, o2, now, rs, cs, d, i, va, n);
    MoreSteps(os, o2, rs, cs, d, va, n, i);
    qs := os + [o2];
    forall u, x | u in now - {cs[i]} && u != d && 0 <= x < Span(4) ensures At(o2, 3, u, x) == At(o, 3, u, x) {
      assert At(o2, 3, u, x) == At(o1, 3, u, x);
    }
  }

  lemma Lengths(o: Store, us: set<Page>, rs: seq<Page>, cs: seq<Page>, d: Page, i: nat, lo: nat, hi: nat)
    requires JoinReady(o, us, rs, cs, d, i, lo, hi)
    ensures |rs| == |cs| && There(o, us) && d in us && hi <= Span(4)
  {
  }

  /** Joining all children by the merge as written.  The result is the join of what was written, and every snapshot, and every
      space of us but d and the children, shows in the end what it showed; a child that has been merged need not. */
  method JoinWritten(pm: PageMaps, rs: seq<Page>, cs: seq<Page>, d: Page, va: nat, n: nat, ghost us: set<Page>) returns (ghost os: seq<Store>)
    requires pm.Valid() && JoinReady(pm.obj, us, rs, cs, d, 0, va, va + n) && Plan(3, va, va, n, Stretch(va, va + n, true))
    modifies pm`obj, pm`refc, pm`free, pm`npage, pm`held, pm`excl
    ensures pm.Valid() && pm.held == old(pm.held)
    ensures ChainFrom(os, old(pm.obj), pm.obj, rs, cs, d, va, n) && JoinShown(old(pm.obj), pm.obj, rs, cs, d, va, n)
    ensures There(old(pm.obj), us) && There(pm.obj, Counting(us, cs, |cs|))
    ensures forall u, x :: u in Counting(us, cs, |cs|) && u != d && 0 <= x < Span(4) ==> At(pm.obj, 3, u, x) == At(old(pm.obj), 3, u, x)
  {
    hide Wf, Exact, Exclusive, FreeOk, Went, Ready, Plan, JoinReady, SoFar, ChainFrom, JoinShown, Counting, IsTab, There, At;
    ghost var o := pm.obj;
    Lengths(o, us, rs, cs, d, 0, va, va + n);
    NoneCounted(us, cs);
    os := JoinedNone(o, us, rs, cs, d, va, n);
    var i := 0;
    while i < |cs|
      invariant i <= |cs| && pm.Valid() && pm.held == old(pm.held)
      invariant JoinReady(pm.obj, Counting(us, cs, i), rs, cs, d, i, va, va + n)
      invariant SoFar(o, Counting(us, cs, i), os, pm.obj, rs, cs, d, va, n, i)
    {
      ghost var o1, now := pm.obj, Counting(us, cs, i);
      FirstReady(o1, now, rs, cs, d, i, va, va + n);
      MergeWritten(pm, rs[i], cs[i], d, va, n, now);
      os := JoinedMore(o, us, os, o1, pm.obj, rs, cs, d, va, n, i);
      i := i + 1;
    }
    AllJoined(o, us, os, pm.obj, rs, cs, d, va, n);
  }

  lemma NoneCounted(us: set<Page>, cs: seq<Page>)
    ensures Counting(us, cs, 0) == us
  {
  }

  lemma AllJoined(o: Store, us: set<Page>, os: seq<Store>, o2: Store, rs: seq<Page>, cs: seq<Page>, d: Page, va: nat, n: nat)
    requires SoFar(o, Counting(us, cs, |cs|), os, o2, rs, cs, d, va, n, |cs|) && JoinReady(o, us, rs, cs, d, 0, va, va + n)
    ensures ChainFrom(os, o, o2, rs, cs, d, va, n) && JoinShown(o, o2, rs, cs, d, va, n)
    ensures There(o, us) && There(o2, Counting(us, cs, |cs|))
    ensures forall u, x :: u in Counting(us, cs, |cs|) && u != d && 0 <= x < Span(4) ==> At(o2, 3, u, x) == At(o, 3, u, x)
  {
    hide At, JoinedOne, JoinShown, AllApiece, AllKeep;
    forall r | r in rs ensures IsTab(o, 3, r) {
      var j :| 0 <= j < |rs| && rs[j] == r;
      assert Parties(us, rs[j], cs[j], d);
    }
    forall c | c in cs ensures IsTab(o, 3, c) {
      var j :| 0 <= j < |cs| && cs[j] == c;
      assert Parties(us, rs[j], cs[j], d);
    }
    ChainShows(os, rs, cs, d, va, n);
  }

  /** Tables with a single reference on the way make an entry apiece: a caller can tell by the counts. */
  lemma LoneApiece(o: Store, refc: map<Page, int>, us: set<Page>, a: Page, r: Page, x: nat, l: nat)
    requires Quiet(o, refc, us) && There(o, us) && a in us && r in us && a != r && x < Span(4) && 1 <= l <= 3
    requires EntAt(o, a, x, l).page != ZERO && EntAt(o, r, x, l).page != ZERO && Lone(o, refc, a, x, l - 1)
    ensures Apiece(o, us, a, r, x, l)
  {
    hide TabAt, Low, EntAt, Start, Lone, Quiet;
    EntTab(o, a, x, l);
    StartLow(x, l - 1);
    forall u: Page, y: nat | u in us && y < Span(4) && EntAt(o, u, y, l).page == EntAt(o, a, x, l).page
      ensures u == a && Start(y, l) == Start(x, l)
    {
      EntTab(o, u, y, l);
      StartLow(y, l - 1);
      OnlyWay(o, refc, us, a, x, l - 1, u, y);
    }
  }

  /** Compared with the snapshot's, the entry is the same, or names a table to which single references lead. */
  ghost predicate Counted(o: Store, refc: map<Page, int>, us: set<Page>, a: Page, r: Page, x: nat, l: nat)
    requires There(o, us) && a in us && r in us && x < Span(4) && 1 <= l <= 3
  {
    EntAt(o, a, x, l) == EntAt(o, r, x, l)
    || (EntAt(o, a, x, l).page != ZERO && EntAt(o, r, x, l).page != ZERO && Lone(o, refc, a, x, l - 1))
  }

  ghost predicate AllCounted(o: Store, refc: map<Page, int>, us: set<Page>, a: Page, r: Page, lo: nat, hi: nat)
  {
    There(o, us) && a in us && r in us && a != r && hi <= Span(4)
    && forall x, l {:trigger EntAt(o, a, x, l)} :: lo <= x < hi && 1 <= l <= 3 ==> Counted(o, refc, us, a, r, x, l)
  }

  lemma CountedApiece(o: Store, refc: map<Page, int>, us: set<Page>, a: Page, r: Page, lo: nat, hi: nat)
    requires Quiet(o, refc, us) && AllCounted(o, refc, us, a, r, lo, hi)
    ensures AllApiece(o, us, a, r, lo, hi)
  {
    hide EntAt, Sole, Lone, Quiet;
    forall x, l | lo <= x < hi && 1 <= l <= 3 ensures Apiece(o, us, a, r, x, l) {
      if EntAt(o, a, x, l) != EntAt(o, r, x, l) {
        assert Counted(o, refc, us, a, r, x, l);
        LoneApiece(o, refc, us, a, r, x, l);
      }
    }
  }

  /** The condition of the join by the counts: every directory of the children and of d on the way is the snapshots' or reached
      by single references, and no entry that goes beyond the range would be taken. */
  lemma ReadyByCounts(o: Store, refc: map<Page, int>, us: set<Page>, rs: seq<Page>, cs: seq<Page>, d: Page, lo: nat, hi: nat)
    requires Quiet(o, refc, us) && There(o, us) && d in us && |rs| == |cs| && lo <= hi <= Span(4)
    requires forall j :: 0 <= j < |cs| ==> Parties(us, rs[j], cs[j], d) && AllKeep(o, us, rs[j], cs[j], d, lo, hi)
    requires forall j, k :: 0 <= j < |cs| && 0 <= k < |cs| ==> rs[j] != cs[k] && (j != k ==> cs[j] != cs[k])
    requires forall j, k :: 0 <= j < |cs| && 0 <= k < |cs| ==> AllCounted(o, refc, us, cs[j], rs[k], lo, hi)
    requires forall k :: 0 <= k < |cs| ==> AllCounted(o, refc, us, d, rs[k], lo, hi)
    ensures JoinReady(o, us, rs, cs, d, 0, lo, hi)
  {
    hide Quiet, AllCounted, AllApiece, AllKeep;
    forall j, k | 0 <= j < |cs| && 0 <= k < |cs| ensures AllApiece(o, us, cs[j], rs[k], lo, hi) {
      CountedApiece(o, refc, us, cs[j], rs[k], lo, hi);
    }
    forall k | 0 <= k < |cs| ensures AllApiece(o, us, d, rs[k], lo, hi) { CountedApiece(o, refc, us, d, rs[k], lo, hi); }
  }
}
