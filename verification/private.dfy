/** When a copy may work inside existing destination tables: no shared table on the way, at any address of the
    range. */
module Private {
  import opened Paging
  import opened PageMem
  import opened Views

  /** A destination range lo <= x < hi (relative to a table) whose distance to the source is a multiple of Span(a). */
  datatype Range = Range(lo: int, hi: int, a: nat) {
    function Down(b: int): Range { Range(lo - b, hi - b, a) }
    /** The copy replaces entry i of a table of this level as a whole. */
    predicate Whole(level: nat, i: nat)
      requires level <= 3
    {
      level <= a && lo <= Base(level, i) && Base(level, i) + Span(level) <= hi
    }
  }

  /** On the way from t to y the copy meets, up to the entry it replaces as a whole, only missing tables and
      tables entered through PTE_W. */
  predicate PrivAt(o: Store, level: nat, t: Page, y: nat, r: Range)
    requires Wf(o) && IsTab(o, level, t) && level <= 3 && y < Span(level + 1)
    decreases level
  {
    IdxInside(level, y);
    var i := Idx(level, y);
    var e := Entry(o, level, t, i);
    level == 0 || r.Whole(level, i) || e.page == ZERO ||
    (e.w && PrivAt(o, level - 1, e.page, Off(level, y), r.Down(Base(level, i))))
  }

  /** Table u is no less private than it was. */
  ghost predicate PrivKept(o: Store, o': Store, level: nat, u: Page)
  {
    && Wf(o) && Wf(o') && level <= 3 && IsTab(o, level, u) && IsTab(o', level, u)
    && forall y, r :: 0 <= y < Span(level + 1) && PrivAt(o, level, u, y, r) ==> PrivAt(o', level, u, y, r)
  }

  /** Table u, and all that is reached from it through PTE_W, is untouched. */
  ghost predicate TreeKept(o: Store, o': Store, level: nat, u: Page)
    requires Wf(o) && level <= 3 && IsTab(o, level, u)
    decreases level
  {
    && u in o' && o'[u] == o[u]
    && (level > 0 ==> forall j :: 0 <= j < ENTRIES && Entry(o, level, u, j).w ==> TreeKept(o, o', level - 1, o[u].es[j].page))
  }

  /** So it is for entry j of t. */
  ghost predicate EntryKept(o: Store, o': Store, level: nat, t: Page, j: nat)
    requires Wf(o) && level <= 3 && IsTab(o, level, t) && j < ENTRIES
  {
    && IsTab(o', level, t) && o'[t].es[j] == o[t].es[j]
    && (level > 0 && Entry(o, level, t, j).w ==> TreeKept(o, o', level - 1, o[t].es[j].page))
  }

  /** Exclusive tables of this level, other than t, are untouched with everything private below them. */
  ghost predicate PeersTree(o: Store, x: set<Page>, o': Store, level: nat, t: Page)
  {
    Wf(o) && level <= 3 && forall u :: u in x && IsTab(o, level, u) && u != t ==> TreeKept(o, o', level, u)
  }

  /** What a change below entry i of t leaves private: the peers of t, the other entries, and t as far as it was. */
  ghost predicate LevelPriv(o: Store, x: set<Page>, o': Store, level: nat, t: Page, i: nat)
  {
    && PeersTree(o, x, o', level, t) && PrivKept(o, o', level, t)
    && (forall j :: 0 <= j < ENTRIES && j != i ==> EntryKept(o, o', level, t, j))
  }

  lemma {:induction false} TreeRefl(o: Store, level: nat, u: Page)
    requires Wf(o) && level <= 3 && IsTab(o, level, u)
    ensures TreeKept(o, o, level, u)
    decreases level
  {
    if level > 0 {
      forall j | 0 <= j < ENTRIES && Entry(o, level, u, j).w ensures TreeKept(o, o, level - 1, o[u].es[j].page) {
        TreeRefl(o, level - 1, o[u].es[j].page);
      }
    }
  }

  lemma {:induction false} TreeTrans(o: Store, o1: Store, o2: Store, level: nat, u: Page)
    requires Wf(o) && Wf(o1) && level <= 3 && IsTab(o, level, u) && TreeKept(o, o1, level, u)
    requires IsTab(o1, level, u) && TreeKept(o1, o2, level, u)
    ensures TreeKept(o, o2, level, u)
    decreases level
  {
    if level > 0 {
      forall j | 0 <= j < ENTRIES && Entry(o, level, u, j).w ensures TreeKept(o, o2, level - 1, o[u].es[j].page) {
        assert Entry(o1, level, u, j) == Entry(o, level, u, j);
        TreeTrans(o, o1, o2, level - 1, o[u].es[j].page);
      }
    }
  }

  lemma EntryTrans(o: Store, o1: Store, o2: Store, level: nat, t: Page, j: nat)
    requires Wf(o) && Wf(o1) && level <= 3 && IsTab(o, level, t) && j < ENTRIES && EntryKept(o, o1, level, t, j)
    requires EntryKept(o1, o2, level, t, j)
    ensures EntryKept(o, o2, level, t, j)
  {
    if level > 0 && Entry(o, level, t, j).w {
      assert Entry(o1, level, t, j) == Entry(o, level, t, j);
      TreeTrans(o, o1, o2, level - 1, o[t].es[j].page);
    }
  }

  lemma {:induction false} TreeLow(o: Store, o': Store, level: nat, u: Page, v: Page)
    requires Wf(o) && Wf(o') && level <= 3 && LowSame(o, o', level, v) && IsTab(o, level, u) && u != v
    requires v in o ==> IsTab(o, level, v)
    ensures TreeKept(o, o', level, u)
    decreases level
  {
    if level > 0 {
      forall j | 0 <= j < ENTRIES && Entry(o, level, u, j).w ensures TreeKept(o, o', level - 1, o[u].es[j].page) {
        TreeLow(o, o', level - 1, o[u].es[j].page, ZERO);
      }
    }
  }

  lemma {:induction false} TreeShrunk(o: Store, o': Store, level: nat, u: Page)
    requires Wf(o) && Wf(o') && Shrunk(o, o') && level <= 3 && IsTab(o', level, u)
    ensures IsTab(o, level, u) && TreeKept(o, o', level, u)
    decreases level
  {
    if level > 0 {
      forall j | 0 <= j < ENTRIES && Entry(o, level, u, j).w ensures TreeKept(o, o', level - 1, o[u].es[j].page) {
        EntryFits(o', level, u, j);
        TreeShrunk(o, o', level - 1, o[u].es[j].page);
      }
    }
  }

  lemma {:induction false} TreePrivAt(o: Store, o': Store, level: nat, u: Page, y: nat, r: Range)
    requires Wf(o) && Wf(o') && level <= 3 && IsTab(o, level, u) && IsTab(o', level, u) && TreeKept(o, o', level, u)
    requires y < Span(level + 1) && PrivAt(o, level, u, y, r)
    ensures PrivAt(o', level, u, y, r)
    decreases level
  {
    IdxInside(level, y);
    var i := Idx(level, y);
    var e := Entry(o, level, u, i);
    if level > 0 && !r.Whole(level, i) && e.page != ZERO {
      EntryFits(o', level, u, i);
      TreePrivAt(o, o', level - 1, e.page, Off(level, y), r.Down(Base(level, i)));
    }
  }

  lemma TreePriv(o: Store, o': Store, level: nat, u: Page)
    requires Wf(o) && Wf(o') && level <= 3 && IsTab(o, level, u) && TreeKept(o, o', level, u)
    ensures PrivKept(o, o', level, u)
  {
    forall y, r | 0 <= y < Span(level + 1) && PrivAt(o, level, u, y, r) ensures PrivAt(o', level, u, y, r) {
      TreePrivAt(o, o', level, u, y, r);
    }
  }

  lemma PrivRefl(o: Store, x: set<Page>, level: nat, t: Page, i: nat)
    requires Wf(o) && level <= 3 && IsTab(o, level, t)
    ensures LevelPriv(o, x, o, level, t, i)
  {
    forall u | IsTab(o, level, u) ensures TreeKept(o, o, level, u) { TreeRefl(o, level, u); }
    forall j | 0 <= j < ENTRIES ensures EntryKept(o, o, level, t, j) {
      if level > 0 && Entry(o, level, t, j).w { TreeRefl(o, level - 1, o[t].es[j].page); }
    }
  }

  lemma PeersTreeTrans(o: Store, x: set<Page>, o1: Store, x1: set<Page>, o2: Store, level: nat, t: Page)
    requires PeersTree(o, x, o1, level, t) && PeersTree(o1, x1, o2, level, t) && HighExcl(o, x, x1, level)
    ensures PeersTree(o, x, o2, level, t)
  {
    forall u | u in x && IsTab(o, level, u) && u != t ensures TreeKept(o, o2, level, u) {
      assert TreeKept(o, o1, level, u);
      assert u in x1 && TreeKept(o1, o2, level, u);
      TreeTrans(o, o1, o2, level, u);
    }
  }

  lemma PrivTrans(o: Store, x: set<Page>, o1: Store, x1: set<Page>, o2: Store, level: nat, t: Page, i: nat)
    requires LevelPriv(o, x, o1, level, t, i) && LevelPriv(o1, x1, o2, level, t, i) && HighExcl(o, x, x1, level)
    ensures LevelPriv(o, x, o2, level, t, i)
  {
    PeersTreeTrans(o, x, o1, x1, o2, level, t);
    forall j | 0 <= j < ENTRIES && j != i ensures EntryKept(o, o2, level, t, j) {
      assert EntryKept(o, o1, level, t, j) && EntryKept(o1, o2, level, t, j);
      EntryTrans(o, o1, o2, level, t, j);
    }
  }

  /** A table whose object is unchanged is untouched with all below it if the exclusive tables below are. */
  lemma TreeLift(o: Store, refc: map<Page, int>, roots: set<Page>, x: set<Page>, o': Store, level: nat, u: Page)
    requires Wf(o) && Exclusive(o, refc, roots, x) && 1 <= level <= 3
    requires u in x && IsTab(o, level, u) && u in o' && o'[u] == o[u]
    requires forall j :: 0 <= j < ENTRIES && Entry(o, level, u, j).w ==> TreeKept(o, o', level - 1, o[u].es[j].page)
    ensures TreeKept(o, o', level, u)
  {
  }

  /** A table whose object is unchanged stays private if the exclusive tables below it do. */
  lemma PrivLift(o: Store, refc: map<Page, int>, roots: set<Page>, x: set<Page>, o': Store, level: nat, u: Page)
    requires Wf(o) && Wf(o') && Exclusive(o, refc, roots, x) && 1 <= level <= 3
    requires u in x && IsTab(o, level, u) && u in o' && o'[u] == o[u]
    requires forall i :: 0 <= i < ENTRIES && o[u].es[i].w ==> PrivKept(o, o', level - 1, o[u].es[i].page)
    ensures PrivKept(o, o', level, u)
  {
    forall y, r | 0 <= y < Span(level + 1) && PrivAt(o, level, u, y, r) ensures PrivAt(o', level, u, y, r) {
      IdxInside(level, y);
      var e := o[u].es[Idx(level, y)];
      if !r.Whole(level, Idx(level, y)) && e.page != ZERO {
        assert PrivKept(o, o', level - 1, e.page);
      }
    }
  }

  /** Tables of this level and below, other than v, are untouched. */
  ghost predicate LowSame(o: Store, o': Store, level: nat, v: Page)
  {
    forall u :: u in o && o[u].Table? && o[u].level <= level && u != v ==> u in o' && o'[u] == o[u]
  }

  lemma {:induction false} PrivLow(o: Store, o': Store, level: nat, u: Page, y: nat, r: Range, k: nat, v: Page)
    requires Wf(o) && Wf(o') && LowSame(o, o', k, v) && level <= k <= 3 && u != v && IsTab(o, level, u)
    requires v in o ==> IsTab(o, k, v)
    requires y < Span(level + 1) && PrivAt(o, level, u, y, r)
    ensures IsTab(o', level, u) && PrivAt(o', level, u, y, r)
    decreases level
  {
    IdxInside(level, y);
    var i := Idx(level, y);
    var e := o[u].es[i];
    if level > 0 && !r.Whole(level, i) && e.page != ZERO {
      EntryFits(o, level, u, i);
      PrivLow(o, o', level - 1, e.page, Off(level, y), r.Down(Base(level, i)), k, v);
    }
  }

  lemma {:induction false} PrivShrunk(o: Store, o': Store, level: nat, u: Page, y: nat, r: Range)
    requires Wf(o) && Wf(o') && Shrunk(o, o') && level <= 3 && IsTab(o', level, u)
    requires y < Span(level + 1) && PrivAt(o, level, u, y, r)
    ensures PrivAt(o', level, u, y, r)
    decreases level
  {
    IdxInside(level, y);
    var i := Idx(level, y);
    var e := o[u].es[i];
    if level > 0 && !r.Whole(level, i) && e.page != ZERO {
      EntryFits(o', level, u, i);
      PrivShrunk(o, o', level - 1, e.page, Off(level, y), r.Down(Base(level, i)));
    }
  }
}
