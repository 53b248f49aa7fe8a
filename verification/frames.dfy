/** A change below one table is invisible through every other table of that table's level: the frames of all changes
    of address spaces. */
module Frames {
  import opened Paging
  import opened PageMem
  import opened Views
  import opened Private
  import opened Walk

  ghost predicate Confined(o: Store, o': Store, level: nat, t: Page)
  {
    PeersSame(o, o', level, t) && HighSame(o, o', level, t) && IsTab(o', level, t)
  }

  /** Entry i of t is the only place that names c. */
  ghost predicate OnlyNamed(o: Store, c: Page, t: Page, i: nat)
  {
    Names(o, t, i, c) && forall u: Page, j: nat :: Names(o, u, j, c) ==> u == t && j == i
  }

  lemma ExclusiveOnlyNamed(o: Store, refc: map<Page, int>, roots: set<Page>, held: multiset<Page>, x: set<Page>,
                           c: Page, t: Page, i: nat)
    requires Exact(o, refc, roots, held) && Exclusive(o, refc, roots, x) && c in x && Names(o, t, i, c)
    ensures OnlyNamed(o, c, t, i)
  {
    assert Counted(o, refc, roots, held, c);
    SlotCount(o, c, t, i);
  }

  /** The part of table t reached through entry i. */
  lemma AtEntry(o: Store, level: nat, t: Page, i: nat, y: nat)
    requires Wf(o) && 1 <= level <= 3 && IsTab(o, level, t) && i < ENTRIES && y < Span(level)
    ensures var x := Base(level, i) + y;
            x >= 0 && Idx(level, x) == i && Off(level, x) == y && x < Span(level + 1)
            && (o[t].es[i].page == ZERO || IsTab(o, level - 1, o[t].es[i].page))
            && At(o, level, t, x) == AtIn(o, level - 1, o[t].es[i].page, y)
            && (EffW(o, level, t, x) <==> o[t].es[i].w && WIn(o, level - 1, o[t].es[i].page, y))
  {
    var x := Base(level, i) + y;
    Decompose(level, x, i, y);
    IdxInside(level, x);
    EntryFits(o, level, t, i);
  }

  /** A change confined below c is confined below the only table naming c, where it touches only c's entry. */
  lemma LiftConfined(o: Store, o': Store, level: nat, t: Page, i: nat, c: Page)
    requires Wf(o) && Wf(o') && 1 <= level <= 3 && IsTab(o, level, t) && i < ENTRIES
    requires IsTab(o, level - 1, c) && Confined(o, o', level - 1, c) && OnlyNamed(o, c, t, i)
    ensures Confined(o, o', level, t) && o'[t] == o[t]
    ensures forall j :: 0 <= j < ENTRIES && j != i ==> EntryMaps(o, o[t].es[j], o', o'[t].es[j], level - 1)
  {
    forall u | IsTab(o, level, u) && u != t ensures Same(o, o', level, u) {
      forall j | 0 <= j < ENTRIES && o[u].es[j].page != ZERO ensures Same(o, o', level - 1, o[u].es[j].page) {
        EntryFits(o, level, u, j);
        assert !Names(o, u, j, c);
      }
      ChildLift(o, o', level, u);
    }
    forall j | 0 <= j < ENTRIES && j != i ensures EntryMaps(o, o[t].es[j], o', o'[t].es[j], level - 1) {
      EntryFits(o, level, t, j);
      assert !Names(o, t, j, c);
      EntryMapsSame(o, o', o[t].es[j], level - 1);
    }
  }

  lemma ConfinedRefl(o: Store, level: nat, t: Page)
    requires Wf(o) && level <= 3 && IsTab(o, level, t)
    ensures Confined(o, o, level, t)
  {
    forall u | IsTab(o, level, u) ensures Same(o, o, level, u) { SameRefl(o, level, u); }
  }

  lemma ConfinedTrans(o: Store, o1: Store, o2: Store, level: nat, t: Page)
    requires Confined(o, o1, level, t) && Confined(o1, o2, level, t)
    ensures Confined(o, o2, level, t)
  {
    forall u | IsTab(o, level, u) && u != t ensures Same(o, o2, level, u) {
      assert Same(o, o1, level, u) && Same(o1, o2, level, u);
      SameTrans(o, o1, o2, level, u);
    }
  }

  lemma LevelConfined(o: Store, o': Store, level: nat, t: Page)
    requires LevelSame(o, o', level, t) && IsTab(o, level, t)
    ensures Confined(o, o', level, t) && Same(o, o', level, t)
  {
  }

  /** Releasing pages changes nothing for the tables that survive. */
  lemma {:induction false} ShrunkSame(o: Store, o': Store, level: nat, u: Page)
    requires Wf(o) && Wf(o') && Shrunk(o, o') && level <= 3 && IsTab(o', level, u)
    ensures Same(o, o', level, u)
    decreases level
  {
    if level == 0 {
    } else {
      forall i | 0 <= i < ENTRIES && o[u].es[i].page != ZERO ensures Same(o, o', level - 1, o[u].es[i].page) {
        EntryFits(o', level, u, i);
        ShrunkSame(o, o', level - 1, o[u].es[i].page);
      }
      ChildLift(o, o', level, u);
    }
  }

  lemma ReleasedConfined(o: Store, o': Store, level: nat, t: Page)
    requires Wf(o) && Wf(o') && Shrunk(o, o') && HighSame(o, o', level, ZERO) && level <= 3 && IsTab(o, level, t)
    ensures Confined(o, o', level, t) && Same(o, o', level, t)
  {
    forall u | IsTab(o, level, u) ensures Same(o, o', level, u) {
      assert u != ZERO;
      ShrunkSame(o, o', level, u);
    }
  }

  /** Setting entry i of t: other tables of the level, and the other entries of t, map what they mapped. */
  lemma SetConfined(o: Store, level: nat, t: Page, i: nat, e: Pte)
    requires Wf(o) && level <= 3 && IsTab(o, level, t) && i < ENTRIES && Wf(SetIn(o, t, i, e))
    ensures var o' := SetIn(o, t, i, e);
      && Confined(o, o', level, t)
      && (level > 0 ==> forall j :: 0 <= j < ENTRIES && j != i ==> EntryMaps(o, o[t].es[j], o', o'[t].es[j], level - 1))
      && (level > 0 && e.page != ZERO && IsTab(o, level - 1, e.page) ==> Same(o, o', level - 1, e.page))
  {
    var o' := SetIn(o, t, i, e);
    forall u | IsTab(o, level, u) && u != t ensures Same(o, o', level, u) {
      if level > 0 {
        forall j | 0 <= j < ENTRIES && o[u].es[j].page != ZERO ensures Same(o, o', level - 1, o[u].es[j].page) {
          EntryFits(o, level, u, j);
          ShapeSame(o, o', level - 1, o[u].es[j].page);
        }
        ChildLift(o, o', level, u);
      }
    }
    if level > 0 {
      if e.page != ZERO && IsTab(o, level - 1, e.page) { ShapeSame(o, o', level - 1, e.page); }
      forall j | 0 <= j < ENTRIES && j != i ensures EntryMaps(o, o[t].es[j], o', o'[t].es[j], level - 1) {
        EntryFits(o, level, t, j);
        if o[t].es[j].page != ZERO { ShapeSame(o, o', level - 1, o[t].es[j].page); }
        EntryMapsSame(o, o', o[t].es[j], level - 1);
      }
    }
  }

  /** The entries of t outside lo <= va < hi are untouched, with everything private below them. */
  ghost predicate KeptOutside(o: Store, o': Store, level: nat, t: Page, lo: int, hi: int)
  {
    && Wf(o) && level <= 3 && IsTab(o, level, t)
    && forall j :: 0 <= j < ENTRIES && (Base(level, j) + Span(level) <= lo || hi <= Base(level, j)) ==> EntryKept(o, o', level, t, j)
  }

  lemma KeptOutsideTrans(o: Store, o1: Store, o2: Store, level: nat, t: Page, lo: int, hi: int, l1: int, h1: int, l2: int, h2: int)
    requires KeptOutside(o, o1, level, t, l1, h1) && KeptOutside(o1, o2, level, t, l2, h2)
    requires lo <= l1 && lo <= l2 && h1 <= hi && h2 <= hi
    ensures KeptOutside(o, o2, level, t, lo, hi)
  {
    forall j | 0 <= j < ENTRIES && (Base(level, j) + Span(level) <= lo || hi <= Base(level, j))
      ensures EntryKept(o, o2, level, t, j)
    {
      assert EntryKept(o, o1, level, t, j) && EntryKept(o1, o2, level, t, j);
      EntryTrans(o, o1, o2, level, t, j);
    }
  }

  /** A change below the entry for va. */
  lemma EntryOutside(o: Store, o': Store, level: nat, t: Page, i: nat, lo: int, hi: int)
    requires Wf(o) && level <= 3 && IsTab(o, level, t) && i < ENTRIES
    requires forall j :: 0 <= j < ENTRIES && j != i ==> EntryKept(o, o', level, t, j)
    requires Base(level, i) <= lo < hi <= Base(level, i) + Span(level)
    ensures KeptOutside(o, o', level, t, lo, hi)
  {
  }

  /** All that a change below t, at addresses lo <= va < hi, leaves alone: other tables of the level and the pages
      of s, exclusive tables of this level and above, privacy, and the anchoring of s. */
  ghost predicate Local(o: Store, x: set<Page>, o2: Store, x2: set<Page>, roots: set<Page>,
                        level: nat, t: Page, s: set<Page>, lo: int, hi: int)
  {
    && Confined(o, o2, level, t) && KeptSame(o, o2, s) && Anchored(o2, roots, s)
    && HighExcl(o, x, x2, level) && PeersTree(o, x, o2, level, t) && PrivKept(o, o2, level, t)
    && KeptOutside(o, o2, level, t, lo, hi)
  }

  lemma LocalRefl(o: Store, x: set<Page>, roots: set<Page>, level: nat, t: Page, s: set<Page>, lo: int, hi: int)
    requires Wf(o) && level <= 3 && IsTab(o, level, t) && Anchored(o, roots, s)
    ensures Local(o, x, o, x, roots, level, t, s, lo, hi)
  {
    ConfinedRefl(o, level, t);
    PrivRefl(o, x, level, t, 0);
    forall j | 0 <= j < ENTRIES ensures EntryKept(o, o, level, t, j) { PrivRefl(o, x, level, t, j + 1); }
  }

  lemma LocalTrans(o: Store, x: set<Page>, o1: Store, x1: set<Page>, o2: Store, x2: set<Page>, roots: set<Page>,
                   level: nat, t: Page, s: set<Page>, lo: int, hi: int, l1: int, h1: int, l2: int, h2: int)
    requires Local(o, x, o1, x1, roots, level, t, s, l1, h1) && Local(o1, x1, o2, x2, roots, level, t, s, l2, h2)
    requires lo <= l1 && lo <= l2 && h1 <= hi && h2 <= hi
    ensures Local(o, x, o2, x2, roots, level, t, s, lo, hi)
  {
    hide KeptOutside, Confined, PeersTree;
    ConfinedTrans(o, o1, o2, level, t);
    PeersTreeTrans(o, x, o1, x1, o2, level, t);
    KeptOutsideTrans(o, o1, o2, level, t, lo, hi, l1, h1, l2, h2);
    HighExclHigh(o, x, o1, x1, x2, level, t);
  }

  lemma HighExclHigh(o: Store, x: set<Page>, o1: Store, x1: set<Page>, x2: set<Page>, level: nat, t: Page)
    requires HighExcl(o, x, x1, level) && HighExcl(o1, x1, x2, level) && Confined(o, o1, level, t)
    ensures HighExcl(o, x, x2, level)
  {
    forall u | u in x && u in o && o[u].Table? && o[u].level >= level ensures u in x2 {
      assert u in x1 && u in o1 && o1[u].Table? && o1[u].level >= level;
    }
  }

  lemma LocalTab(o: Store, x: set<Page>, o2: Store, x2: set<Page>, roots: set<Page>, level: nat, t: Page, s: set<Page>, lo: int, hi: int)
    requires Local(o, x, o2, x2, roots, level, t, s, lo, hi)
    ensures IsTab(o2, level, t) && Anchored(o2, roots, s) && Confined(o, o2, level, t)
    ensures t in x && IsTab(o, level, t) ==> t in x2
    ensures HighSame(o, o2, level, t) && PrivKept(o, o2, level, t) && PeersTree(o, x, o2, level, t)
  {
  }

  /** A walk is local. */
  lemma WalkLocal(o: Store, x: set<Page>, o2: Store, x2: set<Page>, roots: set<Page>, level: nat, t: Page, s: set<Page>,
                  i: nat, lo: int, hi: int)
    requires IsTab(o, level, t) && LevelSame(o, o2, level, t) && KeptSame(o, o2, s) && Anchored(o, roots, s)
    requires HighExcl(o, x, x2, level) && LevelPriv(o, x, o2, level, t, i) && i < ENTRIES
    requires Base(level, i) <= lo < hi <= Base(level, i) + Span(level)
    ensures Local(o, x, o2, x2, roots, level, t, s, lo, hi) && Same(o, o2, level, t)
  {
    LevelConfined(o, o2, level, t);
    AnchoredSame(o, o2, roots, s);
    EntryOutside(o, o2, level, t, i, lo, hi);
  }

  /** A change local to c is local to the exclusive table that names it. */
  lemma LiftLocal(o: Store, refc: map<Page, int>, free: seq<Page>, npage: Page, roots: set<Page>, held: multiset<Page>,
                  x: set<Page>, o2: Store, x2: set<Page>, level: nat, t: Page, i: nat, s: set<Page>, lo: int, hi: int)
    requires Inv(o, refc, free, npage, roots, held, x) && Wf(o2) && 1 <= level <= 3
    requires IsTab(o, level, t) && t in x && Opened(o, level, t, i) && IsTab(o, level - 1, o[t].es[i].page)
    requires Local(o, x, o2, x2, roots, level - 1, o[t].es[i].page, s, lo, hi) && 0 <= lo < hi <= Span(level)
    ensures Local(o, x, o2, x2, roots, level, t, s, Base(level, i) + lo, Base(level, i) + hi) && t in o2 && o2[t] == o[t]
    ensures forall j :: 0 <= j < ENTRIES && j != i ==> EntryMaps(o, o[t].es[j], o2, o2[t].es[j], level - 1)
  {
    hide KeptOutside, Wf, Exact, FreeOk, PeersTree, PrivKept, EntryMaps, OnlyNamed, Anchored, KeptSame;
    var c := o[t].es[i].page;
    ExclusiveChild(o, refc, roots, x, level, t, i);
    assert Names(o, t, i, c);
    ExclusiveOnlyNamed(o, refc, roots, held, x, c, t, i);
    LiftConfined(o, o2, level, t, i, c);
    PrivLevelLift(o, refc, free, npage, roots, held, x, o2, level, t, i);
    EntryOutside(o, o2, level, t, i, Base(level, i) + lo, Base(level, i) + hi);
  }
}
