/** pmap_walk: find, create or unshare the tables on the way to an address (kern/pmap.c). */
module Walk {
  import opened Paging
  import opened PageMem
  import opened Views
  import opened Private

  function Unwritten(es: seq<Pte>): (r: seq<Pte>)
    ensures |r| == |es|
  {
    seq(|es|, j requires 0 <= j < |es| => es[j].(w := false))
  }

  function ClearTable(level: nat): Obj
  {
    Table(level, seq(ENTRIES, j => CLEAR))
  }

  function TableEntry(p: Page): Pte { Pte(p, true, true, false, false) }

  /* ---------- the three ways an entry is made writable, as changes of the store ---------- */

  /** Entry i of pmtab gets a new empty table. */
  function Created(o: Store, pmtab: Page, i: nat, n: Page): Store
    requires i < Len(o, pmtab) && n != pmtab
  {
    var l := o[pmtab].level;
    SetIn(o[n := ClearTable(if l == 0 then 0 else l - 1)], pmtab, i, TableEntry(n))
  }

  /** The unshared lower table is used in place, read-only status pushed down. */
  function InPlace(o: Store, pmtab: Page, i: nat, low: Page): Store
    requires i < Len(o, pmtab) && low in o && o[low].Table? && low != pmtab
  {
    SetIn(o[low := Table(o[low].level, Unwritten(o[low].es))], pmtab, i, TableEntry(low))
  }

  /** The shared lower table is replaced by a private copy. */
  function Cloned(o: Store, pmtab: Page, i: nat, low: Page, n: Page): Store
    requires i < Len(o, pmtab) && low in o && o[low].Table? && n != pmtab
  {
    SetIn(o[n := Table(o[low].level, Unwritten(o[low].es))], pmtab, i, TableEntry(n))
  }

  /** If the tables below keep their shape, and entry i still maps what it mapped, no table of this level
      maps anything new. */
  lemma StepSame(o: Store, o': Store, level: nat, pmtab: Page, i: nat)
    requires Wf(o) && Wf(o') && 1 <= level <= 3 && IsTab(o, level, pmtab) && IsTab(o', level, pmtab) && i < ENTRIES
    requires LowShape(o, o', level - 1) && HighSame(o, o', level, pmtab)
    requires forall j :: 0 <= j < ENTRIES && j != i ==> o'[pmtab].es[j] == o[pmtab].es[j]
    requires EntryMaps(o, o[pmtab].es[i], o', o'[pmtab].es[i], level - 1)
    ensures forall u :: IsTab(o, level, u) ==> Same(o, o', level, u)
  {
    forall u | IsTab(o, level, u) ensures Same(o, o', level, u) {
      forall j | 0 <= j < ENTRIES ensures EntryMaps(o, o[u].es[j], o', o'[u].es[j], level - 1) {
        if u != pmtab || j != i {
          EntryFits(o, level, u, j);
          if o[u].es[j].page != ZERO {
            ShapeSame(o, o', level - 1, o[u].es[j].page);
          }
          EntryMapsSame(o, o', o[u].es[j], level - 1);
        }
      }
      TableLift(o, o', level, u);
    }
  }

  /** An empty table maps clear zero pages. */
  lemma CreatedMaps(o: Store, o': Store, level: nat, e: Pte, n: Page)
    requires Wf(o) && Wf(o') && level <= 2 && e.page == ZERO && n != ZERO
    requires n in o' && o'[n] == ClearTable(level)
    ensures EntryMaps(o, e, o', TableEntry(n), level)
  {
    forall y | 0 <= y < Span(level + 1)
      ensures AtIn(o', level, n, y) == Absent() && !WIn(o', level, n, y)
    {
      IdxInside(level, y);
    }
  }

  /** A copy of a table without PTE_W maps what the table maps, nothing of it writable. */
  lemma CopyMaps(o: Store, o': Store, level: nat, e: Pte, n: Page)
    requires Wf(o) && Wf(o') && level <= 2 && LowShape(o, o', level) && IsTab(o, level, e.page)
    requires n in o' && o'[n] == Table(level, Unwritten(o[e.page].es))
    ensures EntryMaps(o, e, o', TableEntry(n), level)
  {
    var q := e.page;
    forall y | 0 <= y < Span(level + 1)
      ensures At(o', level, n, y) == At(o, level, q, y) && !EffW(o', level, n, y)
    {
      IdxInside(level, y);
      var i := Idx(level, y);
      EntryFits(o, level, q, i);
      assert o'[n].es[i] == o[q].es[i].(w := false);
      if level > 0 && o[q].es[i].page != ZERO {
        ShapeSame(o, o', level - 1, o[q].es[i].page);
      }
    }
  }

  /** All tables of this level map what they mapped; only pmtab changed among the tables of this level
      and above, and no data page did. */
  ghost predicate LevelSame(o: Store, o': Store, level: nat, pmtab: Page)
  {
    && (forall u :: IsTab(o, level, u) ==> Same(o, o', level, u))
    && HighSame(o, o', level, pmtab) && IsTab(o', level, pmtab) && DataSame(o, o')
  }

  /** Data pages are untouched. */
  ghost predicate DataSame(o: Store, o': Store)
  {
    forall q :: q in o && o[q].Data? ==> q in o' && o'[q] == o[q]
  }

  /** Entry i of pmtab leads, writably, to a table of the level below. */
  ghost predicate Opened(o: Store, level: nat, pmtab: Page, i: nat)
  {
    IsTab(o, level, pmtab) && i < ENTRIES && o[pmtab].es[i].w && o[pmtab].es[i].page != ZERO
  }

  lemma CreatedStep(o: Store, level: nat, pmtab: Page, i: nat, n: Page)
    requires Wf(o) && 1 <= level <= 3 && IsTab(o, level, pmtab) && i < ENTRIES && o[pmtab].es[i].page == ZERO
    requires n !in o && n != ZERO && Wf(Created(o, pmtab, i, n))
    ensures LevelSame(o, Created(o, pmtab, i, n), level, pmtab) && Opened(Created(o, pmtab, i, n), level, pmtab, i)
  {
    var o' := Created(o, pmtab, i, n);
    CreatedMaps(o, o', level - 1, o[pmtab].es[i], n);
    StepSame(o, o', level, pmtab, i);
  }

  lemma ClonedStep(o: Store, level: nat, pmtab: Page, i: nat, n: Page)
    requires Wf(o) && 1 <= level <= 3 && IsTab(o, level, pmtab) && i < ENTRIES && o[pmtab].es[i].page != ZERO
    requires n !in o && n != ZERO && IsTab(o, level - 1, o[pmtab].es[i].page)
    requires Wf(Cloned(o, pmtab, i, o[pmtab].es[i].page, n))
    ensures var o' := Cloned(o, pmtab, i, o[pmtab].es[i].page, n);
            LevelSame(o, o', level, pmtab) && Opened(o', level, pmtab, i)
  {
    var o' := Cloned(o, pmtab, i, o[pmtab].es[i].page, n);
    CopyMaps(o, o', level - 1, o[pmtab].es[i], n);
    StepSame(o, o', level, pmtab, i);
  }

  lemma InPlaceStep(o: Store, level: nat, pmtab: Page, i: nat)
    requires Wf(o) && 1 <= level <= 3 && IsTab(o, level, pmtab) && i < ENTRIES && o[pmtab].es[i].page != ZERO
    requires IsTab(o, level - 1, o[pmtab].es[i].page)
    requires Wf(InPlace(o, pmtab, i, o[pmtab].es[i].page))
    ensures var o' := InPlace(o, pmtab, i, o[pmtab].es[i].page);
            LevelSame(o, o', level, pmtab) && Opened(o', level, pmtab, i)
  {
    var low := o[pmtab].es[i].page;
    var o' := InPlace(o, pmtab, i, low);
    CopyMaps(o, o', level - 1, o[pmtab].es[i], low);
    StepSame(o, o', level, pmtab, i);
  }

  /** A table shared by several entries is not exclusive, so nothing it names can be reached writably. */
  lemma SharedChild(o: Store, refc: map<Page, int>, free: seq<Page>, npage: Page,
                    roots: set<Page>, held: multiset<Page>, x: set<Page>, level: nat, low: Page, j: nat)
    requires Inv(o, refc, free, npage, roots, held, x)
    requires IsTab(o, level, low) && low !in x && j < ENTRIES && o[low].es[j].page != ZERO
    ensures Unwritable(o, x, o[low].es[j].page) && o[low].es[j].page !in roots && o[low].es[j].page in o
  {
    var c := o[low].es[j].page;
    EntryFits(o, level, low, j);
    assert Names(o, low, j, c);
    forall t: Page, i: nat | t in x && Names(o, t, i, c) ensures !o[t].es[i].w {
      if o[t].es[i].w {
        assert c in x;
        SlotCount(o, c, low, j);
      }
    }
  }

  /** for (i = 0; i < NPTENTRIES; i++) plowtab[i] &= ~PTE_W; */
  method ClearWrites(pm: PageMaps, level: nat, low: Page)
    requires pm.Valid() && IsTab(pm.obj, level, low)
    modifies pm`obj, pm`held
    ensures pm.Valid() && pm.held == old(pm.held)
    ensures pm.obj == old(pm.obj)[low := Table(level, Unwritten(old(pm.obj)[low].es))]
  {
    hide Wf, Exact, Exclusive, FreeOk;
    ghost var o := pm.obj;
    var i := 0;
    while i < ENTRIES
      invariant i <= ENTRIES && pm.Valid() && pm.held == old(pm.held)
      invariant IsTab(pm.obj, level, low) && pm.obj == o[low := pm.obj[low]]
      invariant forall j :: 0 <= j < i ==> pm.obj[low].es[j] == o[low].es[j].(w := false)
      invariant forall j :: i <= j < ENTRIES ==> pm.obj[low].es[j] == o[low].es[j]
    {
      EntryFits(pm.obj, level, low, i);
      pm.SetEntry(low, i, pm.obj[low].es[i].(w := false));
      i := i + 1;
    }
    assert pm.obj[low].es == Unwritten(o[low].es);
  }

  /** The pages a table names. */
  function PagesOf(es: seq<Pte>): set<Page>
  {
    set j | 0 <= j < |es| :: es[j].page
  }

  /** n holds the first i entries of low, without PTE_W; the others are still clear. */
  ghost predicate PartCloned(o: Store, o': Store, level: nat, low: Page, n: Page, i: nat)
  {
    && IsTab(o, level, low) && IsTab(o', level, n) && n !in o && o' == o[n := o'[n]] && i <= ENTRIES
    && (forall j :: 0 <= j < i ==> o'[n].es[j] == o[low].es[j].(w := false))
    && (forall j :: i <= j < ENTRIES ==> o'[n].es[j] == CLEAR)
  }

  lemma PartClonedNext(o: Store, o': Store, level: nat, low: Page, n: Page, i: nat)
    requires PartCloned(o, o', level, low, n, i) && i < ENTRIES
    ensures IsTab(o', level, low) && IsTab(o', level, n) && o'[low] == o[low] && o'[n].es[i].page == ZERO
    ensures PartCloned(o, SetIn(o', n, i, o[low].es[i].(w := false)), level, low, n, i + 1)
  {
  }

  lemma PartClonedDone(o: Store, o': Store, level: nat, low: Page, n: Page)
    requires PartCloned(o, o', level, low, n, ENTRIES)
    ensures o' == o[n := Table(level, Unwritten(o[low].es))]
  {
    assert o'[n].es == Unwritten(o[low].es);
  }

  lemma CloneHeld(o: Store, level: nat, e: Pte, h: multiset<Page>)
    requires EntryOk(o, level, e)
    ensures EntryOk(o, level, e.(w := false))
    ensures NonZero(e.page) <= h + NonZero(e.page) + NonZero(ZERO)
    ensures h + NonZero(e.page) + NonZero(ZERO) - NonZero(e.page) == h
    ensures NonZero(ZERO) == multiset{} && (e.page != ZERO ==> NonZero(e.page) == multiset{e.page})
  {
  }

  /** One turn of the copying loop. */
  method CloneEntry(pm: PageMaps, level: nat, low: Page, n: Page, i: nat)
    requires pm.Valid() && IsTab(pm.obj, level, low) && IsTab(pm.obj, level, n) && level <= 2 && i < ENTRIES
    requires low !in pm.excl && pm.obj[n].es[i].page == ZERO && n in pm.excl && low != n
    modifies pm`obj, pm`refc, pm`held, pm`excl
    ensures pm.Valid() && pm.obj == SetIn(old(pm.obj), n, i, old(pm.obj)[low].es[i].(w := false))
    ensures pm.held == old(pm.held)
    ensures pm.excl == old(pm.excl) || pm.excl == old(pm.excl) - {old(pm.obj)[low].es[i].page}
    ensures n in pm.excl
    ensures low in pm.refc && low in old(pm.refc) && pm.refc[low] >= old(pm.refc)[low]
  {
    hide Wf, Exact, Exclusive, FreeOk, Unwritable, EntryOk, NonZero;
    InvFacts(pm.obj, pm.refc, pm.free, pm.npage, pm.roots, pm.held, pm.excl);
    EntryFits(pm.obj, level, low, i);
    var pte := pm.obj[low].es[i];
    CloneHeld(pm.obj, level, pte, pm.held);
    if pte.page != ZERO {
      SharedChild(pm.obj, pm.refc, pm.free, pm.npage, pm.roots, pm.held, pm.excl, level, low, i);
      pm.MemIncref(pte.page);
    }
    pm.SetEntry(n, i, pte.(w := false));
  }

  /** Copy a shared table, counting one more reference to everything it names; the copy carries no PTE_W. */
  method CloneTable(pm: PageMaps, level: nat, low: Page) returns (n: Page)
    requires pm.Valid() && IsTab(pm.obj, level, low) && level <= 2 && low !in pm.excl
    modifies pm`obj, pm`refc, pm`free, pm`npage, pm`held, pm`excl
    ensures pm.Valid() && n !in old(pm.obj) && n != ZERO && n in pm.excl
    ensures pm.obj == old(pm.obj)[n := Table(level, Unwritten(old(pm.obj)[low].es))]
    ensures pm.held == old(pm.held) + multiset{n}
    ensures old(pm.excl) - PagesOf(old(pm.obj)[low].es) <= pm.excl <= old(pm.excl) + {n}
    ensures low in pm.refc && low in old(pm.refc) && pm.refc[low] >= old(pm.refc)[low]
  {
    hide Wf, Exact, Exclusive, FreeOk, Unwritable, PagesOf, PartCloned;
    ghost var o := pm.obj;
    InvFacts(pm.obj, pm.refc, pm.free, pm.npage, pm.roots, pm.held, pm.excl);
    n := pm.NewPage(ClearTable(level));
    var i := 0;
    PartClonedStart(o, level, low, n);
    while i < ENTRIES
      invariant pm.Valid() && n in pm.excl && low !in pm.excl
      invariant pm.held == old(pm.held) + multiset{n}
      invariant i <= ENTRIES && PartCloned(o, pm.obj, level, low, n, i)
      invariant old(pm.excl) - PagesOf(o[low].es) <= pm.excl <= old(pm.excl) + {n}
      invariant low in pm.refc && low in old(pm.refc) && pm.refc[low] >= old(pm.refc)[low]
    {
      PartClonedNext(o, pm.obj, level, low, n, i);
      PageIn(o[low].es, i);
      CloneEntry(pm, level, low, n, i);
      i := i + 1;
    }
    PartClonedDone(o, pm.obj, level, low, n);
  }

  lemma PageIn(es: seq<Pte>, i: nat)
    requires i < |es|
    ensures es[i].page in PagesOf(es)
  {
  }

  lemma PartClonedStart(o: Store, level: nat, low: Page, n: Page)
    requires IsTab(o, level, low) && n !in o
    ensures PartCloned(o, o[n := ClearTable(level)], level, low, n, 0)
  {
  }

  /** The child named by an entry of an exclusive table outside s is itself outside s. */
  lemma ChildOutside(o: Store, refc: map<Page, int>, free: seq<Page>, npage: Page,
                     roots: set<Page>, held: multiset<Page>, x: set<Page>, s: set<Page>, level: nat, t: Page, i: nat)
    requires Inv(o, refc, free, npage, roots, held, x) && Anchored(o, roots, s)
    requires IsTab(o, level, t) && t !in s && i < ENTRIES && o[t].es[i].page != ZERO
    requires o[t].es[i].page in refc && refc[o[t].es[i].page] == 1
    ensures o[t].es[i].page !in s
  {
    var c := o[t].es[i].page;
    EntryFits(o, level, t, i);
    if c in s {
      var u: Page, j: nat :| u in s && Names(o, u, j, c);
      assert Names(o, t, i, c);
      SlotCount(o, c, t, i);
    }
  }

  lemma ExclusiveChild(o: Store, refc: map<Page, int>, roots: set<Page>, x: set<Page>, level: nat, t: Page, i: nat)
    requires Exclusive(o, refc, roots, x) && t in x && IsTab(o, level, t) && i < ENTRIES && o[t].es[i].w
    ensures o[t].es[i].page in x && o[t].es[i].page in refc && refc[o[t].es[i].page] == 1
  {
  }

  lemma EntryCounted(o: Store, refc: map<Page, int>, roots: set<Page>, held: multiset<Page>, t: Page, i: nat)
    requires Exact(o, refc, roots, held) && i < Len(o, t) && o[t].es[i].page in o
    ensures o[t].es[i].page in refc && refc[o[t].es[i].page] >= 1
  {
    SlotCount(o, o[t].es[i].page, t, i);
  }

  /** A table with a single reference and no writable entry may be counted as exclusive. */
  lemma AdoptExclusive(o: Store, refc: map<Page, int>, free: seq<Page>, npage: Page,
                       roots: set<Page>, held: multiset<Page>, x: set<Page>, level: nat, low: Page)
    requires Inv(o, refc, free, npage, roots, held, x) && IsTab(o, level, low)
    requires low in refc && refc[low] == 1 && forall j :: 0 <= j < ENTRIES ==> !o[low].es[j].w
    ensures Inv(o, refc, free, npage, roots, held, x + {low})
  {
    hide Wf, Exact, FreeOk;
    forall t: Page, i: nat | t in x + {low} && i < Len(o, t) && o[t].es[i].w ensures o[t].es[i].page in x + {low} {
    }
  }

  /** When entry i of pmtab is opened, everything else stays as private as it was.  The only lower table that may
      have changed is low, which only that entry named. */
  lemma PrivOpened(o: Store, refc: map<Page, int>, roots: set<Page>, x: set<Page>, o': Store,
                   level: nat, pmtab: Page, i: nat, low: Page)
    requires Wf(o) && Wf(o') && Exclusive(o, refc, roots, x) && 1 <= level <= 3
    requires IsTab(o, level, pmtab) && pmtab in x && i < ENTRIES && !o[pmtab].es[i].w && Opened(o', level, pmtab, i)
    requires LowSame(o, o', level - 1, low) && HighSame(o, o', level, pmtab)
    requires low in o ==> IsTab(o, level - 1, low) && forall u: Page, j: nat :: Names(o, u, j, low) ==> u == pmtab && j == i
    requires forall j :: 0 <= j < ENTRIES && j != i ==> o'[pmtab].es[j] == o[pmtab].es[j]
    requires o[pmtab].es[i].page == ZERO ==>
               o'[pmtab].es[i].page in o' && o'[o'[pmtab].es[i].page] == ClearTable(level - 1)
    ensures LevelPriv(o, x, o', level, pmtab, i)
  {
    forall u | u in x && IsTab(o, level, u) && u != pmtab ensures TreeKept(o, o', level, u) {
      forall j | 0 <= j < ENTRIES && Entry(o, level, u, j).w ensures TreeKept(o, o', level - 1, o[u].es[j].page) {
        assert Names(o, u, j, o[u].es[j].page);
        TreeLow(o, o', level - 1, o[u].es[j].page, low);
      }
      TreeLift(o, refc, roots, x, o', level, u);
    }
    forall j | 0 <= j < ENTRIES && j != i
      ensures EntryKept(o, o', level, pmtab, j) && (o[pmtab].es[j].w ==> PrivKept(o, o', level - 1, o[pmtab].es[j].page))
    {
      if Entry(o, level, pmtab, j).w {
        assert Names(o, pmtab, j, o[pmtab].es[j].page);
        TreeLow(o, o', level - 1, o[pmtab].es[j].page, low);
        EntryFits(o', level, pmtab, j);
        TreePriv(o, o', level - 1, o[pmtab].es[j].page);
      }
    }
    PrivEntry(o, refc, roots, x, o', level, pmtab, i);
  }

  /** Opening an entry that was missing (then the new table is empty) or shared leaves the table as private as it was. */
  lemma PrivEntry(o: Store, refc: map<Page, int>, roots: set<Page>, x: set<Page>, o': Store,
                  level: nat, u: Page, i: nat)
    requires Wf(o) && Wf(o') && Exclusive(o, refc, roots, x) && 1 <= level <= 3
    requires u in x && IsTab(o, level, u) && IsTab(o', level, u) && i < ENTRIES
    requires forall j :: 0 <= j < ENTRIES && j != i ==> o'[u].es[j] == o[u].es[j]
    requires !o[u].es[i].w && o'[u].es[i].w && o'[u].es[i].page != ZERO && o'[u].es[i].page in o'
    requires o[u].es[i].page == ZERO ==> o'[o'[u].es[i].page] == ClearTable(level - 1)
    requires forall j :: 0 <= j < ENTRIES && o[u].es[j].w ==> PrivKept(o, o', level - 1, o[u].es[j].page)
    ensures PrivKept(o, o', level, u)
  {
    forall y, r | 0 <= y < Span(level + 1) && PrivAt(o, level, u, y, r) ensures PrivAt(o', level, u, y, r) {
      IdxInside(level, y);
      var j := Idx(level, y);
      var e := o[u].es[j];
      if !r.Whole(level, j) {
        if j == i {
          assert e.page == ZERO;
          IdxInside(level - 1, Off(level, y));
        } else if e.page != ZERO {
          assert PrivKept(o, o', level - 1, e.page);
        }
      }
    }
  }

  lemma LowNamed(o: Store, refc: map<Page, int>, roots: set<Page>, held: multiset<Page>, level: nat, pmtab: Page, i: nat)
    requires Exact(o, refc, roots, held) && IsTab(o, level, pmtab) && i < ENTRIES && o[pmtab].es[i].page in o
    requires o[pmtab].es[i].page in refc && refc[o[pmtab].es[i].page] == 1
    ensures forall u: Page, j: nat :: Names(o, u, j, o[pmtab].es[i].page) ==> u == pmtab && j == i
  {
    var low := o[pmtab].es[i].page;
    assert Counted(o, refc, roots, held, low);
    SlotCount(o, low, pmtab, i);
  }

  /** Give a missing subtree an empty table. */
  method CreateTable(pm: PageMaps, level: nat, pmtab: Page, i: nat, ghost s: set<Page>)
    requires pm.Valid() && 1 <= level <= 3 && IsTab(pm.obj, level, pmtab) && pmtab in pm.excl && i < ENTRIES
    requires pm.obj[pmtab].es[i].page == ZERO
    requires Anchored(pm.obj, pm.roots, s) && pmtab !in s
    modifies pm`obj, pm`refc, pm`free, pm`npage, pm`held, pm`excl
    ensures pm.Valid() && pm.held == old(pm.held) && old(pm.excl) <= pm.excl
    ensures LevelSame(old(pm.obj), pm.obj, level, pmtab) && Opened(pm.obj, level, pmtab, i)
    ensures KeptSame(old(pm.obj), pm.obj, s)
    ensures LevelPriv(old(pm.obj), old(pm.excl), pm.obj, level, pmtab, i)
    ensures pm.obj[pmtab].es == old(pm.obj)[pmtab].es[i := pm.obj[pmtab].es[i]]
  {
    hide Wf, Exact, Exclusive, FreeOk, Anchored, LevelSame, LevelPriv;
    ghost var o, r, x := pm.obj, pm.refc, pm.excl;
    InvFacts(pm.obj, pm.refc, pm.free, pm.npage, pm.roots, pm.held, pm.excl);
    AnchoredIn(pm.obj, pm.roots, s);
    EntryFits(o, level, pmtab, i);
    var n := pm.NewPage(ClearTable(level - 1));
    assert IsTab(pm.obj, level - 1, n);
    pm.SetEntry(pmtab, i, TableEntry(n));
    assert pm.obj == Created(o, pmtab, i, n);
    CreatedStep(o, level, pmtab, i, n);
    PrivOpened(o, r, pm.roots, x, pm.obj, level, pmtab, i, ZERO);
  }

  /** The table below has no other reference: use it in place, pushing the read-only status down. */
  method UnshareInPlace(pm: PageMaps, level: nat, pmtab: Page, i: nat, ghost s: set<Page>)
    requires pm.Valid() && 1 <= level <= 3 && IsTab(pm.obj, level, pmtab) && pmtab in pm.excl && i < ENTRIES
    requires pm.obj[pmtab].es[i].page != ZERO && !pm.obj[pmtab].es[i].w
    requires Anchored(pm.obj, pm.roots, s) && pmtab !in s
    requires pm.obj[pmtab].es[i].page in pm.refc && pm.refc[pm.obj[pmtab].es[i].page] == 1
    modifies pm`obj, pm`refc, pm`free, pm`npage, pm`held, pm`excl
    ensures pm.Valid() && pm.held == old(pm.held) && HighExcl(old(pm.obj), old(pm.excl), pm.excl, level)
    ensures LevelSame(old(pm.obj), pm.obj, level, pmtab) && Opened(pm.obj, level, pmtab, i)
    ensures KeptSame(old(pm.obj), pm.obj, s)
    ensures LevelPriv(old(pm.obj), old(pm.excl), pm.obj, level, pmtab, i)
    ensures pm.obj[pmtab].es == old(pm.obj)[pmtab].es[i := pm.obj[pmtab].es[i]]
  {
    hide Wf, Exact, Exclusive, FreeOk, Anchored, LevelSame, LevelPriv, HighExcl;
    ghost var o, r, h, x := pm.obj, pm.refc, pm.held, pm.excl;
    AnchoredIn(pm.obj, pm.roots, s);
    EntryFits(pm.obj, level, pmtab, i);
    var low := pm.obj[pmtab].es[i].page;
    ChildOutside(o, pm.refc, pm.free, pm.npage, pm.roots, pm.held, x, s, level, pmtab, i);
    ClearWrites(pm, level - 1, low);
    AdoptExclusive(pm.obj, pm.refc, pm.free, pm.npage, pm.roots, pm.held, pm.excl, level - 1, low);
    pm.excl := pm.excl + {low};
    pm.SetEntry(pmtab, i, TableEntry(low));
    assert pm.obj == InPlace(o, pmtab, i, low);
    InPlaceStep(o, level, pmtab, i);
    LowNamed(o, r, pm.roots, h, level, pmtab, i);
    PrivOpened(o, r, pm.roots, x, pm.obj, level, pmtab, i, low);
    HighExclMore(o, x, pm.excl, level);
  }

  /** The table below is or may be shared: copy it and let go of the old one. */
  method UnshareCopy(pm: PageMaps, level: nat, pmtab: Page, i: nat, ghost s: set<Page>)
    requires pm.Valid() && 1 <= level <= 3 && IsTab(pm.obj, level, pmtab) && pmtab in pm.excl && i < ENTRIES
    requires pm.obj[pmtab].es[i].page != ZERO && !pm.obj[pmtab].es[i].w
    requires Anchored(pm.obj, pm.roots, s) && pmtab !in s
    requires pm.obj[pmtab].es[i].page in pm.refc && pm.refc[pm.obj[pmtab].es[i].page] > 1
    modifies pm`obj, pm`refc, pm`free, pm`npage, pm`held, pm`excl
    ensures pm.Valid() && pm.held == old(pm.held) && HighExcl(old(pm.obj), old(pm.excl), pm.excl, level)
    ensures LevelSame(old(pm.obj), pm.obj, level, pmtab) && Opened(pm.obj, level, pmtab, i)
    ensures KeptSame(old(pm.obj), pm.obj, s)
    ensures LevelPriv(old(pm.obj), old(pm.excl), pm.obj, level, pmtab, i)
    ensures pm.obj[pmtab].es == old(pm.obj)[pmtab].es[i := pm.obj[pmtab].es[i]]
  {
    hide Wf, Exact, Exclusive, FreeOk, Anchored, LevelSame, LevelPriv, HighExcl, PagesOf, KeptSame, Opened, Unwritten, DataSame;
    ghost var o, r, h, x := pm.obj, pm.refc, pm.held, pm.excl;
    InvFacts(pm.obj, pm.refc, pm.free, pm.npage, pm.roots, pm.held, pm.excl);
    AnchoredIn(pm.obj, pm.roots, s);
    EntryFits(pm.obj, level, pmtab, i);
    var low := pm.obj[pmtab].es[i].page;
    var n := CloneTable(pm, level - 1, low);
    HighExclClone(o, x, pm.excl, level, low, n);
    pm.SetEntry(pmtab, i, TableEntry(n));
    assert pm.obj == Cloned(o, pmtab, i, low, n);
    KeptCloned(o, pmtab, i, low, n, s);
    AnchoredCloned(o, pm.obj, pm.roots, s);
    ClonedStep(o, level, pmtab, i, n);
    PrivOpened(o, r, pm.roots, x, pm.obj, level, pmtab, i, ZERO);
    pm.MemDecref(level, low, s);
  }

  /** Make an existing entry writable: in place if the table below has no other reference, else by copying it. */
  method Unshare(pm: PageMaps, level: nat, pmtab: Page, i: nat, ghost s: set<Page>)
    requires pm.Valid() && 1 <= level <= 3 && IsTab(pm.obj, level, pmtab) && pmtab in pm.excl && i < ENTRIES
    requires pm.obj[pmtab].es[i].page != ZERO && !pm.obj[pmtab].es[i].w
    requires Anchored(pm.obj, pm.roots, s) && pmtab !in s
    modifies pm`obj, pm`refc, pm`free, pm`npage, pm`held, pm`excl
    ensures pm.Valid() && pm.held == old(pm.held) && HighExcl(old(pm.obj), old(pm.excl), pm.excl, level)
    ensures LevelSame(old(pm.obj), pm.obj, level, pmtab) && Opened(pm.obj, level, pmtab, i)
    ensures KeptSame(old(pm.obj), pm.obj, s)
    ensures LevelPriv(old(pm.obj), old(pm.excl), pm.obj, level, pmtab, i)
    ensures pm.obj[pmtab].es == old(pm.obj)[pmtab].es[i := pm.obj[pmtab].es[i]]
  {
    hide Wf, Exact, Exclusive, FreeOk, Anchored, LevelSame, LevelPriv, HighExcl, KeptSame;
    EntryFits(pm.obj, level, pmtab, i);
    EntryCounted(pm.obj, pm.refc, pm.roots, pm.held, pmtab, i);
    if pm.refc[pm.obj[pmtab].es[i].page] == 1 {
      UnshareInPlace(pm, level, pmtab, i, s);
    } else {
      UnshareCopy(pm, level, pmtab, i, s);
    }
  }

  lemma KeptCloned(o: Store, pmtab: Page, i: nat, low: Page, n: Page, s: set<Page>)
    requires i < Len(o, pmtab) && low in o && o[low].Table? && n !in o && s <= o.Keys && pmtab !in s
    ensures KeptSame(o, Cloned(o, pmtab, i, low, n), s)
  {
  }

  lemma HighExclMore(o: Store, x: set<Page>, x': set<Page>, level: nat)
    requires x <= x'
    ensures HighExcl(o, x, x', level)
  {
  }

  lemma HighExclClone(o: Store, x: set<Page>, x': set<Page>, level: nat, low: Page, n: Page)
    requires Wf(o) && level >= 1 && IsTab(o, level - 1, low)
    requires x - PagesOf(o[low].es) <= x'
    ensures HighExcl(o, x, x', level - 1)
    ensures HighExcl(o, x, x', level)
  {
    forall u | u in x && u in o && o[u].Table? && o[u].level >= level - 1 ensures u !in PagesOf(o[low].es) {
      forall j | 0 <= j < ENTRIES ensures o[low].es[j].page != u {
        EntryFits(o, level - 1, low, j);
      }
    }
  }

  lemma AnchoredCloned(o: Store, o': Store, roots: set<Page>, s: set<Page>)
    requires Anchored(o, roots, s) && KeptSame(o, o', s)
    ensures Anchored(o', roots, s)
  {
    AnchoredSame(o, o', roots, s);
  }

  /** Every table on the way from t to the page table of x exists and is entered through PTE_W. */
  ghost predicate OpenPath(o: Store, level: nat, t: Page, x: nat)
    requires Wf(o) && IsTab(o, level, t) && level <= 3 && x < Span(level + 1)
  {
    IdxInside(level, x);
    level == 0 ||
    (Opened(o, level, t, Idx(level, x)) && OpenPath(o, level - 1, Child(o, level, t, x), Off(level, x)))
  }

  /** The table named by the entry for x. */
  function Child(o: Store, level: nat, t: Page, x: nat): (c: Page)
    requires Wf(o) && IsTab(o, level, t) && level <= 3 && x < Span(level + 1)
    ensures c == ZERO || level == 0 || IsTab(o, level - 1, c)
  {
    IdxInside(level, x);
    Entry(o, level, t, Idx(level, x)).page
  }

  /** The page table holding the entry for x, ZERO if there is none. */
  function LeafTable(o: Store, level: nat, t: Page, x: nat): (p: Page)
    requires Wf(o) && IsTab(o, level, t) && level <= 3 && x < Span(level + 1)
    ensures p == ZERO || IsTab(o, 0, p)
    decreases level
  {
    if level == 0 then t
    else
      var c := Child(o, level, t, x);
      if c == ZERO then ZERO else LeafTable(o, level - 1, c, Off(level, x))
  }

  function LeafIndex(level: nat, x: nat): (i: nat)
    requires level <= 3
  {
    if level == 0 then x else LeafIndex(level - 1, Off(level, x))
  }

  /** What an address maps to is the entry found in its page table. */
  lemma {:induction false} LeafAt(o: Store, level: nat, t: Page, x: nat)
    requires Wf(o) && IsTab(o, level, t) && level <= 3 && x < Span(level + 1)
    ensures LeafIndex(level, x) < ENTRIES
    ensures At(o, level, t, x) == var p := LeafTable(o, level, t, x);
                                  if p == ZERO then Absent() else Leaf(o, Entry(o, 0, p, LeafIndex(level, x)))
    decreases level
  {
    if level > 0 {
      LeafIndexSmall(level - 1, Off(level, x));
      var c := Child(o, level, t, x);
      if c != ZERO {
        LeafAt(o, level - 1, c, Off(level, x));
      }
    }
  }

  lemma {:induction false} LeafIndexSmall(level: nat, x: nat)
    requires level <= 3 && x < Span(level + 1)
    ensures LeafIndex(level, x) < ENTRIES
  {
    if level > 0 {
      LeafIndexSmall(level - 1, Off(level, x));
    }
  }

  /** After a step on entry i and a walk below it, the tables of this level still map what they mapped. */
  lemma WalkLift(o: Store, o1: Store, o2: Store, level: nat, pmtab: Page, c: Page)
    requires Wf(o) && Wf(o1) && Wf(o2) && 1 <= level <= 3
    requires LevelSame(o, o1, level, pmtab) && LevelSame(o1, o2, level - 1, c)
    requires IsTab(o1, level - 1, c)
    ensures LevelSame(o, o2, level, pmtab) && o2[pmtab] == o1[pmtab]
  {
    forall u | IsTab(o, level, u) ensures Same(o, o2, level, u) {
      assert Same(o, o1, level, u);
      forall i | 0 <= i < ENTRIES && o1[u].es[i].page != ZERO ensures Same(o1, o2, level - 1, o1[u].es[i].page) {
        EntryFits(o1, level, u, i);
      }
      ChildLift(o1, o2, level, u);
      SameTrans(o, o1, o2, level, u);
    }
    assert HighSame(o, o2, level, pmtab);
  }

  lemma LevelSameRefl(o: Store, level: nat, t: Page)
    requires Wf(o) && level <= 3 && IsTab(o, level, t)
    ensures LevelSame(o, o, level, t)
  {
    forall u | IsTab(o, level, u) ensures Same(o, o, level, u) { SameRefl(o, level, u); }
  }

  lemma KeptRefl(o: Store, roots: set<Page>, s: set<Page>)
    requires Anchored(o, roots, s)
    ensures KeptSame(o, o, s)
  {
  }

  lemma KeptTrans(o: Store, o1: Store, o2: Store, s: set<Page>)
    requires KeptSame(o, o1, s) && KeptSame(o1, o2, s)
    ensures KeptSame(o, o2, s)
  {
  }

  lemma HighExclTrans(o: Store, x: set<Page>, o1: Store, x1: set<Page>, x2: set<Page>, level: nat, t: Page)
    requires 1 <= level && HighExcl(o, x, x1, level) && HighExcl(o1, x1, x2, level - 1) && HighSame(o, o1, level, t)
    requires IsTab(o1, level, t)
    ensures HighExcl(o, x, x2, level)
  {
  }

  lemma LevelSameHigh(o: Store, o': Store, level: nat, t: Page)
    requires LevelSame(o, o', level, t)
    ensures HighSame(o, o', level, t) && IsTab(o', level, t)
  {
  }

  /** First half of a walk step: make entry i lead writably to a private lower table. */
  method OpenEntry(pm: PageMaps, level: nat, pmtab: Page, i: nat, ghost s: set<Page>)
    requires pm.Valid() && 1 <= level <= 3 && IsTab(pm.obj, level, pmtab) && pmtab in pm.excl && i < ENTRIES
    requires Anchored(pm.obj, pm.roots, s) && pmtab !in s
    modifies pm`obj, pm`refc, pm`free, pm`npage, pm`held, pm`excl
    ensures pm.Valid() && pm.held == old(pm.held) && HighExcl(old(pm.obj), old(pm.excl), pm.excl, level)
    ensures LevelSame(old(pm.obj), pm.obj, level, pmtab) && Opened(pm.obj, level, pmtab, i)
    ensures KeptSame(old(pm.obj), pm.obj, s) && Anchored(pm.obj, pm.roots, s)
    ensures LevelPriv(old(pm.obj), old(pm.excl), pm.obj, level, pmtab, i)
    ensures pm.obj[pmtab].es == old(pm.obj)[pmtab].es[i := pm.obj[pmtab].es[i]]
    ensures pmtab in pm.excl
    ensures var c := pm.obj[pmtab].es[i].page; IsTab(pm.obj, level - 1, c) && c in pm.excl && c !in s
  {
    hide Wf, Exact, Exclusive, FreeOk, Anchored, LevelSame, LevelPriv, HighExcl, KeptSame;
    ghost var o, x := pm.obj, pm.excl;
    if pm.obj[pmtab].es[i].page == ZERO {
      CreateTable(pm, level, pmtab, i, s);
      HighExclMore(o, x, pm.excl, level);
    } else if !pm.obj[pmtab].es[i].w {
      Unshare(pm, level, pmtab, i, s);
    } else {
      PrivRefl(o, x, level, pmtab, i);
      LevelSameRefl(o, level, pmtab);
      HighExclMore(o, x, pm.excl, level);
      KeptRefl(o, pm.roots, s);
    }
    AnchoredCloned(o, pm.obj, pm.roots, s);
    HighExclSelf(o, x, pm.excl, level, pmtab);
    EntryFits(pm.obj, level, pmtab, i);
    ExclusiveChild(pm.obj, pm.refc, pm.roots, pm.excl, level, pmtab, i);
    ChildOutside(pm.obj, pm.refc, pm.free, pm.npage, pm.roots, pm.held, pm.excl, s, level, pmtab, i);
  }

  lemma HighExclSelf(o: Store, x: set<Page>, x': set<Page>, level: nat, t: Page)
    requires HighExcl(o, x, x', level) && t in x && IsTab(o, level, t)
    ensures t in x'
  {
  }

  /** A change below the table named by entry i of t is a change below entry i of t. */
  lemma PrivLevelLift(o: Store, refc: map<Page, int>, free: seq<Page>, npage: Page, roots: set<Page>, held: multiset<Page>,
                      x: set<Page>, o': Store, level: nat, t: Page, i: nat)
    requires Inv(o, refc, free, npage, roots, held, x) && Wf(o') && 1 <= level <= 3
    requires IsTab(o, level, t) && t in x && Opened(o, level, t, i) && IsTab(o, level - 1, o[t].es[i].page)
    requires HighSame(o, o', level - 1, o[t].es[i].page) && PeersTree(o, x, o', level - 1, o[t].es[i].page)
    requires PrivKept(o, o', level - 1, o[t].es[i].page)
    ensures LevelPriv(o, x, o', level, t, i)
  {
    var c := o[t].es[i].page;
    ExclusiveChild(o, refc, roots, x, level, t, i);
    LowNamed(o, refc, roots, held, level, t, i);
    forall u | u in x && IsTab(o, level, u) && u != t ensures TreeKept(o, o', level, u) {
      forall j | 0 <= j < ENTRIES && Entry(o, level, u, j).w ensures TreeKept(o, o', level - 1, o[u].es[j].page) {
        ChildTree(o, refc, roots, x, o', level, u, j, t, i);
      }
      TreeLift(o, refc, roots, x, o', level, u);
    }
    forall j | 0 <= j < ENTRIES && j != i
      ensures EntryKept(o, o', level, t, j) && (o[t].es[j].w ==> PrivKept(o, o', level - 1, o[t].es[j].page))
    {
      if Entry(o, level, t, j).w {
        ChildTree(o, refc, roots, x, o', level, t, j, t, i);
        EntryFits(o', level, t, j);
        TreePriv(o, o', level - 1, o[t].es[j].page);
      }
    }
    PrivLift(o, refc, roots, x, o', level, t);
  }

  lemma ChildTree(o: Store, refc: map<Page, int>, roots: set<Page>, x: set<Page>, o': Store, level: nat,
                  u: Page, j: nat, t: Page, i: nat)
    requires Wf(o) && Exclusive(o, refc, roots, x) && 1 <= level <= 3
    requires IsTab(o, level, t) && i < ENTRIES && IsTab(o, level, u) && u in x && j < ENTRIES && o[u].es[j].w
    requires forall v: Page, k: nat :: Names(o, v, k, o[t].es[i].page) ==> v == t && k == i
    requires PeersTree(o, x, o', level - 1, o[t].es[i].page) && !(u == t && j == i)
    ensures IsTab(o, level - 1, o[u].es[j].page) && TreeKept(o, o', level - 1, o[u].es[j].page)
  {
    EntryFits(o, level, u, j);
    ExclusiveChild(o, refc, roots, x, level, u, j);
    assert Names(o, u, j, o[u].es[j].page);
  }

  lemma LevelPrivParts(o: Store, x: set<Page>, o': Store, level: nat, t: Page, i: nat)
    requires LevelPriv(o, x, o', level, t, i)
    ensures PeersTree(o, x, o', level, t) && PrivKept(o, o', level, t)
  {
  }

  /** pmap_walk_level with writing set: on return every table down to the page table of va is private. */
  method WalkLevel(pm: PageMaps, level: nat, pmtab: Page, va: nat, ghost s: set<Page>) returns (pt: Page)
    requires pm.Valid() && 1 <= level <= 3 && IsTab(pm.obj, level, pmtab) && pmtab in pm.excl && va < Span(level + 1)
    requires Anchored(pm.obj, pm.roots, s) && pmtab !in s
    modifies pm`obj, pm`refc, pm`free, pm`npage, pm`held, pm`excl
    ensures pm.Valid() && pm.held == old(pm.held) && HighExcl(old(pm.obj), old(pm.excl), pm.excl, level)
    ensures LevelSame(old(pm.obj), pm.obj, level, pmtab) && KeptSame(old(pm.obj), pm.obj, s)
    ensures IsTab(pm.obj, level, pmtab) && Idx(level, va) < ENTRIES
    ensures OpenPath(pm.obj, level, pmtab, va) && pt == LeafTable(pm.obj, level, pmtab, va) && pt in pm.excl
    ensures LevelPriv(old(pm.obj), old(pm.excl), pm.obj, level, pmtab, Idx(level, va))
    ensures pm.obj[pmtab].es == old(pm.obj)[pmtab].es[Idx(level, va) := pm.obj[pmtab].es[Idx(level, va)]]
    decreases level
  {
    hide Wf, Exact, Exclusive, FreeOk, Anchored, LevelSame, LevelPriv, HighExcl, KeptSame;
    ghost var o, x := pm.obj, pm.excl;
    IdxInside(level, va);
    var i := Idx(level, va);
    OpenEntry(pm, level, pmtab, i, s);
    LevelSameHigh(o, pm.obj, level, pmtab);
    var c := pm.obj[pmtab].es[i].page;
    if level == 1 {
      pt := c;
    } else {
      ghost var o1, x1, r1, f1, n1 := pm.obj, pm.excl, pm.refc, pm.free, pm.npage;
      pt := WalkLevel(pm, level - 1, c, Off(level, va), s);
      WalkLift(o, o1, pm.obj, level, pmtab, c);
      LevelSameHigh(o1, pm.obj, level - 1, c);
      LevelPrivParts(o1, x1, pm.obj, level - 1, c, Idx(level - 1, Off(level, va)));
      PrivLevelLift(o1, r1, f1, n1, pm.roots, pm.held, x1, pm.obj, level, pmtab, i);
      PrivTrans(o, x, o1, x1, pm.obj, level, pmtab, i);
      LevelSameHigh(o, pm.obj, level, pmtab);
      KeptTrans(o, o1, pm.obj, s);
      HighExclTrans(o, x, o1, x1, pm.excl, level, pmtab);
    }
  }
}
