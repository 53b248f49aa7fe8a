/** pmap_merge: merge the changes a source made since a reference snapshot, skipping subtrees whose entries show
    that one side did not change (kern/pmap.c). */
module TableMerge {
  import opened Paging
  import opened PageMem
  import opened Views
  import opened Private
  import opened Walk
  import opened Frames
  import opened Remove
  import opened Copy
  import opened PageCopy
  import opened Spaces
  import opened Faults
  import opened ThreeWay
  import opened LeafMerge

  predicate MaybeTab(o: Store, level: nat, t: Page)
  {
    t == ZERO || IsTab(o, level, t)
  }

  /* ---------- what is set apart ---------- */

  /** The tables of s stay put: they are anchored, all they name is in s too, and d is not among them. */
  ghost predicate Apart(o: Store, roots: set<Page>, s: set<Page>)
  {
    && Anchored(o, roots, s)
    && (forall t :: t in s && t in o ==> o[t].Table?)
    && (forall t: Page, i: nat :: t in s && i < Len(o, t) && o[t].level > 0 && o[t].es[i].page != ZERO ==> o[t].es[i].page in s)
  }

  lemma ApartKept(o: Store, o2: Store, roots: set<Page>, s: set<Page>)
    requires Wf(o) && Wf(o2) && Apart(o, roots, s) && KeptShape(o, o2, s)
    ensures Apart(o2, roots, s)
  {
    AnchoredShape(o, o2, roots, s);
    forall t | t in s ensures t in o2 && o2[t].Table? && o2[t].level == o[t].level {
      assert SameShape(o, o2, o[t].level, t);
    }
    forall t: Page, i: nat | t in s && i < Len(o2, t) && o2[t].level > 0 && o2[t].es[i].page != ZERO ensures o2[t].es[i].page in s {
      assert SameShape(o, o2, o[t].level, t);
      assert o2[t].es[i].(w := false) == o[t].es[i].(w := false);
      assert i < Len(o, t) && o[t].level > 0;
    }
  }

  /** A reference or source table: absent, or set apart. */
  ghost predicate SetApart(o: Store, level: nat, t: Page, s: set<Page>)
  {
    t == ZERO || (IsTab(o, level, t) && t in s)
  }

  lemma ApartChild(o: Store, roots: set<Page>, s: set<Page>, level: nat, t: Page, k: nat)
    requires Wf(o) && Apart(o, roots, s) && 1 <= level <= 3 && SetApart(o, level, t, s) && k < ENTRIES
    ensures SetApart(o, level - 1, EntryIn(o, level, t, k).page, s)
  {
    if t != ZERO { EntryFits(o, level, t, k); }
  }

  /* ---------- where the merge works ---------- */

  /** A range of the destination.  If written, the merge is the one the code performs; if not, the one it is meant to
      perform, where an absent table is a table of zero mappings and the destination gets tables of its own wherever the
      merge goes below them. */
  datatype Stretch = Stretch(lo: int, hi: int, written: bool) {
    function Down(b: int): Stretch { Stretch(lo - b, hi - b, written) }
    predicate Whole(level: nat, i: nat)
      requires level <= 3
    {
      lo <= Base(level, i) && Base(level, i) + Span(level) <= hi
    }
  }

  /** What the code as written needs on the way to an address; the merge as meant needs nothing.  Where neither side can be
      seen to be unchanged, the destination has its own tables (or none).  Shortcuts are only taken for entries that lie in
      the merged range as a whole.  The code goes below an entry only where snapshot and source have tables, and makes a
      missing one for the destination only at the lowest level. */
  predicate Mergeable(o: Store, level: nat, rt: Page, st: Page, x: nat, d: Page, y: nat, r: Stretch)
    requires Wf(o) && level <= 3 && MaybeTab(o, level, rt) && MaybeTab(o, level, st) && IsTab(o, level, d)
    requires x < Span(level + 1) && y < Span(level + 1)
    decreases level
  {
    IdxInside(level, x);
    IdxInside(level, y);
    var k, i := Idx(level, x), Idx(level, y);
    var re, se, de := EntryIn(o, level, rt, k), EntryIn(o, level, st, k), Entry(o, level, d, i);
    level == 0 || !r.written
    || (re.page == se.page && (r.Whole(level, i) || re.page == ZERO || de.page != re.page))
    || (r.Whole(level, i) && de == re && !de.w)
    || (r.Whole(level, i) && de.page == ZERO && level == 1 && re.page != ZERO && se.page != ZERO)
    || ((r.Whole(level, i) || de.page != re.page) && de.w && re.page != ZERO && se.page != ZERO
        && Mergeable(o, level - 1, re.page, se.page, Off(level, x), de.page, Off(level, y), r.Down(Base(level, i))))
  }

  predicate MergeableBy(o: Store, level: nat, rt: Page, st: Page, delta: int, d: Page, y: nat, r: Stretch)
    requires Wf(o) && level <= 3 && MaybeTab(o, level, rt) && MaybeTab(o, level, st) && IsTab(o, level, d)
    requires 0 <= y + delta < Span(level + 1) && y < Span(level + 1)
  {
    Mergeable(o, level, rt, st, y + delta, d, y, r)
  }

  ghost predicate Mergeables(o: Store, level: nat, rt: Page, st: Page, delta: int, d: Page, dva: nat, n: nat, r: Stretch)
  {
    && Wf(o) && level <= 3 && MaybeTab(o, level, rt) && MaybeTab(o, level, st) && IsTab(o, level, d)
    && 0 <= dva + delta && dva + delta + n <= Span(level + 1) && dva + n <= Span(level + 1)
    && forall y :: dva <= y < dva + n ==> MergeableBy(o, level, rt, st, delta, d, y, r)
  }

  /** Entry equality is all the condition depends on, so it survives changes elsewhere. */
  lemma {:induction false} MergeableKept(o: Store, o2: Store, roots: set<Page>, s: set<Page>, level: nat,
                                         rt: Page, st: Page, x: nat, d: Page, y: nat, r: Stretch)
    requires Wf(o) && Wf(o2) && level <= 3 && Apart(o, roots, s) && KeptShape(o, o2, s)
    requires SetApart(o, level, rt, s) && SetApart(o, level, st, s) && IsTab(o, level, d) && IsTab(o2, level, d)
    requires x < Span(level + 1) && y < Span(level + 1) && Mergeable(o, level, rt, st, x, d, y, r)
    requires Idx(level, y) < ENTRIES && EntryKept(o, o2, level, d, Idx(level, y))
    ensures MaybeTab(o2, level, rt) && MaybeTab(o2, level, st) && Mergeable(o2, level, rt, st, x, d, y, r)
    decreases level
  {
    IdxInside(level, x);
    IdxInside(level, y);
    var k, i := Idx(level, x), Idx(level, y);
    EntryShape(o, o2, level, rt, k, s);
    EntryShape(o, o2, level, st, k, s);
    var re, se, de := EntryIn(o, level, rt, k), EntryIn(o, level, st, k), Entry(o, level, d, i);
    assert Entry(o2, level, d, i) == de;
    if level > 0 && r.written && !(re.page == se.page && (r.Whole(level, i) || re.page == ZERO || de.page != re.page))
        && !(r.Whole(level, i) && de == re && !de.w)
        && !(r.Whole(level, i) && de.page == ZERO && level == 1 && re.page != ZERO && se.page != ZERO) {
      ApartChild(o, roots, s, level, rt, k);
      ApartChild(o, roots, s, level, st, k);
      TreeEntry(o, o2, level - 1, de.page, Off(level, y));
      MergeableKept(o, o2, roots, s, level - 1, re.page, se.page, Off(level, x), de.page, Off(level, y), r.Down(Base(level, i)));
    }
  }

  lemma TreeEntry(o: Store, o2: Store, level: nat, t: Page, y: nat)
    requires Wf(o) && Wf(o2) && level <= 3 && IsTab(o, level, t) && TreeKept(o, o2, level, t) && y < Span(level + 1)
    ensures IsTab(o2, level, t) && Idx(level, y) < ENTRIES && EntryKept(o, o2, level, t, Idx(level, y))
  {
    IdxInside(level, y);
  }

  lemma EntryShape(o: Store, o2: Store, level: nat, t: Page, k: nat, s: set<Page>)
    requires Wf(o) && Wf(o2) && level <= 3 && SetApart(o, level, t, s) && KeptShape(o, o2, s) && k < ENTRIES
    ensures MaybeTab(o2, level, t)
    ensures EntryIn(o2, level, t, k).(w := false) == EntryIn(o, level, t, k).(w := false)
    ensures EntryIn(o2, level, t, k).w ==> EntryIn(o, level, t, k).w
  {
    if t != ZERO {
      assert SameShape(o, o2, level, t);
      assert o2[t].es[k].(w := false) == o[t].es[k].(w := false);
    }
  }

  lemma MergeablesKept(o: Store, o2: Store, roots: set<Page>, s: set<Page>, level: nat,
                       rt: Page, st: Page, delta: int, d: Page, dva: nat, n: nat, m: nat, r: Stretch)
    requires Wf(o) && Wf(o2) && Apart(o, roots, s) && KeptShape(o, o2, s) && m <= n
    requires Mergeables(o, level, rt, st, delta, d, dva, n, r) && SetApart(o, level, rt, s) && SetApart(o, level, st, s)
    requires IsTab(o2, level, d) && KeptOutside(o, o2, level, d, dva, dva + m)
    requires m == n || Multiple(level, dva + m)
    ensures Mergeables(o2, level, rt, st, delta, d, dva + m, n - m, r)
  {
    KeptTab(o, o2, level, rt, s);
    KeptTab(o, o2, level, st, s);
    forall y | dva + m <= y < dva + n ensures MergeableBy(o2, level, rt, st, delta, d, y, r) {
      IdxInside(level, y);
      PastMultiple(level, dva + m, y);
      assert EntryKept(o, o2, level, d, Idx(level, y));
      assert MergeableBy(o, level, rt, st, delta, d, y, r);
      MergeableKept(o, o2, roots, s, level, rt, st, y + delta, d, y, r);
    }
  }

  lemma KeptTab(o: Store, o2: Store, level: nat, t: Page, s: set<Page>)
    requires SetApart(o, level, t, s) && KeptShape(o, o2, s)
    ensures SetApart(o2, level, t, s)
  {
    if t != ZERO { assert SameShape(o, o2, level, t); }
  }

  lemma PastMultiple(level: nat, z: nat, y: nat)
    requires level <= 3 && Multiple(level, z) && z <= y
    ensures z <= Base(level, Idx(level, y))
  {
    hide Multiple, Base, Idx, Off;
    assert y == Base(level, Idx(level, y)) + Off(level, y);
    MultipleBase(level, Idx(level, y));
    MultipleSum(level, z, Base(level, Idx(level, y)));
    if z > Base(level, Idx(level, y)) { MultipleGap(level, z - Base(level, Idx(level, y))); }
  }

  /** Stretches the loop advances through correctly: as written whole entries inside the range r, or all of r if it lies
      within one entry, at equal offsets; as meant any that start at equal offsets. */
  predicate Plan(level: nat, sva: nat, dva: nat, n: nat, r: Stretch)
    requires level <= 3
  {
    if !r.written then Off(level, sva) == Off(level, dva)
    else
      n == 0 || (Multiple(level, sva) && Multiple(level, dva) && Multiple(level, n) && r.lo <= dva && dva + n <= r.hi)
      || (level > 0 && Off(level, sva) == Off(level, dva) && Off(level, sva) + n <= Span(level) && r.lo == dva && r.hi == dva + n
          && Plan(level - 1, Off(level, sva), Off(level, dva), n, r.Down(Base(level, Idx(level, dva)))))
  }

  /** The pages from dva on, of n, that one entry covers. */
  function TurnSize(level: nat, dva: nat, n: nat): (m: nat)
    requires level <= 3
    ensures m <= n && (n > 0 ==> m > 0)
  {
    Min(Span(level) - Off(level, dva), n)
  }

  /** One turn: equal offsets, and what it leaves is again such a stretch. */
  lemma PlanTurn(level: nat, sva: nat, dva: nat, n: nat, r: Stretch)
    requires level <= 3 && Plan(level, sva, dva, n, r) && n > 0
    ensures var m := TurnSize(level, dva, n);
      && Off(level, sva) == Off(level, dva) && Off(level, dva) + m <= Span(level)
      && (r.written ==> m == Min(Span(level), n) && (r.Whole(level, Idx(level, dva)) ==> Off(level, dva) == 0 && m == Span(level)))
      && (level > 0 ==> Plan(level - 1, Off(level, sva), Off(level, dva), m, r.Down(Base(level, Idx(level, dva)))))
      && (m < n ==> Plan(level, sva + m, dva + m, n - m, r))
      && (m == n || Multiple(level, dva + m))
  {
    hide Multiple, Base, Idx, Off;
    MultipleOff(level, sva);
    MultipleOff(level, dva);
    assert dva == Base(level, Idx(level, dva)) + Off(level, dva) && sva == Base(level, Idx(level, sva)) + Off(level, sva);
    NextMultiple(level, dva);
    NextMultiple(level, sva);
    if !r.written {
      if level > 0 { FinerOff(level, sva, dva); }
    } else if Multiple(level, sva) && Multiple(level, dva) && Multiple(level, n) && r.lo <= dva && dva + n <= r.hi {
      MultipleGap(level, n);
      MultipleBase(level, 1);
      MultipleSum(level, sva, Span(level));
      MultipleSum(level, dva, Span(level));
      MultipleSum(level, n, Span(level));
      if level > 0 {
        MultipleFiner(level, level - 1, Span(level));
        MultipleZero(level - 1);
      }
    }
  }

  lemma NextMultiple(level: nat, x: nat)
    requires level <= 3
    ensures Multiple(level, x + Span(level) - Off(level, x)) && Off(level, x + Span(level) - Off(level, x)) == 0
  {
  }

  lemma FinerOff(level: nat, x: nat, y: nat)
    requires 1 <= level <= 3 && Off(level, x) == Off(level, y)
    ensures Off(level - 1, Off(level, x)) == Off(level - 1, Off(level, y))
  {
  }

  lemma MultipleZero(level: nat)
    requires level <= 3
    ensures Multiple(level, 0)
  {
  }

  /* ---------- what it computes ---------- */

  /** The n addresses from dva below d show the three-way merge, with its permissions; all other addresses below d show what
      they did. */
  ghost predicate Merged(o: Store, o2: Store, level: nat, rt: Page, st: Page, d: Page, sva: nat, dva: nat, n: nat)
  {
    && Wf(o) && Wf(o2) && level <= 3 && MaybeTab(o, level, rt) && MaybeTab(o, level, st)
    && IsTab(o, level, d) && IsTab(o2, level, d) && sva + n <= Span(level + 1) && dva + n <= Span(level + 1)
    && (forall x :: 0 <= x < Span(level + 1) && !(dva <= x < dva + n) ==> At(o2, level, d, x) == At(o, level, d, x))
    && (forall x :: dva <= x < dva + n ==>
          ViewMerged(AtIn(o, level, rt, x - dva + sva), AtIn(o, level, st, x - dva + sva), At(o, level, d, x), At(o2, level, d, x)))
    && (forall x :: 0 <= x < Span(level + 1) && !(dva <= x < dva + n) && EffW(o2, level, d, x) ==> EffW(o, level, d, x))
  }

  ghost predicate ShowSame(o: Store, o1: Store, level: nat, t: Page)
  {
    t == ZERO || Same(o, o1, level, t)
  }

  lemma MergedTrans(o: Store, o1: Store, o2: Store, level: nat, rt: Page, st: Page, d: Page, sva: nat, dva: nat, n1: nat, n2: nat)
    requires Merged(o, o1, level, rt, st, d, sva, dva, n1) && ShowSame(o, o1, level, rt) && ShowSame(o, o1, level, st)
    requires Merged(o1, o2, level, rt, st, d, sva + n1, dva + n1, n2)
    ensures Merged(o, o2, level, rt, st, d, sva, dva, n1 + n2)
  {
    hide ViewMerged, Zeros, Wf, EffW;
    forall x | dva <= x < dva + n1 + n2
      ensures ViewMerged(AtIn(o, level, rt, x - dva + sva), AtIn(o, level, st, x - dva + sva), At(o, level, d, x), At(o2, level, d, x))
    {
      var z := x - dva + sva;
      assert rt != ZERO ==> At(o1, level, rt, z) == At(o, level, rt, z);
      assert st != ZERO ==> At(o1, level, st, z) == At(o, level, st, z);
      if x >= dva + n1 {
        assert x - (dva + n1) + (sva + n1) == z;
      }
    }
  }

  lemma MergedAfterSame(o: Store, o1: Store, o2: Store, level: nat, rt: Page, st: Page, d: Page, sva: nat, dva: nat, n: nat)
    requires Same(o, o1, level, d) && ShowSame(o, o1, level, rt) && ShowSame(o, o1, level, st)
    requires MaybeTab(o, level, rt) && MaybeTab(o, level, st)
    requires Merged(o1, o2, level, rt, st, d, sva, dva, n)
    ensures Merged(o, o2, level, rt, st, d, sva, dva, n)
  {
    hide ViewMerged, Zeros, Wf;
    forall x | dva <= x < dva + n
      ensures ViewMerged(AtIn(o, level, rt, x - dva + sva), AtIn(o, level, st, x - dva + sva), At(o, level, d, x), At(o2, level, d, x))
    {
      var z := x - dva + sva;
      assert rt != ZERO ==> At(o1, level, rt, z) == At(o, level, rt, z);
      assert st != ZERO ==> At(o1, level, st, z) == At(o, level, st, z);
    }
  }

  /** Entries that name the same page show the same bytes, equal entries the same. */
  lemma SameEntryAt(o: Store, level: nat, t: Page, u: Page, i: nat, j: nat, y: nat)
    requires Wf(o) && level <= 3 && MaybeTab(o, level, t) && MaybeTab(o, level, u) && i < ENTRIES && j < ENTRIES && y < Span(level)
    requires EntryIn(o, level, t, i).page == EntryIn(o, level, u, j).page
    ensures 0 <= Base(level, i) + y < Span(level + 1) && 0 <= Base(level, j) + y < Span(level + 1)
    ensures AtIn(o, level, t, Base(level, i) + y).bytes == AtIn(o, level, u, Base(level, j) + y).bytes
    ensures EntryIn(o, level, t, i) == EntryIn(o, level, u, j) ==> AtIn(o, level, t, Base(level, i) + y) == AtIn(o, level, u, Base(level, j) + y)
  {
    hide Zeros;
    BaseInside(level, i);
    BaseInside(level, j);
    AtEntryIn(o, level, t, i, y);
    AtEntryIn(o, level, u, j, y);
  }

  /** What an entry shows, at any level. */
  function EntryShows(o: Store, level: nat, e: Pte, y: nat): View
    requires Wf(o) && level <= 3 && Fits(o, level, e.page) && y < Span(level)
  {
    if level == 0 then Leaf(o, e) else AtIn(o, level - 1, e.page, y)
  }

  lemma AtEntryIn(o: Store, level: nat, t: Page, i: nat, y: nat)
    requires Wf(o) && level <= 3 && MaybeTab(o, level, t) && i < ENTRIES && y < Span(level)
    ensures 0 <= Base(level, i) + y < Span(level + 1)
    ensures AtIn(o, level, t, Base(level, i) + y) == EntryShows(o, level, EntryIn(o, level, t, i), y)
  {
    BaseInside(level, i);
    if t != ZERO && level > 0 { AtEntry(o, level, t, i, y); }
  }

  /* ---------- the branches of one turn, as statements about what is shown ---------- */

  lemma MergedNothing(o: Store, level: nat, rt: Page, st: Page, k: nat, d: Page, i: nat, off: nat, n: nat)
    requires Wf(o) && level <= 3 && MaybeTab(o, level, rt) && MaybeTab(o, level, st) && IsTab(o, level, d)
    requires k < ENTRIES && i < ENTRIES && off + n <= Span(level)
    requires EntryIn(o, level, rt, k).page == EntryIn(o, level, st, k).page
    ensures Base(level, k) >= 0 && Base(level, i) >= 0
    ensures Merged(o, o, level, rt, st, d, Base(level, k) + off, Base(level, i) + off, n)
  {
    hide ViewMerged, Zeros, Wf, EffW, At, AtIn, Entry, EntryIn;
    BaseInside(level, k);
    BaseInside(level, i);
    var s0, d0 := Base(level, k) + off, Base(level, i) + off;
    forall x | d0 <= x < d0 + n
      ensures ViewMerged(AtIn(o, level, rt, x - d0 + s0), AtIn(o, level, st, x - d0 + s0), At(o, level, d, x), At(o, level, d, x))
    {
      NothingBytes(o, level, rt, st, k, d, x, x - Base(level, i));
      assert Base(level, k) + (x - Base(level, i)) == x - d0 + s0;
    }
  }

  lemma NothingBytes(o: Store, level: nat, rt: Page, st: Page, k: nat, d: Page, x: nat, y: nat)
    requires Wf(o) && level <= 3 && MaybeTab(o, level, rt) && MaybeTab(o, level, st) && IsTab(o, level, d)
    requires k < ENTRIES && x < Span(level + 1) && y < Span(level)
    requires EntryIn(o, level, rt, k).page == EntryIn(o, level, st, k).page
    ensures 0 <= Base(level, k) + y < Span(level + 1)
    ensures ViewMerged(AtIn(o, level, rt, Base(level, k) + y), AtIn(o, level, st, Base(level, k) + y), At(o, level, d, x), At(o, level, d, x))
  {
    hide ViewMerged, Zeros;
    SameEntryAt(o, level, rt, st, k, k, y);
    ViewNothing(AtIn(o, level, rt, Base(level, k) + y), AtIn(o, level, st, Base(level, k) + y), At(o, level, d, x));
  }

  /** The n addresses from dva below d have taken on what those from sva below st show. */
  ghost predicate TakenOver(o: Store, o2: Store, level: nat, st: Page, d: Page, sva: nat, dva: nat, n: nat)
  {
    && Wf(o) && Wf(o2) && level <= 3 && MaybeTab(o, level, st) && IsTab(o, level, d) && IsTab(o2, level, d)
    && sva + n <= Span(level + 1) && dva + n <= Span(level + 1)
    && forall x :: dva <= x < dva + n ==> CopyOf(At(o, level, d, x), At(o2, level, d, x), AtIn(o, level, st, x - dva + sva))
  }

  /** The destination entry is the reference's: what now shows what the source does there is the merge. */
  lemma MergedReplaced(o: Store, o2: Store, level: nat, rt: Page, st: Page, k: nat, d: Page, i: nat)
    requires Wf(o) && Wf(o2) && level <= 3 && MaybeTab(o, level, rt) && MaybeTab(o, level, st) && IsTab(o, level, d) && IsTab(o2, level, d)
    requires k < ENTRIES && i < ENTRIES && Base(level, k) >= 0 && Base(level, i) >= 0
    requires EntryIn(o, level, rt, k) == Entry(o, level, d, i)
    requires forall x :: 0 <= x < Span(level + 1) && !(Base(level, i) <= x < Base(level, i) + Span(level)) ==>
               At(o2, level, d, x) == At(o, level, d, x) && (EffW(o2, level, d, x) ==> EffW(o, level, d, x))
    requires forall y :: 0 <= y < Span(level) ==> ShowsSource(o, o2, level, st, k, d, i, y)
    ensures Merged(o, o2, level, rt, st, d, Base(level, k), Base(level, i), Span(level))
    ensures TakenOver(o, o2, level, st, d, Base(level, k), Base(level, i), Span(level))
  {
    hide ViewMerged, CopyOf, Zeros, ShowsSource, Wf, EffW, At, AtIn, Entry, EntryIn;
    BaseInside(level, k);
    BaseInside(level, i);
    var s0, d0 := Base(level, k), Base(level, i);
    forall x | d0 <= x < d0 + Span(level)
      ensures ViewMerged(AtIn(o, level, rt, x - d0 + s0), AtIn(o, level, st, x - d0 + s0), At(o, level, d, x), At(o2, level, d, x))
      ensures CopyOf(At(o, level, d, x), At(o2, level, d, x), AtIn(o, level, st, x - d0 + s0))
    {
      assert ShowsSource(o, o2, level, st, k, d, i, x - d0);
      ReplacedView(o, o2, level, rt, st, k, d, i, x - d0);
      ShowsAt(o, o2, level, st, k, d, i, x - d0);
      assert x - d0 + s0 == s0 + (x - d0) && d0 + (x - d0) == x;
    }
  }

  lemma ReplacedView(o: Store, o2: Store, level: nat, rt: Page, st: Page, k: nat, d: Page, i: nat, y: nat)
    requires Wf(o) && Wf(o2) && level <= 3 && MaybeTab(o, level, rt) && MaybeTab(o, level, st) && IsTab(o, level, d) && IsTab(o2, level, d)
    requires k < ENTRIES && i < ENTRIES && y < Span(level) && ShowsSource(o, o2, level, st, k, d, i, y)
    requires EntryIn(o, level, rt, k) == Entry(o, level, d, i)
    ensures 0 <= Base(level, i) + y < Span(level + 1) && 0 <= Base(level, k) + y < Span(level + 1)
    ensures ViewMerged(AtIn(o, level, rt, Base(level, k) + y), AtIn(o, level, st, Base(level, k) + y), At(o, level, d, Base(level, i) + y),
                       At(o2, level, d, Base(level, i) + y))
  {
    hide ViewMerged, Zeros, ShowsSource;
    ShowsAt(o, o2, level, st, k, d, i, y);
    SameEntryAt(o, level, rt, d, k, i, y);
    ViewTaken(AtIn(o, level, rt, Base(level, k) + y), AtIn(o, level, st, Base(level, k) + y), At(o, level, d, Base(level, i) + y),
              At(o2, level, d, Base(level, i) + y));
  }

  predicate ShowsSource(o: Store, o2: Store, level: nat, st: Page, k: nat, d: Page, i: nat, y: nat)
    requires Wf(o) && Wf(o2) && level <= 3 && MaybeTab(o, level, st) && IsTab(o, level, d) && IsTab(o2, level, d)
    requires k < ENTRIES && i < ENTRIES && y < Span(level)
  {
    BaseInside(level, k);
    BaseInside(level, i);
    CopyOf(At(o, level, d, Base(level, i) + y), At(o2, level, d, Base(level, i) + y), AtIn(o, level, st, Base(level, k) + y))
  }

  lemma ShowsAt(o: Store, o2: Store, level: nat, st: Page, k: nat, d: Page, i: nat, y: nat)
    requires Wf(o) && Wf(o2) && level <= 3 && MaybeTab(o, level, st) && IsTab(o, level, d) && IsTab(o2, level, d)
    requires k < ENTRIES && i < ENTRIES && y < Span(level) && ShowsSource(o, o2, level, st, k, d, i, y)
    ensures 0 <= Base(level, i) + y < Span(level + 1) && 0 <= Base(level, k) + y < Span(level + 1)
    ensures CopyOf(At(o, level, d, Base(level, i) + y), At(o2, level, d, Base(level, i) + y), AtIn(o, level, st, Base(level, k) + y))
  {
    BaseInside(level, k);
    BaseInside(level, i);
  }

  lemma MergedCopied(o: Store, o2: Store, level: nat, rt: Page, st: Page, k: nat, d: Page, i: nat)
    requires Wf(o) && level <= 3 && MaybeTab(o, level, rt) && st != ZERO && k < ENTRIES && i < ENTRIES
    requires Base(level, k) >= 0 && Base(level, i) >= 0
    requires Copied(o, o2, level, st, d, Base(level, k), Base(level, i), Span(level))
    requires EntryIn(o, level, rt, k) == Entry(o, level, d, i)
    ensures Merged(o, o2, level, rt, st, d, Base(level, k), Base(level, i), Span(level))
    ensures TakenOver(o, o2, level, st, d, Base(level, k), Base(level, i), Span(level))
  {
    hide Zeros;
    var s0, d0 := Base(level, k), Base(level, i);
    BaseInside(level, k);
    BaseInside(level, i);
    forall y | 0 <= y < Span(level) ensures ShowsSource(o, o2, level, st, k, d, i, y) {
      var x := d0 + y;
      assert x - d0 + s0 == s0 + y;
      assert CopyOf(At(o, level, d, x), At(o2, level, d, x), At(o, level, st, x - d0 + s0));
    }
    MergedReplaced(o, o2, level, rt, st, k, d, i);
  }

  lemma MergedRemoved(o: Store, o2: Store, level: nat, rt: Page, k: nat, d: Page, i: nat)
    requires Wf(o) && Wf(o2) && level <= 3 && MaybeTab(o, level, rt) && IsTab(o, level, d) && k < ENTRIES && i < ENTRIES
    requires Base(level, k) >= 0 && Base(level, i) >= 0
    requires Removed(o, o2, level, d, Base(level, i), Base(level, i) + Span(level))
    requires EntryIn(o, level, rt, k) == Entry(o, level, d, i)
    ensures Merged(o, o2, level, rt, ZERO, d, Base(level, k), Base(level, i), Span(level))
    ensures TakenOver(o, o2, level, ZERO, d, Base(level, k), Base(level, i), Span(level))
  {
    hide Zeros;
    var d0 := Base(level, i);
    BaseInside(level, k);
    BaseInside(level, i);
    forall y | 0 <= y < Span(level) ensures ShowsSource(o, o2, level, ZERO, k, d, i, y) {
      var x := d0 + y;
      assert Unmaps(At(o, level, d, x), At(o2, level, d, x), d0 <= x < d0 + Span(level));
    }
    forall x | 0 <= x < Span(level + 1) && !(d0 <= x < d0 + Span(level))
      ensures At(o2, level, d, x) == At(o, level, d, x) && (EffW(o2, level, d, x) ==> EffW(o, level, d, x))
    {
      assert Unmaps(At(o, level, d, x), At(o2, level, d, x), d0 <= x < d0 + Span(level));
    }
    MergedReplaced(o, o2, level, rt, ZERO, k, d, i);
  }

  /** Merging below an entry merges the corresponding stretch of the table. */
  lemma MergedBelow(o: Store, o2: Store, level: nat, rt: Page, st: Page, k: nat, d: Page, i: nat, off: nat, n: nat)
    requires Wf(o) && Wf(o2) && 1 <= level <= 3 && MaybeTab(o, level, rt) && MaybeTab(o, level, st)
    requires IsTab(o, level, d) && d in o2 && o2[d] == o[d] && k < ENTRIES && i < ENTRIES && off + n <= Span(level)
    requires o[d].es[i].page != ZERO
    requires forall j :: 0 <= j < ENTRIES && j != i ==> EntryMaps(o, o[d].es[j], o2, o2[d].es[j], level - 1)
    requires Merged(o, o2, level - 1, EntryIn(o, level, rt, k).page, EntryIn(o, level, st, k).page, o[d].es[i].page, off, off, n)
    ensures Base(level, k) >= 0 && Base(level, i) >= 0
    ensures Merged(o, o2, level, rt, st, d, Base(level, k) + off, Base(level, i) + off, n)
  {
    hide Wf, ViewMerged, Zeros, EntryMaps;
    BaseInside(level, k);
    BaseInside(level, i);
    forall x | 0 <= x < Span(level + 1)
      ensures !(Base(level, i) + off <= x < Base(level, i) + off + n) ==>
                At(o2, level, d, x) == At(o, level, d, x) && (EffW(o2, level, d, x) ==> EffW(o, level, d, x))
    {
      if !(Base(level, i) + off <= x < Base(level, i) + off + n) {
        MergedElse(o, o2, level, rt, st, k, d, i, off, n, x);
      }
    }
    forall x | Base(level, i) + off <= x < Base(level, i) + off + n
      ensures var z := x - (Base(level, i) + off) + (Base(level, k) + off);
              ViewMerged(AtIn(o, level, rt, z), AtIn(o, level, st, z), At(o, level, d, x), At(o2, level, d, x))
    {
      MergedInside(o, o2, level, rt, st, k, d, i, off, n, x - Base(level, i));
    }
  }

  lemma MergedElse(o: Store, o2: Store, level: nat, rt: Page, st: Page, k: nat, d: Page, i: nat, off: nat, n: nat, x: nat)
    requires Wf(o) && Wf(o2) && 1 <= level <= 3 && MaybeTab(o, level, rt) && MaybeTab(o, level, st)
    requires IsTab(o, level, d) && d in o2 && o2[d] == o[d] && k < ENTRIES && i < ENTRIES && off + n <= Span(level)
    requires o[d].es[i].page != ZERO && x < Span(level + 1)
    requires forall j :: 0 <= j < ENTRIES && j != i ==> EntryMaps(o, o[d].es[j], o2, o2[d].es[j], level - 1)
    requires Merged(o, o2, level - 1, EntryIn(o, level, rt, k).page, EntryIn(o, level, st, k).page, o[d].es[i].page, off, off, n)
    requires !(Base(level, i) + off <= x < Base(level, i) + off + n)
    ensures At(o2, level, d, x) == At(o, level, d, x) && (EffW(o2, level, d, x) ==> EffW(o, level, d, x))
  {
    hide ViewMerged, Zeros;
    IdxInside(level, x);
    var j, y := Idx(level, x), Off(level, x);
    AtEntry(o, level, d, j, y);
    AtEntry(o2, level, d, j, y);
    if j != i {
      assert EntryMaps(o, o[d].es[j], o2, o2[d].es[j], level - 1);
      assert AtIn(o2, level - 1, o2[d].es[j].page, y) == AtIn(o, level - 1, o[d].es[j].page, y);
      assert o2[d].es[j].w && WIn(o2, level - 1, o2[d].es[j].page, y) ==> o[d].es[j].w && WIn(o, level - 1, o[d].es[j].page, y);
    }
  }

  lemma MergedInside(o: Store, o2: Store, level: nat, rt: Page, st: Page, k: nat, d: Page, i: nat, off: nat, n: nat, y: nat)
    requires Wf(o) && Wf(o2) && 1 <= level <= 3 && MaybeTab(o, level, rt) && MaybeTab(o, level, st)
    requires IsTab(o, level, d) && d in o2 && o2[d] == o[d] && k < ENTRIES && i < ENTRIES && off + n <= Span(level)
    requires o[d].es[i].page != ZERO && off <= y < off + n
    requires Merged(o, o2, level - 1, EntryIn(o, level, rt, k).page, EntryIn(o, level, st, k).page, o[d].es[i].page, off, off, n)
    ensures 0 <= Base(level, i) + y < Span(level + 1) && 0 <= Base(level, k) + y < Span(level + 1)
    ensures ViewMerged(AtIn(o, level, rt, Base(level, k) + y), AtIn(o, level, st, Base(level, k) + y), At(o, level, d, Base(level, i) + y),
                       At(o2, level, d, Base(level, i) + y))
  {
    hide ViewMerged, Zeros;
    AtEntryIn(o, level, rt, k, y);
    AtEntryIn(o, level, st, k, y);
    AtEntry(o, level, d, i, y);
    AtEntry(o2, level, d, i, y);
    assert y - off + off == y;
  }

  lemma MergedLeaf(o: Store, o2: Store, rt: Page, st: Page, k: nat, d: Page, i: nat)
    requires Wf(o) && MaybeTab(o, 0, rt) && MaybeTab(o, 0, st) && k < ENTRIES && i < ENTRIES && LeafElse(o, o2, d, i)
    requires ViewMerged(Leaf(o, EntryIn(o, 0, rt, k)), Leaf(o, EntryIn(o, 0, st, k)), At(o, 0, d, i), At(o2, 0, d, i))
    ensures Merged(o, o2, 0, rt, st, d, k, i, 1)
  {
    hide ViewMerged, Zeros;
    AtEntryIn(o, 0, rt, k, 0);
    AtEntryIn(o, 0, st, k, 0);
  }

  /* ---------- the code ---------- */

  /** The destination entry has not changed since the snapshot: take the source's. */
  method MergeTake(pm: PageMaps, level: nat, rt: Page, st: Page, sva: nat, dt: Page, dva: nat, ghost s: set<Page>)
    requires pm.Valid() && Wf(pm.obj) && level <= 3 && SetApart(pm.obj, level, rt, s) && SetApart(pm.obj, level, st, s)
    requires IsTab(pm.obj, level, dt) && dt in pm.excl && dt !in s && Apart(pm.obj, pm.roots, s)
    requires sva < Span(level + 1) && dva < Span(level + 1) && Off(level, sva) == 0 && Off(level, dva) == 0
    requires Idx(level, sva) < ENTRIES && Idx(level, dva) < ENTRIES
    requires EntryIn(pm.obj, level, rt, Idx(level, sva)) == Entry(pm.obj, level, dt, Idx(level, dva))
    modifies pm`obj, pm`refc, pm`free, pm`npage, pm`held, pm`excl
    ensures pm.Valid() && pm.held == old(pm.held) && Wf(pm.obj)
    ensures CopyLocal(old(pm.obj), old(pm.excl), pm.obj, pm.excl, pm.roots, level, dt, s, dva, dva + Span(level))
    ensures Merged(old(pm.obj), pm.obj, level, rt, st, dt, sva, dva, Span(level))
    ensures TakenOver(old(pm.obj), pm.obj, level, st, dt, sva, dva, Span(level))
  {
    hide Wf, Exact, Exclusive, FreeOk, Anchored, Local, Removed, Copied, CopyLocal, PrivOutside, Privs, Ranged, Merged, TakenOver;
    ghost var o, x := pm.obj, pm.excl;
    ghost var k, i := Idx(level, sva), Idx(level, dva);
    BaseInside(level, k);
    BaseInside(level, i);
    if st == ZERO {
      RemoveLevel(pm, level, dt, dva, dva + Span(level), s);
      WfOf(pm.obj, pm.refc, pm.free, pm.npage, pm.roots, pm.held, pm.excl);
      LocalCopy(o, x, pm.obj, pm.excl, pm.roots, level, dt, s, dva, dva + Span(level));
      MergedRemoved(o, pm.obj, level, rt, k, dt, i);
    } else {
      WholePlan(o, level, sva, dt, dva);
      CopyLevel(pm, level, st, sva, dt, dva, Span(level), s, Range(dva, dva + Span(level), 3));
      WfOf(pm.obj, pm.refc, pm.free, pm.npage, pm.roots, pm.held, pm.excl);
      MergedCopied(o, pm.obj, level, rt, st, k, dt, i);
    }
  }

  /** A single whole entry asks no privacy of the destination. */
  lemma WholePlan(o: Store, level: nat, sva: nat, d: Page, dva: nat)
    requires Wf(o) && level <= 3 && IsTab(o, level, d) && dva + Span(level) <= Span(level + 1)
    requires Off(level, sva) == 0 && Off(level, dva) == 0
    ensures Privs(o, level, d, dva, dva + Span(level), Range(dva, dva + Span(level), 3))
    ensures Ranged(level, sva, dva, Span(level), Range(dva, dva + Span(level), 3))
  {
    MultipleOff(level, sva);
    MultipleOff(level, dva);
    MultipleSum(level, sva, dva);
    var r := Range(dva, dva + Span(level), 3);
    forall y | dva <= y < dva + Span(level) ensures PrivAt(o, level, d, y, r) {
      IdxInside(level, y);
      Decompose(level, y, Idx(level, dva), y - dva);
    }
  }

  /** The destination gets a table of its own, which is created, or copied if it is shared; nothing is shown differently. */
  method MergeOpen(pm: PageMaps, level: nat, dt: Page, dva: nat, m: nat, ghost s: set<Page>)
    requires pm.Valid() && Wf(pm.obj) && 1 <= level <= 3 && IsTab(pm.obj, level, dt) && dt in pm.excl && dt !in s
    requires Apart(pm.obj, pm.roots, s) && dva < Span(level + 1) && m > 0 && Off(level, dva) + m <= Span(level)
    requires Idx(level, dva) < ENTRIES
    modifies pm`obj, pm`refc, pm`free, pm`npage, pm`held, pm`excl
    ensures pm.Valid() && pm.held == old(pm.held) && Wf(pm.obj) && IsTab(pm.obj, level, dt) && dt in pm.excl
    ensures Local(old(pm.obj), old(pm.excl), pm.obj, pm.excl, pm.roots, level, dt, s, dva, dva + m)
    ensures Same(old(pm.obj), pm.obj, level, dt) && Opened(pm.obj, level, dt, Idx(level, dva))
    ensures KeptSame(old(pm.obj), pm.obj, s)
  {
    hide Wf, Exact, Exclusive, FreeOk, Anchored, Local, LevelSame, LevelPriv, HighExcl, KeptSame, Same, PrivKept, PeersTree, KeptOutside;
    ghost var o, x := pm.obj, pm.excl;
    var _ := WalkLevel(pm, level, dt, dva, s);
    WfOf(pm.obj, pm.refc, pm.free, pm.npage, pm.roots, pm.held, pm.excl);
    WalkLocal(o, x, pm.obj, pm.excl, pm.roots, level, dt, s, Idx(level, dva), dva, dva + m);
    LocalTab(o, x, pm.obj, pm.excl, pm.roots, level, dt, s, dva, dva + m);
  }

  /** The condition for the tables below the entries at sva and dva, at equal offsets. */
  ghost predicate BelowReady(o: Store, level: nat, rt: Page, st: Page, sva: nat, d: Page, dva: nat, m: nat, r: Stretch)
    requires 1 <= level <= 3 && Wf(o) && MaybeTab(o, level, rt) && MaybeTab(o, level, st) && IsTab(o, level, d)
    requires Idx(level, sva) < ENTRIES && Idx(level, dva) < ENTRIES
  {
    var rl, sl := EntryIn(o, level, rt, Idx(level, sva)).page, EntryIn(o, level, st, Idx(level, sva)).page;
    var de := Entry(o, level, d, Idx(level, dva));
    de.page != ZERO && (rl != sl ==>
      de.w && Mergeables(o, level - 1, rl, sl, 0, de.page, Off(level, dva), m, r.Down(Base(level, Idx(level, dva)))))
  }

  lemma MergeableEntry(o: Store, level: nat, rt: Page, st: Page, sva: nat, d: Page, dva: nat, m: nat, r: Stretch)
    requires 1 <= level && Mergeables(o, level, rt, st, sva - dva, d, dva, m, r) && m > 0
    requires Idx(level, sva) < ENTRIES && Idx(level, dva) < ENTRIES && Off(level, sva) == Off(level, dva)
    ensures Mergeable(o, level, rt, st, sva, d, dva, r)
  {
    assert MergeableBy(o, level, rt, st, sva - dva, d, dva, r);
    assert dva + (sva - dva) == sva;
  }

  lemma PresentReady(o: Store, level: nat, rt: Page, st: Page, sva: nat, d: Page, dva: nat, m: nat, r: Stretch)
    requires 1 <= level && Mergeables(o, level, rt, st, sva - dva, d, dva, m, r) && m > 0
    requires r.written
    requires Idx(level, sva) < ENTRIES && Idx(level, dva) < ENTRIES && Off(level, sva) == Off(level, dva)
    requires Off(level, dva) + m <= Span(level)
    requires EntryIn(o, level, rt, Idx(level, sva)) != Entry(o, level, d, Idx(level, dva))
    requires Entry(o, level, d, Idx(level, dva)).page != ZERO
    ensures BelowReady(o, level, rt, st, sva, d, dva, m, r)
  {
    var k, i := Idx(level, sva), Idx(level, dva);
    var rl, sl, de := EntryIn(o, level, rt, k).page, EntryIn(o, level, st, k).page, Entry(o, level, d, i);
    if rl != sl {
      MergeableEntry(o, level, rt, st, sva, d, dva, m, r);
      var l, c, z, lo, below := level - 1, de.page, 0, Off(level, dva), r.Down(Base(level, i));
      forall y | lo <= y < lo + m ensures MergeableBy(o, l, rl, sl, z, c, y, below) {
        ReadyAt(o, level, rt, st, sva, d, dva, m, r, y);
      }
    }
  }

  lemma ReadyAt(o: Store, level: nat, rt: Page, st: Page, sva: nat, d: Page, dva: nat, m: nat, r: Stretch, y: nat)
    requires 1 <= level && Mergeables(o, level, rt, st, sva - dva, d, dva, m, r)
    requires r.written
    requires Idx(level, sva) < ENTRIES && Idx(level, dva) < ENTRIES && Off(level, sva) == Off(level, dva)
    requires Off(level, dva) + m <= Span(level) && Off(level, dva) <= y < Off(level, dva) + m
    requires EntryIn(o, level, rt, Idx(level, sva)) != Entry(o, level, d, Idx(level, dva))
    requires EntryIn(o, level, rt, Idx(level, sva)).page != EntryIn(o, level, st, Idx(level, sva)).page
    requires Entry(o, level, d, Idx(level, dva)).page != ZERO
    ensures Mergeable(o, level - 1, EntryIn(o, level, rt, Idx(level, sva)).page, EntryIn(o, level, st, Idx(level, sva)).page, y,
                      Entry(o, level, d, Idx(level, dva)).page, y, r.Down(Base(level, Idx(level, dva))))
  {
    var k, i := Idx(level, sva), Idx(level, dva);
    var yy, xx := Base(level, i) + y, Base(level, k) + y;
    BaseInside(level, i);
    BaseInside(level, k);
    assert yy + (sva - dva) == xx;
    Decompose(level, yy, i, y);
    Decompose(level, xx, k, y);
    assert MergeableBy(o, level, rt, st, sva - dva, d, yy, r);
  }

  lemma OpenedReady(o: Store, o1: Store, level: nat, rt: Page, st: Page, sva: nat, d: Page, dva: nat, m: nat, r: Stretch)
    requires 1 <= level && Mergeables(o, level, rt, st, sva - dva, d, dva, m, r) && m > 0
    requires Idx(level, sva) < ENTRIES && Idx(level, dva) < ENTRIES && Off(level, sva) == Off(level, dva)
    requires Off(level, dva) + m <= Span(level)
    requires EntryIn(o, level, rt, Idx(level, sva)) != Entry(o, level, d, Idx(level, dva)) || !r.written
    requires r.written ==> Entry(o, level, d, Idx(level, dva)).page == ZERO
    requires Wf(o1) && MaybeTab(o1, level, rt) && MaybeTab(o1, level, st) && Opened(o1, level, d, Idx(level, dva))
    requires EntryIn(o1, level, rt, Idx(level, sva)) == EntryIn(o, level, rt, Idx(level, sva))
    requires EntryIn(o1, level, st, Idx(level, sva)) == EntryIn(o, level, st, Idx(level, sva))
    ensures BelowReady(o1, level, rt, st, sva, d, dva, m, r)
  {
    var k, i := Idx(level, sva), Idx(level, dva);
    var rl, sl, de := EntryIn(o1, level, rt, k).page, EntryIn(o1, level, st, k).page, Entry(o1, level, d, i);
    if rl != sl {
      MergeableEntry(o, level, rt, st, sva, d, dva, m, r);
      var l, c, z, lo, below := level - 1, de.page, 0, Off(level, dva), r.Down(Base(level, i));
      EntryFits(o1, level, d, i);
      forall y | lo <= y < lo + m ensures MergeableBy(o1, l, rl, sl, z, c, y, below) {
      }
    }
  }

  /** Before descending: the destination's lower table exists. */
  ghost predicate Descend(o: Store, x: set<Page>, o1: Store, x1: set<Page>, roots: set<Page>, level: nat, rt: Page, st: Page,
                          sva: nat, d: Page, dva: nat, m: nat, s: set<Page>, r: Stretch)
  {
    && 1 <= level <= 3 && Wf(o) && Wf(o1) && CopyLocal(o, x, o1, x1, roots, level, d, s, dva, dva + m)
    && Apart(o1, roots, s) && SetApart(o1, level, rt, s) && SetApart(o1, level, st, s) && SetApart(o, level, rt, s) && SetApart(o, level, st, s)
    && IsTab(o, level, d) && IsTab(o1, level, d) && d in x1 && Same(o, o1, level, d)
    && Idx(level, sva) < ENTRIES && Idx(level, dva) < ENTRIES
    && EntryIn(o1, level, rt, Idx(level, sva)).page == EntryIn(o, level, rt, Idx(level, sva)).page
    && EntryIn(o1, level, st, Idx(level, sva)).page == EntryIn(o, level, st, Idx(level, sva)).page
    && ShowSame(o, o1, level, rt) && ShowSame(o, o1, level, st)
    && BelowReady(o1, level, rt, st, sva, d, dva, m, r)
  }

  lemma DescendPresent(o: Store, x: set<Page>, roots: set<Page>, level: nat, rt: Page, st: Page,
                       sva: nat, d: Page, dva: nat, m: nat, s: set<Page>, r: Stretch)
    requires 1 <= level <= 3 && Wf(o) && Apart(o, roots, s) && SetApart(o, level, rt, s) && SetApart(o, level, st, s)
    requires IsTab(o, level, d) && d in x && Idx(level, sva) < ENTRIES && Idx(level, dva) < ENTRIES
    requires BelowReady(o, level, rt, st, sva, d, dva, m, r)
    ensures Descend(o, x, o, x, roots, level, rt, st, sva, d, dva, m, s, r)
  {
    LocalRefl(o, x, roots, level, d, s, dva, dva + m);
    LocalCopy(o, x, o, x, roots, level, d, s, dva, dva + m);
    SameRefl(o, level, d);
    if rt != ZERO { SameRefl(o, level, rt); }
    if st != ZERO { SameRefl(o, level, st); }
  }

  lemma DescendOpened(o: Store, x: set<Page>, o1: Store, x1: set<Page>, roots: set<Page>, level: nat, rt: Page, st: Page,
                      sva: nat, d: Page, dva: nat, m: nat, s: set<Page>, r: Stretch)
    requires 1 <= level <= 3 && Wf(o) && Wf(o1) && Apart(o, roots, s) && SetApart(o, level, rt, s) && SetApart(o, level, st, s)
    requires IsTab(o, level, d) && IsTab(o1, level, d) && d in x1 && d !in s
    requires Idx(level, sva) < ENTRIES && Idx(level, dva) < ENTRIES
    requires Local(o, x, o1, x1, roots, level, d, s, dva, dva + m) && Same(o, o1, level, d) && KeptSame(o, o1, s)
    requires MaybeTab(o1, level, rt) && MaybeTab(o1, level, st) && BelowReady(o1, level, rt, st, sva, d, dva, m, r)
    ensures Descend(o, x, o1, x1, roots, level, rt, st, sva, d, dva, m, s, r)
  {
    hide BelowReady, KeptOutside, PeersTree, PrivKept;
    LocalCopy(o, x, o1, x1, roots, level, d, s, dva, dva + m);
    ApartKept(o, o1, roots, s);
    assert rt != ZERO ==> Same(o, o1, level, rt);
    assert st != ZERO ==> Same(o, o1, level, st);
  }

  /** Third case of the loop, first half. */
  method MergeDescend(pm: PageMaps, level: nat, rt: Page, st: Page, sva: nat, dt: Page, dva: nat, m: nat, meant: bool, ghost s: set<Page>, ghost r: Stretch)
    requires pm.Valid() && Wf(pm.obj) && 1 <= level <= 3 && SetApart(pm.obj, level, rt, s) && SetApart(pm.obj, level, st, s)
    requires IsTab(pm.obj, level, dt) && dt in pm.excl && dt !in s && Apart(pm.obj, pm.roots, s)
    requires sva < Span(level + 1) && dva < Span(level + 1) && m > 0
    requires Idx(level, sva) < ENTRIES && Idx(level, dva) < ENTRIES && Off(level, sva) == Off(level, dva) && Off(level, dva) + m <= Span(level)
    requires EntryIn(pm.obj, level, rt, Idx(level, sva)) != Entry(pm.obj, level, dt, Idx(level, dva)) || meant
    requires Mergeables(pm.obj, level, rt, st, sva - dva, dt, dva, m, r) && meant == !r.written
    modifies pm`obj, pm`refc, pm`free, pm`npage, pm`held, pm`excl
    ensures pm.Valid() && pm.held == old(pm.held)
    ensures Descend(old(pm.obj), old(pm.excl), pm.obj, pm.excl, pm.roots, level, rt, st, sva, dt, dva, m, s, r)
  {
    hide Wf, Exact, Exclusive, FreeOk, Anchored, Local, KeptSame, Same, Descend, BelowReady, Mergeables, Apart;
    ghost var o, x := pm.obj, pm.excl;
    if meant || Entry(pm.obj, level, dt, Idx(level, dva)).page == ZERO {
      MergeOpen(pm, level, dt, dva, m, s);
      KeptEntry(o, pm.obj, level, rt, Idx(level, sva), s);
      KeptEntry(o, pm.obj, level, st, Idx(level, sva), s);
      OpenedReady(o, pm.obj, level, rt, st, sva, dt, dva, m, r);
      DescendOpened(o, x, pm.obj, pm.excl, pm.roots, level, rt, st, sva, dt, dva, m, s, r);
    } else {
      PresentReady(o, level, rt, st, sva, dt, dva, m, r);
      DescendPresent(o, x, pm.roots, level, rt, st, sva, dt, dva, m, s, r);
    }
  }

  lemma KeptEntry(o: Store, o1: Store, level: nat, t: Page, k: nat, s: set<Page>)
    requires Wf(o) && Wf(o1) && level <= 3 && SetApart(o, level, t, s) && KeptSame(o, o1, s) && k < ENTRIES
    ensures MaybeTab(o1, level, t) && EntryIn(o1, level, t, k) == EntryIn(o, level, t, k)
  {
  }

  /** What one stretch of merging leaves behind; if reference and source are the same table, that is everything. */
  ghost predicate MergeDone(o: Store, x: set<Page>, o2: Store, x2: set<Page>, roots: set<Page>, level: nat, rt: Page, st: Page,
                            sva: nat, d: Page, dva: nat, m: nat, s: set<Page>)
  {
    && CopyLocal(o, x, o2, x2, roots, level, d, s, dva, dva + m) && Merged(o, o2, level, rt, st, d, sva, dva, m)
    && (rt == st ==> o2 == o && x2 == x)
  }

  lemma BelowFacts(o: Store, x: set<Page>, o1: Store, refc: map<Page, int>, free: seq<Page>, npage: Page, held: multiset<Page>, x1: set<Page>, roots: set<Page>,
                   level: nat, rt: Page, st: Page, sva: nat, d: Page, dva: nat, m: nat, s: set<Page>, r: Stretch)
    requires Descend(o, x, o1, x1, roots, level, rt, st, sva, d, dva, m, s, r) && Inv(o1, refc, free, npage, roots, held, x1)
    requires d !in s
    ensures Wf(o1) && Idx(level, sva) < ENTRIES && Idx(level, dva) < ENTRIES && MaybeTab(o1, level, rt) && MaybeTab(o1, level, st)
    ensures IsTab(o1, level, d) && Apart(o1, roots, s)
    ensures var rl, sl := EntryIn(o1, level, rt, Idx(level, sva)).page, EntryIn(o1, level, st, Idx(level, sva)).page;
            var c := o1[d].es[Idx(level, dva)].page;
      && SetApart(o1, level - 1, rl, s) && SetApart(o1, level - 1, sl, s) && IsTab(o1, level - 1, c)
      && (rl != sl ==> c in x1 && c !in s && o1[d].es[Idx(level, dva)].w
                       && Mergeables(o1, level - 1, rl, sl, 0, c, Off(level, dva), m, r.Down(Base(level, Idx(level, dva)))))
  {
    var k, i := Idx(level, sva), Idx(level, dva);
    ApartChild(o1, roots, s, level, rt, k);
    ApartChild(o1, roots, s, level, st, k);
    EntryFits(o1, level, d, i);
    if o1[d].es[i].w {
      ExclusiveChild(o1, refc, roots, x1, level, d, i);
      ChildOutside(o1, refc, free, npage, roots, held, x1, s, level, d, i);
    }
  }

  /** Third case of the loop: back from the tables below. */
  lemma BelowDone(o: Store, x: set<Page>, o1: Store, refc: map<Page, int>, free: seq<Page>, npage: Page, held: multiset<Page>, x1: set<Page>, roots: set<Page>,
                  o2: Store, x2: set<Page>, level: nat, rt: Page, st: Page, sva: nat, d: Page, dva: nat, m: nat, s: set<Page>, r: Stretch)
    requires Descend(o, x, o1, x1, roots, level, rt, st, sva, d, dva, m, s, r) && Inv(o1, refc, free, npage, roots, held, x1)
    requires d !in s && rt != st && Wf(o2) && m > 0 && Off(level, sva) == Off(level, dva) && Off(level, dva) + m <= Span(level)
    requires MaybeTab(o1, level, rt) && MaybeTab(o1, level, st)
    requires MergeDone(o1, x1, o2, x2, roots, level - 1, EntryIn(o1, level, rt, Idx(level, sva)).page,
                       EntryIn(o1, level, st, Idx(level, sva)).page, Off(level, sva), o1[d].es[Idx(level, dva)].page, Off(level, dva), m, s)
    ensures MergeDone(o, x, o2, x2, roots, level, rt, st, sva, d, dva, m, s)
  {
    hide Wf, Exact, Exclusive, FreeOk, Anchored, CopyLocal, Merged, EntryMaps, PrivKept, Mergeables, Same, KeptOutside, EntryIn;
    var k, i := Idx(level, sva), Idx(level, dva);
    var rl, sl := EntryIn(o1, level, rt, k).page, EntryIn(o1, level, st, k).page;
    BelowFacts(o, x, o1, refc, free, npage, held, x1, roots, level, rt, st, sva, d, dva, m, s, r);
    if rl == sl {
      LocalRefl(o1, x1, roots, level, d, s, dva, dva + m);
      LocalCopy(o1, x1, o1, x1, roots, level, d, s, dva, dva + m);
      MergedNothing(o1, level, rt, st, k, d, i, Off(level, dva), m);
    } else {
      CopyLift(o1, refc, free, npage, roots, held, x1, o2, x2, level, d, i, s, s, Off(level, dva), Off(level, dva) + m);
      MergedBelow(o1, o2, level, rt, st, k, d, i, Off(level, dva), m);
    }
    CopyLocalTrans(o, x, o1, x1, o2, x2, roots, level, d, s, dva, dva + m, dva, dva + m, dva, dva + m);
    MergedAfterSame(o, o1, o2, level, rt, st, d, sva, dva, m);
  }

  /** Where the code as written looks below an entry, it finds tables of snapshot and source, and of the destination too
      unless at the lowest level, where the walk makes it. */
  lemma WrittenTables(o: Store, level: nat, rt: Page, st: Page, sva: nat, d: Page, dva: nat, m: nat, r: Stretch)
    requires 1 <= level && Mergeables(o, level, rt, st, sva - dva, d, dva, m, r) && m > 0
    requires Idx(level, sva) < ENTRIES && Idx(level, dva) < ENTRIES && Off(level, sva) == Off(level, dva)
    requires EntryIn(o, level, rt, Idx(level, sva)) != Entry(o, level, d, Idx(level, dva))
    requires EntryIn(o, level, rt, Idx(level, sva)).page != EntryIn(o, level, st, Idx(level, sva)).page && r.written
    ensures EntryIn(o, level, rt, Idx(level, sva)).page != ZERO && EntryIn(o, level, st, Idx(level, sva)).page != ZERO
    ensures Entry(o, level, d, Idx(level, dva)).page != ZERO || level == 1
  {
    MergeableEntry(o, level, rt, st, sva, d, dva, m, r);
  }

  lemma DescendSame(o: Store, x: set<Page>, o1: Store, x1: set<Page>, roots: set<Page>, level: nat, rt: Page, st: Page,
                    sva: nat, d: Page, dva: nat, m: nat, s: set<Page>, r: Stretch)
    requires Descend(o, x, o1, x1, roots, level, rt, st, sva, d, dva, m, s, r)
    ensures MaybeTab(o, level, rt) && MaybeTab(o, level, st) && MaybeTab(o1, level, rt) && MaybeTab(o1, level, st)
    ensures EntryIn(o1, level, rt, Idx(level, sva)).page == EntryIn(o, level, rt, Idx(level, sva)).page
    ensures EntryIn(o1, level, st, Idx(level, sva)).page == EntryIn(o, level, st, Idx(level, sva)).page
  {
  }

  /** Third case of the loop: neither side unchanged at this level, look below. */
  method MergeBelow(pm: PageMaps, level: nat, rt: Page, st: Page, sva: nat, dt: Page, dva: nat, m: nat, meant: bool, ghost s: set<Page>, ghost r: Stretch)
    requires pm.Valid() && Wf(pm.obj) && 1 <= level <= 3 && SetApart(pm.obj, level, rt, s) && SetApart(pm.obj, level, st, s)
    requires IsTab(pm.obj, level, dt) && dt in pm.excl && dt !in s && Apart(pm.obj, pm.roots, s) && rt != st
    requires sva < Span(level + 1) && dva < Span(level + 1) && m > 0
    requires Idx(level, sva) < ENTRIES && Idx(level, dva) < ENTRIES && Off(level, sva) == Off(level, dva) && Off(level, dva) + m <= Span(level)
    requires EntryIn(pm.obj, level, rt, Idx(level, sva)) != Entry(pm.obj, level, dt, Idx(level, dva)) || meant
    requires Mergeables(pm.obj, level, rt, st, sva - dva, dt, dva, m, r) && meant == !r.written
    requires Plan(level - 1, Off(level, sva), Off(level, dva), m, r.Down(Base(level, Idx(level, dva))))
    modifies pm`obj, pm`refc, pm`free, pm`npage, pm`held, pm`excl
    ensures pm.Valid() && pm.held == old(pm.held)
    ensures MergeDone(old(pm.obj), old(pm.excl), pm.obj, pm.excl, pm.roots, level, rt, st, sva, dt, dva, m, s)
    decreases level, 0
  {
    hide Wf, Exact, Exclusive, FreeOk, Anchored, Descend, Mergeables, Plan, MergeDone, Apart;
    ghost var o, x := pm.obj, pm.excl;
    ghost var rl0, sl0 := EntryIn(o, level, rt, Idx(level, sva)).page, EntryIn(o, level, st, Idx(level, sva)).page;
    if r.written && rl0 != sl0 { WrittenTables(o, level, rt, st, sva, dt, dva, m, r); }
    MergeDescend(pm, level, rt, st, sva, dt, dva, m, meant, s, r);
    ghost var o1, x1, rc, f, np := pm.obj, pm.excl, pm.refc, pm.free, pm.npage;
    BelowFacts(o, x, o1, rc, f, np, pm.held, x1, pm.roots, level, rt, st, sva, dt, dva, m, s, r);
    DescendSame(o, x, o1, x1, pm.roots, level, rt, st, sva, dt, dva, m, s, r);
    var rl, sl := EntryIn(pm.obj, level, rt, Idx(level, sva)).page, EntryIn(pm.obj, level, st, Idx(level, sva)).page;
    MergeLevel(pm, level - 1, rl, sl, Off(level, sva), pm.obj[dt].es[Idx(level, dva)].page, Off(level, dva), m, meant, s, r.Down(Base(level, Idx(level, dva))));
    WfOf(pm.obj, pm.refc, pm.free, pm.npage, pm.roots, pm.held, pm.excl);
    BelowDone(o, x, o1, rc, f, np, pm.held, x1, pm.roots, pm.obj, pm.excl, level, rt, st, sva, dt, dva, m, s, r);
  }

  /** First case of the loop: the source entry has not changed since the snapshot. */
  lemma TurnNothing(o: Store, x: set<Page>, roots: set<Page>, level: nat, rt: Page, st: Page, sva: nat, d: Page, dva: nat, m: nat, s: set<Page>)
    requires Wf(o) && level <= 3 && MaybeTab(o, level, rt) && MaybeTab(o, level, st) && IsTab(o, level, d) && Anchored(o, roots, s)
    requires Idx(level, sva) < ENTRIES && Idx(level, dva) < ENTRIES && Off(level, sva) == Off(level, dva) && Off(level, dva) + m <= Span(level)
    requires EntryIn(o, level, rt, Idx(level, sva)) == EntryIn(o, level, st, Idx(level, sva))
    ensures MergeDone(o, x, o, x, roots, level, rt, st, sva, d, dva, m, s)
  {
    hide CopyLocal, Merged;
    LocalRefl(o, x, roots, level, d, s, dva, dva + m);
    LocalCopy(o, x, o, x, roots, level, d, s, dva, dva + m);
    MergedNothing(o, level, rt, st, Idx(level, sva), d, Idx(level, dva), Off(level, dva), m);
  }

  /** Where the destination entry is the reference's and the source's is not, the whole entry is being merged. */
  lemma TakeWhole(o: Store, level: nat, rt: Page, st: Page, sva: nat, d: Page, dva: nat, n: nat, r: Stretch)
    requires Mergeables(o, level, rt, st, sva - dva, d, dva, n, r) && n > 0 && Plan(level, sva, dva, n, r)
    requires sva < Span(level + 1) && dva < Span(level + 1)
    requires Idx(level, sva) < ENTRIES && Idx(level, dva) < ENTRIES
    requires EntryIn(o, level, rt, Idx(level, sva)) != EntryIn(o, level, st, Idx(level, sva))
    requires EntryIn(o, level, rt, Idx(level, sva)) == Entry(o, level, d, Idx(level, dva))
    requires r.written || level == 0 || (Off(level, dva) == 0 && n >= Span(level))
    ensures Off(level, sva) == 0 && Off(level, dva) == 0 && TurnSize(level, dva, n) == Span(level)
  {
    PlanTurn(level, sva, dva, n, r);
    if level > 0 { MergeableEntry(o, level, rt, st, sva, d, dva, n, r); }
  }

  lemma MergeablesPart(o: Store, level: nat, rt: Page, st: Page, delta: int, d: Page, dva: nat, n: nat, m: nat, r: Stretch)
    requires Mergeables(o, level, rt, st, delta, d, dva, n, r) && m <= n
    ensures Mergeables(o, level, rt, st, delta, d, dva, m, r)
  {
  }

  lemma LeafDone(o: Store, x: set<Page>, o2: Store, x2: set<Page>, roots: set<Page>, rt: Page, st: Page, k: nat, d: Page, i: nat, s: set<Page>)
    requires Wf(o) && MaybeTab(o, 0, rt) && MaybeTab(o, 0, st) && k < ENTRIES && i < ENTRIES && rt != st
    requires LeafElse(o, o2, d, i) && Local(o, x, o2, x2, roots, 0, d, s, i, i + 1)
    requires ViewMerged(Leaf(o, EntryIn(o, 0, rt, k)), Leaf(o, EntryIn(o, 0, st, k)), At(o, 0, d, i), At(o2, 0, d, i))
    ensures MergeDone(o, x, o2, x2, roots, 0, rt, st, k, d, i, 1, s)
  {
    hide ViewMerged, Zeros, CopyLocal, Local, LeafElse;
    LocalCopy(o, x, o2, x2, roots, 0, d, s, i, i + 1);
    MergedLeaf(o, o2, rt, st, k, d, i);
  }

  /** The two shortcuts of a turn: equal entries of snapshot and source change nothing at all, and a destination entry that is the
      snapshot's takes on the source's. */
  ghost predicate Shortcut(o: Store, o2: Store, level: nat, rt: Page, st: Page, sva: nat, d: Page, dva: nat, n: nat, meant: bool)
  {
    && Wf(o) && level <= 3 && MaybeTab(o, level, rt) && MaybeTab(o, level, st) && IsTab(o, level, d)
    && Idx(level, sva) < ENTRIES && Idx(level, dva) < ENTRIES
    && var re, se, de := EntryIn(o, level, rt, Idx(level, sva)), EntryIn(o, level, st, Idx(level, sva)), Entry(o, level, d, Idx(level, dva));
       && (se == re ==> o2 == o)
       && (se != re && de == re && (!meant || level == 0 || (Off(level, dva) == 0 && n >= Span(level))) ==>
             TakenOver(o, o2, level, st, d, sva, dva, Span(level)))
  }

  /** One turn of the loop of pmap_merge_level; the merge as meant takes no more than the range, and goes below tables of its
      own only. */
  method MergeTurn(pm: PageMaps, level: nat, rt: Page, st: Page, sva: nat, dt: Page, dva: nat, n: nat, meant: bool, ghost s: set<Page>, ghost r: Stretch)
    requires pm.Valid() && Wf(pm.obj) && level <= 3 && SetApart(pm.obj, level, rt, s) && SetApart(pm.obj, level, st, s)
    requires IsTab(pm.obj, level, dt) && Apart(pm.obj, pm.roots, s) && n > 0
    requires sva + n <= Span(level + 1) && dva + n <= Span(level + 1) && Plan(level, sva, dva, n, r)
    requires rt != st ==> dt in pm.excl && dt !in s && Mergeables(pm.obj, level, rt, st, sva - dva, dt, dva, n, r)
    requires meant == !r.written && (rt != st && r.written ==> rt != ZERO && st != ZERO)
    modifies pm`obj, pm`refc, pm`free, pm`npage, pm`held, pm`excl
    ensures pm.Valid() && pm.held == old(pm.held) && Wf(pm.obj)
    ensures MergeDone(old(pm.obj), old(pm.excl), pm.obj, pm.excl, pm.roots, level, rt, st, sva, dt, dva, TurnSize(level, dva, n), s)
    ensures Shortcut(old(pm.obj), pm.obj, level, rt, st, sva, dt, dva, n, meant)
    decreases level, 1
  {
    hide Wf, Exact, Exclusive, FreeOk, Anchored, Mergeables, MergeDone, CopyLocal, Merged, Local, LeafElse, ViewMerged, Zeros, Plan, EntryOk, TakenOver;
    ghost var o, x := pm.obj, pm.excl;
    IdxInside(level, sva);
    IdxInside(level, dva);
    var k, i := Idx(level, sva), Idx(level, dva);
    PlanTurn(level, sva, dva, n, r);
    var re, se, de := EntryIn(pm.obj, level, rt, k), EntryIn(pm.obj, level, st, k), Entry(pm.obj, level, dt, i);
    if se == re {
      TurnNothing(o, x, pm.roots, level, rt, st, sva, dt, dva, TurnSize(level, dva, n), s);
    } else if de == re && (!meant || level == 0 || (Off(level, dva) == 0 && n >= Span(level))) {
      TakeWhole(o, level, rt, st, sva, dt, dva, n, r);
      MergeTake(pm, level, rt, st, sva, dt, dva, s);
      TakeDone(o, x, pm.obj, pm.excl, pm.roots, level, rt, st, sva, dt, dva, s);
    } else if level > 0 {
      var m := TurnSize(level, dva, n);
      MergeablesPart(o, level, rt, st, sva - dva, dt, dva, n, m, r);
      MergeBelow(pm, level, rt, st, sva, dt, dva, m, meant, s, r);
      WfOf(pm.obj, pm.refc, pm.free, pm.npage, pm.roots, pm.held, pm.excl);
    } else {
      PmapMergepage(pm, re, se, dt, i, s);
      WfOf(pm.obj, pm.refc, pm.free, pm.npage, pm.roots, pm.held, pm.excl);
      LeafDone(o, x, pm.obj, pm.excl, pm.roots, rt, st, k, dt, i, s);
    }
  }

  lemma TakeDone(o: Store, x: set<Page>, o2: Store, x2: set<Page>, roots: set<Page>, level: nat, rt: Page, st: Page, sva: nat, d: Page, dva: nat, s: set<Page>)
    requires level <= 3 && rt != st && CopyLocal(o, x, o2, x2, roots, level, d, s, dva, dva + Span(level))
    requires Merged(o, o2, level, rt, st, d, sva, dva, Span(level))
    ensures MergeDone(o, x, o2, x2, roots, level, rt, st, sva, d, dva, Span(level), s)
  {
  }

  lemma DoneTrans(o: Store, x: set<Page>, o1: Store, x1: set<Page>, o2: Store, x2: set<Page>, roots: set<Page>, level: nat,
                  rt: Page, st: Page, sva: nat, d: Page, dva: nat, n1: nat, n2: nat, s: set<Page>)
    requires MergeDone(o, x, o1, x1, roots, level, rt, st, sva, d, dva, n1, s)
    requires MergeDone(o1, x1, o2, x2, roots, level, rt, st, sva + n1, d, dva + n1, n2, s)
    requires Wf(o) && SetApart(o, level, rt, s) && SetApart(o, level, st, s) && (rt != st ==> d !in s)
    ensures MergeDone(o, x, o2, x2, roots, level, rt, st, sva, d, dva, n1 + n2, s)
  {
    hide Merged;
    DoneShows(o, x, o1, x1, roots, level, rt, st, sva, d, dva, n1, s);
    CopyLocalTrans(o, x, o1, x1, o2, x2, roots, level, d, s, dva, dva + n1 + n2, dva, dva + n1, dva + n1, dva + n1 + n2);
    MergedTrans(o, o1, o2, level, rt, st, d, sva, dva, n1, n2);
  }

  lemma DoneShows(o: Store, x: set<Page>, o1: Store, x1: set<Page>, roots: set<Page>, level: nat,
                  rt: Page, st: Page, sva: nat, d: Page, dva: nat, n: nat, s: set<Page>)
    requires MergeDone(o, x, o1, x1, roots, level, rt, st, sva, d, dva, n, s)
    requires Wf(o) && SetApart(o, level, rt, s) && SetApart(o, level, st, s) && (rt != st ==> d !in s)
    ensures level <= 3 && ShowSame(o, o1, level, rt) && ShowSame(o, o1, level, st)
    ensures SetApart(o1, level, rt, s) && SetApart(o1, level, st, s) && Wf(o1) && IsTab(o1, level, d)
    ensures d in x && IsTab(o, level, d) ==> d in x1
    ensures KeptShape(o, o1, s) && KeptOutside(o, o1, level, d, dva, dva + n)
  {
    if rt == st {
      if rt != ZERO { SameRefl(o, level, rt); }
    }
    KeptTab(o, o1, level, rt, s);
    KeptTab(o, o1, level, st, s);
  }

  /** After a turn: everything the next one asks for. */
  lemma NextTurn(o: Store, x: set<Page>, o1: Store, x1: set<Page>, roots: set<Page>, level: nat,
                 rt: Page, st: Page, sva: nat, d: Page, dva: nat, n: nat, m: nat, s: set<Page>, r: Stretch)
    requires MergeDone(o, x, o1, x1, roots, level, rt, st, sva, d, dva, m, s) && m <= n && Wf(o)
    requires level <= 3 && SetApart(o, level, rt, s) && SetApart(o, level, st, s) && IsTab(o, level, d) && Apart(o, roots, s)
    requires m == n || Multiple(level, dva + m)
    requires rt != st ==> d in x && d !in s && Mergeables(o, level, rt, st, sva - dva, d, dva, n, r)
    ensures SetApart(o1, level, rt, s) && SetApart(o1, level, st, s) && IsTab(o1, level, d) && Apart(o1, roots, s)
    ensures rt != st ==> d in x1 && Mergeables(o1, level, rt, st, (sva + m) - (dva + m), d, dva + m, n - m, r)
  {
    hide Mergeables, KeptOutside, MergeDone, Multiple;
    DoneShows(o, x, o1, x1, roots, level, rt, st, sva, d, dva, m, s);
    ApartKept(o, o1, roots, s);
    assert (sva + m) - (dva + m) == sva - dva;
    if rt != st { MergeablesKept(o, o1, roots, s, level, rt, st, sva - dva, d, dva, n, m, r); }
  }

  /** pmap_merge_level, for n pages: svahi == sva0 + n. */
  method MergeLevel(pm: PageMaps, level: nat, rt: Page, st: Page, sva0: nat, dt: Page, dva0: nat, n: nat, meant: bool, ghost s: set<Page>, ghost r: Stretch)
    requires pm.Valid() && Wf(pm.obj) && level <= 3 && SetApart(pm.obj, level, rt, s) && SetApart(pm.obj, level, st, s)
    requires IsTab(pm.obj, level, dt) && Apart(pm.obj, pm.roots, s)
    requires sva0 + n <= Span(level + 1) && dva0 + n <= Span(level + 1) && Plan(level, sva0, dva0, n, r)
    requires rt != st ==> dt in pm.excl && dt !in s && Mergeables(pm.obj, level, rt, st, sva0 - dva0, dt, dva0, n, r)
    requires meant == !r.written && (rt != st && r.written ==> rt != ZERO && st != ZERO)
    modifies pm`obj, pm`refc, pm`free, pm`npage, pm`held, pm`excl
    ensures pm.Valid() && pm.held == old(pm.held) && Wf(pm.obj)
    ensures MergeDone(old(pm.obj), old(pm.excl), pm.obj, pm.excl, pm.roots, level, rt, st, sva0, dt, dva0, n, s)
    decreases level, 2
  {
    hide Wf, Exact, Exclusive, FreeOk, Anchored, Mergeables, MergeDone, Plan, SetApart, Apart, Multiple;
    ghost var o, x := pm.obj, pm.excl;
    NothingYet(o, x, pm.roots, level, rt, st, sva0, dt, dva0, s);
    ghost var done := 0;
    var sva, dva, svahi := sva0, dva0, sva0 + n;
    while sva < svahi
      invariant done <= n && (sva < svahi <==> done < n) && (done < n ==> sva == sva0 + done && dva == dva0 + done)
      invariant pm.Valid() && pm.held == old(pm.held) && Wf(pm.obj)
      invariant MergeDone(o, x, pm.obj, pm.excl, pm.roots, level, rt, st, sva0, dt, dva0, done, s)
      invariant SetApart(pm.obj, level, rt, s) && SetApart(pm.obj, level, st, s) && IsTab(pm.obj, level, dt) && Apart(pm.obj, pm.roots, s)
      invariant done < n ==> Plan(level, sva, dva, n - done, r)
      invariant done < n && rt != st ==> dt in pm.excl && dt !in s && Mergeables(pm.obj, level, rt, st, sva - dva, dt, dva, n - done, r)
    {
      ghost var o1, x1, m := pm.obj, pm.excl, TurnSize(level, dva, n - done);
      PlanTurn(level, sva, dva, n - done, r);
      MergeTurn(pm, level, rt, st, sva, dt, dva, svahi - sva, meant, s, r);
      NextTurn(o1, x1, pm.obj, pm.excl, pm.roots, level, rt, st, sva, dt, dva, n - done, m, s, r);
      DoneTrans(o, x, o1, x1, pm.obj, pm.excl, pm.roots, level, rt, st, sva0, dt, dva0, done, m, s);
      var step := if meant then Span(level) - Off(level, dva) else Span(level);
      sva := sva + step;
      dva := dva + step;
      done := done + m;
    }
  }

  lemma NothingYet(o: Store, x: set<Page>, roots: set<Page>, level: nat, rt: Page, st: Page, sva: nat, d: Page, dva: nat, s: set<Page>)
    requires Wf(o) && level <= 3 && SetApart(o, level, rt, s) && SetApart(o, level, st, s) && IsTab(o, level, d) && Apart(o, roots, s)
    requires sva <= Span(level + 1) && dva <= Span(level + 1)
    ensures MergeDone(o, x, o, x, roots, level, rt, st, sva, d, dva, 0, s)
  {
    hide ViewMerged, Zeros;
    LocalRefl(o, x, roots, level, d, s, dva, dva);
    LocalCopy(o, x, o, x, roots, level, d, s, dva, dva);
  }
}
