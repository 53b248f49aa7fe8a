/** pmap_copy: copy a range of mappings by sharing pages and whole tables copy-on-write (kern/pmap.c).  What a copy
    means, and what it leaves alone. */
module Copy {
  import opened Paging
  import opened PageMem
  import opened Views
  import opened Private
  import opened Walk
  import opened Frames
  import opened Remove

  /** The destination mapping b, formerly a, is a copy of the source mapping c.  Where an absent source table is
      copied, a destination address that mapped zeros may keep its nominal permissions. */
  predicate CopyOf(a: View, b: View, c: View)
  {
    b == c || (c == Absent() && b == a && a.pte.page == ZERO)
  }

  /** The n addresses from dva below d now map what those from sva below s mapped, without effective write
      permission; all other addresses below d map what they did. */
  ghost predicate Copied(o: Store, o': Store, level: nat, s: Page, d: Page, sva: nat, dva: nat, n: nat)
  {
    && Wf(o) && Wf(o') && level <= 3 && IsTab(o, level, s) && IsTab(o, level, d) && IsTab(o', level, d)
    && sva + n <= Span(level + 1) && dva + n <= Span(level + 1)
    && (forall x :: 0 <= x < Span(level + 1) && !(dva <= x < dva + n) ==> At(o', level, d, x) == At(o, level, d, x))
    && (forall x :: dva <= x < dva + n ==> CopyOf(At(o, level, d, x), At(o', level, d, x), At(o, level, s, x - dva + sva)))
    && (forall x :: 0 <= x < Span(level + 1) && EffW(o', level, d, x) ==> EffW(o, level, d, x) && !(dva <= x < dva + n))
  }

  /** The n addresses from va below t are not effectively writable. */
  ghost predicate Sealed(o: Store, level: nat, t: Page, va: nat, n: nat)
  {
    && Wf(o) && level <= 3 && IsTab(o, level, t) && va + n <= Span(level + 1)
    && forall x :: va <= x < va + n ==> !EffW(o, level, t, x)
  }

  lemma SealedEntry(o: Store, level: nat, t: Page, va: nat, n: nat)
    requires Wf(o) && level <= 3 && IsTab(o, level, t) && va + n <= Span(level + 1) && Off(level, va) + n <= Span(level)
    requires Idx(level, va) < ENTRIES && !o[t].es[Idx(level, va)].w
    ensures Sealed(o, level, t, va, n)
  {
    forall x | va <= x < va + n ensures !EffW(o, level, t, x) { SameEntry(level, va, x); }
  }

  /** Addresses within one entry. */
  lemma SameEntry(level: nat, va: nat, x: nat)
    requires level <= 3 && va <= x && Off(level, va) + (x - va) < Span(level)
    ensures Idx(level, x) == Idx(level, va) && Off(level, x) == Off(level, va) + (x - va)
  {
  }

  lemma SealedBelow(o: Store, level: nat, t: Page, va: nat, n: nat)
    requires Wf(o) && 1 <= level <= 3 && IsTab(o, level, t) && va + n <= Span(level + 1) && Off(level, va) + n <= Span(level)
    requires Idx(level, va) < ENTRIES && Sealed(o, level - 1, o[t].es[Idx(level, va)].page, Off(level, va), n)
    ensures Sealed(o, level, t, va, n)
  {
    forall x | va <= x < va + n ensures !EffW(o, level, t, x) { SameEntry(level, va, x); }
  }

  lemma SealedOn(o: Store, o': Store, level: nat, t: Page, va: nat, n: nat, m: nat)
    requires Sealed(o, level, t, va, n) && Same(o, o', level, t) && Sealed(o', level, t, va + n, m)
    ensures Sealed(o', level, t, va, n + m)
  {
  }

  /** The pages of s name what they named; PTE_W may have been withdrawn. */
  ghost predicate KeptShape(o: Store, o': Store, s: set<Page>)
  {
    forall u :: u in s ==> u in o && u in o' && if o[u].Table? then SameShape(o, o', o[u].level, u) else o'[u] == o[u]
  }

  /** Tables of this level and above other than d are untouched, except that those of s may have lost PTE_W. */
  ghost predicate HighKept(o: Store, o': Store, level: nat, d: Page, s: set<Page>)
  {
    forall u :: u in o && o[u].Table? && o[u].level >= level && u != d ==>
      u in o' && if u in s then SameShape(o, o', o[u].level, u) else o'[u] == o[u]
  }

  /** Exclusive tables of this level outside s, other than d, are untouched with everything private below them. */
  ghost predicate PeersPriv(o: Store, x: set<Page>, o': Store, level: nat, d: Page, s: set<Page>)
  {
    Wf(o) && level <= 3 && forall u :: u in x && IsTab(o, level, u) && u !in s && u != d ==> TreeKept(o, o', level, u)
  }

  /** Outside the range lo <= y < hi table d is as private as before. */
  ghost predicate PrivOutside(o: Store, o': Store, level: nat, d: Page, lo: int, hi: int)
  {
    && Wf(o) && Wf(o') && level <= 3 && IsTab(o, level, d) && IsTab(o', level, d)
    && forall y, r :: 0 <= y < Span(level + 1) && !(lo <= y < hi) && PrivAt(o, level, d, y, r) ==> PrivAt(o', level, d, y, r)
  }

  /** All that a copy into addresses lo <= va < hi of d out of the tables of s leaves alone. */
  ghost predicate CopyLocal(o: Store, x: set<Page>, o2: Store, x2: set<Page>, roots: set<Page>,
                            level: nat, d: Page, s: set<Page>, lo: int, hi: int)
  {
    && PeersSame(o, o2, level, d) && HighKept(o, o2, level, d, s) && KeptShape(o, o2, s) && Anchored(o2, roots, s)
    && HighExcl(o, x, x2, level) && PeersPriv(o, x, o2, level, d, s) && IsTab(o2, level, d)
    && KeptOutside(o, o2, level, d, lo, hi)
  }

  /* ---------- composition ---------- */

  lemma ShapeTrans(o: Store, o1: Store, o2: Store, level: nat, u: Page)
    requires SameShape(o, o1, level, u) && SameShape(o1, o2, level, u)
    ensures SameShape(o, o2, level, u)
  {
    forall j | 0 <= j < ENTRIES
      ensures o2[u].es[j].(w := false) == o[u].es[j].(w := false) && (o2[u].es[j].w ==> o[u].es[j].w)
    {
      assert o1[u].es[j].(w := false) == o[u].es[j].(w := false);
    }
  }

  lemma KeptShapeTrans(o: Store, o1: Store, o2: Store, s: set<Page>)
    requires KeptShape(o, o1, s) && KeptShape(o1, o2, s)
    ensures KeptShape(o, o2, s)
  {
    forall u | u in s ensures u in o && u in o2 && if o[u].Table? then SameShape(o, o2, o[u].level, u) else o2[u] == o[u] {
      if o[u].Table? {
        assert SameShape(o, o1, o[u].level, u);
        ShapeTrans(o, o1, o2, o[u].level, u);
      }
    }
  }

  lemma HighKeptTrans(o: Store, o1: Store, o2: Store, level: nat, d: Page, s: set<Page>)
    requires HighKept(o, o1, level, d, s) && HighKept(o1, o2, level, d, s)
    ensures HighKept(o, o2, level, d, s)
  {
    forall u | u in o && o[u].Table? && o[u].level >= level && u != d
      ensures u in o2 && if u in s then SameShape(o, o2, o[u].level, u) else o2[u] == o[u]
    {
      if u in s {
        assert SameShape(o, o1, o[u].level, u);
        ShapeTrans(o, o1, o2, o[u].level, u);
      }
    }
  }

  lemma PeersSameTrans(o: Store, o1: Store, o2: Store, level: nat, d: Page)
    requires PeersSame(o, o1, level, d) && PeersSame(o1, o2, level, d)
    ensures PeersSame(o, o2, level, d)
  {
    forall u | IsTab(o, level, u) && u != d ensures Same(o, o2, level, u) {
      assert Same(o, o1, level, u) && Same(o1, o2, level, u);
      SameTrans(o, o1, o2, level, u);
    }
  }

  lemma CopyLocalTrans(o: Store, x: set<Page>, o1: Store, x1: set<Page>, o2: Store, x2: set<Page>, roots: set<Page>,
                       level: nat, d: Page, s: set<Page>, lo: int, hi: int, l1: int, h1: int, l2: int, h2: int)
    requires CopyLocal(o, x, o1, x1, roots, level, d, s, l1, h1) && CopyLocal(o1, x1, o2, x2, roots, level, d, s, l2, h2)
    requires lo <= l1 && lo <= l2 && h1 <= hi && h2 <= hi
    ensures CopyLocal(o, x, o2, x2, roots, level, d, s, lo, hi)
  {
    hide KeptOutside, PeersSame, HighKept, PeersPriv, KeptShape, Anchored, HighExcl;
    PeersSameTrans(o, o1, o2, level, d);
    HighKeptTrans(o, o1, o2, level, d, s);
    KeptShapeTrans(o, o1, o2, s);
    KeptOutsideTrans(o, o1, o2, level, d, lo, hi, l1, h1, l2, h2);
    CopyExclTrans(o, x, o1, x1, o2, x2, level, d, s);
  }

  lemma CopyExclTrans(o: Store, x: set<Page>, o1: Store, x1: set<Page>, o2: Store, x2: set<Page>,
                       level: nat, d: Page, s: set<Page>)
    requires HighExcl(o, x, x1, level) && HighKept(o, o1, level, d, s) && PeersPriv(o, x, o1, level, d, s) && IsTab(o1, level, d)
    requires HighExcl(o1, x1, x2, level) && PeersPriv(o1, x1, o2, level, d, s)
    ensures HighExcl(o, x, x2, level) && PeersPriv(o, x, o2, level, d, s)
  {
    forall u | u in x && u in o && o[u].Table? && o[u].level >= level ensures u in x2 {
      assert u in x1 && u in o1 && o1[u].Table? && o1[u].level >= level;
    }
    forall u | u in x && IsTab(o, level, u) && u !in s && u != d ensures TreeKept(o, o2, level, u) {
      assert TreeKept(o, o1, level, u) && u in x1 && IsTab(o1, level, u);
      assert TreeKept(o1, o2, level, u);
      TreeTrans(o, o1, o2, level, u);
    }
  }

  lemma CopiedTrans(o: Store, o1: Store, o2: Store, level: nat, s: Page, d: Page, sva: nat, dva: nat, n1: nat, n2: nat)
    requires Copied(o, o1, level, s, d, sva, dva, n1) && Same(o, o1, level, s)
    requires Copied(o1, o2, level, s, d, sva + n1, dva + n1, n2)
    ensures Copied(o, o2, level, s, d, sva, dva, n1 + n2)
  {
    forall x | 0 <= x < Span(level + 1)
      ensures !(dva <= x < dva + n1 + n2) ==> At(o2, level, d, x) == At(o, level, d, x)
      ensures dva <= x < dva + n1 + n2 ==> CopyOf(At(o, level, d, x), At(o2, level, d, x), At(o, level, s, x - dva + sva))
      ensures EffW(o2, level, d, x) ==> EffW(o, level, d, x) && !(dva <= x < dva + n1 + n2)
    {
      if dva <= x < dva + n1 + n2 {
        assert At(o1, level, s, x - dva + sva) == At(o, level, s, x - dva + sva);
        if x >= dva + n1 {
          assert CopyOf(At(o1, level, d, x), At(o2, level, d, x), At(o1, level, s, x - (dva + n1) + (sva + n1)));
        }
      }
    }
  }

  /** What is local without withdrawing anything is local to a copy. */
  lemma LocalCopy(o: Store, x: set<Page>, o2: Store, x2: set<Page>, roots: set<Page>, level: nat, d: Page, s: set<Page>,
                  lo: int, hi: int)
    requires Local(o, x, o2, x2, roots, level, d, s, lo, hi) && Wf(o)
    ensures CopyLocal(o, x, o2, x2, roots, level, d, s, lo, hi)
  {
    forall u | u in s ensures u in o && u in o2 && if o[u].Table? then SameShape(o, o2, o[u].level, u) else o2[u] == o[u] {
      assert u in o && o2[u] == o[u] && ObjOk(o, u);
    }
    forall u | u in o && o[u].Table? && o[u].level >= level && u != d
      ensures u in o2 && if u in s then SameShape(o, o2, o[u].level, u) else o2[u] == o[u]
    {
      assert ObjOk(o, u);
    }
  }

  /* ---------- one level up ---------- */

  /** The tables of s1 are those of s and some of the level below. */
  predicate Below(o: Store, level: nat, s: set<Page>, s1: set<Page>)
  {
    level >= 1 && s <= s1 && forall u :: u in s1 && u !in s ==> IsTab(o, level - 1, u)
  }

  /** From the lower destination table named by entry i of d, with lower source tables set apart as well, to d. */
  lemma CopyLift(o: Store, refc: map<Page, int>, free: seq<Page>, npage: Page, roots: set<Page>, held: multiset<Page>,
                 x: set<Page>, o2: Store, x2: set<Page>, level: nat, d: Page, i: nat, s1: set<Page>, s: set<Page>,
                 lo: int, hi: int)
    requires Inv(o, refc, free, npage, roots, held, x) && Wf(o2) && 1 <= level <= 3
    requires Anchored(o, roots, s) && Anchored(o, roots, s1) && Below(o, level, s, s1)
    requires IsTab(o, level, d) && d in x && d !in s && i < ENTRIES && o[d].es[i].w && IsTab(o, level - 1, o[d].es[i].page)
    requires CopyLocal(o, x, o2, x2, roots, level - 1, o[d].es[i].page, s1, lo, hi) && 0 <= lo < hi <= Span(level)
    ensures CopyLocal(o, x, o2, x2, roots, level, d, s, Base(level, i) + lo, Base(level, i) + hi) && d in o2 && o2[d] == o[d]
    ensures forall j :: 0 <= j < ENTRIES && j != i ==> EntryMaps(o, o[d].es[j], o2, o2[d].es[j], level - 1)
    ensures forall j :: 0 <= j < ENTRIES && j != i && o[d].es[j].w ==> PrivKept(o, o2, level - 1, o[d].es[j].page)
  {
    hide Wf, Exact, Exclusive, FreeOk, Anchored, PeersPriv, PrivKept, PeersSame, HighKept, KeptShape, HighExcl, OnlyNamed, KeptOutside;
    var c := o[d].es[i].page;
    ExclusiveChild(o, refc, roots, x, level, d, i);
    assert Names(o, d, i, c);
    ExclusiveOnlyNamed(o, refc, roots, held, x, c, d, i);
    LiftKept(o, x, o2, x2, level, d, c, s1, s);
    LiftPeers(o, o2, level, d, i, c, s1, s);
    AnchoredShape(o, o2, roots, s);
    LiftPriv(o, refc, free, npage, roots, held, x, o2, level, d, i, s1, s);
    EntryOutside(o, o2, level, d, i, Base(level, i) + lo, Base(level, i) + hi);
  }

  lemma LiftKept(o: Store, x: set<Page>, o2: Store, x2: set<Page>, level: nat, d: Page, c: Page, s1: set<Page>, s: set<Page>)
    requires Below(o, level, s, s1) && IsTab(o, level, d) && d !in s && IsTab(o, level - 1, c)
    requires HighKept(o, o2, level - 1, c, s1) && KeptShape(o, o2, s1) && HighExcl(o, x, x2, level - 1)
    ensures d in o2 && o2[d] == o[d] && HighKept(o, o2, level, d, s) && KeptShape(o, o2, s) && HighExcl(o, x, x2, level)
  {
  }

  lemma LiftPriv(o: Store, refc: map<Page, int>, free: seq<Page>, npage: Page, roots: set<Page>, held: multiset<Page>,
                 x: set<Page>, o2: Store, level: nat, d: Page, i: nat, s1: set<Page>, s: set<Page>)
    requires Inv(o, refc, free, npage, roots, held, x) && Wf(o2) && 1 <= level <= 3
    requires Anchored(o, roots, s1) && Below(o, level, s, s1)
    requires IsTab(o, level, d) && d in x && d !in s && i < ENTRIES && IsTab(o, level - 1, o[d].es[i].page)
    requires PeersPriv(o, x, o2, level - 1, o[d].es[i].page, s1)
    requires HighKept(o, o2, level, d, s) && d in o2 && o2[d] == o[d]
    ensures PeersPriv(o, x, o2, level, d, s)
    ensures forall j :: 0 <= j < ENTRIES && j != i ==> EntryKept(o, o2, level, d, j)
    ensures forall j :: 0 <= j < ENTRIES && j != i && o[d].es[j].w ==> PrivKept(o, o2, level - 1, o[d].es[j].page)
  {
    forall u | u in x && IsTab(o, level, u) && u !in s && u != d ensures TreeKept(o, o2, level, u) {
      forall j | 0 <= j < ENTRIES && Entry(o, level, u, j).w ensures TreeKept(o, o2, level - 1, o[u].es[j].page) {
        LiftPrivChild(o, refc, free, npage, roots, held, x, o2, level, d, i, s1, s, u, j);
      }
      TreeLift(o, refc, roots, x, o2, level, u);
    }
    forall j | 0 <= j < ENTRIES && j != i
      ensures EntryKept(o, o2, level, d, j) && (o[d].es[j].w ==> PrivKept(o, o2, level - 1, o[d].es[j].page))
    {
      if Entry(o, level, d, j).w {
        LiftPrivChild(o, refc, free, npage, roots, held, x, o2, level, d, i, s1, s, d, j);
        EntryFits(o2, level, d, j);
        TreePriv(o, o2, level - 1, o[d].es[j].page);
      }
    }
  }

  lemma LiftPrivChild(o: Store, refc: map<Page, int>, free: seq<Page>, npage: Page, roots: set<Page>, held: multiset<Page>,
                      x: set<Page>, o2: Store, level: nat, d: Page, i: nat, s1: set<Page>, s: set<Page>, u: Page, j: nat)
    requires Inv(o, refc, free, npage, roots, held, x) && Wf(o2) && 1 <= level <= 3
    requires Anchored(o, roots, s1) && Below(o, level, s, s1)
    requires IsTab(o, level, d) && i < ENTRIES && IsTab(o, level - 1, o[d].es[i].page)
    requires PeersPriv(o, x, o2, level - 1, o[d].es[i].page, s1)
    requires u in x && IsTab(o, level, u) && u !in s && j < ENTRIES && o[u].es[j].w && !(u == d && j == i)
    ensures IsTab(o, level - 1, o[u].es[j].page) && TreeKept(o, o2, level - 1, o[u].es[j].page)
  {
    var c, w := o[d].es[i].page, o[u].es[j].page;
    EntryFits(o, level, u, j);
    ExclusiveChild(o, refc, roots, x, level, u, j);
    assert Names(o, u, j, w);
    ExclusiveOnlyNamed(o, refc, roots, held, x, w, u, j);
    ChildOutside(o, refc, free, npage, roots, held, x, s1, level, u, j);
    assert Names(o, d, i, c);
    assert w != c;
  }

  lemma LiftPeers(o: Store, o2: Store, level: nat, d: Page, i: nat, c: Page, s1: set<Page>, s: set<Page>)
    requires Wf(o) && Wf(o2) && 1 <= level <= 3 && IsTab(o, level, d) && i < ENTRIES && IsTab(o, level - 1, c)
    requires OnlyNamed(o, c, d, i) && s <= s1
    requires PeersSame(o, o2, level - 1, c) && HighKept(o, o2, level - 1, c, s1)
    ensures PeersSame(o, o2, level, d)
    ensures d in o2 && o2[d] == o[d] ==>
              forall j :: 0 <= j < ENTRIES && j != i ==> EntryMaps(o, o[d].es[j], o2, o2[d].es[j], level - 1)
  {
    forall u | IsTab(o, level, u) && u != d ensures Same(o, o2, level, u) {
      assert IsTab(o2, level, u) && SameShape(o, o2, level, u);
      forall j | 0 <= j < ENTRIES ensures EntryMaps(o, o[u].es[j], o2, o2[u].es[j], level - 1) {
        LiftEntry(o, o2, level, u, j, c);
      }
      TableLift(o, o2, level, u);
    }
    if d in o2 && o2[d] == o[d] {
      forall j | 0 <= j < ENTRIES && j != i ensures EntryMaps(o, o[d].es[j], o2, o2[d].es[j], level - 1) {
        assert !Names(o, d, j, c);
        LiftEntry(o, o2, level, d, j, c);
      }
    }
  }

  lemma LiftEntry(o: Store, o2: Store, level: nat, u: Page, j: nat, c: Page)
    requires Wf(o) && Wf(o2) && 1 <= level <= 3 && j < ENTRIES && SameShape(o, o2, level, u) && !Names(o, u, j, c)
    requires PeersSame(o, o2, level - 1, c)
    ensures EntryMaps(o, o[u].es[j], o2, o2[u].es[j], level - 1)
  {
    EntryFits(o, level, u, j);
    var e := o[u].es[j];
    assert o2[u].es[j].(w := false) == e.(w := false);
    if e.page != ZERO {
      assert Same(o, o2, level - 1, e.page);
    }
    EntryMapsSame(o, o2, e, level - 1);
    if o2[u].es[j] != e {
      assert EntryMaps(o, e, o2, e.(w := false), level - 1);
    }
  }

  lemma AnchoredShape(o: Store, o2: Store, roots: set<Page>, s: set<Page>)
    requires Anchored(o, roots, s) && KeptShape(o, o2, s)
    ensures Anchored(o2, roots, s)
  {
    forall t: Page, i: nat, q: Page | t in s && Names(o, t, i, q) ensures Names(o2, t, i, q) {
      assert SameShape(o, o2, o[t].level, t);
      assert o2[t].es[i].(w := false) == o[t].es[i].(w := false);
    }
    AnchoredStep(o, o2, roots, s);
  }
}
