/** pmap_merge on address spaces, and joining the children of one snapshot in any order (kern/pmap.c). */
module Joins {
  import opened Paging
  import opened PageMem
  import opened Views
  import opened Private
  import opened Copy
  import opened Spaces
  import opened ThreeWay
  import opened LeafMerge
  import opened TableMerge

  /** Table p is t or lies below it. */
  ghost predicate InTree(o: Store, level: nat, t: Page, p: Page)
    requires Wf(o) && level <= 3 && IsTab(o, level, t)
    decreases level
  {
    p == t || (level > 0 && exists i :: 0 <= i < ENTRIES && Entry(o, level, t, i).page != ZERO
                                        && InTree(o, level - 1, Entry(o, level, t, i).page, p))
  }

  lemma {:induction false} InTreeTab(o: Store, level: nat, t: Page, p: Page)
    requires Wf(o) && level <= 3 && IsTab(o, level, t) && InTree(o, level, t, p)
    ensures p in o && o[p].Table? && |o[p].es| == ENTRIES && o[p].level <= level && (p != t ==> o[p].level < level)
    decreases level
  {
    if p != t {
      var i :| 0 <= i < ENTRIES && Entry(o, level, t, i).page != ZERO && InTree(o, level - 1, Entry(o, level, t, i).page, p);
      InTreeTab(o, level - 1, Entry(o, level, t, i).page, p);
    }
  }

  lemma {:induction false} InTreeNext(o: Store, level: nat, t: Page, p: Page, j: nat)
    requires Wf(o) && level <= 3 && IsTab(o, level, t) && InTree(o, level, t, p)
    requires j < Len(o, p) && o[p].level > 0 && o[p].es[j].page != ZERO
    ensures InTree(o, level, t, o[p].es[j].page)
    decreases level
  {
    if p == t {
      assert Entry(o, level, t, j).page == o[p].es[j].page;
      assert InTree(o, level - 1, Entry(o, level, t, j).page, o[p].es[j].page);
    } else {
      var i :| 0 <= i < ENTRIES && Entry(o, level, t, i).page != ZERO && InTree(o, level - 1, Entry(o, level, t, i).page, p);
      InTreeNext(o, level - 1, Entry(o, level, t, i).page, p, j);
    }
  }

  lemma {:induction false} InTreePrev(o: Store, level: nat, t: Page, p: Page) returns (u: Page, j: nat)
    requires Wf(o) && level <= 3 && IsTab(o, level, t) && InTree(o, level, t, p) && p != t
    ensures InTree(o, level, t, u) && Names(o, u, j, p)
    decreases level
  {
    var i :| 0 <= i < ENTRIES && Entry(o, level, t, i).page != ZERO && InTree(o, level - 1, Entry(o, level, t, i).page, p);
    var c := Entry(o, level, t, i).page;
    if p == c {
      u, j := t, i;
    } else {
      u, j := InTreePrev(o, level - 1, c, p);
    }
  }

  /** All tables of the address spaces in us. */
  ghost function TablesOf(o: Store, us: set<Page>): (s: set<Page>)
    requires Wf(o) && forall u :: u in us ==> IsTab(o, 3, u)
  {
    set p | p in o && exists u :: u in us && InTree(o, 3, u, p)
  }

  /** The tables of the other address spaces can be set apart while one address space is changed. */
  lemma OthersApart(o: Store, roots: set<Page>, root: Page)
    requires Wf(o) && root in roots && forall u :: u in roots ==> IsTab(o, 3, u)
    ensures Apart(o, roots, TablesOf(o, roots - {root})) && root !in TablesOf(o, roots - {root})
    ensures roots - {root} <= TablesOf(o, roots - {root})
  {
    var s := TablesOf(o, roots - {root});
    forall p | p in s
      ensures o[p].Table? && p != root && (p in roots || exists t: Page, i: nat :: t in s && Names(o, t, i, p))
    {
      var u :| u in roots - {root} && InTree(o, 3, u, p);
      InTreeTab(o, 3, u, p);
      if p != u {
        var t, i := InTreePrev(o, 3, u, p);
        InTreeTab(o, 3, u, t);
      }
    }
    forall t: Page, i: nat | t in s && i < Len(o, t) && o[t].level > 0 && o[t].es[i].page != ZERO ensures o[t].es[i].page in s {
      var u :| u in roots - {root} && InTree(o, 3, u, t);
      InTreeNext(o, 3, u, t, i);
      InTreeTab(o, 3, u, o[t].es[i].page);
    }
    forall u | u in roots - {root} ensures u in s { assert InTree(o, 3, u, u); }
  }

  /** pmap_merge: bring the changes the source made since the reference snapshot into the destination. */
  method PmapMerge(pm: PageMaps, rroot: Page, sroot: Page, sva: nat, droot: Page, dva: nat, size: nat)
    requires pm.Valid() && rroot in pm.roots && sroot in pm.roots && droot in pm.roots && droot != rroot && droot != sroot
    requires USERLO <= sva < USERHI && USERLO <= dva < USERHI && size <= USERHI - sva && size <= USERHI - dva
    requires Plan(3, sva, dva, size, Stretch(dva, dva + size, true))
    requires Mergeables(pm.obj, 3, rroot, sroot, sva - dva, droot, dva, size, Stretch(dva, dva + size, true))
    modifies pm`obj, pm`refc, pm`free, pm`npage, pm`held, pm`excl
    ensures pm.Valid() && pm.held == old(pm.held)
    ensures Merged(old(pm.obj), pm.obj, 3, rroot, sroot, droot, sva, dva, size)
    ensures OthersSame(old(pm.obj), pm.obj, pm.roots, droot)
  {
    hide Wf, Exact, Exclusive, FreeOk, Merged, OthersSame, Mergeables, Plan;
    MergeAs(pm, rroot, sroot, sva, droot, dva, size, false);
  }

  /** The merge that is meant: absent tables are tables of zero mappings, and the destination gets tables of its own wherever
      the merge goes below them.  It works for every state, and for all ranges at equal places in their root entries. */
  method PmapMergeMeant(pm: PageMaps, rroot: Page, sroot: Page, sva: nat, droot: Page, dva: nat, size: nat)
    requires pm.Valid() && rroot in pm.roots && sroot in pm.roots && droot in pm.roots && droot != rroot && droot != sroot
    requires USERLO <= sva < USERHI && USERLO <= dva < USERHI && size <= USERHI - sva && size <= USERHI - dva
    requires Off(3, sva) == Off(3, dva)
    modifies pm`obj, pm`refc, pm`free, pm`npage, pm`held, pm`excl
    ensures pm.Valid() && pm.held == old(pm.held)
    ensures Merged(old(pm.obj), pm.obj, 3, rroot, sroot, droot, sva, dva, size)
    ensures OthersSame(old(pm.obj), pm.obj, pm.roots, droot)
  {
    hide Wf, Exact, Exclusive, FreeOk, Merged, OthersSame, Mergeables, Off;
    RootFacts(pm.obj, pm.refc, pm.free, pm.npage, pm.roots, pm.held, pm.excl, droot);
    MeantReady(pm.obj, rroot, sroot, sva, droot, dva, size);
    MergeAs(pm, rroot, sroot, sva, droot, dva, size, true);
  }

  lemma MeantReady(o: Store, r: Page, s: Page, sva: nat, d: Page, dva: nat, n: nat)
    requires Wf(o) && IsTab(o, 3, r) && IsTab(o, 3, s) && IsTab(o, 3, d) && sva + n <= Span(4) && dva + n <= Span(4)
    ensures Mergeables(o, 3, r, s, sva - dva, d, dva, n, Stretch(dva, dva + n, false))
  {
  }

  method MergeAs(pm: PageMaps, rroot: Page, sroot: Page, sva: nat, droot: Page, dva: nat, size: nat, meant: bool)
    requires pm.Valid() && rroot in pm.roots && sroot in pm.roots && droot in pm.roots && droot != rroot && droot != sroot
    requires USERLO <= sva < USERHI && USERLO <= dva < USERHI && size <= USERHI - sva && size <= USERHI - dva
    requires Plan(3, sva, dva, size, Stretch(dva, dva + size, !meant))
    requires Mergeables(pm.obj, 3, rroot, sroot, sva - dva, droot, dva, size, Stretch(dva, dva + size, !meant))
    modifies pm`obj, pm`refc, pm`free, pm`npage, pm`held, pm`excl
    ensures pm.Valid() && pm.held == old(pm.held)
    ensures Merged(old(pm.obj), pm.obj, 3, rroot, sroot, droot, sva, dva, size)
    ensures OthersSame(old(pm.obj), pm.obj, pm.roots, droot)
  {
    hide Wf, Exact, Exclusive, FreeOk, Anchored, Merged, OthersSame, CopyLocal, Mergeables, Plan, Apart, TablesOf;
    ghost var o, x := pm.obj, pm.excl;
    RootFacts(o, pm.refc, pm.free, pm.npage, pm.roots, pm.held, x, droot);
    OthersApart(o, pm.roots, droot);
    RootsThere(o, pm.roots);
    ghost var s := TablesOf(o, pm.roots - {droot});
    MergeLevel(pm, 3, rroot, sroot, sva, droot, dva, size, meant, s, Stretch(dva, dva + size, !meant));
    CopyPeers(o, x, pm.obj, pm.excl, pm.roots, droot, s, dva, dva + size);
    OthersOf(o, pm.obj, pm.roots, droot);
  }

  lemma RootsThere(o: Store, roots: set<Page>)
    requires Wf(o) && forall u :: u in roots ==> IsTab(o, 3, u)
    ensures ZERO !in roots
  {
  }

  /** The merge leaves reference and source showing what they did. */
  lemma OtherShows(o: Store, o1: Store, roots: set<Page>, root: Page, u: Page)
    requires OthersSame(o, o1, roots, root) && u in roots && u != root
    ensures Same(o, o1, 3, u)
  {
  }

  lemma MergedViews(o: Store, o1: Store, r: Page, c: Page, d: Page, va: nat, n: nat, x: nat)
    requires Merged(o, o1, 3, r, c, d, va, va, n) && va <= x < va + n && r != ZERO && c != ZERO
    ensures IsTab(o1, 3, d) && Wf(o1)
    ensures ViewMerged(At(o, 3, r, x), At(o, 3, c, x), At(o, 3, d, x), At(o1, 3, d, x))
  {
    assert x - va + va == x;
  }

  /** A page of which a byte was written on both sides is gone: its address maps nothing, so the next access to it faults, and the
      handler refuses a store. */
  lemma ConflictDropped(o: Store, o2: Store, r: Page, s: Page, sva: nat, d: Page, dva: nat, n: nat, x: nat)
    requires Merged(o, o2, 3, r, s, d, sva, dva, n) && r != ZERO && s != ZERO && dva <= x < dva + n
    requires Conflict(At(o, 3, r, x - dva + sva).bytes, At(o, 3, s, x - dva + sva).bytes, At(o, 3, d, x).bytes)
    ensures Wf(o2) && IsTab(o2, 3, d)
    ensures At(o2, 3, d, x) == Absent() && !EffW(o2, 3, d, x) && !Writable(At(o2, 3, d, x))
  {
    hide Conflict, Zeros;
    ConflictUnmapped(o2, 3, d, x, At(o, 3, r, x - dva + sva), At(o, 3, s, x - dva + sva), At(o, 3, d, x));
  }

  /* ---------- joining any number of children ---------- */

  /** What each of the spaces shows at one address. */
  ghost function PagesAt(o: Store, cs: seq<Page>, x: nat): (ps: seq<seq<Byte>>)
    requires Wf(o) && x < Span(4) && forall c :: c in cs ==> IsTab(o, 3, c)
    ensures |ps| == |cs| && forall p :: p in ps ==> |p| == PAGESIZE
  {
    seq(|cs|, i requires 0 <= i < |cs| => At(o, 3, cs[i], x).bytes)
  }

  /** Merging child c with its snapshot r into d, as far as the result is concerned: every page of the range becomes the merge,
      with its permissions, and the snapshots and children of rest, still to be merged, show what they showed.  Nothing is said of c and r. */
  ghost predicate JoinedOne(o: Store, o2: Store, r: Page, c: Page, d: Page, rest: seq<Page>, va: nat, n: nat)
  {
    && Wf(o) && Wf(o2) && va + n <= Span(4) && IsTab(o, 3, r) && IsTab(o, 3, c) && IsTab(o, 3, d) && IsTab(o2, 3, d)
    && (forall u :: u in rest ==> IsTab(o, 3, u) && IsTab(o2, 3, u))
    && (forall x {:trigger At(o2, 3, d, x)} :: va <= x < va + n ==>
          ViewMerged(At(o, 3, r, x), At(o, 3, c, x), At(o, 3, d, x), At(o2, 3, d, x)))
    && (forall x {:trigger PagesAt(o2, rest, x)} :: va <= x < va + n ==> PagesAt(o2, rest, x) == PagesAt(o, rest, x))
  }

  /** What is still to be merged after child i. */
  function Rest(rs: seq<Page>, cs: seq<Page>, i: nat): seq<Page>
    requires |rs| == |cs| && i < |cs|
  {
    rs[i + 1..] + cs[i + 1..]
  }

  /** Up to child k, the stores os[0], os[1], ... result from merging the children cs, each with its snapshot, into d one after
      another. */
  ghost predicate Steps(os: seq<Store>, rs: seq<Page>, cs: seq<Page>, d: Page, va: nat, n: nat, k: nat)
  {
    && |rs| == |cs| && k <= |cs| && |os| == k + 1
    && forall i :: 0 <= i < k ==> JoinedOne(os[i], os[i + 1], rs[i], cs[i], d, Rest(rs, cs, i), va, n)
  }

  ghost predicate Chain(os: seq<Store>, rs: seq<Page>, cs: seq<Page>, d: Page, va: nat, n: nat)
  {
    Steps(os, rs, cs, d, va, n, |cs|)
  }

  ghost predicate ChainFrom(os: seq<Store>, o: Store, o2: Store, rs: seq<Page>, cs: seq<Page>, d: Page, va: nat, n: nat)
  {
    Chain(os, rs, cs, d, va, n) && os[0] == o && os[|cs|] == o2
  }

  /** All spaces that take part are there. */
  ghost predicate Present(o: Store, rs: seq<Page>, cs: seq<Page>, d: Page)
  {
    && Wf(o) && IsTab(o, 3, d) && (forall r :: r in rs ==> IsTab(o, 3, r)) && (forall c :: c in cs ==> IsTab(o, 3, c))
  }

  /** The snapshots show the same page: they are the same snapshot of the parent. */
  ghost predicate Agree(o: Store, rs: seq<Page>, x: nat, b: seq<Byte>)
    requires Wf(o) && x < Span(4) && forall r :: r in rs ==> IsTab(o, 3, r)
  {
    |b| == PAGESIZE && forall p :: p in PagesAt(o, rs, x) ==> p == b
  }

  lemma PagesJoined(o: Store, us: seq<Page>, vs: seq<Page>, x: nat)
    requires Wf(o) && x < Span(4) && forall u :: u in us + vs ==> IsTab(o, 3, u)
    ensures (forall u :: u in us ==> IsTab(o, 3, u)) && (forall v :: v in vs ==> IsTab(o, 3, v))
    ensures PagesAt(o, us + vs, x) == PagesAt(o, us, x) + PagesAt(o, vs, x)
  {
    hide Wf, At;
    forall u | u in us ensures IsTab(o, 3, u) { assert u in us + vs; }
    forall v | v in vs ensures IsTab(o, 3, v) { assert v in us + vs; }
  }

  lemma SplitSame<T>(a: seq<T>, b: seq<T>, c: seq<T>, d: seq<T>)
    requires a + b == c + d && |a| == |c|
    ensures a == c && b == d
  {
    assert a == (a + b)[..|a|] && c == (c + d)[..|c|] && b == (a + b)[|a|..] && d == (c + d)[|c|..];
  }

  /** One more merge: the destination gets the merge, the other snapshots and children show what they did. */
  lemma FirstMerge(os: seq<Store>, rs: seq<Page>, cs: seq<Page>, d: Page, va: nat, n: nat, x: nat, b: seq<Byte>)
    requires Chain(os, rs, cs, d, va, n) && cs != [] && Present(os[0], rs, cs, d) && va <= x < va + n && x < Span(4)
    requires Agree(os[0], rs, x, b)
    ensures Chain(os[1..], rs[1..], cs[1..], d, va, n) && Present(os[1], rs[1..], cs[1..], d) && Agree(os[1], rs[1..], x, b)
    ensures At(os[1], 3, d, x).bytes == Merge(b, At(os[0], 3, cs[0], x).bytes, At(os[0], 3, d, x).bytes)
    ensures PagesAt(os[1], cs[1..], x) == PagesAt(os[0], cs, x)[1..]
  {
    hide Merge, At, Wf, Present, JoinedOne, Agree, Chain, PagesAt;
    ChainLength(os, rs, cs, d, va, n);
    PresentTabs(os[0], rs, cs, d);
    RestChain(os, rs, cs, d, va, n);
    assert Rest(rs, cs, 0) == rs[1..] + cs[1..];
    StepFacts(os[0], os[1], rs[0], cs[0], d, rs[1..], cs[1..], va, n, x);
    RestPages(os[0], cs, x);
    AgreeRest(os[0], os[1], rs, x, b);
  }

  lemma AgreeRest(o: Store, o1: Store, rs: seq<Page>, x: nat, b: seq<Byte>)
    requires Wf(o) && Wf(o1) && x < Span(4) && rs != [] && (forall r :: r in rs ==> IsTab(o, 3, r)) && Agree(o, rs, x, b)
    requires (forall r :: r in rs[1..] ==> IsTab(o, 3, r) && IsTab(o1, 3, r)) && PagesAt(o1, rs[1..], x) == PagesAt(o, rs[1..], x)
    ensures At(o, 3, rs[0], x).bytes == b && Agree(o1, rs[1..], x, b)
  {
    hide At, Wf;
    RestPages(o, rs, x);
    assert PagesAt(o, rs, x)[0] in PagesAt(o, rs, x);
    forall p | p in PagesAt(o1, rs[1..], x) ensures p == b { assert p in PagesAt(o, rs, x); }
  }

  lemma PresentTabs(o: Store, rs: seq<Page>, cs: seq<Page>, d: Page)
    requires Present(o, rs, cs, d)
    ensures Wf(o) && IsTab(o, 3, d) && (forall r :: r in rs ==> IsTab(o, 3, r)) && (forall c :: c in cs ==> IsTab(o, 3, c))
  {
  }

  lemma RestChain(os: seq<Store>, rs: seq<Page>, cs: seq<Page>, d: Page, va: nat, n: nat)
    requires Chain(os, rs, cs, d, va, n) && cs != []
    ensures Chain(os[1..], rs[1..], cs[1..], d, va, n) && JoinedOne(os[0], os[1], rs[0], cs[0], d, Rest(rs, cs, 0), va, n)
  {
    hide JoinedOne;
    forall i | 0 <= i < |cs| - 1
      ensures JoinedOne(os[1..][i], os[1..][i + 1], rs[1..][i], cs[1..][i], d, Rest(rs[1..], cs[1..], i), va, n)
    {
      assert Rest(rs[1..], cs[1..], i) == Rest(rs, cs, i + 1);
      assert JoinedOne(os[i + 1], os[i + 2], rs[i + 1], cs[i + 1], d, Rest(rs, cs, i + 1), va, n);
    }
  }

  lemma StepFacts(o: Store, o2: Store, r: Page, c: Page, d: Page, us: seq<Page>, vs: seq<Page>, va: nat, n: nat, x: nat)
    requires JoinedOne(o, o2, r, c, d, us + vs, va, n) && va <= x < va + n
    ensures Wf(o) && IsTab(o, 3, r) && IsTab(o, 3, c) && IsTab(o, 3, d) && x < Span(4)
    ensures Present(o2, us, vs, d) && Wf(o2) && IsTab(o2, 3, d) && (forall u :: u in us ==> IsTab(o, 3, u) && IsTab(o2, 3, u))
    ensures forall v :: v in vs ==> IsTab(o, 3, v) && IsTab(o2, 3, v)
    ensures At(o2, 3, d, x).bytes == Merge(At(o, 3, r, x).bytes, At(o, 3, c, x).bytes, At(o, 3, d, x).bytes)
    ensures PagesAt(o2, us, x) == PagesAt(o, us, x) && PagesAt(o2, vs, x) == PagesAt(o, vs, x)
  {
    hide Wf, At, ViewMerged, IsTab;
    ViewBytes(At(o, 3, r, x), At(o, 3, c, x), At(o, 3, d, x), At(o2, 3, d, x));
    PagesJoined(o, us, vs, x);
    PagesJoined(o2, us, vs, x);
    assert PagesAt(o2, us + vs, x) == PagesAt(o, us + vs, x);
    SplitSame(PagesAt(o, us, x), PagesAt(o, vs, x), PagesAt(o2, us, x), PagesAt(o2, vs, x));
  }

  lemma RestPages(o: Store, cs: seq<Page>, x: nat)
    requires Wf(o) && x < Span(4) && cs != [] && forall c :: c in cs ==> IsTab(o, 3, c)
    ensures PagesAt(o, cs[1..], x) == PagesAt(o, cs, x)[1..]
  {
    hide At, Wf;
  }

  /** Page by page, merging the children of a snapshot one after another is joining what they show. */
  lemma {:induction false} JoinedAll(os: seq<Store>, rs: seq<Page>, cs: seq<Page>, d: Page, va: nat, n: nat, x: nat, b: seq<Byte>)
    requires Chain(os, rs, cs, d, va, n) && Present(os[0], rs, cs, d) && va <= x < va + n && x < Span(4) && Agree(os[0], rs, x, b)
    requires Join(b, PagesAt(os[0], cs, x), At(os[0], 3, d, x).bytes).Joined?
    ensures Wf(os[|cs|]) && IsTab(os[|cs|], 3, d)
    ensures At(os[|cs|], 3, d, x).bytes == Join(b, PagesAt(os[0], cs, x), At(os[0], 3, d, x).bytes).page
    decreases |cs|
  {
    hide Merge, At, Chain, Conflict, Wf, Agree;
    ChainLength(os, rs, cs, d, va, n);
    if cs != [] {
      FirstMerge(os, rs, cs, d, va, n, x, b);
      ChainLength(os[1..], rs[1..], cs[1..], d, va, n);
      assert os[1..][0] == os[1] && os[1..][|cs| - 1] == os[|cs|];
      JoinedAll(os[1..], rs[1..], cs[1..], d, va, n, x, b);
    }
  }

  lemma ChainLength(os: seq<Store>, rs: seq<Page>, cs: seq<Page>, d: Page, va: nat, n: nat)
    requires Chain(os, rs, cs, d, va, n)
    ensures |os| == |cs| + 1 && |rs| == |cs|
  {
  }

  lemma WithoutOne(o: Store, cs: seq<Page>, k: nat, x: nat)
    requires Wf(o) && x < Span(4) && k < |cs| && (forall c :: c in cs ==> IsTab(o, 3, c))
    ensures forall c :: c in cs[..k] + cs[k + 1..] ==> IsTab(o, 3, c)
    ensures multiset(PagesAt(o, cs, x)) == multiset(PagesAt(o, cs[..k] + cs[k + 1..], x)) + multiset{At(o, 3, cs[k], x).bytes}
  {
    hide Wf, At;
    var ps := PagesAt(o, cs, x);
    forall c | c in cs[..k] + cs[k + 1..] ensures IsTab(o, 3, c) { assert c in cs; }
    assert ps[..k] + ps[k + 1..] == PagesAt(o, cs[..k] + cs[k + 1..], x);
    TakeOut(ps, k);
  }

  /** Taking the same element out of both leaves the same. */
  lemma RestSame<T>(s: seq<T>, t: seq<T>, k: nat)
    requires s != [] && k < |t| && t[k] == s[0] && multiset(s) == multiset(t)
    ensures multiset(s[1..]) == multiset(t[..k] + t[k + 1..])
  {
    TakeOut(s, 0);
    TakeOut(t, k);
    assert s[..0] + s[1..] == s[1..];
  }

  lemma {:induction false} SamePages(o: Store, cs: seq<Page>, ds: seq<Page>, x: nat)
    requires Wf(o) && x < Span(4) && (forall c :: c in cs ==> IsTab(o, 3, c)) && multiset(cs) == multiset(ds)
    ensures forall c :: c in ds ==> IsTab(o, 3, c)
    ensures multiset(PagesAt(o, cs, x)) == multiset(PagesAt(o, ds, x))
    decreases |cs|
  {
    hide Wf, At, PagesAt, IsTab;
    forall c | c in ds ensures IsTab(o, 3, c) { assert c in multiset(cs); }
    if cs == [] {
      assert |multiset(ds)| == 0;
      assert ds == [];
    } else {
      assert cs[0] in multiset(ds);
      var k :| 0 <= k < |ds| && ds[k] == cs[0];
      RestSame(cs, ds, k);
      SamePages(o, cs[1..], ds[..k] + ds[k + 1..], x);
      assert cs[..0] + cs[1..] == cs[1..];
      WithoutOne(o, cs, 0, x);
      WithoutOne(o, ds, k, x);
    }
  }

  /** Any number of children of one snapshot, merged into their parent in any order: every page to which no byte was
      written twice shows the same in the end, each byte its only writer's. */
  lemma JoinAnyOrder(os: seq<Store>, qs: seq<Store>, rs: seq<Page>, ts: seq<Page>, cs: seq<Page>, ds: seq<Page>, d: Page, va: nat, n: nat,
                     x: nat, b: seq<Byte>)
    requires Chain(os, rs, cs, d, va, n) && Chain(qs, ts, ds, d, va, n) && os[0] == qs[0]
    requires multiset(cs) == multiset(ds) && Present(os[0], rs, cs, d) && Present(os[0], ts, ds, d) && va <= x < va + n && x < Span(4)
    requires Agree(os[0], rs, x, b) && Agree(os[0], ts, x, b)
    requires Disjoint(b, PagesAt(os[0], cs, x), At(os[0], 3, d, x).bytes)
    ensures Wf(os[|cs|]) && IsTab(os[|cs|], 3, d) && Wf(qs[|ds|]) && IsTab(qs[|ds|], 3, d)
    ensures At(os[|cs|], 3, d, x).bytes == At(qs[|ds|], 3, d, x).bytes
    ensures IsJoin(b, PagesAt(os[0], cs, x), At(os[0], 3, d, x).bytes, At(os[|cs|], 3, d, x).bytes)
  {
    hide Merge, At, Chain, Conflict, Wf, Disjoint, IsJoin, Join, Agree;
    ChainLength(os, rs, cs, d, va, n);
    ChainLength(qs, ts, ds, d, va, n);
    AgreeSize(os[0], rs, x, b);
    var o := os[0];
    SamePages(o, cs, ds, x);
    JoinIff(b, PagesAt(o, cs, x), At(o, 3, d, x).bytes);
    JoinOrder(b, PagesAt(o, cs, x), PagesAt(o, ds, x), At(o, 3, d, x).bytes);
    JoinedAll(os, rs, cs, d, va, n, x, b);
    JoinedAll(qs, ts, ds, d, va, n, x, b);
  }

  lemma AgreeSize(o: Store, rs: seq<Page>, x: nat, b: seq<Byte>)
    requires Wf(o) && x < Span(4) && (forall r :: r in rs ==> IsTab(o, 3, r)) && Agree(o, rs, x, b)
    ensures |b| == PAGESIZE
  {
  }

  /** Every page of the range is the join, wherever no byte was written twice. */
  ghost predicate JoinShown(o: Store, o2: Store, rs: seq<Page>, cs: seq<Page>, d: Page, va: nat, n: nat)
  {
    && Present(o, rs, cs, d) && Wf(o2) && IsTab(o2, 3, d) && va + n <= Span(4)
    && forall x, b :: va <= x < va + n && Agree(o, rs, x, b) && Disjoint(b, PagesAt(o, cs, x), At(o, 3, d, x).bytes) ==>
      IsJoin(b, PagesAt(o, cs, x), At(o, 3, d, x).bytes, At(o2, 3, d, x).bytes)
  }

  lemma ChainShows(os: seq<Store>, rs: seq<Page>, cs: seq<Page>, d: Page, va: nat, n: nat)
    requires Chain(os, rs, cs, d, va, n) && Present(os[0], rs, cs, d) && va + n <= Span(4)
    ensures JoinShown(os[0], os[|cs|], rs, cs, d, va, n)
  {
    hide Merge, At, Conflict, Wf, Disjoint, IsJoin, Join, JoinedOne;
    var o := os[0];
    if cs != [] { LastStore(os, rs, cs, d, va, n); }
    forall x, b | va <= x < va + n && Agree(o, rs, x, b) && Disjoint(b, PagesAt(o, cs, x), At(o, 3, d, x).bytes)
      ensures IsJoin(b, PagesAt(o, cs, x), At(o, 3, d, x).bytes, At(os[|cs|], 3, d, x).bytes)
    {
      AgreeSize(o, rs, x, b);
      JoinIff(b, PagesAt(o, cs, x), At(o, 3, d, x).bytes);
      JoinedAll(os, rs, cs, d, va, n, x, b);
    }
  }

  lemma LastStore(os: seq<Store>, rs: seq<Page>, cs: seq<Page>, d: Page, va: nat, n: nat)
    requires Chain(os, rs, cs, d, va, n) && cs != []
    ensures Wf(os[|cs|]) && IsTab(os[|cs|], 3, d)
  {
    var k := |cs| - 1;
    assert JoinedOne(os[k], os[k + 1], rs[k], cs[k], d, Rest(rs, cs, k), va, n);
  }

  /** The merge as meant is such a step, whatever is still to be merged. */
  lemma MeantStep(o: Store, o2: Store, roots: set<Page>, r: Page, c: Page, d: Page, rest: seq<Page>, va: nat, n: nat)
    requires Merged(o, o2, 3, r, c, d, va, va, n) && OthersSame(o, o2, roots, d) && ZERO !in roots && r in roots && c in roots && c != d && r != d
    requires (forall u :: u in roots ==> IsTab(o, 3, u)) && d in roots && forall u :: u in rest ==> u in roots && u != d
    ensures JoinedOne(o, o2, r, c, d, rest, va, n)
  {
    hide At, ViewMerged, Wf;
    forall x | va <= x < va + n
      ensures ViewMerged(At(o, 3, r, x), At(o, 3, c, x), At(o, 3, d, x), At(o2, 3, d, x))
    {
      MergedViews(o, o2, r, c, d, va, n, x);
    }
    forall u | u in rest ensures IsTab(o, 3, u) && IsTab(o2, 3, u) { OtherShows(o, o2, roots, d, u); }
    forall x | va <= x < va + n ensures PagesAt(o2, rest, x) == PagesAt(o, rest, x) {
      forall i | 0 <= i < |rest| ensures At(o2, 3, rest[i], x) == At(o, 3, rest[i], x) { OtherShows(o, o2, roots, d, rest[i]); }
    }
  }

  /** Joining all children, each with its snapshot, by the merge that is meant: from every state, over every range, in every
      order of the children the result is the join of what was written; all other spaces show what they showed. */
  method JoinChildren(pm: PageMaps, rs: seq<Page>, cs: seq<Page>, d: Page, va: nat, n: nat) returns (ghost os: seq<Store>)
    requires pm.Valid() && d in pm.roots && |rs| == |cs| && USERLO <= va < USERHI && n <= USERHI - va
    requires forall u :: u in rs + cs ==> u in pm.roots && u != d
    modifies pm`obj, pm`refc, pm`free, pm`npage, pm`held, pm`excl
    ensures pm.Valid() && pm.held == old(pm.held) && OthersSame(old(pm.obj), pm.obj, pm.roots, d)
    ensures ChainFrom(os, old(pm.obj), pm.obj, rs, cs, d, va, n) && JoinShown(old(pm.obj), pm.obj, rs, cs, d, va, n)
  {
    hide Wf, Exact, Exclusive, FreeOk, Merged, OthersSame, ChainFrom, JoinShown, Off, IsTab, Joining;
    ghost var o, us := pm.obj, pm.roots;
    RootFacts(o, pm.refc, pm.free, pm.npage, us, pm.held, pm.excl, d);
    RestIn(us, d, rs, cs);
    os := JoiningNone(o, us, rs, cs, d, va, n);
    var i := 0;
    while i < |cs|
      invariant i <= |cs| && pm.Valid() && pm.held == old(pm.held) && Joining(o, us, os, pm.obj, rs, cs, d, va, n, i)
    {
      ghost var o1 := pm.obj;
      RootFacts(o1, pm.refc, pm.free, pm.npage, us, pm.held, pm.excl, d);
      PmapMergeMeant(pm, rs[i], cs[i], va, d, va, n);
      os := JoiningMore(o, us, os, o1, pm.obj, rs, cs, d, va, n, i);
      i := i + 1;
    }
    JoinDone(o, us, os, pm.obj, rs, cs, d, va, n);
  }

  /** The joining so far. */
  ghost predicate Joining(o: Store, us: set<Page>, os: seq<Store>, o2: Store, rs: seq<Page>, cs: seq<Page>, d: Page, va: nat, n: nat, i: nat)
  {
    Steps(os, rs, cs, d, va, n, i) && os[0] == o && os[i] == o2 && OthersSame(o, o2, us, d)
  }

  lemma JoiningNone(o: Store, us: set<Page>, rs: seq<Page>, cs: seq<Page>, d: Page, va: nat, n: nat) returns (os: seq<Store>)
    requires Wf(o) && (forall u :: u in us ==> IsTab(o, 3, u)) && |rs| == |cs|
    ensures Joining(o, us, os, o, rs, cs, d, va, n, 0)
  {
    os := [o];
    OthersRefl(o, us, d);
  }

  lemma JoiningMore(o: Store, us: set<Page>, os: seq<Store>, o1: Store, o2: Store, rs: seq<Page>, cs: seq<Page>, d: Page, va: nat, n: nat, i: nat)
    returns (qs: seq<Store>)
    requires |rs| == |cs| && i < |cs| && Joining(o, us, os, o1, rs, cs, d, va, n, i) && Wf(o1) && Wf(o2) && d in us
    requires (forall u :: u in us ==> IsTab(o1, 3, u)) && forall u :: u in rs || u in cs ==> u in us && u != d
    requires Merged(o1, o2, 3, rs[i], cs[i], d, va, va, n) && OthersSame(o1, o2, us, d)
    ensures Joining(o, us, qs, o2, rs, cs, d, va, n, i + 1)
  {
    hide JoinedOne, Merged, OthersSame, Rest, Wf, IsTab;
    RootsThere(o1, us);
    RestOf(rs, cs, i);
    MeantStep(o1, o2, us, rs[i], cs[i], d, Rest(rs, cs, i), va, n);
    OthersTrans(o, o1, o2, us, d);
    MoreSteps(os, o2, rs, cs, d, va, n, i);
    qs := os + [o2];
  }

  lemma RestOf(rs: seq<Page>, cs: seq<Page>, i: nat)
    requires |rs| == |cs| && i < |cs|
    ensures forall u :: u in Rest(rs, cs, i) ==> u in rs || u in cs
  {
  }

  lemma JoinDone(o: Store, us: set<Page>, os: seq<Store>, o2: Store, rs: seq<Page>, cs: seq<Page>, d: Page, va: nat, n: nat)
    requires Joining(o, us, os, o2, rs, cs, d, va, n, |cs|) && Wf(o) && d in us && (forall u :: u in us ==> IsTab(o, 3, u)) && va + n <= Span(4)
    requires forall u :: u in rs || u in cs ==> u in us && u != d
    ensures ChainFrom(os, o, o2, rs, cs, d, va, n) && OthersSame(o, o2, us, d) && JoinShown(o, o2, rs, cs, d, va, n)
  {
    hide JoinedOne, OthersSame, JoinShown;
    ChainShows(os, rs, cs, d, va, n);
  }

  lemma MoreSteps(os: seq<Store>, o2: Store, rs: seq<Page>, cs: seq<Page>, d: Page, va: nat, n: nat, k: nat)
    requires Steps(os, rs, cs, d, va, n, k) && k < |cs| && |rs| == |cs| && |os| == k + 1
    requires JoinedOne(os[k], o2, rs[k], cs[k], d, Rest(rs, cs, k), va, n)
    ensures Steps(os + [o2], rs, cs, d, va, n, k + 1)
  {
    hide JoinedOne, Rest;
    var qs := os + [o2];
    forall i | 0 <= i < k + 1 ensures JoinedOne(qs[i], qs[i + 1], rs[i], cs[i], d, Rest(rs, cs, i), va, n) {
      if i < k { assert JoinedOne(os[i], os[i + 1], rs[i], cs[i], d, Rest(rs, cs, i), va, n); }
    }
  }

  lemma RestIn(us: set<Page>, d: Page, rs: seq<Page>, cs: seq<Page>)
    requires forall u :: u in rs + cs ==> u in us && u != d
    ensures forall u :: u in rs || u in cs ==> u in us && u != d
  {
    forall u | u in rs || u in cs ensures u in us && u != d { assert u in rs + cs; }
  }

  lemma OthersRefl(o: Store, roots: set<Page>, d: Page)
    requires Wf(o) && forall u :: u in roots ==> IsTab(o, 3, u)
    ensures OthersSame(o, o, roots, d)
  {
    forall u | u in roots ensures Same(o, o, 3, u) { SameRefl(o, 3, u); }
  }

  lemma OthersTrans(o: Store, o1: Store, o2: Store, roots: set<Page>, d: Page)
    requires OthersSame(o, o1, roots, d) && OthersSame(o1, o2, roots, d)
    ensures OthersSame(o, o2, roots, d)
  {
    forall u | u in roots && u != d ensures Same(o, o2, 3, u) {
      assert Same(o, o1, 3, u) && Same(o1, o2, 3, u);
      SameTrans(o, o1, o2, 3, u);
    }
  }
}
