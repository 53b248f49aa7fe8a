/** Physical page allocation and reference counts (kern/mem.c, kern/mem.h) and the recursive release
    of page tables (kern/pmap.c).

    The invariant relates the counts to the entries that are stored. */
module PageMem {
  import opened Paging

  ghost predicate Inv(o: Store, refc: map<Page, int>, free: seq<Page>, npage: Page,
                roots: set<Page>, held: multiset<Page>, x: set<Page>)
  {
    Wf(o) && Exact(o, refc, roots, held) && FreeOk(o, refc, free, npage) && Exclusive(o, refc, roots, x)
  }

  /** Every page of s is a root or is named by a table of s: dropping references from outside s cannot free it. */
  ghost predicate Anchored(o: Store, roots: set<Page>, s: set<Page>)
  {
    forall p :: p in s ==> p in o && (p in roots || exists t: Page, i: nat :: t in s && Names(o, t, i, p))
  }

  /** o2 is o1 without some pages. */
  ghost predicate Shrunk(o1: Store, o2: Store)
  {
    forall t :: t in o2 ==> t in o1 && o2[t] == o1[t]
  }

  /** Every table of this level or above, other than t, is untouched. */
  ghost predicate HighSame(o1: Store, o2: Store, level: nat, t: Page)
  {
    forall u :: u in o1 && o1[u].Table? && o1[u].level >= level && u != t ==> u in o2 && o2[u] == o1[u]
  }

  predicate Fresh(content: Obj)
  {
    match content
    case Data(b) => |b| == PAGESIZE
    case Table(l, es) => l <= 3 && |es| == ENTRIES && forall i :: 0 <= i < ENTRIES ==> es[i] == CLEAR
  }

  lemma WfNew(o: Store, p: Page, content: Obj)
    requires Wf(o) && p !in o && p != ZERO && Fresh(content)
    ensures Wf(o[p := content])
  {
    var o' := o[p := content];
    forall t | t in o' ensures ObjOk(o', t) {
      if t != p { assert ObjOk(o, t); }
    }
  }

  lemma NamesNew(o: Store, p: Page, content: Obj, t: Page, i: nat, q: Page)
    requires p !in o && Fresh(content) && q != ZERO
    ensures Names(o[p := content], t, i, q) <==> Names(o, t, i, q)
  {
  }

  lemma SlotsNew(o: Store, p: Page, content: Obj, q: Page)
    requires p !in o && Fresh(content) && q != ZERO
    ensures Slots(o[p := content], q) == Slots(o, q)
  {
    var o' := o[p := content];
    forall u: Page, j: nat ensures Names(o, u, j, q) <==> Names(o', u, j, q) { NamesNew(o, p, content, u, j, q); }
    SlotsSame(o, o', q);
  }

  lemma Unnamed(o: Store, p: Page)
    requires Wf(o) && p !in o && p != ZERO
    ensures Slots(o, p) == {}
  {
    forall u: Page, j: nat ensures (u, j) !in Slots(o, p) {
      SlotsHas(o, p, u, j);
    }
  }

  lemma ExactNew(o: Store, refc: map<Page, int>, roots: set<Page>, held: multiset<Page>, p: Page, content: Obj)
    requires Wf(o) && Exact(o, refc, roots, held) && p !in o && p != ZERO && Fresh(content)
    ensures Exact(o[p := content], refc[p := 1], roots, held + multiset{p})
  {
    var o' := o[p := content];
    forall q | q in o' ensures Counted(o', refc[p := 1], roots, held + multiset{p}, q) {
      SlotsNew(o, p, content, q);
      if q == p { Unnamed(o, p); } else { assert Counted(o, refc, roots, held, q); }
    }
  }

  lemma ExclusiveNew(o: Store, refc: map<Page, int>, roots: set<Page>, x: set<Page>, p: Page, content: Obj)
    requires Exclusive(o, refc, roots, x) && p !in o && Fresh(content)
    ensures Exclusive(o[p := content], refc[p := 1], roots, x + {p})
  {
    var o' := o[p := content];
    forall t: Page, i: nat | t in x + {p} && i < Len(o', t) && o'[t].es[i].w ensures o'[t].es[i].page in x {
      if t != p { assert i < Len(o, t); }
    }
  }

  lemma FreeNew(o: Store, refc: map<Page, int>, free: seq<Page>, npage: Page, p: Page, content: Obj)
    requires FreeOk(o, refc, free, npage) && p < npage && forall i :: 0 <= i < |free| ==> free[i] != p
    ensures FreeOk(o[p := content], refc[p := 1], free, npage)
  {
  }

  lemma InvNew(o: Store, refc: map<Page, int>, free: seq<Page>, npage: Page,
               roots: set<Page>, held: multiset<Page>, x: set<Page>, p: Page, content: Obj)
    requires Inv(o, refc, free, npage, roots, held, x)
    requires p !in o && p != ZERO && p < npage && Fresh(content)
    requires forall i :: 0 <= i < |free| ==> free[i] != p
    ensures Inv(o[p := content], refc[p := 1], free, npage, roots, held + multiset{p}, x + {p})
  {
    hide Wf, Exact, Exclusive, FreeOk, Fresh;
    WfNew(o, p, content);
    ExactNew(o, refc, roots, held, p, content);
    ExclusiveNew(o, refc, roots, x, p, content);
    FreeNew(o, refc, free, npage, p, content);
  }

  /** No exclusive table reaches p through a writable entry. */
  ghost predicate Unwritable(o: Store, x: set<Page>, p: Page)
  {
    forall t: Page, i: nat :: t in x && Names(o, t, i, p) ==> !o[t].es[i].w
  }

  /** Changing the count of p together with the held references to p. */
  lemma ExactCount(o: Store, refc: map<Page, int>, roots: set<Page>, held: multiset<Page>, held': multiset<Page>, p: Page)
    requires Exact(o, refc, roots, held) && p in o && p in refc
    requires forall q :: q != p ==> held'[q] == held[q]
    ensures Exact(o, refc[p := refc[p] + held'[p] - held[p]], roots, held')
  {
    var r := refc[p := refc[p] + held'[p] - held[p]];
    forall q | q in o ensures Counted(o, r, roots, held', q) {
      assert Counted(o, refc, roots, held, q);
    }
    forall q | q in held' ensures q in o { if q != p { assert held'[q] == held[q]; } }
  }

  lemma FreeCount(o: Store, refc: map<Page, int>, free: seq<Page>, npage: Page, p: Page, c: int)
    requires FreeOk(o, refc, free, npage) && p in o
    ensures FreeOk(o, refc[p := c], free, npage)
  {
  }

  lemma ExclusiveWithout(o: Store, refc: map<Page, int>, roots: set<Page>, x: set<Page>, p: Page, c: int)
    requires Exclusive(o, refc, roots, x) && Unwritable(o, x, p) && p !in roots
    ensures Exclusive(o, refc[p := c], roots, x - {p})
  {
    forall t: Page, i: nat | t in x - {p} && i < Len(o, t) && o[t].es[i].w ensures o[t].es[i].page in x - {p} {
      assert Names(o, t, i, o[t].es[i].page);
    }
  }

  lemma InvIncref(o: Store, refc: map<Page, int>, free: seq<Page>, npage: Page,
                  roots: set<Page>, held: multiset<Page>, x: set<Page>, p: Page)
    requires Inv(o, refc, free, npage, roots, held, x)
    requires p in o && p !in roots && Unwritable(o, x, p)
    ensures p in refc
    ensures Inv(o, refc[p := refc[p] + 1], free, npage, roots, held + multiset{p}, x - {p})
  {
    hide Wf, Exact, Exclusive, FreeOk, Unwritable;
    InvFacts(o, refc, free, npage, roots, held, x);
    ExactCount(o, refc, roots, held, held + multiset{p}, p);
    ExclusiveWithout(o, refc, roots, x, p, refc[p] + 1);
    FreeCount(o, refc, free, npage, p, refc[p] + 1);
  }

  lemma HeldCounted(o: Store, refc: map<Page, int>, roots: set<Page>, held: multiset<Page>, p: Page)
    requires Exact(o, refc, roots, held) && p in held
    ensures p in o && p in refc && refc[p] >= 1
    ensures refc[p] == 1 ==> p !in roots && forall t: Page, i: nat :: !Names(o, t, i, p)
  {
    assert Counted(o, refc, roots, held, p);
    if refc[p] == 1 {
      assert |Slots(o, p)| == 0;
      forall t: Page, i: nat ensures !Names(o, t, i, p) { SlotsHas(o, p, t, i); }
    }
  }

  lemma ExclusiveKeep(o: Store, refc: map<Page, int>, roots: set<Page>, x: set<Page>, p: Page, c: int)
    requires Exclusive(o, refc, roots, x) && p !in x
    ensures Exclusive(o, refc[p := c], roots, x)
  {
  }

  /** Dropping a held reference; if it was the last one, nothing names the page any more. */
  lemma InvDecref(o: Store, refc: map<Page, int>, free: seq<Page>, npage: Page,
                  roots: set<Page>, held: multiset<Page>, x: set<Page>, p: Page)
    requires Inv(o, refc, free, npage, roots, held, x)
    requires p in held
    ensures p in refc && refc[p] >= 1
    ensures Inv(o, refc[p := refc[p] - 1], free, npage, roots, held - multiset{p}, if refc[p] == 1 then x - {p} else x)
    ensures refc[p] == 1 ==> p !in roots && forall t: Page, i: nat :: !Names(o, t, i, p)
  {
    hide Wf, Exact, Exclusive, FreeOk;
    InvFacts(o, refc, free, npage, roots, held, x);
    HeldCounted(o, refc, roots, held, p);
    ExactCount(o, refc, roots, held, held - multiset{p}, p);
    FreeCount(o, refc, free, npage, p, refc[p] - 1);
    if refc[p] == 1 {
      assert Unwritable(o, x, p);
      ExclusiveWithout(o, refc, roots, x, p, 0);
    } else {
      ExclusiveKeep(o, refc, roots, x, p, refc[p] - 1);
    }
  }

  function SetIn(o: Store, t: Page, i: nat, e: Pte): Store
    requires i < Len(o, t)
  {
    o[t := Table(o[t].level, o[t].es[i := e])]
  }

  function NonZero(p: Page): multiset<Page>
  {
    if p == ZERO then multiset{} else multiset{p}
  }

  lemma WfSet(o: Store, t: Page, i: nat, e: Pte)
    requires Wf(o) && i < Len(o, t) && EntryOk(o, o[t].level, e)
    ensures Wf(SetIn(o, t, i, e))
  {
    var o' := SetIn(o, t, i, e);
    forall u | u in o' ensures ObjOk(o', u) {
      assert ObjOk(o, u);
    }
  }

  lemma CountedSet(o: Store, refc: map<Page, int>, roots: set<Page>, held: multiset<Page>,
                   t: Page, i: nat, e: Pte, p: Page)
    requires Counted(o, refc, roots, held, p) && i < Len(o, t) && p != ZERO
    requires NonZero(e.page) <= held + NonZero(o[t].es[i].page)
    ensures Counted(SetIn(o, t, i, e), refc, roots, held + NonZero(o[t].es[i].page) - NonZero(e.page), p)
  {
    SlotsSet(o, t, i, e, p);
    var was := o[t].es[i].page;
    assert (held + NonZero(was))[p] == held[p] + (if was == p then 1 else 0);
    assert NonZero(e.page)[p] == (if e.page == p then 1 else 0);
  }

  lemma HeldSet(o: Store, held: multiset<Page>, p1: Page, p2: Page)
    requires (forall p :: p in held ==> p in o) && (p1 == ZERO || p1 in o)
    ensures forall p :: p in held + NonZero(p1) - NonZero(p2) ==> p in o
  {
  }

  lemma ExactSet(o: Store, refc: map<Page, int>, roots: set<Page>, held: multiset<Page>, t: Page, i: nat, e: Pte)
    requires Wf(o) && Exact(o, refc, roots, held)
    requires i < Len(o, t)
    requires NonZero(e.page) <= held + NonZero(o[t].es[i].page)
    ensures Exact(SetIn(o, t, i, e), refc, roots, held + NonZero(o[t].es[i].page) - NonZero(e.page))
  {
    hide NonZero, Counted;
    var o' := SetIn(o, t, i, e);
    var h := held + NonZero(o[t].es[i].page) - NonZero(e.page);
    EntryFits(o, o[t].level, t, i);
    HeldSet(o, held, o[t].es[i].page, e.page);
    assert o'.Keys == o.Keys;
    forall p | p in o' ensures Counted(o', refc, roots, h, p) {
      CountedSet(o, refc, roots, held, t, i, e, p);
    }
  }

  lemma ExclusiveSet(o: Store, refc: map<Page, int>, roots: set<Page>, x: set<Page>, t: Page, i: nat, e: Pte)
    requires Exclusive(o, refc, roots, x) && i < Len(o, t)
    requires t in x && e.w ==> e.page in x
    ensures Exclusive(SetIn(o, t, i, e), refc, roots, x)
  {
    var o' := SetIn(o, t, i, e);
    forall u: Page, j: nat | u in x && j < Len(o', u) && o'[u].es[j].w ensures o'[u].es[j].page in x {
      assert j < Len(o, u);
    }
  }

  lemma FreeSet(o: Store, refc: map<Page, int>, free: seq<Page>, npage: Page, t: Page, i: nat, e: Pte)
    requires FreeOk(o, refc, free, npage) && i < Len(o, t)
    ensures FreeOk(SetIn(o, t, i, e), refc, free, npage)
  {
  }

  /** Storing an entry turns a held reference into a stored one and hands the old entry's reference back. */
  lemma InvSet(o: Store, refc: map<Page, int>, free: seq<Page>, npage: Page,
               roots: set<Page>, held: multiset<Page>, x: set<Page>, t: Page, i: nat, e: Pte)
    requires Inv(o, refc, free, npage, roots, held, x)
    requires i < Len(o, t) && EntryOk(o, o[t].level, e)
    requires NonZero(e.page) <= held + NonZero(o[t].es[i].page)
    requires t in x && e.w ==> e.page in x
    ensures Inv(SetIn(o, t, i, e), refc, free, npage, roots,
                held + NonZero(o[t].es[i].page) - NonZero(e.page), x)
  {
    hide Wf, Exact, Exclusive, FreeOk, EntryOk, NonZero;
    WfSet(o, t, i, e);
    FreeSet(o, refc, free, npage, t, i, e);
    ExactSet(o, refc, roots, held, t, i, e);
    ExclusiveSet(o, refc, roots, x, t, i, e);
  }

  ghost predicate Empty(o: Store, p: Page)
  {
    forall i: nat :: i < Len(o, p) ==> o[p].es[i].page == ZERO
  }

  lemma WfFree(o: Store, p: Page)
    requires Wf(o) && forall t: Page, i: nat :: !Names(o, t, i, p)
    ensures Wf(o - {p})
  {
    var o' := o - {p};
    forall t | t in o' ensures ObjOk(o', t) {
      assert ObjOk(o, t);
      if o[t].Table? {
        forall i | 0 <= i < ENTRIES ensures EntryOk(o', o[t].level, o[t].es[i]) {
          assert !Names(o, t, i, p);
          assert EntryOk(o, o[t].level, o[t].es[i]);
        }
      }
    }
  }

  lemma NamesFree(o: Store, p: Page, t: Page, i: nat, q: Page)
    requires Empty(o, p) && q != ZERO
    ensures Names(o - {p}, t, i, q) <==> Names(o, t, i, q)
  {
  }

  lemma SlotsFree(o: Store, p: Page, q: Page)
    requires Empty(o, p) && q != ZERO
    ensures Slots(o - {p}, q) == Slots(o, q)
  {
    var o' := o - {p};
    forall u: Page, j: nat ensures Names(o, u, j, q) <==> Names(o', u, j, q) { NamesFree(o, p, u, j, q); }
    SlotsSame(o, o', q);
  }

  lemma ExactFree(o: Store, refc: map<Page, int>, roots: set<Page>, held: multiset<Page>, p: Page)
    requires Wf(o) && Exact(o, refc, roots, held) && p !in held && p !in roots && Empty(o, p)
    ensures Exact(o - {p}, refc, roots, held)
  {
    forall q | q in o - {p} ensures Counted(o - {p}, refc, roots, held, q) {
      assert Counted(o, refc, roots, held, q);
      SlotsFree(o, p, q);
    }
  }

  lemma ExclusiveFree(o: Store, refc: map<Page, int>, roots: set<Page>, x: set<Page>, p: Page)
    requires Exclusive(o, refc, roots, x) && p !in x
    ensures Exclusive(o - {p}, refc, roots, x)
  {
    var o' := o - {p};
    forall t: Page, i: nat | t in x && i < Len(o', t) && o'[t].es[i].w ensures o'[t].es[i].page in x {
      assert i < Len(o, t);
    }
  }

  lemma Unreferenced(o: Store, refc: map<Page, int>, roots: set<Page>, held: multiset<Page>, p: Page)
    requires Exact(o, refc, roots, held) && p in o && refc[p] == 0
    ensures p !in held && p !in roots && forall t: Page, i: nat :: !Names(o, t, i, p)
  {
    assert Counted(o, refc, roots, held, p);
    assert |Slots(o, p)| == 0;
    forall t: Page, i: nat ensures !Names(o, t, i, p) { SlotsHas(o, p, t, i); }
  }

  lemma FreeFree(o: Store, refc: map<Page, int>, free: seq<Page>, npage: Page, p: Page)
    requires FreeOk(o, refc, free, npage) && ZERO !in o && p in o && p in refc && refc[p] == 0
    ensures FreeOk(o - {p}, refc, [p] + free, npage)
  {
  }

  /** An unreferenced page whose entries are gone can go back on the free list. */
  lemma InvFree(o: Store, refc: map<Page, int>, free: seq<Page>, npage: Page,
                roots: set<Page>, held: multiset<Page>, x: set<Page>, p: Page)
    requires Inv(o, refc, free, npage, roots, held, x)
    requires p in o && refc[p] == 0 && Empty(o, p)
    ensures Inv(o - {p}, refc, [p] + free, npage, roots, held, x)
  {
    hide Wf, Exact, Exclusive, FreeOk, Empty;
    InvFacts(o, refc, free, npage, roots, held, x);
    FreeFree(o, refc, free, npage, p);
    Unreferenced(o, refc, roots, held, p);
    WfFree(o, p);
    ExactFree(o, refc, roots, held, p);
    ExclusiveFree(o, refc, roots, x, p);
  }

  lemma InvFacts(o: Store, refc: map<Page, int>, free: seq<Page>, npage: Page,
                 roots: set<Page>, held: multiset<Page>, x: set<Page>)
    requires Inv(o, refc, free, npage, roots, held, x)
    ensures x <= o.Keys <= refc.Keys
    ensures ZERO !in o
    ensures forall p :: p in o ==> refc[p] >= 0
    ensures forall p :: p in x ==> refc[p] == 1
  {
  }

  lemma EntryFits(o: Store, level: nat, t: Page, i: nat)
    requires Wf(o) && IsTab(o, level, t) && i < ENTRIES
    ensures level <= 3 && EntryOk(o, level, o[t].es[i])
    ensures Fits(o, level, o[t].es[i].page) && o[t].es[i].page != t
  {
    assert ObjOk(o, t);
  }

  /** From (o, r, x) to (o2, r2, x2) pages were only released: none changed, no count rose, and every
      table of this level or above, other than t, is still there. */
  ghost predicate Released(o: Store, r: map<Page, int>, x: set<Page>,
                           o2: Store, r2: map<Page, int>, x2: set<Page>, level: nat, t: Page)
  {
    && Shrunk(o, o2) && HighSame(o, o2, level, t)
    && x2 == x * o2.Keys
    && (forall u :: u in o2 ==> u in r && u in r2 && r2[u] <= r[u])
  }

  lemma ReleasedNothing(o: Store, r: map<Page, int>, x: set<Page>, r2: map<Page, int>, level: nat)
    requires x <= o.Keys <= r.Keys && r2.Keys == r.Keys && forall u :: u in r ==> r2[u] <= r[u]
    ensures Released(o, r, x, o, r2, x, level, ZERO)
  {
  }

  lemma ReleasedData(o: Store, r: map<Page, int>, x: set<Page>, r2: map<Page, int>, p: Page)
    requires x <= o.Keys <= r.Keys && r2.Keys == r.Keys && forall u :: u in r ==> r2[u] <= r[u]
    requires p in o && o[p].Data?
    ensures Released(o, r, x, o - {p}, r2, x - {p}, 0, ZERO)
  {
  }

  lemma ReleasedTable(o: Store, r: map<Page, int>, x: set<Page>, r1: map<Page, int>,
                      o2: Store, r2: map<Page, int>, x2: set<Page>, level: nat, p: Page)
    requires o.Keys <= r.Keys && r1.Keys == r.Keys && forall u :: u in r ==> r1[u] <= r[u]
    requires IsTab(o, level, p) && p !in o2
    requires Released(o, r1, x - {p}, o2, r2, x2, level, p)
    ensures Released(o, r, x, o2, r2, x2, level + 1, ZERO)
  {
  }

  /** While table p is being emptied: as Released, but p's own entries may have changed. */
  ghost predicate Draining(o: Store, r: map<Page, int>, x: set<Page>,
                           o2: Store, r2: map<Page, int>, x2: set<Page>, level: nat, p: Page)
  {
    && (forall t :: t in o2 ==> t in o && (t != p ==> o2[t] == o[t]))
    && HighSame(o, o2, level, p)
    && x2 == x * o2.Keys
    && (forall u :: u in o2 ==> u in r && u in r2 && r2[u] <= r[u])
    && IsTab(o2, level, p) && p in r2 && r2[p] == 0
  }

  lemma DrainingStart(o: Store, r: map<Page, int>, x: set<Page>, level: nat, p: Page)
    requires x <= o.Keys <= r.Keys && IsTab(o, level, p) && r[p] == 0
    ensures Draining(o, r, x, o, r, x, level, p)
  {
  }

  lemma DrainingSet(o: Store, r: map<Page, int>, x: set<Page>,
                    o2: Store, r2: map<Page, int>, x2: set<Page>, level: nat, p: Page, i: nat, e: Pte)
    requires Draining(o, r, x, o2, r2, x2, level, p) && i < ENTRIES
    ensures Draining(o, r, x, SetIn(o2, p, i, e), r2, x2, level, p)
  {
    assert SetIn(o2, p, i, e).Keys == o2.Keys;
  }

  lemma DrainingRelease(o: Store, r: map<Page, int>, x: set<Page>,
                        o2: Store, r2: map<Page, int>, x2: set<Page>,
                        o3: Store, r3: map<Page, int>, x3: set<Page>, level: nat, p: Page)
    requires Draining(o, r, x, o2, r2, x2, level, p)
    requires Released(o2, r2, x2, o3, r3, x3, level, ZERO)
    requires ZERO !in o && p != ZERO && forall u :: u in o3 ==> r3[u] >= 0
    ensures Draining(o, r, x, o3, r3, x3, level, p) && o3[p] == o2[p]
  {
    assert p in o3 && o3[p] == o2[p];
  }

  lemma DrainingDone(o: Store, r: map<Page, int>, x: set<Page>,
                     o2: Store, r2: map<Page, int>, x2: set<Page>, level: nat, p: Page)
    requires Draining(o, r, x, o2, r2, x2, level, p) && p !in x2
    ensures Released(o, r, x, o2 - {p}, r2, x2, level, p)
  {
  }

  lemma AnchoredSet(o: Store, roots: set<Page>, s: set<Page>, t: Page, i: nat, e: Pte)
    requires Anchored(o, roots, s) && t !in s && i < Len(o, t)
    ensures Anchored(SetIn(o, t, i, e), roots, s)
  {
    AnchoredSame(o, SetIn(o, t, i, e), roots, s);
  }

  lemma AnchoredRelease(o: Store, r: map<Page, int>, x: set<Page>,
                        o2: Store, r2: map<Page, int>, x2: set<Page>, level: nat, p: Page,
                        roots: set<Page>, s: set<Page>)
    requires Anchored(o, roots, s) && Released(o, r, x, o2, r2, x2, level, p) && s <= o2.Keys
    ensures Anchored(o2, roots, s)
  {
    AnchoredSame(o, o2, roots, s);
  }

  lemma DrainedEmpty(o: Store, level: nat, p: Page)
    requires IsTab(o, level, p) && forall j :: 0 <= j < ENTRIES ==> o[p].es[j] == CLEAR
    ensures Empty(o, p)
  {
  }

  lemma DrainingZero(o: Store, r: map<Page, int>, x: set<Page>,
                     o2: Store, r2: map<Page, int>, x2: set<Page>, level: nat, p: Page)
    requires Draining(o, r, x, o2, r2, x2, level, p)
    ensures p in r2 && r2[p] == 0
  {
  }

  lemma AnchoredIn(o: Store, roots: set<Page>, s: set<Page>)
    requires Anchored(o, roots, s)
    ensures s <= o.Keys
  {
  }

  lemma DeadNotAnchored(o: Store, roots: set<Page>, s: set<Page>, p: Page)
    requires Anchored(o, roots, s) && p !in roots && forall t: Page, i: nat :: !Names(o, t, i, p)
    ensures p !in s
  {
  }

  /** Anchored pages stay anchored as long as the anchoring tables keep naming the same pages. */
  lemma AnchoredStep(o: Store, o': Store, roots: set<Page>, s: set<Page>)
    requires Anchored(o, roots, s) && s <= o'.Keys
    requires forall t: Page, i: nat, q: Page :: t in s && Names(o, t, i, q) ==> Names(o', t, i, q)
    ensures Anchored(o', roots, s)
  {
    forall p | p in s && p !in roots ensures exists t: Page, i: nat :: t in s && Names(o', t, i, p) {
      var t: Page, i: nat :| t in s && Names(o, t, i, p);
      assert Names(o', t, i, p);
    }
  }

  lemma AnchoredSame(o: Store, o': Store, roots: set<Page>, s: set<Page>)
    requires Anchored(o, roots, s) && forall t :: t in s ==> t in o' && o'[t] == o[t]
    ensures Anchored(o', roots, s)
  {
    forall t: Page, i: nat, q: Page | t in s && Names(o, t, i, q) ensures Names(o', t, i, q) { }
    AnchoredStep(o, o', roots, s);
  }

  lemma FreePop(o: Store, refc: map<Page, int>, free: seq<Page>, npage: Page)
    requires FreeOk(o, refc, free, npage) && free != []
    ensures FreeOk(o, refc, free[1..], npage)
    ensures ZERO < free[0] < npage && free[0] !in o && free[0] in refc && refc[free[0]] == 0
    ensures forall i :: 0 <= i < |free| - 1 ==> free[1..][i] != free[0]
  {
  }

  lemma FreeGrow(o: Store, refc: map<Page, int>, free: seq<Page>, npage: Page)
    requires FreeOk(o, refc, free, npage) && free == []
    ensures FreeOk(o, refc[npage := 0], free, npage + 1) && npage !in o && npage != ZERO
  {
  }

  lemma ExactGrow(o: Store, refc: map<Page, int>, roots: set<Page>, held: multiset<Page>, p: Page)
    requires Exact(o, refc, roots, held) && p !in o
    ensures Exact(o, refc[p := 0], roots, held)
  {
    forall q | q in o ensures Counted(o, refc[p := 0], roots, held, q) { assert Counted(o, refc, roots, held, q); }
  }

  class PageMaps {
    var obj: Store              // contents of the pages in use
    var refc: map<Page, int>    // pageinfo.refcount
    var free: seq<Page>         // mem_freelist
    var npage: Page             // pages handed out or free so far lie below this number
    ghost var roots: set<Page>      // page maps owned by processes
    ghost var held: multiset<Page>  // references held by running kernel code
    ghost var excl: set<Page>       // pages known to have a single reference

    ghost predicate Valid()
      reads this
    {
      Inv(obj, refc, free, npage, roots, held, excl)
    }

    constructor ()
      ensures Valid() && obj == map[] && roots == {} && held == multiset{}
    {
      obj, refc, free, npage := map[], map[], [], ZERO + 1;
      roots, held, excl := {}, multiset{}, {};
    }

    /** mem_alloc: take the head of the free list (memory is taken to be unlimited when the list is empty). */
    method MemAlloc() returns (p: Page)
      requires Valid()
      modifies this`free, this`npage, this`refc
      ensures Valid()
      ensures p !in obj && p != ZERO && p < npage && p in refc && refc[p] == 0
      ensures forall i :: 0 <= i < |free| ==> free[i] != p
      ensures old(free) != [] ==> p == old(free)[0] && free == old(free)[1..]
      ensures old(free) == [] ==> free == []
      ensures forall q :: q in old(refc) ==> q in refc && (q != p ==> refc[q] == old(refc)[q])
    {
      hide Wf, Exact, Exclusive, FreeOk;
      InvFacts(obj, refc, free, npage, roots, held, excl);
      if free != [] {
        FreePop(obj, refc, free, npage);
        p := free[0];
        free := free[1..];
      } else {
        FreeGrow(obj, refc, free, npage);
        ExactGrow(obj, refc, roots, held, npage);
        ExclusiveKeep(obj, refc, roots, excl, npage, 0);
        p := npage;
        npage := npage + 1;
        refc := refc[p := 0];
      }
    }

    /** Allocate a page, take the first reference to it and fill it with data or with zero mappings. */
    method NewPage(content: Obj) returns (p: Page)
      requires Valid()
      requires Fresh(content)
      modifies this`free, this`npage, this`refc, this`obj, this`held, this`excl
      ensures Valid()
      ensures p !in old(obj) && p != ZERO && obj == old(obj)[p := content]
      ensures held == old(held) + multiset{p} && excl == old(excl) + {p} && p in refc && refc[p] == 1
      ensures forall q :: q in old(refc) ==> q in refc && (q != p ==> refc[q] == old(refc)[q])
    {
      hide Wf, Exact, Exclusive, FreeOk, Fresh, Unwritable, EntryOk, NonZero, Empty;
      p := MemAlloc();
      InvNew(obj, refc, free, npage, roots, held, excl, p, content);
      refc := refc[p := 1];
      obj := obj[p := content];
      held := held + multiset{p};
      excl := excl + {p};
    }

    /** mem_incref */
    method MemIncref(p: Page)
      requires Valid() && p in obj && p !in roots && Unwritable(obj, excl, p)
      modifies this`refc, this`held, this`excl
      ensures Valid()
      ensures p in old(refc) && refc == old(refc)[p := old(refc)[p] + 1]
      ensures held == old(held) + multiset{p} && excl == old(excl) - {p}
    {
      hide Wf, Exact, Exclusive, FreeOk, Fresh, Unwritable, EntryOk, NonZero, Empty;
      InvIncref(obj, refc, free, npage, roots, held, excl, p);
      refc := refc[p := refc[p] + 1];
      held := held + multiset{p};
      excl := excl - {p};
    }

    /** *pte = e */
    method SetEntry(t: Page, i: nat, e: Pte)
      requires Valid() && i < Len(obj, t) && EntryOk(obj, obj[t].level, e)
      requires NonZero(e.page) <= held + NonZero(obj[t].es[i].page)
      requires t in excl && e.w ==> e.page in excl
      modifies this`obj, this`held
      ensures Valid()
      ensures obj == SetIn(old(obj), t, i, e)
      ensures held == old(held) + NonZero(old(obj)[t].es[i].page) - NonZero(e.page)
    {
      hide Wf, Exact, Exclusive, FreeOk, Fresh, Unwritable, EntryOk, NonZero, Empty;
      InvSet(obj, refc, free, npage, roots, held, excl, t, i, e);
      held := held + NonZero(obj[t].es[i].page) - NonZero(e.page);
      obj := obj[t := Table(obj[t].level, obj[t].es[i := e])];
    }

    /** mem_free */
    method MemFree(p: Page)
      requires Valid() && p in obj && refc[p] == 0 && Empty(obj, p)
      modifies this`obj, this`free
      ensures Valid()
      ensures obj == old(obj) - {p} && free == [p] + old(free)
    {
      hide Wf, Exact, Exclusive, FreeOk, Fresh, Unwritable, EntryOk, NonZero, Empty;
      InvFree(obj, refc, free, npage, roots, held, excl, p);
      free := [p] + free;
      obj := obj - {p};
    }

    /** mem_decref on a page that fits in tables of level k: free it, and what only it named, when the last
        reference goes. */
    method MemDecref(k: nat, p: Page, ghost s: set<Page>)
      requires Valid() && p in held && p != ZERO && k <= 3 && Fits(obj, k, p)
      requires Anchored(obj, roots, s)
      modifies this`obj, this`refc, this`free, this`held, this`excl
      ensures Valid() && held == old(held) - multiset{p}
      ensures Released(old(obj), old(refc), old(excl), obj, refc, excl, k, ZERO)
      ensures s <= obj.Keys
      ensures p in old(refc) && old(refc)[p] > 1 ==> obj == old(obj) && excl == old(excl)
      decreases k, 0
    {
      hide Wf, Exact, Exclusive, FreeOk, Anchored, Names, Released;
      InvFacts(obj, refc, free, npage, roots, held, excl);
      AnchoredIn(obj, roots, s);
      ghost var o, r, x := obj, refc, excl;
      InvDecref(obj, refc, free, npage, roots, held, excl, p);
      refc := refc[p := refc[p] - 1];
      held := held - multiset{p};
      if refc[p] == 0 {
        excl := excl - {p};
        DeadNotAnchored(obj, roots, s, p);
        ghost var r1 := refc;
        if k == 0 {
          MemFree(p);
          ReleasedData(o, r, x, r1, p);
        } else {
          FreeTable(k - 1, p, s);
          ReleasedTable(o, r, x, r1, obj, refc, excl, k - 1, p);
        }
      } else {
        ReleasedNothing(o, r, x, refc, k);
      }
    }

    /** One turn of the releasing loop: forget entry i of the dead table p and drop the reference it held. */
    method DropEntry(level: nat, p: Page, i: nat, ghost s: set<Page>,
                     ghost o: Store, ghost r: map<Page, int>, ghost x: set<Page>)
      requires Valid() && level <= 2 && Anchored(obj, roots, s) && p !in s && i < ENTRIES && ZERO !in o
      requires IsTab(obj, level, p) && Draining(o, r, x, obj, refc, excl, level, p)
      modifies this`obj, this`refc, this`free, this`held, this`excl
      ensures Valid() && held == old(held) && Anchored(obj, roots, s)
      ensures IsTab(obj, level, p) && Draining(o, r, x, obj, refc, excl, level, p)
      ensures obj[p].es == old(obj)[p].es[i := CLEAR]
      decreases level, 1
    {
      hide Wf, Exact, Exclusive, FreeOk, Anchored, Names, Released, Draining;
      InvFacts(obj, refc, free, npage, roots, held, excl);
      EntryFits(obj, level, p, i);
      var q := obj[p].es[i].page;
      DrainingSet(o, r, x, obj, refc, excl, level, p, i, CLEAR);
      AnchoredSet(obj, roots, s, p, i, CLEAR);
      SetEntry(p, i, CLEAR);
      if q != ZERO {
        ghost var o2, r2, x2 := obj, refc, excl;
        MemDecref(level, q, s);
        InvFacts(obj, refc, free, npage, roots, held, excl);
        AnchoredRelease(o2, r2, x2, obj, refc, excl, level, ZERO, roots, s);
        DrainingRelease(o, r, x, o2, r2, x2, obj, refc, excl, level, p);
      }
    }

    /** pmap_freept, pmap_freepd, pmap_freepdp: release everything a dead table names, then the table. */
    method FreeTable(level: nat, p: Page, ghost s: set<Page>)
      requires Valid() && IsTab(obj, level, p) && p in refc && refc[p] == 0 && level <= 2
      requires Anchored(obj, roots, s) && p !in s
      modifies this`obj, this`refc, this`free, this`held, this`excl
      ensures Valid() && held == old(held)
      ensures Released(old(obj), old(refc), old(excl), obj, refc, excl, level, p)
      ensures s <= obj.Keys && p !in obj
      decreases level, 2
    {
      hide Wf, Exact, Exclusive, FreeOk, Anchored, Names, Released, Draining, Empty;
      InvFacts(obj, refc, free, npage, roots, held, excl);
      ghost var o, r, x := obj, refc, excl;
      DrainingStart(o, r, x, level, p);
      var i := 0;
      while i < ENTRIES
        invariant i <= ENTRIES
        invariant Valid() && held == old(held)
        invariant IsTab(obj, level, p)
        invariant forall j :: 0 <= j < i ==> obj[p].es[j] == CLEAR
        invariant Draining(o, r, x, obj, refc, excl, level, p)
        invariant Anchored(obj, roots, s)
      {
        DropEntry(level, p, i, s, o, r, x);
        i := i + 1;
      }
      InvFacts(obj, refc, free, npage, roots, held, excl);
      DrainedEmpty(obj, level, p);
      DrainingZero(o, r, x, obj, refc, excl, level, p);
      DrainingDone(o, r, x, obj, refc, excl, level, p);
      AnchoredIn(obj, roots, s);
      MemFree(p);
    }
  }
}
