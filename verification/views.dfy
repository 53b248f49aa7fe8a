/** How address spaces seen through page tables change when the store behind them changes: addresses that keep what
    they map. */
module Views {
  import opened Paging
  import opened PageMem

  /** Table t maps every address of its region as before. */
  ghost predicate AtSame(o: Store, o': Store, level: nat, t: Page)
  {
    && Wf(o) && Wf(o') && level <= 3 && IsTab(o, level, t) && IsTab(o', level, t)
    && forall x :: 0 <= x < Span(level + 1) ==> At(o', level, t, x) == At(o, level, t, x)
  }

  /** No address below t became writable. */
  ghost predicate NoGain(o: Store, o': Store, level: nat, t: Page)
  {
    && Wf(o) && Wf(o') && level <= 3 && IsTab(o, level, t) && IsTab(o', level, t)
    && forall x :: 0 <= x < Span(level + 1) && EffW(o', level, t, x) ==> EffW(o, level, t, x)
  }

  ghost predicate Same(o: Store, o': Store, level: nat, t: Page)
  {
    AtSame(o, o', level, t) && NoGain(o, o', level, t)
  }

  /** All tables of this level, other than t, map what they mapped. */
  ghost predicate PeersSame(o: Store, o': Store, level: nat, t: Page)
  {
    forall u :: IsTab(o, level, u) && u != t ==> Same(o, o', level, u)
  }

  ghost predicate KeptSame(o: Store, o': Store, s: set<Page>)
  {
    forall u :: u in s ==> u in o && u in o' && o'[u] == o[u]
  }

  /** Exclusive tables of this level and above stay exclusive. */
  ghost predicate HighExcl(o: Store, x: set<Page>, x': set<Page>, level: nat)
  {
    forall u :: u in x && u in o && o[u].Table? && o[u].level >= level ==> u in x'
  }

  lemma SameRefl(o: Store, level: nat, t: Page)
    requires Wf(o) && IsTab(o, level, t) && level <= 3
    ensures Same(o, o, level, t)
  {
  }

  lemma SameTrans(o1: Store, o2: Store, o3: Store, level: nat, t: Page)
    requires Same(o1, o2, level, t) && Same(o2, o3, level, t)
    ensures Same(o1, o3, level, t)
  {
  }

  /** As At and EffW, for the page named by an entry, which may be ZERO. */
  function AtIn(o: Store, level: nat, q: Page, y: nat): (v: View)
    requires Wf(o) && level <= 3 && (q == ZERO || IsTab(o, level, q)) && y < Span(level + 1)
    ensures |v.bytes| == PAGESIZE
  {
    if q == ZERO then Absent() else At(o, level, q, y)
  }

  predicate WIn(o: Store, level: nat, q: Page, y: nat)
    requires Wf(o) && level <= 3 && (q == ZERO || IsTab(o, level, q)) && y < Span(level + 1)
  {
    q != ZERO && EffW(o, level, q, y)
  }

  /** Entry e' of store o' maps what entry e of store o mapped, without adding write permission. */
  ghost predicate EntryMaps(o: Store, e: Pte, o': Store, e': Pte, level: nat)
  {
    && Wf(o) && Wf(o') && level <= 2 && (e.page == ZERO || IsTab(o, level, e.page)) && (e'.page == ZERO || IsTab(o', level, e'.page))
    && (forall y :: 0 <= y < Span(level + 1) ==> AtIn(o', level, e'.page, y) == AtIn(o, level, e.page, y))
    && (forall y :: 0 <= y < Span(level + 1) ==> e'.w && WIn(o', level, e'.page, y) ==> e.w && WIn(o, level, e.page, y))
  }

  /** A table whose entries map the same maps the same. */
  lemma TableLift(o: Store, o': Store, level: nat, u: Page)
    requires Wf(o) && Wf(o') && 1 <= level <= 3 && IsTab(o, level, u) && IsTab(o', level, u)
    requires forall i :: 0 <= i < ENTRIES ==> EntryMaps(o, o[u].es[i], o', o'[u].es[i], level - 1)
    ensures Same(o, o', level, u)
  {
    forall x | 0 <= x < Span(level + 1)
      ensures At(o', level, u, x) == At(o, level, u, x)
      ensures EffW(o', level, u, x) ==> EffW(o, level, u, x)
    {
      IdxInside(level, x);
      var i := Idx(level, x);
      assert EntryMaps(o, o[u].es[i], o', o'[u].es[i], level - 1);
      assert AtIn(o', level - 1, o'[u].es[i].page, Off(level, x)) == AtIn(o, level - 1, o[u].es[i].page, Off(level, x));
      if EffW(o', level, u, x) {
        EntryFits(o', level, u, i);
        assert WIn(o', level - 1, o'[u].es[i].page, Off(level, x));
        assert WIn(o, level - 1, o[u].es[i].page, Off(level, x));
      }
    }
  }

  lemma EntryMapsSame(o: Store, o': Store, e: Pte, level: nat)
    requires Wf(o) && Wf(o') && level <= 2
    requires e.page != ZERO ==> Same(o, o', level, e.page)
    ensures EntryMaps(o, e, o', e, level)
  {
  }

  /** An unchanged table maps the same if the tables it names do. */
  lemma ChildLift(o: Store, o': Store, level: nat, u: Page)
    requires Wf(o) && Wf(o') && 1 <= level <= 3 && IsTab(o, level, u) && u in o' && o'[u] == o[u]
    requires forall i :: 0 <= i < ENTRIES && o[u].es[i].page != ZERO ==> Same(o, o', level - 1, o[u].es[i].page)
    ensures Same(o, o', level, u)
  {
    forall i | 0 <= i < ENTRIES ensures EntryMaps(o, o[u].es[i], o', o'[u].es[i], level - 1) {
      EntryMapsSame(o, o', o[u].es[i], level - 1);
    }
    TableLift(o, o', level, u);
  }

  /** Same pages and nominal bits, PTE_W at most withdrawn. */
  ghost predicate SameShape(o: Store, o': Store, level: nat, u: Page)
  {
    && IsTab(o, level, u) && IsTab(o', level, u)
    && forall j :: 0 <= j < ENTRIES ==>
         o'[u].es[j].(w := false) == o[u].es[j].(w := false) && (o'[u].es[j].w ==> o[u].es[j].w)
  }

  /** All tables of this level and below keep their shape, and data pages their contents. */
  ghost predicate LowShape(o: Store, o': Store, level: nat)
  {
    && (forall k: nat, u :: k <= level && IsTab(o, k, u) ==> SameShape(o, o', k, u))
    && (forall q :: q in o && o[q].Data? ==> q in o' && o'[q] == o[q])
  }

  lemma {:induction false} ShapeSame(o: Store, o': Store, level: nat, u: Page)
    requires Wf(o) && Wf(o') && level <= 3 && LowShape(o, o', level) && IsTab(o, level, u)
    ensures Same(o, o', level, u)
    decreases level
  {
    assert SameShape(o, o', level, u);
    forall x | 0 <= x < Span(level + 1)
      ensures At(o', level, u, x) == At(o, level, u, x)
      ensures EffW(o', level, u, x) ==> EffW(o, level, u, x)
    {
      IdxInside(level, x);
      var i := Idx(level, x);
      EntryFits(o, level, u, i);
      var e := o[u].es[i];
      assert o'[u].es[i].(w := false) == e.(w := false);
      if level > 0 && e.page != ZERO {
        ShapeSame(o, o', level - 1, e.page);
      }
    }
  }
}
