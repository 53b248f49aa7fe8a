/** Four-level page tables as a reference-counted store of pages (kern/pmap.c, kern/mem.c, kern/mem.h), and what an
    address means. */
module Paging {

  /** A page is a number; page ZERO is the permanently zero page pmap_zero.  A page in use holds either a table of a
      given level (3 = PML4 ... 0 = page table) or data.  Addresses are counted in pages and, inside the table that maps
      them, taken relative to the start of that table's region: this is what the macros PDX and PDOFF extract. */
  type Page = nat
  const ZERO: Page := 0
  const ENTRIES: nat := 512
  const PAGESIZE: nat := 4096
  type Byte = b: int | 0 <= b < 256

  /** A page-map entry: the page it names, PTE_P, PTE_W and the nominal bits SYS_READ and SYS_WRITE. */
  datatype Pte = Pte(page: Page, p: bool, w: bool, r: bool, rw: bool)

  /** PTE_ZERO without any permission. */
  const CLEAR: Pte := Pte(ZERO, false, false, false, false)

  datatype Obj = Table(level: nat, es: seq<Pte>) | Data(bytes: seq<Byte>)
  type Store = map<Page, Obj>

  /* ---------- address arithmetic ---------- */

  /** Pages mapped by one entry of a table of this level: PDSIZE(level) / PAGESIZE. */
  function Span(level: nat): (s: nat)
    requires level <= 4
    ensures s > 0
  {
    if level == 0 then 1
    else if level == 1 then 512
    else if level == 2 then 262144
    else if level == 3 then 134217728
    else 68719476736
  }

  /** First page mapped by entry i, relative to the table. */
  function Base(level: nat, i: int): int
    requires level <= 3
  {
    if level == 0 then i
    else if level == 1 then 512 * i
    else if level == 2 then 262144 * i
    else 134217728 * i
  }

  /** PDX(level, va) */
  function Idx(level: nat, x: nat): (i: nat)
    requires level <= 3
  {
    if level == 0 then x
    else if level == 1 then x / 512
    else if level == 2 then x / 262144
    else x / 134217728
  }

  /** PDOFF(level, va) */
  function Off(level: nat, x: nat): (o: nat)
    requires level <= 3
    ensures o < Span(level)
    ensures x == Base(level, Idx(level, x)) + o
  {
    if level == 0 then 0
    else if level == 1 then x % 512
    else if level == 2 then x % 262144
    else x % 134217728
  }

  /** Index and offset are the unique decomposition of an address. */
  lemma Decompose(level: nat, x: nat, i: int, o: int)
    requires level <= 3 && 0 <= o < Span(level) && x == Base(level, i) + o
    ensures Idx(level, x) == i && Off(level, x) == o
  {
  }

  /** Addresses below the span of the level above have an index inside the table. */
  lemma IdxInside(level: nat, x: nat)
    requires level <= 3
    ensures x < Span(level + 1) <==> Idx(level, x) < ENTRIES
    ensures Base(level, ENTRIES) == Span(level + 1)
    ensures Base(level, Idx(level, x) + 1) == Base(level, Idx(level, x)) + Span(level)
  {
  }

  /* ---------- well-formed stores ---------- */

  predicate IsTab(o: Store, level: nat, t: Page)
  {
    t in o && o[t].Table? && o[t].level == level && |o[t].es| == ENTRIES
  }

  /** A table of this level may name this page. */
  predicate Fits(o: Store, level: nat, q: Page)
  {
    q == ZERO || (q in o && if level == 0 then o[q].Data? else IsTab(o, level - 1, q))
  }

  predicate EntryOk(o: Store, level: nat, e: Pte)
  {
    && Fits(o, level, e.page)
    && (e.page == ZERO ==> !e.w)
    && (if level > 0 then (e.page == ZERO ==> e == CLEAR) && (e.page != ZERO ==> e.p) else e.w ==> e.p && e.r && e.rw)
  }

  predicate ObjOk(o: Store, t: Page)
    requires t in o
  {
    match o[t]
    case Data(b) => |b| == PAGESIZE
    case Table(level, es) =>
      level <= 3 && |es| == ENTRIES && forall i :: 0 <= i < ENTRIES ==> EntryOk(o, level, es[i])
  }

  predicate Wf(o: Store)
  {
    ZERO !in o && forall t :: t in o ==> ObjOk(o, t)
  }

  /* ---------- what an address means ---------- */

  function Entry(o: Store, level: nat, t: Page, i: nat): (e: Pte)
    requires Wf(o) && IsTab(o, level, t) && i < ENTRIES
    ensures level <= 3 && EntryOk(o, level, e)
  {
    assert ObjOk(o, t);
    o[t].es[i]
  }

  function Zeros(): seq<Byte> { seq(PAGESIZE, i => 0) }

  /** What a user finds at an address: the page, its nominal permissions and its contents.  PTE_W is left out,
      since it only has an effect together with the entries above (see EffW). */
  datatype View = View(pte: Pte, bytes: seq<Byte>)

  function Absent(): View { View(CLEAR, Zeros()) }

  /** What an entry of a page table shows. */
  function Leaf(o: Store, e: Pte): (v: View)
    requires Wf(o) && Fits(o, 0, e.page)
    ensures |v.bytes| == PAGESIZE && (e.page == ZERO ==> v.bytes == Zeros())
  {
    View(e.(w := false), if e.page == ZERO then Zeros() else assert ObjOk(o, e.page); o[e.page].bytes)
  }

  /** What x maps to below table t; an absent subtree maps clear zero pages. */
  function At(o: Store, level: nat, t: Page, x: nat): (v: View)
    requires Wf(o) && IsTab(o, level, t) && level <= 3 && x < Span(level + 1)
    ensures Fits(o, 0, v.pte.page) && !v.pte.w && v == Leaf(o, v.pte) && |v.bytes| == PAGESIZE
  {
    IdxInside(level, x);
    var e := Entry(o, level, t, Idx(level, x));
    if level == 0 then Leaf(o, e)
    else if e.page == ZERO then Absent()
    else At(o, level - 1, e.page, Off(level, x))
  }

  /** Every entry on the path to x carries PTE_W. */
  predicate EffW(o: Store, level: nat, t: Page, x: nat)
    requires Wf(o) && IsTab(o, level, t) && level <= 3 && x < Span(level + 1)
  {
    IdxInside(level, x);
    var e := Entry(o, level, t, Idx(level, x));
    e.w && (level > 0 ==> EffW(o, level - 1, e.page, Off(level, x)))
  }

  /** The nominal permissions allow writing. */
  predicate Writable(v: View) { v.pte.p && v.pte.r && v.pte.rw }

  /** The processor never allows a write that the nominal permissions forbid. */
  lemma {:induction false} EffWWritable(o: Store, level: nat, t: Page, x: nat)
    requires Wf(o) && IsTab(o, level, t) && level <= 3 && x < Span(level + 1) && EffW(o, level, t, x)
    ensures Writable(At(o, level, t, x)) && At(o, level, t, x).pte.page != ZERO
    decreases level
  {
    IdxInside(level, x);
    var e := Entry(o, level, t, Idx(level, x));
    if level > 0 { EffWWritable(o, level - 1, e.page, Off(level, x)); }
  }

  /* ---------- reference counts ---------- */

  function Len(o: Store, t: Page): nat
  {
    if t in o && o[t].Table? then |o[t].es| else 0
  }

  /** Entry i of table t names page p. */
  predicate Names(o: Store, t: Page, i: nat, p: Page)
  {
    i < Len(o, t) && o[t].es[i].page == p
  }

  /** The table entries that name page p. */
  function Slots(o: Store, p: Page): set<(Page, nat)>
  {
    set t: Page, i: nat | t in o && i < Len(o, t) && Names(o, t, i, p) :: (t, i)
  }

  /** The count of page p is the number of entries, roots and held references naming it. */
  predicate Counted(o: Store, refc: map<Page, int>, roots: set<Page>, held: multiset<Page>, p: Page)
  {
    p in refc && refc[p] == |Slots(o, p)| + held[p] + (if p in roots then 1 else 0)
  }

  /** Reference counts are exact; roots are PML4 tables. */
  predicate Exact(o: Store, refc: map<Page, int>, roots: set<Page>, held: multiset<Page>)
  {
    && (forall p :: p in held ==> p in o)
    && (forall p :: p in roots ==> IsTab(o, 3, p))
    && (forall p :: p in o ==> Counted(o, refc, roots, held, p))
  }

  predicate FreeOk(o: Store, refc: map<Page, int>, free: seq<Page>, npage: Page)
  {
    && npage > ZERO
    && (forall i :: 0 <= i < |free| ==> ZERO < free[i] < npage && free[i] !in o
                                        && free[i] in refc && refc[free[i]] == 0)
    && (forall i, j :: 0 <= i < j < |free| ==> free[i] != free[j])
    && (forall p :: p in o ==> p < npage)
  }

  /** x is closed under writable entries and every page in it has exactly one reference. */
  predicate Exclusive(o: Store, refc: map<Page, int>, roots: set<Page>, x: set<Page>)
  {
    && roots <= x
    && (forall p :: p in x ==> p in o && p in refc && refc[p] == 1)
    && (forall t: Page, i: nat :: t in x && i < Len(o, t) && o[t].es[i].w ==> o[t].es[i].page in x)
  }

  lemma SlotsHas(o: Store, p: Page, t: Page, i: nat)
    ensures (t, i) in Slots(o, p) <==> Names(o, t, i, p)
  {
  }

  lemma CardMove<T>(a: set<T>, b: set<T>, x: T)
    requires forall y :: y != x ==> (y in a <==> y in b)
    ensures |b| == |a| + (if x in b then 1 else 0) - (if x in a then 1 else 0)
  {
    var c := a - {x};
    assert c == b - {x};
    assert |a| == |c| + (if x in a then 1 else 0);
    assert |b| == |c| + (if x in b then 1 else 0);
  }

  /** Changing what one entry names moves exactly one slot. */
  lemma SlotsMove(o: Store, o': Store, t: Page, i: nat, p: Page)
    requires forall u: Page, j: nat :: (u, j) != (t, i) ==> (Names(o, u, j, p) <==> Names(o', u, j, p))
    ensures |Slots(o', p)| == |Slots(o, p)| + (if Names(o', t, i, p) then 1 else 0) - (if Names(o, t, i, p) then 1 else 0)
  {
    var a, b := Slots(o, p), Slots(o', p);
    forall y: (Page, nat) | y != (t, i) ensures y in a <==> y in b {
      var (u, j) := y;
      SlotsHas(o, p, u, j);
      SlotsHas(o', p, u, j);
    }
    CardMove(a, b, (t, i));
    SlotsHas(o, p, t, i);
    SlotsHas(o', p, t, i);
  }

  /** Setting one entry moves at most one slot of each page. */
  lemma SlotsSet(o: Store, t: Page, i: nat, e: Pte, p: Page)
    requires i < Len(o, t)
    ensures var o' := o[t := Table(o[t].level, o[t].es[i := e])];
            |Slots(o', p)| == |Slots(o, p)| + (if e.page == p then 1 else 0) - (if o[t].es[i].page == p then 1 else 0)
  {
    var o' := o[t := Table(o[t].level, o[t].es[i := e])];
    forall u: Page, j: nat | (u, j) != (t, i) ensures Names(o, u, j, p) <==> Names(o', u, j, p) {
    }
    SlotsMove(o, o', t, i, p);
  }

  /** Adding or removing a page whose entries name only ZERO changes no slot of another page. */
  lemma SlotsSame(o: Store, o': Store, p: Page)
    requires forall u: Page, j: nat :: Names(o, u, j, p) <==> Names(o', u, j, p)
    ensures Slots(o', p) == Slots(o, p)
  {
    var a, b := Slots(o, p), Slots(o', p);
    forall u: Page, j: nat ensures (u, j) in a <==> (u, j) in b {
      SlotsHas(o, p, u, j);
      SlotsHas(o', p, u, j);
    }
  }

  /** A slot makes the count positive; a count of one makes the slot unique. */
  lemma SlotCount(o: Store, p: Page, t: Page, i: nat)
    requires Names(o, t, i, p)
    ensures |Slots(o, p)| >= 1
    ensures |Slots(o, p)| == 1 ==> forall u: Page, j: nat :: Names(o, u, j, p) ==> u == t && j == i
  {
    var s := Slots(o, p);
    SlotsHas(o, p, t, i);
    if |s| == 1 {
      assert |s - {(t, i)}| == 0;
      forall u: Page, j: nat | Names(o, u, j, p) ensures u == t && j == i {
        SlotsHas(o, p, u, j);
        assert (u, j) !in s - {(t, i)};
      }
    }
  }
}
