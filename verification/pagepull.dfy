/** Pulling a page from another node in three parts, whatever the network loses, repeats or reorders (kern/net.c). */
module PagePull {

  type Byte = b: int | 0 <= b < 256
  type Page = s: seq<Byte> | |s| == PAGESIZE witness Blank()

  const PAGESIZE: nat := 4096
  const PART: nat := 1368          // NET_PULLPART

  function Blank(): (s: seq<Byte>)
    ensures |s| == PAGESIZE
  {
    seq(PAGESIZE, i => 0)
  }

  /** partlen[] */
  function PartLen(part: nat): nat
    requires part < 3
  {
    if part < 2 then PART else PAGESIZE - PART - PART
  }

  /** The parts partition the page, and fit their packets. */
  lemma Parts(k: nat)
    requires k < PAGESIZE
    ensures k / PART < 3 && PART * (k / PART) <= k < PART * (k / PART) + PartLen(k / PART)
    ensures forall p: nat :: p < 3 && p != k / PART ==> !(PART * p <= k < PART * p + PartLen(p))
    ensures forall p: nat :: p < 3 ==> PART * p + PartLen(p) <= PAGESIZE && PartLen(p) <= PART && PartLen(p) % 4 == 0
  {
  }

  /** Which parts have arrived: bit p of the mask. */
  predicate Arrived(mask: bv8, part: nat)
    requires part < 3
  {
    if part == 0 then mask & 1 != 0 else if part == 1 then mask & 2 != 0 else mask & 4 != 0
  }

  function WithPart(mask: bv8, part: nat): bv8
    requires part < 3
  {
    if part == 0 then mask | 1 else if part == 1 then mask | 2 else mask | 4
  }

  lemma WithPartIs(mask: bv8, part: nat, p: nat)
    requires part < 3 && p < 3 && mask & 0xF8 == 0
    ensures Arrived(WithPart(mask, part), p) <==> p == part || Arrived(mask, p)
    ensures WithPart(mask, part) & 0xF8 == 0
  {
  }

  /** The mask is 7 exactly when all three parts have arrived; need = arrived ^ 7 names the missing ones. */
  lemma MaskIs(mask: bv8)
    requires mask & 0xF8 == 0
    ensures mask == 7 <==> Arrived(mask, 0) && Arrived(mask, 1) && Arrived(mask, 2)
    ensures forall p: nat :: p < 3 ==> (Arrived(mask ^ 7, p) <==> !Arrived(mask, p))
  {
    Complement(mask);
    forall p: nat | p < 3 ensures Arrived(mask ^ 7, p) <==> !Arrived(mask, p) { }
  }

  lemma Complement(mask: bv8)
    ensures ((mask ^ 7) & 1 != 0) <==> mask & 1 == 0
    ensures ((mask ^ 7) & 2 != 0) <==> mask & 2 == 0
    ensures ((mask ^ 7) & 4 != 0) <==> mask & 4 == 0
  {
  }

  type Rr = nat      // remote reference: home node and address

  /** net_pullrq and net_pullrphdr with its data. */
  datatype Request = Request(rr: Rr, pglev: nat, need: bv8)
  datatype Reply = Reply(rr: Rr, part: int, data: seq<Byte>)

  /** The pulling state of a process: PROC_PULL, pullrr, pglev, pullpg and arrived. */
  datatype Pull = Pull(proc: nat, rr: Rr, pglev: nat, page: Page, arrived: bv8)

  function Piece(page: Page, part: nat): (s: seq<Byte>)
    requires part < 3
    ensures |s| == PartLen(part)
  {
    page[PART * part .. PART * part + PartLen(part)]
  }

  /** memcpy(pullpg + NET_PULLPART * part, data, PartLen(part)) */
  function Fill(page: Page, part: nat, data: seq<Byte>): (r: Page)
    requires part < 3 && |data| == PartLen(part)
  {
    page[..PART * part] + data + page[PART * part + PartLen(part)..]
  }

  lemma FillPiece(page: Page, part: nat, data: seq<Byte>, p: nat)
    requires part < 3 && p < 3 && |data| == PartLen(part)
    ensures Piece(Fill(page, part, data), p) == if p == part then data else Piece(page, p)
  {
    var f := Fill(page, part, data);
    assert forall k :: 0 <= k < PartLen(p) ==> Piece(f, p)[k] == if p == part then data[k] else Piece(page, p)[k];
  }

  /** A page is determined by its three pieces. */
  lemma AllPieces(a: Page, b: Page)
    requires Piece(a, 0) == Piece(b, 0) && Piece(a, 1) == Piece(b, 1) && Piece(a, 2) == Piece(b, 2)
    ensures a == b
  {
    assert a == Piece(a, 0) + Piece(a, 1) + Piece(a, 2);
    assert b == Piece(b, 0) + Piece(b, 1) + Piece(b, 2);
  }

  /** What the source answers with: the page itself, or its translation to remote references for a table. */
  type Source = map<(Rr, nat), Page>

  /** Every reply in the network carries the piece it says it does, for the level at which the page is pulled. */
  ghost predicate GenuineReply(src: Source, m: Reply)
  {
    exists pglev :: (m.rr, pglev) in src && 0 <= m.part < 3 && m.data == Piece(src[(m.rr, pglev)], m.part)
  }

  /** A page is pulled at one level only: as data, as a page table or as a page directory. */
  ghost predicate OneLevel(src: Source)
  {
    forall rr, a, b :: (rr, a) in src && (rr, b) in src ==> a == b
  }

  /** The mask tracks exactly the parts copied. */
  ghost predicate PullOk(src: Source, p: Pull)
  {
    && (p.rr, p.pglev) in src && p.arrived & 0xF8 == 0 && p.arrived != 7
    && forall part: nat :: part < 3 && Arrived(p.arrived, part) ==> Piece(p.page, part) == Piece(src[(p.rr, p.pglev)], part)
  }

  /* ---------- what one reply does ---------- */

  /** The process that a reply goes to: the first on the list that pulls this page. */
  function First(list: seq<Pull>, rr: Rr): (i: nat)
    ensures i <= |list| && (forall j :: 0 <= j < i ==> list[j].rr != rr) && (i < |list| ==> list[i].rr == rr)
  {
    if list == [] || list[0].rr == rr then 0 else 1 + First(list[1..], rr)
  }

  /** The reply brings a part that is missing, in its length. */
  predicate Wanted(p: Pull, m: Reply)
  {
    m.rr == p.rr && 0 <= m.part < 3 && !Arrived(p.arrived, m.part) && |m.data| == PartLen(m.part)
  }

  function Taken(p: Pull, m: Reply): Pull
    requires Wanted(p, m)
  {
    p.(page := Fill(p.page, m.part, m.data), arrived := WithPart(p.arrived, m.part))
  }

  /** The list after a reply. */
  function After(list: seq<Pull>, m: Reply): seq<Pull>
  {
    var i := First(list, m.rr);
    if i == |list| || !Wanted(list[i], m) then list
    else if Taken(list[i], m).arrived == 7 then list[..i] + list[i + 1..]
    else list[i := Taken(list[i], m)]
  }

  function AfterAll(list: seq<Pull>, ms: seq<Reply>): seq<Pull>
    decreases |ms|
  {
    if ms == [] then list else AfterAll(After(list, ms[0]), ms[1..])
  }

  ghost predicate Waits(list: seq<Pull>, proc: nat)
  {
    exists i :: 0 <= i < |list| && list[i].proc == proc
  }

  ghost predicate MasksOk(list: seq<Pull>)
  {
    && (forall i :: 0 <= i < |list| ==> list[i].arrived & 0xF8 == 0 && list[i].arrived != 7)
    && (forall i, j :: 0 <= i < j < |list| ==> list[i].proc != list[j].proc)
  }

  /** Among the replies is one for every part that is missing. */
  ghost predicate Covers(ms: seq<Reply>, p: Pull)
  {
    forall part: nat :: part < 3 && !Arrived(p.arrived, part) ==> HasPart(ms, p.rr, part)
  }

  ghost predicate HasPart(ms: seq<Reply>, rr: Rr, part: nat)
    requires part < 3
  {
    exists k :: 0 <= k < |ms| && ms[k].rr == rr && ms[k].part == part && |ms[k].data| == PartLen(part)
  }

  lemma AfterMasks(list: seq<Pull>, m: Reply)
    requires MasksOk(list)
    ensures MasksOk(After(list, m)) && forall proc :: Waits(After(list, m), proc) ==> Waits(list, proc)
  {
    var i := First(list, m.rr);
    if i < |list| && Wanted(list[i], m) { WithPartIs(list[i].arrived, m.part, 0); }
    var list' := After(list, m);
    forall proc | Waits(list', proc) ensures Waits(list, proc) {
      var j :| 0 <= j < |list'| && list'[j].proc == proc;
      var k := if |list'| < |list| && j >= i then j + 1 else j;
      assert list[k].proc == proc;
    }
  }

  lemma {:induction false} NeverBack(list: seq<Pull>, ms: seq<Reply>, proc: nat)
    requires MasksOk(list) && Waits(AfterAll(list, ms), proc)
    ensures Waits(list, proc)
    decreases |ms|
  {
    if ms != [] {
      AfterMasks(list, ms[0]);
      NeverBack(After(list, ms[0]), ms[1..], proc);
    }
  }

  /** A reply to another page leaves the process first in line for its own. */
  lemma OtherReply(list: seq<Pull>, m: Reply, i: nat) returns (i': nat)
    requires i < |list| && First(list, list[i].rr) == i && m.rr != list[i].rr
    ensures i' < |After(list, m)| && After(list, m)[i'] == list[i] && First(After(list, m), list[i].rr) == i'
  {
    var list' := After(list, m);
    var k := First(list, m.rr);
    i' := if |list'| < |list| && k < i then i - 1 else i;
  }

  /** One reply for every missing part is enough, in whatever order, however often repeated, and whatever else arrives: the process
      first in line for the page leaves the list. */
  lemma {:induction false} PartsArrive(list: seq<Pull>, ms: seq<Reply>, i: nat)
    requires MasksOk(list) && i < |list| && First(list, list[i].rr) == i && Covers(ms, list[i])
    ensures !Waits(AfterAll(list, ms), list[i].proc)
    decreases |ms|
  {
    hide First, After, Covers, MasksOk, Waits;
    SomeMissing(list, ms, i);
    AfterMasks(list, ms[0]);
    var left, i' := NextReply(list, ms, i);
    if !left {
      PartsArrive(After(list, ms[0]), ms[1..], i');
    } else if Waits(AfterAll(list, ms), list[i].proc) {
      NeverBack(After(list, ms[0]), ms[1..], list[i].proc);
    }
  }

  lemma SomeMissing(list: seq<Pull>, ms: seq<Reply>, i: nat)
    requires MasksOk(list) && i < |list| && Covers(ms, list[i])
    ensures ms != []
  {
    var p := list[i];
    MaskIs(p.arrived);
    var part: nat :| part < 3 && !Arrived(p.arrived, part);
    assert HasPart(ms, p.rr, part);
  }

  /** The next reply completes the page, or leaves the process first in line and the other replies enough for it. */
  lemma NextReply(list: seq<Pull>, ms: seq<Reply>, i: nat) returns (left: bool, i': nat)
    requires MasksOk(list) && i < |list| && First(list, list[i].rr) == i && Covers(ms, list[i]) && ms != []
    ensures left ==> !Waits(After(list, ms[0]), list[i].proc)
    ensures !left ==> var list' := After(list, ms[0]);
      i' < |list'| && list'[i'].proc == list[i].proc && First(list', list'[i'].rr) == i' && Covers(ms[1..], list'[i'])
  {
    hide Covers, WithPart, Fill;
    var p, m := list[i], ms[0];
    left, i' := false, i;
    if m.rr != p.rr {
      i' := OtherReply(list, m, i);
      CoversRest(ms, p, p);
    } else if !Wanted(p, m) {
      CoversRest(ms, p, p);
    } else if Taken(p, m).arrived == 7 {
      left := true;
    } else {
      FirstSame(list, i, Taken(p, m));
      CoversRest(ms, p, Taken(p, m));
    }
  }

  lemma FirstSame(list: seq<Pull>, i: nat, p: Pull)
    requires i < |list| && First(list, list[i].rr) == i && p.rr == list[i].rr
    ensures First(list[i := p], p.rr) == i
  {
  }

  lemma CoversRest(ms: seq<Reply>, p: Pull, p': Pull)
    requires ms != [] && Covers(ms, p) && p.arrived & 0xF8 == 0 && p' == if Wanted(p, ms[0]) then Taken(p, ms[0]) else p
    ensures Covers(ms[1..], p')
  {
    forall part: nat | part < 3 && !Arrived(p'.arrived, part) ensures HasPart(ms[1..], p.rr, part) {
      if Wanted(p, ms[0]) { WithPartIs(p.arrived, ms[0].part, part); }
      assert HasPart(ms, p.rr, part);
      var k :| 0 <= k < |ms| && ms[k].rr == p.rr && ms[k].part == part && |ms[k].data| == PartLen(part);
      assert k > 0 && ms[1..][k - 1] == ms[k];
    }
  }

  /** A puller and a source that does not change the pages while they are shared; messages sent stay in the network
      and may be delivered any number of times, or never. */
  class Pulling {
    ghost const src: Source
    var pulllist: seq<Pull>
    ghost var requests: set<Request>
    ghost var replies: set<Reply>
    ghost var finished: map<nat, (Rr, nat, Page)>      // the last page each process has pulled

    ghost predicate Valid()
      reads this
    {
      && OneLevel(src)
      && (forall i :: 0 <= i < |pulllist| ==> PullOk(src, pulllist[i]))
      && (forall i, j :: 0 <= i < j < |pulllist| ==> pulllist[i].proc != pulllist[j].proc)
      && (forall m :: m in replies ==> GenuineReply(src, m))
      && (forall p :: p in finished ==> (finished[p].0, finished[p].1) in src && finished[p].2 == src[(finished[p].0, finished[p].1)])
    }

    /** Process proc, entry i of the list, has left it with the source's page. */
    ghost predicate Finished(was: seq<Pull>, i: nat, proc: nat)
      reads this
      requires i < |was|
    {
      && was[i].proc == proc && pulllist == was[..i] + was[i + 1..] && (was[i].rr, was[i].pglev) in src
      && proc in finished && finished[proc] == (was[i].rr, was[i].pglev, src[(was[i].rr, was[i].pglev)])
    }

    constructor (src: Source)
      requires OneLevel(src)
      ensures Valid() && pulllist == [] && requests == {} && replies == {} && finished == map[] && this.src == src
    {
      this.src := src;
      pulllist, requests, replies, finished := [], {}, {}, map[];
    }

    /** net_pull */
    method NetPull(proc: nat, rr: Rr, pglev: nat, page: Page)
      requires Valid() && (rr, pglev) in src && forall i :: 0 <= i < |pulllist| ==> pulllist[i].proc != proc
      modifies this`pulllist, this`requests
      ensures Valid() && pulllist == [Pull(proc, rr, pglev, page, 0)] + old(pulllist)
      ensures requests == old(requests) + {Request(rr, pglev, 7)}
    {
      pulllist := [Pull(proc, rr, pglev, page, 0)] + pulllist;
      TxPullrq(0);
    }

    /** net_txpullrq, also by net_tick for a process still waiting. */
    method TxPullrq(i: nat)
      requires i < |pulllist|
      modifies this`requests
      ensures requests == old(requests) + {Request(pulllist[i].rr, pulllist[i].pglev, pulllist[i].arrived ^ 7)}
    {
      var p := pulllist[i];
      requests := requests + {Request(p.rr, p.pglev, p.arrived ^ 7)};
    }

    /** net_rxpullrq at the source, for a request that got through. */
    ghost method RxPullrq(rq: Request)
      requires Valid() && rq in requests && (rq.rr, rq.pglev) in src
      modifies this`replies
      ensures Valid()
      ensures replies == old(replies) + Answers(src, rq)
    {
      forall m | m in Answers(src, rq) ensures GenuineReply(src, m) {
        assert 0 <= m.part < 3 && m.data == Piece(src[(m.rr, rq.pglev)], m.part);
      }
      replies := replies + Answers(src, rq);
    }

    /** net_rxpullrp: any reply in the network, or one for no page being pulled or with an impossible part or length, may arrive
        at any time. */
    method RxPullrp(m: Reply) returns (done: bool, proc: nat)
      requires Valid() && (m in replies || (forall i :: 0 <= i < |pulllist| ==> pulllist[i].rr != m.rr) || !(0 <= m.part < 3)
                           || |m.data| != PartLen(m.part))
      modifies this`pulllist, this`finished
      ensures Valid()
      ensures pulllist == After(old(pulllist), m) && (done <==> |pulllist| < |old(pulllist)|)
      ensures done ==> First(old(pulllist), m.rr) < |old(pulllist)| && Finished(old(pulllist), First(old(pulllist), m.rr), proc)
      ensures done ==> finished == old(finished)[proc := finished[proc]]
      ensures !done ==> finished == old(finished) && SameWaiting(old(pulllist), pulllist)
    {
      hide Fill, WithPart, Piece, GenuineReply, OneLevel;
      proc := 0;
      var i := 0;
      while i < |pulllist| && pulllist[i].rr != m.rr
        invariant i <= |pulllist| && forall j :: 0 <= j < i ==> pulllist[j].rr != m.rr
      {
        i := i + 1;
      }
      assert i == First(pulllist, m.rr);
      if i == |pulllist| || m.part < 0 || m.part > 2 {
        return false, proc;
      }
      var p := pulllist[i];
      if Arrived(p.arrived, m.part) || |m.data| != PartLen(m.part) {
        return false, proc;
      }
      var p' := p.(page := Fill(p.page, m.part, m.data), arrived := WithPart(p.arrived, m.part));
      Receive(src, p, m);
      if p'.arrived == 7 {
        Complete(src, p, m);
        ghost var was := pulllist;
        pulllist := pulllist[..i] + pulllist[i + 1..];
        finished := finished[p.proc := (p.rr, p.pglev, p'.page)];
        assert Finished(was, i, p.proc);
        return true, p.proc;
      }
      pulllist := pulllist[i := p'];
      return false, proc;
    }

    /** Any replies of the network, in any order and with any repetition: once there was one for every missing part, the process first
        in line for the page has the page of the source. */
    method Deliver(ms: seq<Reply>)
      requires Valid() && forall m :: m in ms ==> m in replies
      modifies this`pulllist, this`finished
      ensures Valid() && pulllist == AfterAll(old(pulllist), ms)
      ensures forall i :: 0 <= i < |old(pulllist)| && First(old(pulllist), old(pulllist)[i].rr) == i && Covers(ms, old(pulllist)[i]) ==>
                !Waits(pulllist, old(pulllist)[i].proc) && Got(src, old(pulllist)[i], finished)
    {
      hide Covers, After, Waits, GenuineReply, PullOk, Got, Listed, First, Finished;
      ghost var was := pulllist;
      ListMasks(src, was);
      AllWaiting(src, was, finished);
      var k := 0;
      while k < |ms|
        invariant k <= |ms| && Valid() && Accounted(src, was, pulllist, finished) && AllListed(was, pulllist)
        invariant AfterAll(pulllist, ms[k..]) == AfterAll(was, ms)
      {
        ghost var list, fin := pulllist, finished;
        assert ms[k..][0] == ms[k] && ms[k..][1..] == ms[k + 1..];
        assert ms[k] in ms;
        var done, proc := RxPullrp(ms[k]);
        ListMasks(src, list);
        ListedStep(was, list, ms[k]);
        if done {
          FinishedIs(list, First(list, ms[k].rr), proc);
          AccountedDone(src, was, list, pulllist, fin, finished, First(list, ms[k].rr));
        } else {
          AccountedStill(src, was, list, pulllist, fin);
        }
        k := k + 1;
      }
      forall i | 0 <= i < |was| && First(was, was[i].rr) == i && Covers(ms, was[i])
        ensures !Waits(pulllist, was[i].proc) && Got(src, was[i], finished)
      {
        PartsArrive(was, ms, i);
      }
    }

    lemma FinishedIs(was: seq<Pull>, i: nat, proc: nat)
      requires i < |was| && Finished(was, i, proc)
      ensures proc == was[i].proc && pulllist == was[..i] + was[i + 1..] && Got(src, was[i], finished)
    {
    }
  }

  /** The process has received its page as the source has it. */
  ghost predicate Got(src: Source, p: Pull, finished: map<nat, (Rr, nat, Page)>)
  {
    (p.rr, p.pglev) in src && p.proc in finished && finished[p.proc] == (p.rr, p.pglev, src[(p.rr, p.pglev)])
  }

  /** Of the processes that waited, each still waits or has got its page. */
  ghost predicate Accounted(src: Source, was: seq<Pull>, list: seq<Pull>, finished: map<nat, (Rr, nat, Page)>)
  {
    forall i :: 0 <= i < |was| ==> Waits(list, was[i].proc) || Got(src, was[i], finished)
  }

  predicate SamePull(p: Pull, q: Pull)
  {
    p.proc == q.proc && p.rr == q.rr && p.pglev == q.pglev
  }

  ghost predicate Listed(was: seq<Pull>, p: Pull)
  {
    exists i :: 0 <= i < |was| && SamePull(was[i], p)
  }

  ghost predicate AllListed(was: seq<Pull>, list: seq<Pull>)
  {
    forall j :: 0 <= j < |list| ==> Listed(was, list[j])
  }

  lemma ListMasks(src: Source, list: seq<Pull>)
    requires (forall i :: 0 <= i < |list| ==> PullOk(src, list[i])) && forall i, j :: 0 <= i < j < |list| ==> list[i].proc != list[j].proc
    ensures MasksOk(list)
  {
  }

  lemma AllWaiting(src: Source, list: seq<Pull>, finished: map<nat, (Rr, nat, Page)>)
    ensures Accounted(src, list, list, finished) && AllListed(list, list)
  {
    forall i | 0 <= i < |list| ensures Waits(list, list[i].proc) && Listed(list, list[i]) { assert SamePull(list[i], list[i]); }
  }

  lemma ListedStep(was: seq<Pull>, list: seq<Pull>, m: Reply)
    requires AllListed(was, list)
    ensures AllListed(was, After(list, m))
  {
    hide WithPart, Fill;
    var f, list' := First(list, m.rr), After(list, m);
    forall j | 0 <= j < |list'| ensures Listed(was, list'[j]) {
      var j' := if |list'| < |list| && j >= f then j + 1 else j;
      var i :| 0 <= i < |was| && SamePull(was[i], list[j']);
      assert SamePull(was[i], list'[j]);
    }
  }

  /** Process f of the list has finished. */
  lemma AccountedDone(src: Source, was: seq<Pull>, list: seq<Pull>, list': seq<Pull>, fin: map<nat, (Rr, nat, Page)>,
                      fin': map<nat, (Rr, nat, Page)>, f: nat)
    requires Accounted(src, was, list, fin) && AllListed(was, list) && MasksOk(was) && MasksOk(list) && f < |list|
    requires list' == list[..f] + list[f + 1..] && Got(src, list[f], fin') && fin' == fin[list[f].proc := fin'[list[f].proc]]
    ensures Accounted(src, was, list', fin')
  {
    assert Listed(was, list[f]);
    var i' :| 0 <= i' < |was| && SamePull(was[i'], list[f]);
    forall i | 0 <= i < |was| ensures Waits(list', was[i].proc) || Got(src, was[i], fin') {
      if i != i' {
        assert was[i].proc != list[f].proc;
        if Waits(list, was[i].proc) {
          var j :| 0 <= j < |list| && list[j].proc == was[i].proc;
          assert list'[if j > f then j - 1 else j].proc == was[i].proc;
        }
      }
    }
  }

  lemma AccountedStill(src: Source, was: seq<Pull>, list: seq<Pull>, list': seq<Pull>, fin: map<nat, (Rr, nat, Page)>)
    requires Accounted(src, was, list, fin) && SameWaiting(list, list')
    ensures Accounted(src, was, list', fin)
  {
    forall i | 0 <= i < |was| && Waits(list, was[i].proc) ensures Waits(list', was[i].proc) {
      var j :| 0 <= j < |list| && list[j].proc == was[i].proc;
      assert list'[j].proc == was[i].proc;
    }
  }

  /** The same processes wait for the same pages. */
  ghost predicate SameWaiting(was: seq<Pull>, now: seq<Pull>)
  {
    |now| == |was| && forall i :: 0 <= i < |now| ==>
      now[i].proc == was[i].proc && now[i].rr == was[i].rr && now[i].pglev == was[i].pglev
  }

  /** The replies to a request. */
  ghost function Answers(src: Source, rq: Request): set<Reply>
    requires (rq.rr, rq.pglev) in src
  {
    (if Arrived(rq.need, 0) then {Reply(rq.rr, 0, Piece(src[(rq.rr, rq.pglev)], 0))} else {})
    + (if Arrived(rq.need, 1) then {Reply(rq.rr, 1, Piece(src[(rq.rr, rq.pglev)], 1))} else {})
    + (if Arrived(rq.need, 2) then {Reply(rq.rr, 2, Piece(src[(rq.rr, rq.pglev)], 2))} else {})
  }

  /** Filling in a part that has not arrived keeps the mask exact. */
  lemma Receive(src: Source, p: Pull, m: Reply)
    requires OneLevel(src) && PullOk(src, p) && GenuineReply(src, m) && m.rr == p.rr && 0 <= m.part < 3 && |m.data| == PartLen(m.part)
    ensures var p' := p.(page := Fill(p.page, m.part, m.data), arrived := WithPart(p.arrived, m.part));
      && p'.arrived & 0xF8 == 0
      && forall part: nat :: part < 3 && Arrived(p'.arrived, part) ==> Piece(p'.page, part) == Piece(src[(p.rr, p.pglev)], part)
  {
    WithPartIs(p.arrived, m.part, 0);
    forall part: nat | part < 3 && Arrived(WithPart(p.arrived, m.part), part)
      ensures Piece(Fill(p.page, m.part, m.data), part) == Piece(src[(p.rr, p.pglev)], part)
    {
      WithPartIs(p.arrived, m.part, part);
      FillPiece(p.page, m.part, m.data, part);
    }
  }

  /** When the last part arrives the page is the source's. */
  lemma Complete(src: Source, p: Pull, m: Reply)
    requires OneLevel(src) && PullOk(src, p) && GenuineReply(src, m) && m.rr == p.rr && 0 <= m.part < 3 && |m.data| == PartLen(m.part)
    requires WithPart(p.arrived, m.part) == 7
    ensures Fill(p.page, m.part, m.data) == src[(p.rr, p.pglev)]
  {
    Receive(src, p, m);
    MaskIs(WithPart(p.arrived, m.part));
    AllPieces(Fill(p.page, m.part, m.data), src[(p.rr, p.pglev)]);
  }

  /** A request asks for exactly the parts that are missing, and the answers bring exactly those. */
  lemma RequestCovers(src: Source, p: Pull, part: nat)
    requires PullOk(src, p) && part < 3
    ensures Reply(p.rr, part, Piece(src[(p.rr, p.pglev)], part)) in Answers(src, Request(p.rr, p.pglev, p.arrived ^ 7))
            <==> !Arrived(p.arrived, part)
  {
    MaskIs(p.arrived);
    assert Arrived(p.arrived ^ 7, part) <==> !Arrived(p.arrived, part);
  }

  /** So one request that is answered, whenever it was sent again, and whose answers arrive in any order, completes the page. */
  lemma AnswersComplete(src: Source, list: seq<Pull>, i: nat, ms: seq<Reply>)
    requires MasksOk(list) && i < |list| && First(list, list[i].rr) == i && PullOk(src, list[i])
    requires forall m :: m in Answers(src, Request(list[i].rr, list[i].pglev, list[i].arrived ^ 7)) ==> m in ms
    ensures !Waits(AfterAll(list, ms), list[i].proc)
  {
    hide Answers;
    var p := list[i];
    forall part: nat | part < 3 && !Arrived(p.arrived, part) ensures HasPart(ms, p.rr, part) {
      RequestCovers(src, p, part);
      assert Reply(p.rr, part, Piece(src[(p.rr, p.pglev)], part)) in ms;
    }
    PartsArrive(list, ms, i);
  }
}
