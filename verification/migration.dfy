/** Moving a process from node to node over a network that may lose, repeat and reorder messages (kern/net.c). */
module Migration {

  type Node = nat

  /** One process as each node sees it: never seen, PROC_AWAY, here (running, ready, waiting or pulling) with its
      state, or PROC_MIGR with the state that was saved. */
  datatype Here<S> = Absent | Away | Local(s: S) | Migr(dest: Node, s: S)

  /** net_migrq and net_migrp. */
  datatype Msg<S> = Rq(src: Node, dst: Node, save: S) | Rp(src: Node, dst: Node)

  /** What the nodes hold, and the messages that may still be delivered; a message delivered once may be delivered again. */
  datatype World<S(==)> = World(at: map<Node, Here<S>>, net: set<Msg<S>>)

  datatype Event<S> = Run(n: Node, s: S) | Migrate(n: Node, dest: Node) | Tick(n: Node) | Deliver(m: Msg<S>) | Lose(m: Msg<S>)

  function At<S>(w: World<S>, n: Node): Here<S> { if n in w.at then w.at[n] else Absent }

  /** net_migrate needs the process here; the timer retransmits for a migrating one; only what was sent arrives. */
  predicate Possible<S(==)>(w: World<S>, e: Event<S>)
  {
    match e
    case Run(n, _) => At(w, n).Local?
    case Migrate(n, dest) => At(w, n).Local? && dest != n
    case Tick(n) => At(w, n).Migr?
    case Deliver(m) => m in w.net
    case Lose(m) => m in w.net
  }

  function Step<S(==)>(w: World<S>, e: Event<S>): World<S>
    requires Possible(w, e)
  {
    match e
    case Run(n, s) => w.(at := w.at[n := Local(s)])
    case Migrate(n, dest) => World(w.at[n := Migr(dest, At(w, n).s)], w.net + {Rq(n, dest, At(w, n).s)})
    case Tick(n) => w.(net := w.net + {Rq(n, At(w, n).dest, At(w, n).s)})
    case Lose(m) => w.(net := w.net - {m})
    case Deliver(m) =>
      match m
      // net_rxmigrq: take the process over unless it is local already; acknowledge in any case
      case Rq(src, dst, save) =>
        World(if At(w, dst).Absent? || At(w, dst).Away? then w.at[dst := Local(save)] else w.at, w.net + {Rp(dst, src)})
      // net_rxmigrp: the process is away if it was on the list of migrating ones
      case Rp(src, dst) => if At(w, dst).Migr? then w.(at := w.at[dst := Away]) else w
  }

  /** Successive migrations are separated: no message is left from the last one, and its source knows that it is over. */
  ghost predicate Separated<S>(w: World<S>, e: Event<S>)
  {
    e.Migrate? ==> w.net == {} && forall n :: n in w.at ==> !w.at[n].Migr?
  }

  /* ---------- the three phases of a handshake ---------- */

  /** The process is at node o, and only there, with state v; requests still around are addressed to o. */
  ghost predicate Settled<S>(w: World<S>, v: S, o: Node)
  {
    && o in w.at && w.at[o] == Local(v) && (forall n :: n in w.at && n != o ==> w.at[n].Absent? || w.at[n].Away?)
    && forall m :: m in w.net && m.Rq? ==> m.dst == o
  }

  /** The process is on its way from a to b. */
  ghost predicate Travelling<S>(w: World<S>, v: S, a: Node, b: Node)
  {
    && a != b && a in w.at && w.at[a] == Migr(b, v)
    && (forall n :: n in w.at && n != a ==> w.at[n].Absent? || w.at[n].Away?)
    && forall m :: m in w.net ==> m == Rq(a, b, w.at[a].s)
  }

  /** b has taken the process over, but a does not know yet. */
  ghost predicate Arrived<S>(w: World<S>, v: S, a: Node, b: Node)
  {
    && a != b && a in w.at && w.at[a].Migr? && w.at[a].dest == b && b in w.at && w.at[b] == Local(v)
    && (forall n :: n in w.at && n != a && n != b ==> w.at[n].Absent? || w.at[n].Away?)
    && forall m :: m in w.net ==> m == Rq(a, b, w.at[a].s) || m == Rp(b, a)
  }

  ghost predicate Inv<S>(w: World<S>, v: S)
  {
    (exists o :: Settled(w, v, o)) || (exists a, b :: Travelling(w, v, a, b)) || (exists a, b :: Arrived(w, v, a, b))
  }

  /** What the process does where it is changes its state; the rest is carried out around it. */
  function Now<S>(v: S, e: Event<S>): S { if e.Run? then e.s else v }

  /** Every separated step leads to one of the phases again. */
  lemma Kept<S>(w: World<S>, v: S, e: Event<S>)
    requires Inv(w, v) && Possible(w, e) && Separated(w, e)
    ensures Inv(Step(w, e), Now(v, e))
  {
    if o :| Settled(w, v, o) {
      SettledStep(w, v, e, o);
    } else if a, b :| Travelling(w, v, a, b) {
      TravellingStep(w, v, e, a, b);
    } else {
      var a, b :| Arrived(w, v, a, b);
      ArrivedStep(w, v, e, a, b);
    }
  }

  lemma SettledStep<S>(w: World<S>, v: S, e: Event<S>, o: Node)
    requires Settled(w, v, o) && Possible(w, e) && Separated(w, e)
    ensures Settled(Step(w, e), Now(v, e), o) || (e.Migrate? && Travelling(Step(w, e), v, o, e.dest))
  {
  }

  lemma TravellingStep<S>(w: World<S>, v: S, e: Event<S>, a: Node, b: Node)
    requires Travelling(w, v, a, b) && Possible(w, e) && Separated(w, e)
    ensures Travelling(Step(w, e), v, a, b) || Arrived(Step(w, e), v, a, b)
  {
  }

  lemma ArrivedStep<S>(w: World<S>, v: S, e: Event<S>, a: Node, b: Node)
    requires Arrived(w, v, a, b) && Possible(w, e) && Separated(w, e)
    ensures Arrived(Step(w, e), Now(v, e), a, b) || Settled(Step(w, e), v, b)
  {
  }

  /* ---------- whole runs ---------- */

  predicate Runs<S(==)>(w: World<S>, es: seq<Event<S>>)
    decreases |es|
  {
    es != [] ==> Possible(w, es[0]) && Runs(Step(w, es[0]), es[1..])
  }

  function After<S(==)>(w: World<S>, es: seq<Event<S>>): World<S>
    requires Runs(w, es)
    decreases |es|
  {
    if es == [] then w else After(Step(w, es[0]), es[1..])
  }

  ghost predicate AllSeparated<S>(w: World<S>, es: seq<Event<S>>)
    requires Runs(w, es)
    decreases |es|
  {
    es != [] ==> Separated(w, es[0]) && AllSeparated(Step(w, es[0]), es[1..])
  }

  /** The process starts out at one node. */
  function Start<S(==)>(n: Node, s: S): World<S> { World(map[n := Local(s)], {}) }

  /** The state of the process on a single machine that never moves it. */
  function Alone<S>(v: S, es: seq<Event<S>>): S
  {
    if es == [] then v else Alone(Now(v, es[0]), es[1..])
  }

  lemma {:induction false} RunKept<S>(w: World<S>, v: S, es: seq<Event<S>>)
    requires Inv(w, v) && Runs(w, es) && AllSeparated(w, es)
    ensures Inv(After(w, es), Alone(v, es))
    decreases |es|
  {
    if es != [] {
      Kept(w, v, es[0]);
      RunKept(Step(w, es[0]), Now(v, es[0]), es[1..]);
    }
  }

  /** Node p holds the process, or is still sending it. */
  predicate Held<S(==)>(w: World<S>, p: Node) { At(w, p).Local? || At(w, p).Migr? }

  /** Whatever is lost, repeated or reordered: at most one node holds the process outside MIGR and AWAY, in the state it
      would have had without ever moving, and there is always one that holds it or is still sending it. */
  lemma SingleOwner<S>(n: Node, s: S, es: seq<Event<S>>)
    requires Runs(Start(n, s), es) && AllSeparated(Start(n, s), es)
    ensures forall p, q :: At(After(Start(n, s), es), p).Local? && At(After(Start(n, s), es), q).Local? ==> p == q
    ensures forall p :: At(After(Start(n, s), es), p).Local? ==> At(After(Start(n, s), es), p) == Local(Alone(s, es))
    ensures exists p :: Held(After(Start(n, s), es), p)
  {
    assert Settled(Start(n, s), s, n);
    RunKept(Start(n, s), s, es);
    OneOwner(After(Start(n, s), es), Alone(s, es));
  }

  lemma OneOwner<S>(w: World<S>, v: S)
    requires Inv(w, v)
    ensures forall p, q :: At(w, p).Local? && At(w, q).Local? ==> p == q
    ensures forall p :: At(w, p).Local? ==> At(w, p) == Local(v)
    ensures exists p :: Held(w, p)
  {
    if o :| Settled(w, v, o) {
      assert Held(w, o);
    } else if a, b :| Travelling(w, v, a, b) {
      assert Held(w, a);
    } else {
      var a, b :| Arrived(w, v, a, b);
      assert Held(w, a);
    }
  }

  /** A request still around is from the handshake going on, or for a node that has the process already. */
  lemma RequestIs<S>(w: World<S>, v: S, m: Msg<S>)
    requires Inv(w, v) && m in w.net && m.Rq?
    ensures At(w, m.dst).Local? || (At(w, m.src) == Migr(m.dst, m.save) && m.save == v)
  {
  }

  /** A node that takes the process over gets the state that was saved when it left. */
  lemma SameState<S>(n: Node, s: S, es: seq<Event<S>>, m: Msg<S>)
    requires Runs(Start(n, s), es) && AllSeparated(Start(n, s), es)
    requires var w := After(Start(n, s), es); m in w.net && m.Rq? && !Held(w, m.dst)
    ensures At(After(Start(n, s), es), m.src) == Migr(m.dst, m.save) && m.save == Alone(s, es)
    ensures At(Step(After(Start(n, s), es), Deliver(m)), m.dst) == Local(m.save)
  {
    assert Settled(Start(n, s), s, n);
    RunKept(Start(n, s), s, es);
    RequestIs(After(Start(n, s), es), Alone(s, es), m);
  }

  /* ---------- the handshake ends ---------- */

  /** Whatever has been lost, and whether or not the destination has the process already: one retransmission, its request and the
      reply getting through settle the process at b. */
  lemma Recovers<S>(w: World<S>, v: S, a: Node, b: Node)
    requires Travelling(w, v, a, b) || Arrived(w, v, a, b)
    ensures var es := [Tick(a), Deliver(Rq(a, b, w.at[a].s)), Deliver(Rp(b, a))];
      Runs(w, es) && Settled(After(w, es), v, b) && At(After(w, es), a).Away?
  {
    var rq, rp := Rq(a, b, w.at[a].s), Rp(b, a);
    var w1 := Step(w, Tick(a));
    var w2 := Step(w1, Deliver(rq));
    var w3 := Step(w2, Deliver(rp));
    assert Possible(w1, Deliver(rq)) && Possible(w2, Deliver(rp));
    assert Arrived(w2, v, a, b) && Settled(w3, v, b);
    var e2, e1 := [Deliver(rp)], [Deliver(rq), Deliver(rp)];
    var es := [Tick(a), Deliver(rq), Deliver(rp)];
    assert es[1..] == e1 && e1[1..] == e2 && e2[1..] == [];
    assert Runs(w2, e2) && After(w2, e2) == w3;
    assert Runs(w1, e1) && After(w1, e1) == w3;
  }

  /** A migration whose first request and reply get through moves the process, in the state it has, and leaves it nowhere else. */
  lemma Moves<S>(w: World<S>, v: S, a: Node, b: Node)
    requires Settled(w, v, a) && w.net == {} && a != b
    ensures var es := [Migrate(a, b), Deliver(Rq(a, b, v)), Deliver(Rp(b, a))];
      Runs(w, es) && Settled(After(w, es), v, b) && At(After(w, es), a).Away?
  {
    var rq, rp := Rq(a, b, v), Rp(b, a);
    var w1 := Step(w, Migrate(a, b));
    var w2 := Step(w1, Deliver(rq));
    var w3 := Step(w2, Deliver(rp));
    assert At(w, a) == Local(v) && rq in w1.net;
    assert Possible(w, Migrate(a, b)) && Possible(w1, Deliver(rq)) && Possible(w2, Deliver(rp));
    assert Settled(w3, v, b);
    var e2, e1 := [Deliver(rp)], [Deliver(rq), Deliver(rp)];
    var es := [Migrate(a, b), Deliver(rq), Deliver(rp)];
    assert es[1..] == e1 && e1[1..] == e2 && e2[1..] == [];
    assert Runs(w2, e2) && After(w2, e2) == w3;
    assert Runs(w1, e1) && After(w1, e1) == w3;
  }

  /** A run without another migration in which the reply arrives at least once ends with the process settled at b, whatever else is
      delivered, repeated or lost. */
  lemma {:induction false} ReplySettles<S>(w: World<S>, v: S, es: seq<Event<S>>, a: Node, b: Node)
    requires Runs(w, es) && forall e :: e in es ==> !e.Migrate?
    requires Settled(w, v, b) || ((Travelling(w, v, a, b) || Arrived(w, v, a, b)) && Deliver(Rp(b, a)) in es)
    ensures Settled(After(w, es), Alone(v, es), b)
    decreases |es|
  {
    if es != [] {
      var e := es[0];
      assert e in es;
      if Settled(w, v, b) {
        SettledStep(w, v, e, b);
      } else if Travelling(w, v, a, b) {
        TravellingStep(w, v, e, a, b);
        assert Now(v, e) == v;
      } else {
        ArrivedStep(w, v, e, a, b);
        assert e == Deliver(Rp(b, a)) ==> Settled(Step(w, e), v, b);
      }
      ReplySettles(Step(w, e), Now(v, e), es[1..], a, b);
    }
  }

  /* ---------- exactly which events keep a single owner ---------- */

  predicate NotHere<S(==)>(h: Here<S>) { h.Absent? || h.Away? }

  /** What an event does at one node. */
  function NewAt<S(==)>(w: World<S>, e: Event<S>, n: Node): Here<S>
    requires Possible(w, e)
  {
    match e
    case Run(k, s) => if n == k then Local(s) else At(w, n)
    case Migrate(k, dest) => if n == k then Migr(dest, At(w, k).s) else At(w, n)
    case Deliver(Rq(_, dst, save)) => if n == dst && NotHere(At(w, n)) then Local(save) else At(w, n)
    case Deliver(Rp(_, dst)) => if n == dst && At(w, n).Migr? then Away else At(w, n)
    case _ => At(w, n)
  }

  lemma StepAt<S>(w: World<S>, e: Event<S>)
    requires Possible(w, e)
    ensures forall n :: At(Step(w, e), n) == NewAt(w, e, n)
  {
  }

  /** One of the three phases, whatever messages are around: at o; or on the way from a to b; or taken over by b without a
      knowing. */
  ghost predicate AtHome<S>(w: World<S>, v: S, o: Node)
  {
    At(w, o) == Local(v) && forall n :: n != o ==> NotHere(At(w, n))
  }

  ghost predicate OnWay<S>(w: World<S>, v: S, a: Node, b: Node)
  {
    a != b && At(w, a) == Migr(b, v) && forall n :: n != a ==> NotHere(At(w, n))
  }

  ghost predicate TakenOver<S>(w: World<S>, v: S, a: Node, b: Node)
  {
    && a != b && At(w, a).Migr? && At(w, a).dest == b && At(w, b) == Local(v)
    && forall n :: n != a && n != b ==> NotHere(At(w, n))
  }

  ghost predicate Orderly<S>(w: World<S>, v: S)
  {
    (exists o :: AtHome(w, v, o)) || (exists a, b :: OnWay(w, v, a, b)) || (exists a, b :: TakenOver(w, v, a, b))
  }

  /** A request does no harm if it reaches a node that holds the process, or the one to which it is moving now, with the state
      it has now; a reply, if it reaches no node that is still the only one to hold the process; a migration, if no earlier
      one is unfinished. */
  ghost predicate Harmless<S>(w: World<S>, v: S, e: Event<S>)
  {
    match e
    case Migrate(_, _) => forall n :: !At(w, n).Migr?
    case Deliver(Rq(_, dst, save)) => Held(w, dst) || (save == v && exists a :: At(w, a) == Migr(dst, v))
    case Deliver(Rp(_, dst)) => At(w, dst).Migr? ==> exists p :: At(w, p).Local?
    case _ => true
  }

  /** In an orderly world there is one owner at most, with the right state, and one node that holds the process. */
  lemma OrderlyOwner<S>(w: World<S>, v: S)
    requires Orderly(w, v)
    ensures forall p, q :: At(w, p).Local? && At(w, q).Local? ==> p == q
    ensures forall p :: At(w, p).Local? ==> At(w, p) == Local(v)
    ensures exists p :: Held(w, p)
  {
    if o :| AtHome(w, v, o) {
      assert Held(w, o);
    } else if a, b :| OnWay(w, v, a, b) {
      assert Held(w, a);
    } else {
      var a, b :| TakenOver(w, v, a, b);
      assert Held(w, a);
    }
  }

  /** For every world in one of the phases and every event, delivery of any message included, whenever it was sent: the world
      stays in one of the phases exactly if the event is harmless. */
  lemma OrderlyIff<S>(w: World<S>, v: S, e: Event<S>)
    requires Orderly(w, v) && Possible(w, e)
    ensures Orderly(Step(w, e), Now(v, e)) <==> Harmless(w, v, e)
  {
    if o :| AtHome(w, v, o) {
      HomeIff(w, v, e, o);
    } else if a, b :| OnWay(w, v, a, b) {
      WayIff(w, v, e, a, b);
    } else {
      var a, b :| TakenOver(w, v, a, b);
      OverIff(w, v, e, a, b);
    }
  }

  lemma HomeIff<S>(w: World<S>, v: S, e: Event<S>, o: Node)
    requires AtHome(w, v, o) && Possible(w, e)
    ensures Orderly(Step(w, e), Now(v, e)) <==> Harmless(w, v, e)
  {
    var w' := Step(w, e);
    StepAt(w, e);
    match e {
      case Migrate(n, dest) => assert OnWay(w', v, o, dest);
      case Deliver(Rq(src, dst, save)) =>
        if dst == o { assert AtHome(w', v, o); } else { assert At(w', o).Local? && At(w', dst).Local?; TwoLocal(w', v, o, dst); }
      case _ => assert AtHome(w', Now(v, e), o);
    }
  }

  lemma TwoLocal<S>(w: World<S>, v: S, p: Node, q: Node)
    requires p != q && At(w, p).Local? && At(w, q).Local?
    ensures !Orderly(w, v)
  {
    if Orderly(w, v) { OrderlyOwner(w, v); assert false; }
  }

  lemma WayIff<S>(w: World<S>, v: S, e: Event<S>, a: Node, b: Node)
    requires OnWay(w, v, a, b) && Possible(w, e)
    ensures Orderly(Step(w, e), Now(v, e)) <==> Harmless(w, v, e)
  {
    var w' := Step(w, e);
    StepAt(w, e);
    match e {
      case Deliver(Rq(src, dst, save)) =>
        if dst == a {
          assert OnWay(w', v, a, b);
        } else if dst == b && save == v {
          assert TakenOver(w', v, a, b);
        } else {
          Astray(w', v, a, b, dst);
        }
      case Deliver(Rp(src, dst)) =>
        if dst == a { Lost(w', v); } else { assert OnWay(w', v, a, b); }
      case Tick(_) => assert OnWay(w', v, a, b);
      case Lose(_) => assert OnWay(w', v, a, b);
      case _ =>
    }
  }

  lemma Lost<S>(w: World<S>, v: S)
    requires forall n :: NotHere(At(w, n))
    ensures !Orderly(w, v)
  {
    if Orderly(w, v) { OrderlyOwner(w, v); assert false; }
  }

  lemma Astray<S>(w: World<S>, v: S, a: Node, b: Node, c: Node)
    requires a != c && At(w, a).Migr? && At(w, a).dest == b && At(w, c).Local? && (c != b || At(w, c).s != v)
    ensures !Orderly(w, v)
  {
  }

  lemma OverIff<S>(w: World<S>, v: S, e: Event<S>, a: Node, b: Node)
    requires TakenOver(w, v, a, b) && Possible(w, e)
    ensures Orderly(Step(w, e), Now(v, e)) <==> Harmless(w, v, e)
  {
    var w' := Step(w, e);
    StepAt(w, e);
    match e {
      case Migrate(n, dest) => assert At(w', a).Migr? && At(w', b).Migr?; TwoMigr(w', v, a, b);
      case Deliver(Rq(src, dst, save)) =>
        if dst == a || dst == b { assert TakenOver(w', v, a, b); } else { TwoLocal(w', v, b, dst); }
      case Deliver(Rp(src, dst)) =>
        assert At(w, b).Local?;
        if dst == a { assert AtHome(w', v, b); } else { assert TakenOver(w', v, a, b); }
      case _ => assert TakenOver(w', Now(v, e), a, b);
    }
  }

  lemma TwoMigr<S>(w: World<S>, v: S, a: Node, b: Node)
    requires a != b && At(w, a).Migr? && At(w, b).Migr?
    ensures !Orderly(w, v)
  {
  }

  ghost predicate AllHarmless<S>(w: World<S>, v: S, es: seq<Event<S>>)
    requires Runs(w, es)
    decreases |es|
  {
    es != [] ==> Harmless(w, v, es[0]) && AllHarmless(Step(w, es[0]), Now(v, es[0]), es[1..])
  }

  ghost predicate AlwaysOrderly<S>(w: World<S>, v: S, es: seq<Event<S>>)
    requires Runs(w, es)
    decreases |es|
  {
    Orderly(w, v) && (es != [] ==> AlwaysOrderly(Step(w, es[0]), Now(v, es[0]), es[1..]))
  }

  /** A run passes through orderly worlds only, exactly if all its events are harmless. */
  lemma {:induction false} OrderlyRunIff<S>(w: World<S>, v: S, es: seq<Event<S>>)
    requires Runs(w, es) && Orderly(w, v)
    ensures AlwaysOrderly(w, v, es) <==> AllHarmless(w, v, es)
    decreases |es|
  {
    if es != [] {
      OrderlyIff(w, v, es[0]);
      var w1, v1 := Step(w, es[0]), Now(v, es[0]);
      if Orderly(w1, v1) {
        OrderlyRunIff(w1, v1, es[1..]);
      } else {
        assert !AlwaysOrderly(w1, v1, es[1..]);
      }
    }
  }

  /** Events of separated migrations are harmless. */
  lemma SeparatedHarmless<S>(w: World<S>, v: S, e: Event<S>)
    requires Inv(w, v) && Possible(w, e) && Separated(w, e)
    ensures Orderly(w, v) && Harmless(w, v, e)
  {
    Kept(w, v, e);
    PhasesOrderly(w, v);
    PhasesOrderly(Step(w, e), Now(v, e));
    OrderlyIff(w, v, e);
  }

  lemma PhasesOrderly<S>(w: World<S>, v: S)
    requires Inv(w, v)
    ensures Orderly(w, v)
  {
    if o :| Settled(w, v, o) {
      assert AtHome(w, v, o);
    } else if a, b :| Travelling(w, v, a, b) {
      assert OnWay(w, v, a, b);
    } else {
      var a, b :| Arrived(w, v, a, b);
      assert TakenOver(w, v, a, b);
    }
  }

  /** Without the separation the process can end up at two nodes: the acknowledgement of the first move is lost,
      the process moves on, and a late copy of the first request revives it. */
  lemma TwoOwners<S>(s: S)
    ensures var es := [Migrate(1, 2), Deliver(Rq(1, 2, s)), Migrate(2, 3), Deliver(Rq(2, 3, s)), Deliver(Rp(3, 2)), Deliver(Rq(1, 2, s))];
      && Runs(Start(1, s), es)
      && (var w := After(Start(1, s), es); At(w, 2) == Local(s) && At(w, 3) == Local(s))
  {
    var w0 := Start(1, s);
    var w1 := Step(w0, Migrate(1, 2));
    var w2 := Step(w1, Deliver(Rq(1, 2, s)));
    var w3 := Step(w2, Migrate(2, 3));
    var w4 := Step(w3, Deliver(Rq(2, 3, s)));
    var w5 := Step(w4, Deliver(Rp(3, 2)));
    var w6 := Step(w5, Deliver(Rq(1, 2, s)));
    Then(w5, Deliver(Rq(1, 2, s)), []);
    Then(w4, Deliver(Rp(3, 2)), [Deliver(Rq(1, 2, s))]);
    Then(w3, Deliver(Rq(2, 3, s)), [Deliver(Rp(3, 2)), Deliver(Rq(1, 2, s))]);
    Then(w2, Migrate(2, 3), [Deliver(Rq(2, 3, s)), Deliver(Rp(3, 2)), Deliver(Rq(1, 2, s))]);
    Then(w1, Deliver(Rq(1, 2, s)), [Migrate(2, 3), Deliver(Rq(2, 3, s)), Deliver(Rp(3, 2)), Deliver(Rq(1, 2, s))]);
    Then(w0, Migrate(1, 2), [Deliver(Rq(1, 2, s)), Migrate(2, 3), Deliver(Rq(2, 3, s)), Deliver(Rp(3, 2)), Deliver(Rq(1, 2, s))]);
  }

  lemma Then<S>(w: World<S>, e: Event<S>, es: seq<Event<S>>)
    requires Possible(w, e) && Runs(Step(w, e), es)
    ensures Runs(w, [e] + es) && After(w, [e] + es) == After(Step(w, e), es)
  {
    assert ([e] + es)[1..] == es;
  }
}
