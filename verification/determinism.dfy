/** Processes that interact only through PUT, GET and RET (kern/syscall.c): why the order of their steps does not matter. */
module Determinism {

  type ChildNo = n: nat | n < 256

  /** A process is named by the child numbers on the way from the root. */
  type Pid = seq<ChildNo>

  /** What a process does next, given its registers and memory (of some type M): an instruction of its own,
      a PUT to or GET from a child, or a stop (SYS_RET or a trap reflected to its parent). */
  datatype Act<M> = Local(m: M) | Put(cn: ChildNo) | Get(cn: ChildNo) | Ret(m: M)

  /** What a PUT does to parent and child.  A bad argument stops the parent half way through. */
  datatype PutResult<M> = PutDone(parent: M, child: M, start: bool) | PutTrap(parent: M, child: M)
  datatype GetResult<M> = GetDone(parent: M) | GetTrap(parent: M)

  /** The deterministic part of the system: the processor, and the effect of the system calls on stopped children. */
  datatype Machine<!M> = Machine(act: M -> Act<M>, put: (M, M) -> PutResult<M>, get: (M, M) -> GetResult<M>,
                                 blank: M, nobody: M)

  datatype Proc<M> = Proc(m: M, live: bool)
  type World<M> = map<Pid, Proc<M>>

  /** The child a process is about to synchronize with, if any. */
  function Partner<M>(mach: Machine<M>, m: M): (cs: seq<ChildNo>)
    ensures |cs| <= 1
  {
    match mach.act(m)
    case Local(_) => []
    case Put(cn) => [cn]
    case Get(cn) => [cn]
    case Ret(_) => []
  }

  /** do_put and do_get wait as long as the child has not stopped. */
  predicate Blocked<M>(mach: Machine<M>, w: World<M>, p: Pid)
    requires p in w
  {
    var cs := Partner(mach, w[p].m);
    cs != [] && p + cs in w && w[p + cs].live
  }

  predicate Enabled<M>(mach: Machine<M>, w: World<M>, p: Pid)
  {
    p in w && w[p].live && !Blocked(mach, w, p)
  }

  /** One step of process p. */
  function Next<M>(mach: Machine<M>, w: World<M>, p: Pid): World<M>
    requires Enabled(mach, w, p)
  {
    var m := w[p].m;
    match mach.act(m)
    case Local(m') => w[p := Proc(m', true)]
    case Ret(m') => w[p := Proc(m', false)]
    case Put(cn) =>
      var c := p + [cn];
      (match mach.put(m, if c in w then w[c].m else mach.blank)
       case PutDone(m', mc, start) => w[c := Proc(mc, start)][p := Proc(m', true)]
       case PutTrap(m', mc) => w[c := Proc(mc, false)][p := Proc(m', false)])
    case Get(cn) =>
      var c := p + [cn];
      (match mach.get(m, if c in w then w[c].m else mach.nobody)
       case GetDone(m') => w[p := Proc(m', true)]
       case GetTrap(m') => w[p := Proc(m', false)])
  }

  /* ---------- commuting steps ---------- */

  /** A step of p leaves every process alone except p and the stopped child it names. */
  lemma Footprint<M>(mach: Machine<M>, w: World<M>, p: Pid, q: Pid)
    requires Enabled(mach, w, p) && q != p && q != p + Partner(mach, w[p].m)
    ensures (q in Next(mach, w, p) <==> q in w) && (q in w ==> Next(mach, w, p)[q] == w[q])
  {
  }

  lemma Apart(p: Pid, q: Pid, i: ChildNo, j: ChildNo)
    requires p != q
    ensures p + [i] != q + [j]
  {
    assert (p + [i])[..|p + [i]| - 1] == p && (q + [j])[..|q + [j]| - 1] == q;
  }

  /** Two processes that can both step do not meet. */
  lemma Disjoint<M>(mach: Machine<M>, w: World<M>, p: Pid, q: Pid)
    requires Enabled(mach, w, p) && Enabled(mach, w, q) && p != q
    ensures q != p + Partner(mach, w[p].m) && p != q + Partner(mach, w[q].m)
    ensures Partner(mach, w[p].m) != [] && Partner(mach, w[q].m) != [] ==>
              p + Partner(mach, w[p].m) != q + Partner(mach, w[q].m)
  {
    var cp, cq := Partner(mach, w[p].m), Partner(mach, w[q].m);
    assert cp == [] ==> p + cp == p;
    assert cq == [] ==> q + cq == q;
    if cp != [] && cq != [] {
      assert cp == [cp[0]] && cq == [cq[0]];
      Apart(p, q, cp[0], cq[0]);
    }
  }

  /** A step of p neither changes what q would do nor keeps q from doing it. */
  lemma StaysEnabled<M>(mach: Machine<M>, w: World<M>, p: Pid, q: Pid)
    requires Enabled(mach, w, p) && Enabled(mach, w, q) && p != q
    ensures Enabled(mach, Next(mach, w, p), q) && Next(mach, w, p)[q] == w[q]
    ensures var c := q + Partner(mach, w[q].m);
            c != q ==> (c in Next(mach, w, p) <==> c in w) && (c in w ==> Next(mach, w, p)[c] == w[c])
  {
    Disjoint(mach, w, p, q);
    Footprint(mach, w, p, q);
    var cp, cq := Partner(mach, w[p].m), Partner(mach, w[q].m);
    if cq != [] {
      if cp == [] { assert p + cp == p; }
      Footprint(mach, w, p, q + cq);
    } else {
      assert q + cq == q;
    }
  }

  /** What a step of q writes depends on q and its child only. */
  lemma StepWrites<M>(mach: Machine<M>, w: World<M>, v: World<M>, q: Pid)
    requires Enabled(mach, w, q) && Enabled(mach, v, q) && v[q] == w[q]
    requires var c := q + Partner(mach, w[q].m); c != q ==> (c in v <==> c in w) && (c in w ==> v[c] == w[c])
    ensures q in Next(mach, w, q) && q in Next(mach, v, q) && Next(mach, v, q)[q] == Next(mach, w, q)[q]
    ensures var c := q + Partner(mach, w[q].m);
            c != q ==> (c in Next(mach, v, q) <==> c in Next(mach, w, q))
                       && (c in Next(mach, w, q) ==> Next(mach, v, q)[c] == Next(mach, w, q)[c])
  {
    var cs := Partner(mach, w[q].m);
    if cs != [] { assert |q + cs| == |q| + 1; } else { assert q + cs == q; }
  }

  /** Steps of different processes commute. */
  lemma Diamond<M>(mach: Machine<M>, w: World<M>, p: Pid, q: Pid)
    requires Enabled(mach, w, p) && Enabled(mach, w, q) && p != q
    ensures Enabled(mach, Next(mach, w, p), q) && Enabled(mach, Next(mach, w, q), p)
    ensures Next(mach, Next(mach, w, p), q) == Next(mach, Next(mach, w, q), p)
  {
    StaysEnabled(mach, w, p, q);
    StaysEnabled(mach, w, q, p);
    var wp, wq := Next(mach, w, p), Next(mach, w, q);
    var a, b := Next(mach, wp, q), Next(mach, wq, p);
    forall r: Pid ensures (r in a <==> r in b) && (r in a ==> a[r] == b[r]) {
      DiamondAt(mach, w, p, q, r);
    }
    assert a.Keys == b.Keys;
  }

  lemma DiamondAt<M>(mach: Machine<M>, w: World<M>, p: Pid, q: Pid, r: Pid)
    requires Enabled(mach, w, p) && Enabled(mach, w, q) && p != q
    requires Enabled(mach, Next(mach, w, p), q) && Enabled(mach, Next(mach, w, q), p)
    ensures var a, b := Next(mach, Next(mach, w, p), q), Next(mach, Next(mach, w, q), p);
            (r in a <==> r in b) && (r in a ==> a[r] == b[r])
  {
    hide Next, Blocked;
    var wp, wq := Next(mach, w, p), Next(mach, w, q);
    StaysEnabled(mach, w, p, q);
    StaysEnabled(mach, w, q, p);
    var cp, cq := p + Partner(mach, w[p].m), q + Partner(mach, w[q].m);
    StepWrites(mach, w, wp, q);
    StepWrites(mach, w, wq, p);
    Disjoint(mach, w, p, q);
    if r == q || r == cq {
      NotTouched(mach, w, p, q);
      Footprint(mach, wq, p, r);
    } else if r == p || r == cp {
      NotTouched(mach, w, q, p);
      Footprint(mach, wp, q, r);
    } else {
      Footprint(mach, w, p, r);
      Footprint(mach, w, q, r);
      Footprint(mach, wp, q, r);
      Footprint(mach, wq, p, r);
    }
  }

  lemma NotTouched<M>(mach: Machine<M>, w: World<M>, p: Pid, q: Pid)
    requires Enabled(mach, w, p) && Enabled(mach, w, q) && p != q
    ensures q != p + Partner(mach, w[p].m)
    ensures q + Partner(mach, w[q].m) != p && q + Partner(mach, w[q].m) != p + Partner(mach, w[p].m)
  {
    Disjoint(mach, w, p, q);
    var cp, cq := Partner(mach, w[p].m), Partner(mach, w[q].m);
    if cp == [] { assert p + cp == p; }
    if cq == [] { assert q + cq == q; }
  }

  /* ---------- runs ---------- */

  /** The steps of s, in this order, are all possible from w. */
  predicate Runs<M>(mach: Machine<M>, w: World<M>, s: seq<Pid>)
    decreases |s|
  {
    s != [] ==> Enabled(mach, w, s[0]) && Runs(mach, Next(mach, w, s[0]), s[1..])
  }

  function Final<M>(mach: Machine<M>, w: World<M>, s: seq<Pid>): World<M>
    requires Runs(mach, w, s)
    decreases |s|
  {
    if s == [] then w else Final(mach, Next(mach, w, s[0]), s[1..])
  }

  /** The states in which process p took its steps. */
  function History<M>(mach: Machine<M>, w: World<M>, s: seq<Pid>, p: Pid): seq<M>
    requires Runs(mach, w, s)
    decreases |s|
  {
    if s == [] then []
    else (if s[0] == p then [w[p].m] else []) + History(mach, Next(mach, w, s[0]), s[1..], p)
  }

  predicate Quiescent<M>(mach: Machine<M>, w: World<M>)
  {
    forall p :: p in w ==> !Enabled(mach, w, p)
  }

  function Without(s: seq<Pid>, q: Pid): (r: seq<Pid>)
    requires q in s
    ensures |r| == |s| - 1 && multiset(s) == multiset(r) + multiset{q}
  {
    if s[0] == q then
      assert s == [q] + s[1..];
      s[1..]
    else
      assert s == [s[0]] + s[1..];
      [s[0]] + Without(s[1..], q)
  }

  lemma HistoryHere<M>(mach: Machine<M>, w: World<M>, p: Pid, s: seq<Pid>, r: Pid)
    requires Enabled(mach, w, p) && Runs(mach, Next(mach, w, p), s)
    ensures Runs(mach, w, [p] + s) && Final(mach, w, [p] + s) == Final(mach, Next(mach, w, p), s)
    ensures History(mach, w, [p] + s, r) == (if p == r then [w[p].m] else []) + History(mach, Next(mach, w, p), s, r)
  {
    assert ([p] + s)[1..] == s;
  }

  /** A step that is possible now can be taken now: if the run takes it later, nothing else changes. */
  lemma {:induction false} Advance<M>(mach: Machine<M>, w: World<M>, s: seq<Pid>, q: Pid)
    requires Runs(mach, w, s) && Enabled(mach, w, q) && q in s
    ensures Runs(mach, Next(mach, w, q), Without(s, q))
    ensures Final(mach, Next(mach, w, q), Without(s, q)) == Final(mach, w, s)
    decreases |s|
  {
    var p0 := s[0];
    if p0 != q {
      Diamond(mach, w, p0, q);
      Advance(mach, Next(mach, w, p0), s[1..], q);
      HistoryHere(mach, Next(mach, w, q), p0, Without(s[1..], q), q);
    }
  }

  lemma HistoryHead<M>(mach: Machine<M>, w: World<M>, s: seq<Pid>, q: Pid, p: Pid)
    requires Runs(mach, w, s) && q in s && q != s[0]
    ensures Enabled(mach, w, s[0]) && Runs(mach, Next(mach, w, s[0]), s[1..]) && q in s[1..]
    ensures History(mach, w, s, p) == (if s[0] == p then [w[s[0]].m] else []) + History(mach, Next(mach, w, s[0]), s[1..], p)
    ensures Without(s, q) == [s[0]] + Without(s[1..], q)
  {
  }

  /** Every process goes through the same states if q's step is taken first. */
  lemma {:induction false} AdvanceHistory<M>(mach: Machine<M>, w: World<M>, s: seq<Pid>, q: Pid, p: Pid)
    requires Runs(mach, w, s) && Enabled(mach, w, q) && q in s
    requires Runs(mach, Next(mach, w, q), Without(s, q))
    ensures History(mach, w, s, p) == (if q == p then [w[q].m] else []) + History(mach, Next(mach, w, q), Without(s, q), p)
    decreases |s|
  {
    if s[0] != q { AdvanceStep(mach, w, s, q, p); }
  }

  lemma {:induction false} AdvanceStep<M>(mach: Machine<M>, w: World<M>, s: seq<Pid>, q: Pid, p: Pid)
    requires Runs(mach, w, s) && Enabled(mach, w, q) && q in s && s[0] != q
    requires Runs(mach, Next(mach, w, q), Without(s, q))
    ensures History(mach, w, s, p) == (if q == p then [w[q].m] else []) + History(mach, Next(mach, w, q), Without(s, q), p)
    decreases |s|, 0
  {
    hide Runs, History, Final, Next, Blocked, Partner, Without;
    var p0 := s[0];
    HistoryHead(mach, w, s, q, p);
    var w1, wq, t := Next(mach, w, p0), Next(mach, w, q), Without(s[1..], q);
    Diamond(mach, w, p0, q);
    StaysEnabled(mach, w, p0, q);
    StaysEnabled(mach, w, q, p0);
    Advance(mach, w1, s[1..], q);
    AdvanceHistory(mach, w1, s[1..], q, p);
    HistoryHere(mach, wq, p0, t, p);
  }

  /** If the run does not take it, it is still possible afterwards, with the same effect. */
  lemma {:induction false} Postpone<M>(mach: Machine<M>, w: World<M>, s: seq<Pid>, q: Pid)
    requires Runs(mach, w, s) && Enabled(mach, w, q) && q !in s
    ensures Enabled(mach, Final(mach, w, s), q) && Final(mach, w, s)[q] == w[q]
    ensures Runs(mach, Next(mach, w, q), s)
    ensures Final(mach, Next(mach, w, q), s) == Next(mach, Final(mach, w, s), q)
    ensures forall p :: History(mach, Next(mach, w, q), s, p) == History(mach, w, s, p)
    decreases |s|
  {
    if s != [] {
      Diamond(mach, w, s[0], q);
      StaysEnabled(mach, w, s[0], q);
      StaysEnabled(mach, w, q, s[0]);
      Postpone(mach, Next(mach, w, s[0]), s[1..], q);
    }
  }

  /** Schedule independence: a run that has come to rest is as long as any run can get, and every other run that
      has come to rest has the same processes, registers and memory, the same steps and the same histories. */
  lemma {:induction false} ScheduleIndependence<M>(mach: Machine<M>, w: World<M>, s: seq<Pid>, t: seq<Pid>)
    requires Runs(mach, w, s) && Runs(mach, w, t) && Quiescent(mach, Final(mach, w, s))
    ensures |t| <= |s|
    ensures Quiescent(mach, Final(mach, w, t)) ==>
      && Final(mach, w, t) == Final(mach, w, s) && multiset(t) == multiset(s)
      && forall p :: History(mach, w, t, p) == History(mach, w, s, p)
    decreases |t|
  {
    if t == [] {
      if s != [] { assert Enabled(mach, w, s[0]); }
    } else {
      var q := t[0];
      if q !in s {
        Postpone(mach, w, s, q);
        assert false;
      }
      Advance(mach, w, s, q);
      ScheduleIndependence(mach, Next(mach, w, q), Without(s, q), t[1..]);
      assert t == [q] + t[1..];
      if Quiescent(mach, Final(mach, w, t)) {
        forall p ensures History(mach, w, t, p) == History(mach, w, s, p) {
          AdvanceHistory(mach, w, s, q, p);
        }
      }
    }
  }

  /* ---------- runs that have not come to rest ---------- */

  lemma {:induction false} RunsConcat<M>(mach: Machine<M>, w: World<M>, s: seq<Pid>, t: seq<Pid>, p: Pid)
    requires Runs(mach, w, s)
    ensures Runs(mach, w, s + t) <==> Runs(mach, Final(mach, w, s), t)
    ensures Runs(mach, w, s + t) ==> Final(mach, w, s + t) == Final(mach, Final(mach, w, s), t)
    ensures Runs(mach, w, s + t) ==>
      History(mach, w, s + t, p) == History(mach, w, s, p) + History(mach, Final(mach, w, s), t, p)
    decreases |s|
  {
    if s == [] {
      assert s + t == t;
    } else {
      assert (s + t)[1..] == s[1..] + t;
      RunsConcat(mach, Next(mach, w, s[0]), s[1..], t, p);
    }
  }

  /** Any two runs can be continued to the same world, every process having gone through the same states. */
  lemma {:induction false} Joinable<M>(mach: Machine<M>, w: World<M>, s: seq<Pid>, t: seq<Pid>) returns (s2: seq<Pid>, t2: seq<Pid>)
    requires Runs(mach, w, s) && Runs(mach, w, t)
    ensures Runs(mach, w, s + s2) && Runs(mach, w, t + t2)
    ensures Final(mach, w, s + s2) == Final(mach, w, t + t2)
    ensures forall p :: History(mach, w, s + s2, p) == History(mach, w, t + t2, p)
    decreases |t|
  {
    if t == [] {
      s2, t2 := [], s;
      assert s + s2 == s && t + t2 == s;
    } else {
      var q, wq := t[0], Next(mach, w, t[0]);
      if q in s {
        Advance(mach, w, s, q);
        s2, t2 := Joinable(mach, wq, Without(s, q), t[1..]);
        TakenConcat(mach, w, s, q, s2, q);
        FirstConcat(mach, w, t, q, t2, q);
        forall p ensures History(mach, w, s + s2, p) == History(mach, w, t + t2, p) {
          TakenConcat(mach, w, s, q, s2, p);
          FirstConcat(mach, w, t, q, t2, p);
        }
      } else {
        Postpone(mach, w, s, q);
        var s3;
        s3, t2 := Joinable(mach, wq, s, t[1..]);
        s2 := [q] + s3;
        OpenConcat(mach, w, s, q, s3, q);
        FirstConcat(mach, w, t, q, t2, q);
        forall p ensures History(mach, w, s + s2, p) == History(mach, w, t + t2, p) {
          OpenConcat(mach, w, s, q, s3, p);
          FirstConcat(mach, w, t, q, t2, p);
        }
      }
    }
  }

  /** A run that takes q's step later, continued by s2, compared with taking q's step first. */
  lemma TakenConcat<M>(mach: Machine<M>, w: World<M>, s: seq<Pid>, q: Pid, s2: seq<Pid>, p: Pid)
    requires Runs(mach, w, s) && q in s && Enabled(mach, w, q) && Runs(mach, Next(mach, w, q), Without(s, q) + s2)
    ensures Runs(mach, w, s + s2) && Final(mach, w, s + s2) == Final(mach, Next(mach, w, q), Without(s, q) + s2)
    ensures History(mach, w, s + s2, p) ==
              (if q == p then [w[q].m] else []) + History(mach, Next(mach, w, q), Without(s, q) + s2, p)
  {
    hide Runs, Final, History, Next, Blocked, Partner, Without;
    var s', wq := Without(s, q), Next(mach, w, q);
    Advance(mach, w, s, q);
    AdvanceHistory(mach, w, s, q, p);
    RunsConcat(mach, wq, s', s2, p);
    RunsConcat(mach, w, s, s2, p);
  }

  /** The same for a run that does not take q's step before s3. */
  lemma OpenConcat<M>(mach: Machine<M>, w: World<M>, s: seq<Pid>, q: Pid, s3: seq<Pid>, p: Pid)
    requires Runs(mach, w, s) && q !in s && Enabled(mach, w, q) && Runs(mach, Next(mach, w, q), s + s3)
    ensures Runs(mach, w, s + ([q] + s3)) && Final(mach, w, s + ([q] + s3)) == Final(mach, Next(mach, w, q), s + s3)
    ensures History(mach, w, s + ([q] + s3), p) ==
              (if q == p then [w[q].m] else []) + History(mach, Next(mach, w, q), s + s3, p)
  {
    hide Runs, Final, History, Next, Blocked, Partner;
    var wq, f := Next(mach, w, q), Final(mach, w, s);
    Postpone(mach, w, s, q);
    RunsConcat(mach, wq, s, s3, p);
    HistoryHere(mach, f, q, s3, p);
    RunsConcat(mach, w, s, [q] + s3, p);
    OwnTurn(mach, w, s, q, p);
  }

  lemma FirstConcat<M>(mach: Machine<M>, w: World<M>, t: seq<Pid>, q: Pid, t2: seq<Pid>, p: Pid)
    requires t != [] && t[0] == q && Enabled(mach, w, q) && Runs(mach, Next(mach, w, q), t[1..] + t2)
    ensures Runs(mach, w, t + t2) && Final(mach, w, t + t2) == Final(mach, Next(mach, w, q), t[1..] + t2)
    ensures History(mach, w, t + t2, p) == (if q == p then [w[q].m] else []) + History(mach, Next(mach, w, q), t[1..] + t2, p)
  {
    assert [q] + (t[1..] + t2) == t + t2;
    HistoryHere(mach, w, q, t[1..] + t2, p);
  }

  /** A process that takes no step has no history. */
  lemma {:induction false} OwnTurn<M>(mach: Machine<M>, w: World<M>, s: seq<Pid>, q: Pid, p: Pid)
    requires Runs(mach, w, s) && q !in s
    ensures p == q ==> History(mach, w, s, p) == []
    decreases |s|
  {
    if s != [] { OwnTurn(mach, Next(mach, w, s[0]), s[1..], q, p); }
  }

  /** However two runs are scheduled, of the states process p goes through in them one list continues the other. */
  lemma SameHistory<M>(mach: Machine<M>, w: World<M>, s: seq<Pid>, t: seq<Pid>, p: Pid)
    requires Runs(mach, w, s) && Runs(mach, w, t)
    ensures History(mach, w, s, p) <= History(mach, w, t, p) || History(mach, w, t, p) <= History(mach, w, s, p)
  {
    var s2, t2 := Joinable(mach, w, s, t);
    RunsConcat(mach, w, s, s2, p);
    RunsConcat(mach, w, t, t2, p);
    Prefixes(History(mach, w, s, p), History(mach, w, t, p), History(mach, w, s + s2, p));
  }

  lemma Prefixes<M>(a: seq<M>, b: seq<M>, c: seq<M>)
    requires a <= c && b <= c
    ensures a <= b || b <= a
  {
    if |a| <= |b| { assert a == c[..|a|] && b == c[..|b|]; }
  }

  /* ---------- progress ---------- */

  function Longer(w: set<Pid>, n: nat): set<Pid> { set p | p in w && |p| >= n }

  /** Whoever a live process waits for, and so on, leads to one that can step: there is no deadlock. */
  lemma {:induction false} SomeoneCanStep<M>(mach: Machine<M>, w: World<M>, p: Pid) returns (q: Pid)
    requires p in w && w[p].live
    ensures Enabled(mach, w, q)
    decreases |Longer(w.Keys, |p|)|
  {
    if Blocked(mach, w, p) {
      var c := p + Partner(mach, w[p].m);
      assert |c| == |p| + 1;
      assert Longer(w.Keys, |c|) < Longer(w.Keys, |p|) by { assert p in Longer(w.Keys, |p|) && p !in Longer(w.Keys, |c|); }
      SetSmaller(Longer(w.Keys, |c|), Longer(w.Keys, |p|));
      q := SomeoneCanStep(mach, w, c);
    } else {
      q := p;
    }
  }

  lemma SetSmaller<T>(a: set<T>, b: set<T>)
    requires a < b
    ensures |a| < |b|
  {
    var x :| x in b && x !in a;
    assert a <= b - {x};
    SetAtMost(a, b - {x});
  }

  lemma {:induction false} SetAtMost<T>(a: set<T>, b: set<T>)
    requires a <= b
    ensures |a| <= |b|
  {
    if a != {} {
      var x :| x in a;
      SetAtMost(a - {x}, b - {x});
    }
  }

  /** At rest means that every process has stopped. */
  lemma RestMeansStopped<M>(mach: Machine<M>, w: World<M>)
    ensures Quiescent(mach, w) <==> forall p :: p in w ==> !w[p].live
  {
    if p :| p in w && w[p].live {
      var q := SomeoneCanStep(mach, w, p);
      assert q in w;
    }
  }

  /* ---------- what passes between parent and child ---------- */

  /** As long as its parent takes no step, a stopped process stays as it is, and a process that does not exist is not made. */
  lemma {:induction false} LeftAlone<M>(mach: Machine<M>, w: World<M>, s: seq<Pid>, p: Pid, cn: ChildNo)
    requires Runs(mach, w, s) && p !in s && (p + [cn] in w ==> !w[p + [cn]].live)
    ensures p + [cn] in Final(mach, w, s) <==> p + [cn] in w
    ensures p + [cn] in w ==> Final(mach, w, s)[p + [cn]] == w[p + [cn]]
    decreases |s|
  {
    if s != [] {
      var q, c := s[0], p + [cn];
      ChildOf(mach, w, q, p, cn);
      Footprint(mach, w, q, c);
      LeftAlone(mach, Next(mach, w, q), s[1..], p, cn);
    }
  }

  /** Only its parent, and the process itself, can change a process. */
  lemma ChildOf<M>(mach: Machine<M>, w: World<M>, q: Pid, p: Pid, cn: ChildNo)
    requires Enabled(mach, w, q) && q != p && (p + [cn] in w ==> !w[p + [cn]].live || q != p + [cn])
    ensures q != p + [cn] && p + [cn] != q + Partner(mach, w[q].m)
  {
    var cs := Partner(mach, w[q].m);
    if cs == [] { assert q + cs == q; } else { assert cs == [cs[0]]; Apart(q, p, cs[0], cn); }
  }

  /** A process that takes no step keeps its registers and memory, and goes on being live, as long as its parent takes none. */
  lemma {:induction false} OwnState<M>(mach: Machine<M>, w: World<M>, s: seq<Pid>, p: Pid)
    requires Runs(mach, w, s) && p in w && w[p].live && p !in s
    ensures p in Final(mach, w, s) && Final(mach, w, s)[p] == w[p]
    decreases |s|
  {
    if s != [] {
      var q := s[0];
      NotChild(mach, w, q, p);
      Footprint(mach, w, q, p);
      OwnState(mach, Next(mach, w, q), s[1..], p);
    }
  }

  /** A live process is nobody's stopped child. */
  lemma NotChild<M>(mach: Machine<M>, w: World<M>, q: Pid, p: Pid)
    requires Enabled(mach, w, q) && p in w && w[p].live && q != p
    ensures p != q + Partner(mach, w[q].m)
  {
    if Partner(mach, w[q].m) == [] { assert q + Partner(mach, w[q].m) == q; }
  }

  /** After any run in which p takes no step: what its PUT does to itself and to a child that has stopped with state cm, or is
      new.  The child gets the state that put makes of p's and its own, and is started exactly if put says so. */
  lemma PutHands<M>(mach: Machine<M>, w: World<M>, s: seq<Pid>, p: Pid, cn: ChildNo, cm: M)
    requires Runs(mach, w, s + [p]) && p !in s && p in w && w[p].live && mach.act(w[p].m) == Put(cn)
    requires if p + [cn] in w then w[p + [cn]] == Proc(cm, false) else cm == mach.blank
    ensures Runs(mach, w, s + [p]) && p in Final(mach, w, s + [p]) && p + [cn] in Final(mach, w, s + [p])
    ensures var f, r := Final(mach, w, s + [p]), mach.put(w[p].m, cm);
      && f[p] == Proc(r.parent, r.PutDone?) && f[p + [cn]] == Proc(r.child, r.PutDone? && r.start)
  {
    Turn(mach, w, s, p, cn);
  }

  /** The same for a GET: p's new state is what get makes of its own and the child's state, or nobody's if there is none; the child
      stays as it is. */
  lemma GetTakes<M>(mach: Machine<M>, w: World<M>, s: seq<Pid>, p: Pid, cn: ChildNo, cm: M)
    requires Runs(mach, w, s + [p]) && p !in s && p in w && w[p].live && mach.act(w[p].m) == Get(cn)
    requires if p + [cn] in w then w[p + [cn]] == Proc(cm, false) else cm == mach.nobody
    ensures p in Final(mach, w, s + [p]) && (p + [cn] in Final(mach, w, s + [p]) <==> p + [cn] in w)
    ensures var f, r := Final(mach, w, s + [p]), mach.get(w[p].m, cm); f[p] == Proc(r.parent, r.GetDone?)
    ensures p + [cn] in w ==> Final(mach, w, s + [p])[p + [cn]] == Proc(cm, false)
  {
    Turn(mach, w, s, p, cn);
  }

  lemma Turn<M>(mach: Machine<M>, w: World<M>, s: seq<Pid>, p: Pid, cn: ChildNo)
    requires Runs(mach, w, s + [p]) && p !in s && p in w && w[p].live && (p + [cn] in w ==> !w[p + [cn]].live)
    ensures Runs(mach, w, s) && Enabled(mach, Final(mach, w, s), p) && Final(mach, w, s)[p] == w[p] && p + [cn] != p
    ensures Final(mach, w, s + [p]) == Next(mach, Final(mach, w, s), p)
    ensures p + [cn] in Final(mach, w, s) <==> p + [cn] in w
    ensures p + [cn] in w ==> Final(mach, w, s)[p + [cn]] == w[p + [cn]]
  {
    assert |p + [cn]| == |p| + 1;
    RunsPrefix(mach, w, s, [p]);
    RunsConcat(mach, w, s, [p], p);
    OwnState(mach, w, s, p);
    LeftAlone(mach, w, s, p, cn);
  }

  lemma {:induction false} RunsPrefix<M>(mach: Machine<M>, w: World<M>, s: seq<Pid>, t: seq<Pid>)
    requires Runs(mach, w, s + t)
    ensures Runs(mach, w, s)
    decreases |s|
  {
    if s != [] {
      assert (s + t)[1..] == s[1..] + t && (s + t)[0] == s[0];
      RunsPrefix(mach, Next(mach, w, s[0]), s[1..], t);
    }
  }

  /** On its own, a process in state m stops with state m' after k instructions. */
  ghost predicate StopsWith<M>(mach: Machine<M>, m: M, k: nat, m': M)
  {
    match mach.act(m)
    case Local(m1) => k > 0 && StopsWith(mach, m1, k - 1, m')
    case Ret(m1) => k == 0 && m1 == m'
    case _ => false
  }

  /** Whatever else runs, but for its parent, a process that computes on its own has not stopped yet or has stopped with its
      result. */
  lemma {:induction false} Computes<M>(mach: Machine<M>, w: World<M>, s: seq<Pid>, p: Pid, cn: ChildNo, k: nat, m': M)
    requires Runs(mach, w, s) && p !in s && p + [cn] in w && w[p + [cn]].live && StopsWith(mach, w[p + [cn]].m, k, m')
    ensures p + [cn] in Final(mach, w, s) && (Final(mach, w, s)[p + [cn]].live || Final(mach, w, s)[p + [cn]] == Proc(m', false))
    decreases |s|
  {
    if s != [] {
      var q, c := s[0], p + [cn];
      if q == c {
        if k > 0 { Computes(mach, Next(mach, w, q), s[1..], p, cn, k - 1, m'); }
        else { LeftAlone(mach, Next(mach, w, q), s[1..], p, cn); }
      } else {
        ChildOf(mach, w, q, p, cn);
        Footprint(mach, w, q, c);
        Computes(mach, Next(mach, w, q), s[1..], p, cn, k, m');
      }
    }
  }

  /** Fork and join: a parent starts a child by PUT, the child computes its result, and the parent's next step is a GET of it.
      Whatever other processes do meanwhile, the parent gets exactly that result. */
  lemma ForkJoin<M>(mach: Machine<M>, w: World<M>, s: seq<Pid>, p: Pid, cn: ChildNo, cm: M, k: nat, m': M)
    requires Runs(mach, w, [p] + s + [p]) && p !in s && p in w && mach.act(w[p].m) == Put(cn)
    requires if p + [cn] in w then w[p + [cn]] == Proc(cm, false) else cm == mach.blank
    requires var r := mach.put(w[p].m, cm);
      r.PutDone? && r.start && mach.act(r.parent) == Get(cn) && StopsWith(mach, r.child, k, m')
    ensures p in Final(mach, w, [p] + s + [p])
    ensures var r := mach.get(mach.put(w[p].m, cm).parent, m'); Final(mach, w, [p] + s + [p])[p] == Proc(r.parent, r.GetDone?)
  {
    var t, c := s + [p], p + [cn];
    assert [p] + s + [p] == [p] + t && ([p] + t)[1..] == t && [] + [p] == [p];
    RunsPrefix(mach, w, [p], t);
    PutHands(mach, w, [], p, cn, cm);
    var w1 := Next(mach, w, p);
    RunsPrefix(mach, w1, s, [p]);
    RunsConcat(mach, w1, s, [p], p);
    OwnState(mach, w1, s, p);
    Computes(mach, w1, s, p, cn, k, m');
    assert |c| == |p| + 1;
  }
}
