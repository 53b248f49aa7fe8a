/** Deterministic pthreads: the master's queues, mutex ownership and condition variables (lib/dsthread.c).

    The intrusive lists are sequences.  The code between mcall and mret runs as the master, on behalf of one thread at
    a time; a thread that has to wait is queued where it waits and resumed from the ready queue later.  A mutex can
    be owned without being locked, so that its owner can lock it again without going through the master. */
module Threads {

  type Tid = nat
  type Mid = nat
  type Cid = nat

  datatype Opt<T> = None | Some(value: T)
  datatype State = FREE | RUN | EXIT | MUTEX | COND

  datatype Thread = Thread(state: State, joiner: Opt<Tid>, reqs: seq<Mid>)
  datatype Mutex = Mutex(owner: Tid, locked: bool, queue: seq<Tid>)
  datatype Cond = Cond(queue: seq<Tid>, nwake: nat)

  const MAXTHREADS: nat := 16

  function Slots(n: nat): (s: set<Tid>)
    ensures forall t: Tid :: t in s <==> t < n
  {
    if n == 0 then {} else Slots(n - 1) + {n - 1}
  }

  /** Where a thread is. */
  datatype Place = Nowhere | Current | Ready | Running | OnMutex(m: Mid) | OnCond(c: Cid) | Joining(x: Tid)

  type Ths = map<Tid, Thread>
  type Mxs = map<Mid, Mutex>
  type Cvs = map<Cid, Cond>
  type Places = map<Tid, Place>

  ghost predicate Distinct<T(!new)>(q: seq<T>)
  {
    forall i, j :: 0 <= i < j < |q| ==> q[i] != q[j]
  }

  /** Queue q holds exactly the threads whose place is pl, each once. */
  ghost predicate Holds(q: seq<Tid>, pls: Places, pl: Place)
  {
    && Distinct(q) && (forall t :: t in q ==> t in pls && pls[t] == pl)
    && (forall t :: t in pls && pls[t] == pl ==> t in q)
  }

  ghost predicate QueuesOk(mx: Mxs, cv: Cvs, readyq: seq<Tid>, runq: seq<Tid>, pls: Places)
  {
    && Holds(readyq, pls, Ready) && Holds(runq, pls, Running)
    && (forall m :: m in mx ==> Holds(mx[m].queue, pls, OnMutex(m)))
    && (forall c :: c in cv ==> Holds(cv[c].queue, pls, OnCond(c)))
    && (forall t :: t in pls && pls[t].OnMutex? ==> pls[t].m in mx)
    && (forall t :: t in pls && pls[t].OnCond? ==> pls[t].c in cv)
  }

  /** The state of a thread that is not the current one says where it is. */
  predicate StateFits(s: State, pl: Place)
  {
    match pl
    case Nowhere => s == FREE || s == EXIT
    case Current => false
    case Ready => s == RUN
    case Running => s == RUN
    case OnMutex(_) => s == MUTEX
    case OnCond(_) => s == COND
    case Joining(_) => s == MUTEX
  }

  ghost predicate StatesOk(th: Ths, cur: Opt<Tid>, pls: Places)
  {
    && pls.Keys == th.Keys && (cur.Some? ==> cur.value in th)
    && forall t :: t in th ==>
         if cur == Some(t) then th[t].state == RUN && !pls[t].Nowhere? && !pls[t].Ready? && !pls[t].Running?
         else StateFits(th[t].state, pls[t])
  }

  /** A joining thread waits for a thread that has not exited, as its only joiner. */
  ghost predicate JoinsOk(th: Ths, pls: Places)
  {
    && pls.Keys == th.Keys
    && (forall t :: t in th && pls[t].Joining? ==> pls[t].x in th && th[pls[t].x].joiner == Some(t) && !pls[pls[t].x].Nowhere?)
    && (forall x :: x in th && th[x].joiner.Some? && !pls[x].Nowhere? ==>
          th[x].joiner.value in th && pls[th[x].joiner.value] == Joining(x))
  }

  /** A mutex is on its owner's request list exactly if some thread waits for it, and on no other list. */
  ghost predicate ReqsOk(th: Ths, mx: Mxs)
  {
    && (forall m :: m in mx ==> mx[m].owner in th && (mx[m].queue != [] <==> m in th[mx[m].owner].reqs))
    && (forall t, m :: t in th && m in th[t].reqs ==> m in mx && mx[m].owner == t)
    && (forall t :: t in th ==> Distinct(th[t].reqs))
  }

  /** No thread waits for a mutex it owns, and a thread that holds one has not exited. */
  ghost predicate OwnersOk(mx: Mxs, pls: Places)
  {
    && (forall m :: m in mx && mx[m].owner in pls ==> pls[mx[m].owner] != OnMutex(m))
    && (forall m :: m in mx && mx[m].owner in pls && mx[m].locked ==> pls[mx[m].owner] != Nowhere)
  }

  /** An unlocked mutex whose owner is blocked or gone has no waiters: it may be taken over. */
  ghost predicate StealOk(th: Ths, mx: Mxs)
  {
    forall m :: m in mx && !mx[m].locked && mx[m].owner in th && th[mx[m].owner].state != RUN ==> mx[m].queue == []
  }

  /** A thread in the middle of locking m waits for it, or has been given it and holds it unlocked until it runs. */
  ghost predicate GrantsOk(mx: Mxs, pls: Places, want: map<Tid, Mid>)
  {
    && (forall t :: t in want ==> GrantAt(mx, pls, t, want[t]))
    && (forall t :: t in pls && pls[t].OnMutex? ==> t in want && want[t] == pls[t].m)
  }

  ghost predicate GrantAt(mx: Mxs, pls: Places, t: Tid, m: Mid)
  {
    && t in pls && m in mx
    && (pls[t] == OnMutex(m) || (mx[m].owner == t && !mx[m].locked && (pls[t] == Ready || pls[t] == Current)))
  }

  /** The chain of signalled conditions: those with wakeups outstanding, none of which the current thread waits on. */
  ghost predicate EventsOk(cv: Cvs, evconds: seq<Cid>, cur: Opt<Tid>, pls: Places)
  {
    && Distinct(evconds) && (forall c :: c in evconds <==> c in cv && cv[c].nwake > 0)
    && (cur.Some? && cur.value in pls && pls[cur.value].OnCond? ==> pls[cur.value].c !in evconds)
  }

  ghost predicate Inv(th: Ths, mx: Mxs, cv: Cvs, evconds: seq<Cid>, readyq: seq<Tid>, runq: seq<Tid>, cur: Opt<Tid>,
                      pls: Places, want: map<Tid, Mid>)
  {
    && QueuesOk(mx, cv, readyq, runq, pls) && StatesOk(th, cur, pls) && JoinsOk(th, pls) && ReqsOk(th, mx)
    && OwnersOk(mx, pls) && StealOk(th, mx) && GrantsOk(mx, pls, want) && EventsOk(cv, evconds, cur, pls)
  }

  /* ---------- queues when one thread moves ---------- */

  lemma HoldsAdd(q: seq<Tid>, pls: Places, t: Tid, pl: Place)
    requires Holds(q, pls, pl) && t in pls && pls[t] != pl
    ensures Holds(q + [t], pls[t := pl], pl)
  {
  }

  lemma HoldsHead(q: seq<Tid>, pls: Places, pl: Place, pl': Place)
    requires Holds(q, pls, pl) && q != [] && pl' != pl
    ensures Holds(q[1..], pls[q[0] := pl'], pl)
  {
    forall t | t in pls[q[0] := pl'] && pls[q[0] := pl'][t] == pl ensures t in q[1..] {
      assert t in q;
    }
  }

  lemma HoldsOther(q: seq<Tid>, pls: Places, pl: Place, t: Tid, pl': Place)
    requires Holds(q, pls, pl) && t in pls && pls[t] != pl && pl' != pl
    ensures Holds(q, pls[t := pl'], pl)
  {
  }

  /* ---------- waking the first thread of a condition ---------- */

  /** One wakeup: the head of c's queue becomes ready. */
  lemma WakeInv(th: Ths, mx: Mxs, cv: Cvs, evconds: seq<Cid>, readyq: seq<Tid>, runq: seq<Tid>, cur: Opt<Tid>, pls: Places,
                want: map<Tid, Mid>, c: Cid, n: nat)
    requires Inv(th, mx, cv, evconds, readyq, runq, cur, pls, want)
    requires c in evconds && c in cv && cv[c].queue != [] && n > 0
    ensures var t := cv[c].queue[0];
      && t in th && t in pls && th[t].state == COND && cur != Some(t)
      && Inv(th[t := th[t].(state := RUN)], mx, cv[c := Cond(cv[c].queue[1..], n)], evconds, readyq + [t], runq, cur,
             pls[t := Ready], want)
  {
    hide Holds, Distinct, ReqsOk, JoinsOk, StatesOk, OwnersOk, StealOk, GrantsOk, EventsOk;
    var t := cv[c].queue[0];
    PlaceOf(cv[c].queue, pls, OnCond(c), 0);
    Blocked(th, cv, evconds, cur, pls, t, c);
    WakeQueues(mx, cv, readyq, runq, pls, c, n);
    Freed(th, mx, cur, pls, want, t, th[t].reqs);
    ReqsSame(th, th[t := th[t].(state := RUN)], mx);
    EventsWoken(cv, evconds, cur, pls, t, c, n);
    assert th[t].(state := RUN, reqs := th[t].reqs) == th[t].(state := RUN);
  }

  /** A thread waiting on a signalled condition is not the current one. */
  lemma Blocked(th: Ths, cv: Cvs, evconds: seq<Cid>, cur: Opt<Tid>, pls: Places, t: Tid, c: Cid)
    requires StatesOk(th, cur, pls) && EventsOk(cv, evconds, cur, pls) && t in pls && pls[t] == OnCond(c) && c in evconds
    ensures t in th && th[t].state == COND && cur != Some(t)
  {
  }

  lemma EventsWoken(cv: Cvs, evconds: seq<Cid>, cur: Opt<Tid>, pls: Places, t: Tid, c: Cid, n: nat)
    requires EventsOk(cv, evconds, cur, pls) && c in evconds && c in cv && cv[c].queue != [] && n > 0 && cur != Some(t)
    ensures EventsOk(cv[c := Cond(cv[c].queue[1..], n)], evconds, cur, pls[t := Ready])
  {
  }

  lemma ReqsSame(th: Ths, th': Ths, mx: Mxs)
    requires ReqsOk(th, mx) && th'.Keys == th.Keys && forall t :: t in th ==> th'[t].reqs == th[t].reqs
    ensures ReqsOk(th', mx)
  {
  }

  /** Making a blocked thread ready. */
  lemma Freed(th: Ths, mx: Mxs, cur: Opt<Tid>, pls: Places, want: map<Tid, Mid>, t: Tid, reqs: seq<Mid>)
    requires StatesOk(th, cur, pls) && JoinsOk(th, pls) && OwnersOk(mx, pls) && StealOk(th, mx) && GrantsOk(mx, pls, want)
    requires t in th && t in pls && cur != Some(t) && pls[t].OnCond?
    ensures var th', pls' := th[t := th[t].(state := RUN, reqs := reqs)], pls[t := Ready];
      StatesOk(th', cur, pls') && JoinsOk(th', pls') && OwnersOk(mx, pls') && StealOk(th', mx) && GrantsOk(mx, pls', want)
  {
    var th', pls' := th[t := th[t].(state := RUN, reqs := reqs)], pls[t := Ready];
    JoinsSame(th, th', pls, pls', t);
    forall u | u in want ensures GrantAt(mx, pls', u, want[u]) { assert GrantAt(mx, pls, u, want[u]); }
  }

  /** Who joins whom does not change when a thread that is alive, and joins nobody, goes from one place to another. */
  lemma JoinsSame(th: Ths, th': Ths, pls: Places, pls': Places, t: Tid)
    requires JoinsOk(th, pls) && th'.Keys == th.Keys && (forall u :: u in th ==> th'[u].joiner == th[u].joiner)
    requires t in pls && !pls[t].Joining? && !pls[t].Nowhere? && t in pls' && pls' == pls[t := pls'[t]]
    requires !pls'[t].Joining? && !pls'[t].Nowhere?
    ensures JoinsOk(th', pls')
  {
  }

  lemma WakeQueues(mx: Mxs, cv: Cvs, readyq: seq<Tid>, runq: seq<Tid>, pls: Places, c: Cid, n: nat)
    requires QueuesOk(mx, cv, readyq, runq, pls) && c in cv && cv[c].queue != []
    ensures var t := cv[c].queue[0];
            QueuesOk(mx, cv[c := Cond(cv[c].queue[1..], n)], readyq + [t], runq, pls[t := Ready])
  {
    hide Holds;
    var t := cv[c].queue[0];
    var pls' := pls[t := Ready];
    PlaceOf(cv[c].queue, pls, OnCond(c), 0);
    HoldsAdd(readyq, pls, t, Ready);
    HoldsOther(runq, pls, Running, t, Ready);
    HoldsHead(cv[c].queue, pls, OnCond(c), Ready);
    forall m | m in mx ensures Holds(mx[m].queue, pls', OnMutex(m)) { HoldsOther(mx[m].queue, pls, OnMutex(m), t, Ready); }
    forall d | d in cv && d != c ensures Holds(cv[d].queue, pls', OnCond(d)) { HoldsOther(cv[d].queue, pls, OnCond(d), t, Ready); }
  }

  lemma PlaceOf(q: seq<Tid>, pls: Places, pl: Place, i: nat)
    requires Holds(q, pls, pl) && i < |q|
    ensures q[i] in pls && pls[q[i]] == pl
  {
    assert q[i] in q;
  }

  /** The last wakeup of c has been dealt with. */
  lemma EventDone(th: Ths, mx: Mxs, cv: Cvs, evconds: seq<Cid>, readyq: seq<Tid>, runq: seq<Tid>, cur: Opt<Tid>, pls: Places,
                  want: map<Tid, Mid>)
    requires Inv(th, mx, cv, evconds, readyq, runq, cur, pls, want) && evconds != []
    ensures evconds[0] in cv
    ensures Inv(th, mx, cv[evconds[0] := Cond(cv[evconds[0]].queue, 0)], evconds[1..], readyq, runq, cur, pls, want)
  {
    hide Holds, ReqsOk, JoinsOk, StatesOk, OwnersOk, StealOk, GrantsOk;
    var c := evconds[0];
    assert c in evconds;
    var cv' := cv[c := Cond(cv[c].queue, 0)];
    forall d ensures d in evconds[1..] <==> d in cv' && cv'[d].nwake > 0 {
      assert d in evconds <==> d == c || d in evconds[1..];
    }
  }

  /* ---------- handing a mutex over ---------- */

  function RemoveAt(q: seq<Mid>, i: nat): seq<Mid>
    requires i < |q|
  {
    q[..i] + q[i + 1..]
  }

  lemma RemoveAtHas(q: seq<Mid>, i: nat)
    requires i < |q| && Distinct(q)
    ensures Distinct(RemoveAt(q, i)) && forall m :: m in RemoveAt(q, i) <==> m in q && m != q[i]
  {
    var r := RemoveAt(q, i);
    forall m ensures m in r <==> m in q && m != q[i] {
      if m in q && m != q[i] {
        var j :| 0 <= j < |q| && q[j] == m;
        assert r[if j < i then j else j - 1] == m;
      }
      if m in r {
        var j :| 0 <= j < |r| && r[j] == m;
        assert r[j] == q[if j < i then j else j + 1];
      }
    }
  }

  /** What mutexreqs does with an unlocked mutex of thread t: its first waiter becomes the owner. */
  function Handed(th: Ths, mx: Mxs, t: Tid, i: nat): (Ths, Mxs)
    requires t in th && i < |th[t].reqs| && th[t].reqs[i] in mx && mx[th[t].reqs[i]].queue != []
    requires mx[th[t].reqs[i]].queue[0] in th && mx[th[t].reqs[i]].queue[0] != t
  {
    var m := th[t].reqs[i];
    var tn, rest := mx[m].queue[0], mx[m].queue[1..];
    (th[t := th[t].(reqs := RemoveAt(th[t].reqs, i))]
       [tn := th[tn].(state := RUN, reqs := (if rest != [] then [m] else []) + th[tn].reqs)],
     mx[m := Mutex(tn, mx[m].locked, rest)])
  }

  lemma HandQueues(mx: Mxs, cv: Cvs, readyq: seq<Tid>, runq: seq<Tid>, pls: Places, m: Mid, x: Mutex)
    requires QueuesOk(mx, cv, readyq, runq, pls) && m in mx && mx[m].queue != [] && x.queue == mx[m].queue[1..]
    ensures var tn := mx[m].queue[0]; QueuesOk(mx[m := x], cv, readyq + [tn], runq, pls[tn := Ready])
  {
    hide Holds;
    var tn := mx[m].queue[0];
    var pls' := pls[tn := Ready];
    PlaceOf(mx[m].queue, pls, OnMutex(m), 0);
    HoldsAdd(readyq, pls, tn, Ready);
    HoldsOther(runq, pls, Running, tn, Ready);
    HoldsHead(mx[m].queue, pls, OnMutex(m), Ready);
    forall d | d in mx && d != m ensures Holds(mx[d].queue, pls', OnMutex(d)) { HoldsOther(mx[d].queue, pls, OnMutex(d), tn, Ready); }
    forall d | d in cv ensures Holds(cv[d].queue, pls', OnCond(d)) { HoldsOther(cv[d].queue, pls, OnCond(d), tn, Ready); }
  }

  lemma HandReqs(th: Ths, mx: Mxs, t: Tid, i: nat, tn: Tid)
    requires ReqsOk(th, mx) && t in th && i < |th[t].reqs| && th[t].reqs[i] in mx && mx[th[t].reqs[i]].queue != []
    requires tn == mx[th[t].reqs[i]].queue[0] && tn in th && tn != t
    ensures ReqsOk(Handed(th, mx, t, i).0, Handed(th, mx, t, i).1)
  {
    var m := th[t].reqs[i];
    var (th', mx') := Handed(th, mx, t, i);
    RemoveAtHas(th[t].reqs, i);
    assert m in th[t].reqs && m !in th[tn].reqs;
    assert Distinct(th'[tn].reqs);
    forall d | d in mx' ensures mx'[d].owner in th' && (mx'[d].queue != [] <==> d in th'[mx'[d].owner].reqs) {
      if d != m { assert mx[d].queue != [] <==> d in th[mx[d].owner].reqs; }
    }
    forall u, d | u in th' && d in th'[u].reqs ensures d in mx' && mx'[d].owner == u {
      if u == t { assert d in th[t].reqs && d != m; }
      else if u == tn && d == m { }
      else { assert d in th[u].reqs; }
    }
  }

  lemma HandInv(th: Ths, mx: Mxs, cv: Cvs, evconds: seq<Cid>, readyq: seq<Tid>, runq: seq<Tid>, cur: Opt<Tid>, pls: Places,
                want: map<Tid, Mid>, t: Tid, i: nat)
    requires Inv(th, mx, cv, evconds, readyq, runq, cur, pls, want) && cur == Some(t)
    requires t in th && i < |th[t].reqs| && (t in want ==> pls[t] == OnMutex(want[t]))
    requires th[t].reqs[i] in mx ==> !mx[th[t].reqs[i]].locked
    ensures th[t].reqs[i] in mx && mx[th[t].reqs[i]].queue != [] && mx[th[t].reqs[i]].owner == t
    ensures mx[th[t].reqs[i]].queue[0] in th && mx[th[t].reqs[i]].queue[0] in pls && mx[th[t].reqs[i]].queue[0] != t
    ensures th[mx[th[t].reqs[i]].queue[0]].state == MUTEX
    ensures Inv(Handed(th, mx, t, i).0, Handed(th, mx, t, i).1, cv, evconds, readyq + [mx[th[t].reqs[i]].queue[0]], runq, cur,
                pls[mx[th[t].reqs[i]].queue[0] := Ready], want)
  {
    hide Holds, ReqsOk, JoinsOk, StatesOk, OwnersOk, StealOk, GrantsOk, EventsOk, Handed;
    var m := th[t].reqs[i];
    Requested(th, mx, t, i);
    var tn := mx[m].queue[0];
    PlaceOf(mx[m].queue, pls, OnMutex(m), 0) by { assert Holds(mx[m].queue, pls, OnMutex(m)); }
    Waiter(th, mx, cur, pls, m, t, tn);
    HandedMx(th, mx, t, i);
    HandReqs(th, mx, t, i, tn);
    HandQueues(mx, cv, readyq, runq, pls, m, Mutex(tn, mx[m].locked, mx[m].queue[1..]));
    HandRest(th, mx, cv, evconds, readyq, runq, cur, pls, want, t, i, tn);
  }

  lemma HandedMx(th: Ths, mx: Mxs, t: Tid, i: nat)
    requires t in th && i < |th[t].reqs| && th[t].reqs[i] in mx && mx[th[t].reqs[i]].queue != []
    requires mx[th[t].reqs[i]].queue[0] in th && mx[th[t].reqs[i]].queue[0] != t
    ensures var m := th[t].reqs[i];
            Handed(th, mx, t, i).1 == mx[m := Mutex(mx[m].queue[0], mx[m].locked, mx[m].queue[1..])]
  {
  }

  lemma Requested(th: Ths, mx: Mxs, t: Tid, i: nat)
    requires ReqsOk(th, mx) && t in th && i < |th[t].reqs|
    ensures th[t].reqs[i] in mx && mx[th[t].reqs[i]].owner == t && mx[th[t].reqs[i]].queue != []
  {
    assert th[t].reqs[i] in th[t].reqs;
  }

  /** A thread waiting for a mutex of the current thread is another thread, and blocked. */
  lemma Waiter(th: Ths, mx: Mxs, cur: Opt<Tid>, pls: Places, m: Mid, t: Tid, tn: Tid)
    requires StatesOk(th, cur, pls) && OwnersOk(mx, pls) && cur == Some(t) && m in mx && mx[m].owner == t
    requires tn in pls && pls[tn] == OnMutex(m)
    ensures tn in th && tn != t && th[tn].state == MUTEX
  {
  }

  lemma HandRest(th: Ths, mx: Mxs, cv: Cvs, evconds: seq<Cid>, readyq: seq<Tid>, runq: seq<Tid>, cur: Opt<Tid>, pls: Places,
                 want: map<Tid, Mid>, t: Tid, i: nat, tn: Tid)
    requires Inv(th, mx, cv, evconds, readyq, runq, cur, pls, want) && cur == Some(t)
    requires t in th && i < |th[t].reqs| && (t in want ==> pls[t] == OnMutex(want[t]))
    requires th[t].reqs[i] in mx && mx[th[t].reqs[i]].queue != [] && !mx[th[t].reqs[i]].locked && mx[th[t].reqs[i]].owner == t
    requires tn == mx[th[t].reqs[i]].queue[0] && tn in th && tn != t && tn in pls && pls[tn] == OnMutex(th[t].reqs[i])
    requires ReqsOk(Handed(th, mx, t, i).0, Handed(th, mx, t, i).1)
    ensures var (th', mx') := Handed(th, mx, t, i); var pls' := pls[tn := Ready];
      && StatesOk(th', cur, pls') && JoinsOk(th', pls') && OwnersOk(mx', pls') && StealOk(th', mx')
      && GrantsOk(mx', pls', want) && EventsOk(cv, evconds, cur, pls')
  {
    hide QueuesOk, Distinct, ReqsOk, Holds;
    var m := th[t].reqs[i];
    var (th', mx') := Handed(th, mx, t, i);
    var pls' := pls[tn := Ready];
    JoinsSame(th, th', pls, pls', tn);
    HandGrants(mx, pls, want, t, m, tn);
    HandSteal(th, mx, t, i, tn);
    HandOwners(th, mx, pls, m, tn);
    HandStates(th, th', cur, pls, t, tn);
    HandedMx(th, mx, t, i);
  }

  lemma HandOwners(th: Ths, mx: Mxs, pls: Places, m: Mid, tn: Tid)
    requires OwnersOk(mx, pls) && m in mx && tn in pls && !mx[m].locked && mx[m].queue != []
    ensures OwnersOk(mx[m := Mutex(tn, mx[m].locked, mx[m].queue[1..])], pls[tn := Ready])
  {
  }

  lemma HandStates(th: Ths, th': Ths, cur: Opt<Tid>, pls: Places, t: Tid, tn: Tid)
    requires StatesOk(th, cur, pls) && cur == Some(t) && tn in th && tn != t && th'.Keys == th.Keys
    requires th'[tn].state == RUN && forall u :: u in th && u != tn ==> th'[u].state == th[u].state
    ensures StatesOk(th', cur, pls[tn := Ready])
  {
  }

  lemma HandGrants(mx: Mxs, pls: Places, want: map<Tid, Mid>, t: Tid, m: Mid, tn: Tid)
    requires GrantsOk(mx, pls, want) && m in mx && mx[m].owner == t && !mx[m].locked && tn in pls && pls[tn] == OnMutex(m)
    requires t in want ==> pls[t] == OnMutex(want[t])
    requires mx[m].queue != []
    ensures GrantsOk(mx[m := Mutex(tn, mx[m].locked, mx[m].queue[1..])], pls[tn := Ready], want)
  {
    var mx', pls' := mx[m := Mutex(tn, mx[m].locked, mx[m].queue[1..])], pls[tn := Ready];
    forall u | u in want ensures GrantAt(mx', pls', u, want[u]) {
      assert GrantAt(mx, pls, u, want[u]);
    }
  }

  lemma HandSteal(th: Ths, mx: Mxs, t: Tid, i: nat, tn: Tid)
    requires StealOk(th, mx) && t in th && i < |th[t].reqs| && th[t].reqs[i] in mx && mx[th[t].reqs[i]].queue != []
    requires tn == mx[th[t].reqs[i]].queue[0] && tn in th && tn != t
    ensures StealOk(Handed(th, mx, t, i).0, Handed(th, mx, t, i).1)
  {
  }

  /* ---------- what the event handlers do, as functions ---------- */

  function Front(q: seq<Tid>, n: nat): seq<Tid> { if n <= |q| then q[..n] else q }
  function Back(q: seq<Tid>, n: nat): seq<Tid> { if n <= |q| then q[n..] else [] }

  /** The threads condwakeups makes ready, in order. */
  function Woken(evconds: seq<Cid>, cv: Cvs): seq<Tid>
    requires forall c :: c in evconds ==> c in cv
  {
    if evconds == [] then [] else Front(cv[evconds[0]].queue, cv[evconds[0]].nwake) + Woken(evconds[1..], cv)
  }

  /** The conditions after condwakeups: from each one signalled, the given number of threads is gone from the front. */
  ghost predicate WokenFrom(cv: Cvs, cv': Cvs)
  {
    cv'.Keys == cv.Keys && forall c :: c in cv ==> cv'[c] == Cond(Back(cv[c].queue, cv[c].nwake), 0)
  }

  /** The mutexes after mutexreqs: of t's mutexes, each unlocked one with waiters belongs to its first waiter. */
  ghost predicate HandedOver(mx: Mxs, mx': Mxs, t: Tid)
  {
    mx'.Keys == mx.Keys && forall m :: m in mx ==>
      mx'[m] == if mx[m].owner == t && !mx[m].locked && mx[m].queue != [] then Mutex(mx[m].queue[0], false, mx[m].queue[1..]) else mx[m]
  }

  /** The threads mutexreqs makes ready, in order: the first waiters of the unlocked mutexes on the request list. */
  function Heirs(reqs: seq<Mid>, mx: Mxs): seq<Tid>
    requires forall m :: m in reqs ==> m in mx
  {
    if reqs == [] then []
    else (if !mx[reqs[0]].locked && mx[reqs[0]].queue != [] then [mx[reqs[0]].queue[0]] else []) + Heirs(reqs[1..], mx)
  }

  /* ---------- first come, first served ---------- */

  /** What may happen to the queue of a mutex or a condition: one thread joins at the end, or some leave at the front. */
  ghost predicate QueueStep(q: seq<Tid>, q': seq<Tid>)
  {
    q' == q || (exists t :: q' == q + [t]) || (|q'| < |q| && q' == q[|q| - |q'|..])
  }

  /** What may happen to a mutex: who leaves its queue is one thread, which then owns it. */
  ghost predicate MutexStep(x: Mutex, x': Mutex)
  {
    x'.queue == x.queue || (exists t :: x' == x.(queue := x.queue + [t]))
    || (x.queue != [] && x' == Mutex(x.queue[0], false, x.queue[1..]))
  }

  ghost predicate MutexSteps(mx: Mxs, mx': Mxs)
  {
    forall m :: m in mx ==> m in mx' && MutexStep(mx[m], mx'[m])
  }

  ghost predicate CondSteps(cv: Cvs, cv': Cvs)
  {
    forall c :: c in cv ==> c in cv' && QueueStep(cv[c].queue, cv'[c].queue)
  }

  /** Who joined the queue, in order, as it went through the stages qs. */
  function Joined(qs: seq<seq<Tid>>): seq<Tid>
  {
    if |qs| <= 1 then []
    else
      var q, q' := qs[|qs| - 2], qs[|qs| - 1];
      Joined(qs[..|qs| - 1]) + if |q'| > |q| then q'[|q'| - 1..] else []
  }

  /** Who left it, in order. */
  function Left(qs: seq<seq<Tid>>): seq<Tid>
  {
    if |qs| <= 1 then []
    else
      var q, q' := qs[|qs| - 2], qs[|qs| - 1];
      Left(qs[..|qs| - 1]) + if |q'| < |q| then q[..|q| - |q'|] else []
  }

  /** Nobody overtakes: those who have left are the first who joined, and the others still wait in the order in which they came. */
  lemma {:induction false} FirstComeFirstServed(qs: seq<seq<Tid>>)
    requires qs != [] && forall i :: 0 <= i < |qs| - 1 ==> QueueStep(qs[i], qs[i + 1])
    ensures qs[0] + Joined(qs) == Left(qs) + qs[|qs| - 1]
    decreases |qs|
  {
    if |qs| > 1 {
      var rs, q, q' := qs[..|qs| - 1], qs[|qs| - 2], qs[|qs| - 1];
      forall i | 0 <= i < |rs| - 1 ensures QueueStep(rs[i], rs[i + 1]) { assert QueueStep(qs[i], qs[i + 1]); }
      FirstComeFirstServed(rs);
      var i := |qs| - 2;
      assert QueueStep(qs[i], qs[i + 1]) && rs[0] == qs[0] && rs[|rs| - 1] == q;
      var joined, left := if |q'| > |q| then q'[|q'| - 1..] else [], if |q'| < |q| then q[..|q| - |q'|] else [];
      assert q + joined == left + q';
      assert qs[0] + (Joined(rs) + joined) == (qs[0] + Joined(rs)) + joined;
      assert (Left(rs) + q) + joined == (Left(rs) + left) + q';
    }
  }

  function QueuesOf(xs: seq<Mutex>): (qs: seq<seq<Tid>>)
    ensures |qs| == |xs|
  {
    seq(|xs|, i requires 0 <= i < |xs| => xs[i].queue)
  }

  /** To whom the mutex was handed over, in order. */
  function Obtained(xs: seq<Mutex>): seq<Tid>
  {
    if |xs| <= 1 then []
    else
      var x, x' := xs[|xs| - 2], xs[|xs| - 1];
      Obtained(xs[..|xs| - 1]) + if |x'.queue| < |x.queue| then [x'.owner] else []
  }

  /** Waiters obtain a mutex in the order in which they blocked, from its creation on. */
  lemma {:induction false} WaitersInOrder(xs: seq<Mutex>)
    requires xs != [] && xs[0].queue == [] && forall i :: 0 <= i < |xs| - 1 ==> MutexStep(xs[i], xs[i + 1])
    ensures Joined(QueuesOf(xs)) == Obtained(xs) + xs[|xs| - 1].queue
    decreases |xs|
  {
    var qs := QueuesOf(xs);
    forall i | 0 <= i < |qs| - 1 ensures QueueStep(qs[i], qs[i + 1]) { assert MutexStep(xs[i], xs[i + 1]); }
    FirstComeFirstServed(qs);
    LeaversObtain(xs);
  }

  lemma {:induction false} LeaversObtain(xs: seq<Mutex>)
    requires forall i :: 0 <= i < |xs| - 1 ==> MutexStep(xs[i], xs[i + 1])
    ensures Left(QueuesOf(xs)) == Obtained(xs)
    decreases |xs|
  {
    hide MutexStep;
    if |xs| > 1 {
      var i := |xs| - 2;
      var ys, qs := xs[..|xs| - 1], QueuesOf(xs);
      assert MutexStep(xs[i], xs[i + 1]);
      LeaverObtains(xs[i], xs[i + 1]);
      forall j | 0 <= j < |ys| - 1 ensures MutexStep(ys[j], ys[j + 1]) { assert MutexStep(xs[j], xs[j + 1]); }
      LeaversObtain(ys);
      assert qs[..|qs| - 1] == QueuesOf(ys) && qs[|qs| - 2] == xs[i].queue && qs[|qs| - 1] == xs[i + 1].queue;
    }
  }

  lemma LeaverObtains(x: Mutex, x': Mutex)
    requires MutexStep(x, x')
    ensures |x'.queue| < |x.queue| ==> x.queue[..|x.queue| - |x'.queue|] == [x'.owner]
  {
  }

  class Master {
    var th: Ths
    var mx: Mxs
    var cv: Cvs
    var evconds: seq<Cid>
    var readyq: seq<Tid>
    var runq: seq<Tid>
    var cur: Opt<Tid>                // the thread executing in the master, None in the scheduler
    ghost var pls: Places
    ghost var want: map<Tid, Mid>    // the mutex a thread is in the middle of locking

    ghost predicate Valid()
      reads this
    {
      Inv(th, mx, cv, evconds, readyq, runq, cur, pls, want)
    }

    /** Thread 0 starts out as the master. */
    constructor ()
      ensures Valid() && cur == Some(0) && mx == map[] && cv == map[]
    {
      th := map t | t in Slots(MAXTHREADS) :: Thread(if t == 0 then RUN else FREE, None, []);
      mx, cv, evconds, readyq, runq, cur := map[], map[], [], [], [], Some(0);
      pls := map t | t in Slots(MAXTHREADS) :: if t == 0 then Current else Nowhere;
      want := map[];
    }

    /** Unlink the head of condition c's queue and tready it. */
    method WakeOne(c: Cid)
      requires Valid() && c in evconds && c in cv && cv[c].queue != []
      modifies this`th, this`cv, this`readyq, this`pls
      ensures Valid() && cv == old(cv)[c := Cond(old(cv)[c].queue[1..], old(cv)[c].nwake)]
      ensures readyq == old(readyq) + [old(cv)[c].queue[0]]
      ensures Undisturbed(old(th), th, cur, old(pls), pls)
    {
      hide QueuesOk, ReqsOk, JoinsOk, StatesOk, OwnersOk, StealOk, GrantsOk, Distinct;
      CvCount(cv, evconds, cur, pls, c);
      WakeInv(th, mx, cv, evconds, readyq, runq, cur, pls, want, c, cv[c].nwake);
      var tw := cv[c].queue[0];
      cv := cv[c := Cond(cv[c].queue[1..], cv[c].nwake)];
      th := th[tw := th[tw].(state := RUN)];
      readyq := readyq + [tw];
      pls := pls[tw := Ready];
    }

    /** The inner loop of condwakeups: wake as many threads as were signalled, or all there are. */
    method WakeSome(c: Cid)
      requires Valid() && c in evconds && c in cv
      modifies this`th, this`cv, this`readyq, this`pls
      ensures Valid() && cv == old(cv)[c := Cond(Back(old(cv)[c].queue, old(cv)[c].nwake), old(cv)[c].nwake)]
      ensures readyq == old(readyq) + Front(old(cv)[c].queue, old(cv)[c].nwake)
      ensures Undisturbed(old(th), th, cur, old(pls), pls)
    {
      hide Inv;
      ghost var q, w := cv[c].queue, cv[c].nwake;
      var n := cv[c].nwake;
      while cv[c].queue != [] && n > 0
        invariant Valid() && c in cv && cv == old(cv)[c := cv[c]] && cv[c].nwake == w >= n >= 0
        invariant w - n <= |q| && cv[c].queue == q[w - n..] && readyq == old(readyq) + q[..w - n]
        invariant Undisturbed(old(th), th, cur, old(pls), pls)
        decreases n
      {
        WakeOne(c);
        n := n - 1;
        assert q[..w - n] == q[..w - n - 1] + [q[w - n - 1]];
      }
      assert |q[w - n..]| == |q| - (w - n);
      assert n == 0 || cv[c].queue == [];
      Ends(q, w, w - n);
    }

    /** condwakeups */
    method CondWakeups()
      requires Valid()
      modifies this`th, this`cv, this`evconds, this`readyq, this`pls
      ensures Valid() && evconds == [] && WokenFrom(old(cv), cv)
      ensures readyq == old(readyq) + old(WokenAll())
      ensures Undisturbed(old(th), th, cur, old(pls), pls)
    {
      hide QueuesOk, ReqsOk, JoinsOk, StatesOk, OwnersOk, StealOk, GrantsOk, Distinct, EventsOk, Front, Back, Undisturbed;
      UndisturbedRefl(th, cur, pls);
      ghost var cv0, ev0 := cv, evconds;
      CvCounts(cv, evconds, cur, pls);
      while evconds != []
        invariant Valid() && cv.Keys == cv0.Keys && forall c :: c in evconds ==> c in cv
        invariant forall c :: c in cv ==> cv[c] == if c in evconds then cv0[c] else Cond(Back(cv0[c].queue, cv0[c].nwake), 0)
        invariant forall c :: c in evconds ==> c in cv0
        invariant readyq + Woken(evconds, cv0) == old(readyq) + Woken(ev0, cv0)
        invariant Undisturbed(old(th), th, cur, old(pls), pls)
        decreases |evconds|
      {
        var c := evconds[0];
        assert c in evconds && cv[c] == cv0[c];
        CvCount(cv, evconds, cur, pls, c);
        ghost var ready1, ev, th1, pls1 := readyq, evconds, th, pls;
        WakeSome(c);
        UndisturbedTrans(old(th), th1, th, cur, old(pls), pls1, pls);
        Regroup(ready1, Front(cv0[c].queue, cv0[c].nwake), Woken(ev[1..], cv0));
        EventDone(th, mx, cv, evconds, readyq, runq, cur, pls, want);
        FirstOnly(evconds, cv, cur, pls);
        cv := cv[c := Cond(cv[c].queue, 0)];
        evconds := evconds[1..];
      }
    }

    /** One turn of mutexreqs: give the unlocked mutex at position i of t's list to its first waiter. */
    method HandOver(t: Tid, i: nat)
      requires Valid() && cur == Some(t) && t in th && t in pls && i < |th[t].reqs| && (t in want ==> pls[t] == OnMutex(want[t]))
      requires th[t].reqs[i] in mx && !mx[th[t].reqs[i]].locked
      modifies this`th, this`mx, this`readyq, this`pls
      ensures Valid() && th.Keys == old(th).Keys && t in th && t in pls && pls[t] == old(pls)[t]
      ensures th[t] == old(th)[t].(reqs := RemoveAt(old(th)[t].reqs, i))
      ensures var x := old(mx)[old(th)[t].reqs[i]]; x.owner == t && x.queue != [] && x.queue[0] != t
      ensures mx == old(mx)[old(th)[t].reqs[i] := Mutex(old(mx)[old(th)[t].reqs[i]].queue[0], false, old(mx)[old(th)[t].reqs[i]].queue[1..])]
      ensures readyq == old(readyq) + [old(mx)[old(th)[t].reqs[i]].queue[0]] && ReadyStays(old(pls), pls)
    {
      hide QueuesOk, ReqsOk, JoinsOk, StatesOk, OwnersOk, StealOk, GrantsOk, EventsOk, Distinct;
      HandInv(th, mx, cv, evconds, readyq, runq, cur, pls, want, t, i);
      var m := th[t].reqs[i];
      var tn := mx[m].queue[0];
      var rest := mx[m].queue[1..];
      ghost var th0, mx0 := th, mx;
      th := th[t := th[t].(reqs := RemoveAt(th[t].reqs, i))];
      mx := mx[m := Mutex(tn, mx[m].locked, rest)];
      th := th[tn := th[tn].(reqs := (if rest != [] then [m] else []) + th[tn].reqs)];
      th := th[tn := th[tn].(state := RUN)];
      readyq := readyq + [tn];
      pls := pls[tn := Ready];
      assert th == Handed(th0, mx0, t, i).0;
    }

    /** mutexreqs */
    method MutexReqs(t: Tid)
      requires Valid() && cur == Some(t) && t in th && t in pls && (t in want ==> pls[t] == OnMutex(want[t]))
      modifies this`th, this`mx, this`readyq, this`pls
      ensures Valid() && th.Keys == old(th).Keys && t in th && t in pls && pls[t] == old(pls)[t]
      ensures HandedOver(old(mx), mx, t) && AllLocked(th[t].reqs, mx, |th[t].reqs|)
      ensures ReqsIn(old(th), old(mx), t) && readyq == old(readyq) + Heirs(old(th)[t].reqs, old(mx))
      ensures ReadyStays(old(pls), pls) && th[t].joiner == old(th)[t].joiner
    {
      hide QueuesOk, JoinsOk, StatesOk, OwnersOk, StealOk, GrantsOk, EventsOk, ReqsOk, HandedSome, AllLocked;
      HandedRefl(mx, t);
      LockedNone(th[t].reqs, mx);
      ListedIn(th, mx, t);
      var i := 0;
      while i < |th[t].reqs|
        invariant Valid() && th.Keys == old(th).Keys && t in th && t in pls && pls[t] == old(pls)[t]
        invariant i <= |th[t].reqs| && AllLocked(th[t].reqs, mx, i) && HandedSome(old(mx), mx, t)
        invariant ReadyStays(old(pls), pls) && th[t].joiner == old(th)[t].joiner
        invariant (forall m :: m in th[t].reqs ==> m in mx) && Distinct(th[t].reqs)
        invariant readyq + Heirs(th[t].reqs[i..], mx) == old(readyq) + Heirs(old(th)[t].reqs, old(mx))
        decreases |th[t].reqs| - i
      {
        Requested(th, mx, t, i);
        ghost var reqs, mx1 := th[t].reqs, mx;
        if mx[th[t].reqs[i]].locked {
          LockedNext(reqs, mx, i);
          HeirsSkip(reqs, mx, i);
          i := i + 1;
        } else {
          HandOver(t, i);
          HandedMore(old(mx), mx1, mx, t, reqs[i]);
          LockedKept(reqs, mx1, mx, i);
          HeirsNext(reqs, mx1, mx, i);
          ListedIn(th, mx, t);
        }
      }
      AllHanded(old(mx), mx, th, t);
    }

    /** tevents: afterwards no mutex of t is unlocked and waited for. */
    method TEvents(t: Tid)
      requires Valid() && cur == Some(t) && t in th && t in pls && (t in want ==> pls[t] == OnMutex(want[t]))
      modifies this`th, this`mx, this`cv, this`evconds, this`readyq, this`pls
      ensures Valid() && evconds == [] && th.Keys == old(th).Keys && t in th && t in pls && pls[t] == old(pls)[t]
      ensures HandedOver(old(mx), mx, t) && WokenFrom(old(cv), cv)
      ensures forall m :: m in mx && mx[m].owner == t && !mx[m].locked ==> mx[m].queue == []
      ensures EventsReadied(old(th), old(mx), old(cv), old(evconds), t, old(readyq), readyq)
      ensures MutexSteps(old(mx), mx) && CondSteps(old(cv), cv)
      ensures ReadyStays(old(pls), pls) && th[t].joiner == old(th)[t].joiner
    {
      hide QueuesOk, JoinsOk, OwnersOk, StealOk, GrantsOk, StatesOk, EventsOk, ReqsOk, HandedOver, WokenFrom, AllLocked;
      NoneWoken(cv, evconds, cur, pls);
      EventsListed(th, mx, cv, evconds, cur, pls, t);
      if evconds != [] {
        CondWakeups();
      }
      NoneHanded(mx, th, t);
      if th[t].reqs != [] {
        MutexReqs(t);
      }
      NoneLeft(mx, t, th);
      HandedSteps(old(mx), mx, t);
      WokenSteps(old(cv), cv);
    }

    /** tblock: the current thread, already queued where it will wait, gives way to the scheduler. */
    method TBlock(t: Tid, newstate: State)
      requires Valid() && cur == Some(t) && t in th && t in pls && pls[t] != Current && StateFits(newstate, pls[t])
      modifies this`th, this`mx, this`cv, this`evconds, this`readyq, this`pls, this`cur
      ensures Valid() && cur == None && t in pls && pls[t] == old(pls)[t] && mx.Keys == old(mx).Keys && th.Keys == old(th).Keys
      ensures HandedOver(old(mx), mx, t) && WokenFrom(old(cv), cv) && evconds == []
      ensures EventsReadied(old(th), old(mx), old(cv), old(evconds), t, old(readyq), readyq)
      ensures MutexSteps(old(mx), mx) && CondSteps(old(cv), cv)
    {
      hide QueuesOk, JoinsOk, OwnersOk, StealOk, StatesOk, EventsOk, ReqsOk, HandedOver, WokenFrom, EventsReadied, MutexStep, QueueStep;
      CurPlace(th, pls, t);
      GrantPlace(mx, pls, want, t);
      TEvents(t);
      HandedKeys(old(mx), mx, t);
      BlockInv(th, mx, cv, evconds, readyq, runq, pls, want, t, newstate);
      th := th[t := th[t].(state := newstate)];
      cur := None;
    }

    /** trun: the current thread goes on in its own process; the scheduler will collect its results in turn. */
    method TRun(t: Tid)
      requires Valid() && cur == Some(t) && t in th && t in pls && pls[t] == Current && t !in want
      modifies this`th, this`mx, this`cv, this`evconds, this`readyq, this`runq, this`pls, this`cur
      ensures Valid() && cur == None && runq == old(runq) + [t]
      ensures HandedOver(old(mx), mx, t) && WokenFrom(old(cv), cv) && evconds == []
      ensures EventsReadied(old(th), old(mx), old(cv), old(evconds), t, old(readyq), readyq)
      ensures MutexSteps(old(mx), mx) && CondSteps(old(cv), cv)
    {
      hide QueuesOk, JoinsOk, OwnersOk, StealOk, StatesOk, EventsOk, ReqsOk, GrantsOk, HandedOver, WokenFrom, EventsReadied, MutexStep, QueueStep;
      TEvents(t);
      RunInv(th, mx, cv, evconds, readyq, runq, pls, want, t);
      runq := runq + [t];
      pls := pls[t := Running];
      cur := None;
    }

    /** pthread_sched, one round: ready threads first, then the results of the next running thread; that thread
        continues in the master if it was inside the library, and goes to the back of the queue otherwise. */
    method Sched(inLibrary: bool) returns (t: Tid)
      requires Valid() && cur == None && (readyq != [] || runq != [])
      modifies this
      ensures Valid()
      ensures old(readyq) != [] ==> t == old(readyq)[0] && cur == Some(t) && readyq == old(readyq)[1..] && runq == old(runq)
      ensures old(readyq) == [] ==> t == old(runq)[0]
      ensures old(readyq) == [] && inLibrary ==> cur == Some(t) && readyq == [] && runq == old(runq)[1..]
      ensures cur == Some(t) ==> th == old(th) && mx == old(mx) && cv == old(cv) && evconds == old(evconds)
      ensures old(readyq) == [] && !inLibrary ==> cur == None && runq == old(runq)[1..] + [t] && evconds == []
      ensures old(readyq) == [] && !inLibrary ==> HandedOver(old(mx), mx, t) && WokenFrom(old(cv), cv)
      ensures old(readyq) == [] && !inLibrary ==> EventsReadied(old(th), old(mx), old(cv), old(evconds), t, [], readyq)
      ensures MutexSteps(old(mx), mx) && CondSteps(old(cv), cv)
    {
      hide QueuesOk, JoinsOk, OwnersOk, StealOk, StatesOk, EventsOk, ReqsOk, GrantsOk, HandedOver, WokenFrom, EventsReadied;
      if readyq != [] {
        ResumeInv(th, mx, cv, evconds, readyq, runq, pls, want);
        t := readyq[0];
        readyq := readyq[1..];
        pls := pls[t := Current];
        cur := Some(t);
      } else {
        CollectInv(th, mx, cv, evconds, readyq, runq, pls, want);
        t := runq[0];
        runq := runq[1..];
        pls := pls[t := Current];
        cur := Some(t);
        if !inLibrary {
          TRun(t);
        }
      }
    }

    /** mutexlock up to the point where the thread has the mutex or is blocked waiting for it. */
    method MutexLock(t: Tid, m: Mid) returns (blocked: bool)
      requires Valid() && cur == Some(t) && t in th && t in pls && pls[t] == Current && t !in want && m in mx
      requires mx[m].owner == t ==> !mx[m].locked
      modifies this
      ensures Valid() && m in mx
      ensures !blocked ==> cur == Some(t) && mx == old(mx)[m := Mutex(t, true, old(mx)[m].queue)]
      ensures !blocked ==> th == old(th) && cv == old(cv) && readyq == old(readyq)
      ensures blocked ==> cur == None && t in want && want[t] == m && old(mx)[m].owner != t
      ensures blocked ==> mx[m] == old(mx)[m].(queue := old(mx)[m].queue + [t])
      ensures blocked ==> HandedOver(old(mx)[m := old(mx)[m].(queue := old(mx)[m].queue + [t])], mx, t) && WokenFrom(old(cv), cv)
      ensures runq == old(runq) && MutexSteps(old(mx), mx) && CondSteps(old(cv), cv)
      ensures blocked <==> old(mx)[m].owner != t && (old(mx)[m].locked || (old(mx)[m].owner in old(th) && old(th)[old(mx)[m].owner].state == RUN))
    {
      hide QueuesOk, JoinsOk, OwnersOk, StealOk, StatesOk, EventsOk, ReqsOk, GrantsOk, HandedOver, WokenFrom, EventsReadied;
      OwnerIn(th, mx, m);
      if mx[m].owner != t {
        if !mx[m].locked && th[mx[m].owner].state != RUN {
          StealInv(th, mx, cv, evconds, readyq, runq, pls, want, t, m);
          mx := mx[m := mx[m].(owner := t)];
        }
      }
      if mx[m].owner != t {
        WaitInv(th, mx, cv, evconds, readyq, runq, pls, want, t, m);
        if mx[m].queue == [] {
          var tc := mx[m].owner;
          th := th[tc := th[tc].(reqs := [m] + th[tc].reqs)];
        }
        mx := mx[m := mx[m].(queue := mx[m].queue + [t])];
        pls := pls[t := OnMutex(m)];
        want := want[t := m];
        ghost var mx1 := mx;
        TBlock(t, MUTEX);
        HandedOther(mx1, mx, t, m);
        WaitSteps(old(mx), mx1, mx, t, m);
        return true;
      }
      LockInv(th, mx, cv, evconds, readyq, runq, pls, want, t, m);
      mx := mx[m := mx[m].(locked := true)];
      return false;
    }

    /** The rest of mutexlock when the blocked thread runs again: the mutex is its own, and free. */
    method MutexGranted(t: Tid, m: Mid)
      requires Valid() && cur == Some(t) && t in th && t in pls && pls[t] == Current && t in want && want[t] == m
      modifies this`mx, this`want
      ensures m in old(mx) && old(mx)[m].owner == t && !old(mx)[m].locked
      ensures Valid() && t !in want && mx == old(mx)[m := old(mx)[m].(locked := true)] && MutexSteps(old(mx), mx)
    {
      hide QueuesOk, JoinsOk, OwnersOk, StealOk, StatesOk, EventsOk, ReqsOk, GrantsOk;
      GrantedInv(th, mx, cv, evconds, readyq, runq, pls, want, t, m);
      mx := mx[m := mx[m].(locked := true)];
      want := want - {t};
    }

    /** mutexunlock: waiters are served at the thread's next event. */
    method MutexUnlock(t: Tid, m: Mid)
      requires Valid() && cur == Some(t) && t in th && t in pls && t !in want && m in mx && mx[m].owner == t && mx[m].locked
      modifies this`mx
      ensures Valid() && mx == old(mx)[m := old(mx)[m].(locked := false)] && MutexSteps(old(mx), mx)
    {
      hide QueuesOk, JoinsOk, ReqsOk, EventsOk;
      UnlockInv(th, mx, cv, evconds, readyq, runq, pls, want, t, m);
      mx := mx[m := mx[m].(locked := false)];
    }

    /** condevent */
    method CondEvent(t: Tid, c: Cid, broadcast: bool)
      requires Valid() && cur == Some(t) && t in pls && pls[t] == Current && c in cv
      modifies this`cv, this`evconds
      ensures Valid() && CondSteps(old(cv), cv)
      ensures c in cv && cv == old(cv)[c := old(cv)[c].(nwake := cv[c].nwake)]
      ensures old(cv)[c].queue == [] ==> cv == old(cv)
      ensures old(cv)[c].queue != [] && broadcast ==> cv[c].nwake == MAXTHREADS
      ensures old(cv)[c].queue != [] && !broadcast ==> cv[c].nwake == old(cv)[c].nwake + if old(cv)[c].nwake < MAXTHREADS then 1 else 0
    {
      hide JoinsOk, ReqsOk, StatesOk, OwnersOk, StealOk, GrantsOk, Holds;
      if cv[c].queue == [] {
        return;
      }
      CvKnown(cv, evconds, cur, pls, c);
      if cv[c].nwake == 0 {
        evconds := [c] + evconds;
      }
      if broadcast {
        cv := cv[c := cv[c].(nwake := MAXTHREADS)];
      } else if cv[c].nwake < MAXTHREADS {
        cv := cv[c := cv[c].(nwake := cv[c].nwake + 1)];
      }
    }

    /** pthread_cond_wait up to the point where the thread sleeps; it has no wakeups of its own pending on c. */
    method CondWait(t: Tid, c: Cid, m: Mid)
      requires Valid() && cur == Some(t) && t in th && t in pls && pls[t] == Current && t !in want
      requires c in cv && cv[c].nwake == 0 && m in mx && mx[m].owner == t && mx[m].locked
      modifies this
      ensures Valid() && cur == None && t in pls && pls[t] == OnCond(c) && m in mx && c in cv && t in cv[c].queue
      ensures !mx[m].locked && (old(mx)[m].queue != [] ==> mx[m] == Mutex(old(mx)[m].queue[0], false, old(mx)[m].queue[1..]))
      ensures HandedOver(old(mx)[m := old(mx)[m].(locked := false)], mx, t)
      ensures WokenFrom(old(cv)[c := old(cv)[c].(queue := old(cv)[c].queue + [t])], cv) && cv[c].queue == old(cv)[c].queue + [t]
      ensures runq == old(runq) && MutexSteps(old(mx), mx) && CondSteps(old(cv), cv)
    {
      hide QueuesOk, JoinsOk, OwnersOk, StealOk, StatesOk, EventsOk, ReqsOk, GrantsOk, EventsReadied, MutexStep, QueueStep, HandedOver, WokenFrom;
      ghost var cv0 := cv[c := cv[c].(queue := cv[c].queue + [t])];
      SleepInv(th, mx, cv, evconds, readyq, runq, pls, want, t, c);
      cv := cv[c := cv[c].(queue := cv[c].queue + [t])];
      pls := pls[t := OnCond(c)];
      MutexUnlock(t, m);
      ghost var mx1 := mx;
      TBlock(t, COND);
      Asleep(mx, cv, readyq, runq, pls, t, c);
      HandedOwn(mx1, mx, t, m);
      UnlockSteps(old(mx), mx1, mx, t, m);
      SleepSteps(old(cv), cv0, cv, t, c);
    }

    /** pthread_join up to the point where the thread has to wait, or finds the other one finished and frees it. */
    method Join(t: Tid, x: Tid) returns (blocked: bool)
      requires Valid() && cur == Some(t) && t in th && t in pls && pls[t] == Current && t !in want
      requires x in th && x != t && th[x].state != FREE && (th[x].state != EXIT ==> th[x].joiner == None)
      modifies this
      ensures Valid() && x in th
      ensures blocked <==> old(th)[x].state != EXIT
      ensures blocked ==> cur == None && t in pls && pls[t] == Joining(x) && HandedOver(old(mx), mx, t) && WokenFrom(old(cv), cv)
      ensures !blocked ==> cur == Some(t) && th == old(th)[x := old(th)[x].(state := FREE)] && mx == old(mx) && cv == old(cv)
      ensures !blocked ==> readyq == old(readyq)
      ensures runq == old(runq) && MutexSteps(old(mx), mx) && CondSteps(old(cv), cv)
    {
      hide QueuesOk, JoinsOk, OwnersOk, StealOk, StatesOk, EventsOk, ReqsOk, GrantsOk, HandedOver, WokenFrom, EventsReadied;
      if th[x].state != EXIT {
        JoinInv(th, mx, cv, evconds, readyq, runq, pls, want, t, x);
        th := th[x := th[x].(joiner := Some(t))];
        pls := pls[t := Joining(x)];
        TBlock(t, MUTEX);
        return true;
      }
      FreeInv(th, mx, cv, evconds, readyq, runq, pls, want, t, x);
      th := th[x := th[x].(state := FREE)];
      return false;
    }

    /** pthread_create, as far as the queues are concerned: the first free slot becomes a ready thread, and the current
        thread goes on.  There is none if all slots are in use, where the program panics. */
    method Create(t: Tid) returns (x: Opt<Tid>)
      requires Valid() && cur == Some(t)
      modifies this`th, this`readyq, this`pls
      ensures Valid() && cur == Some(t)
      ensures x.None? ==> th == old(th) && readyq == old(readyq) && forall y: Tid :: 1 <= y < MAXTHREADS && y in th ==> th[y].state != FREE
      ensures x.Some? ==> 1 <= x.value < MAXTHREADS && x.value in old(th) && old(th)[x.value].state == FREE
      ensures x.Some? ==> forall y: Tid :: 1 <= y < x.value && y in old(th) ==> old(th)[y].state != FREE
      ensures x.Some? ==> th == old(th)[x.value := Thread(RUN, None, [])] && readyq == old(readyq) + [x.value]
    {
      hide QueuesOk, JoinsOk, OwnersOk, StealOk, StatesOk, EventsOk, ReqsOk, GrantsOk;
      var tno := 1;
      while tno < MAXTHREADS && !(tno in th && th[tno].state == FREE)
        invariant 1 <= tno <= MAXTHREADS && forall y: Tid :: 1 <= y < tno && y in th ==> th[y].state != FREE
      {
        tno := tno + 1;
      }
      if tno >= MAXTHREADS {
        return None;
      }
      CreateInv(th, mx, cv, evconds, readyq, runq, pls, want, t, tno);
      th := th[tno := Thread(RUN, None, [])];
      readyq := readyq + [tno];
      pls := pls[tno := Ready];
      return Some(tno);
    }

    /** pthread_mutex_init of a new mutex: owned by its creator, free. */
    method MutexInit(t: Tid, m: Mid)
      requires Valid() && cur == Some(t) && t in th && m !in mx
      modifies this`mx
      ensures Valid() && mx == old(mx)[m := Mutex(t, false, [])]
    {
      hide Inv;
      NewMutexInv(th, mx, cv, evconds, readyq, runq, cur, pls, want, t, m);
      mx := mx[m := Mutex(t, false, [])];
    }

    /** pthread_cond_init of a new condition. */
    method CondInit(c: Cid)
      requires Valid() && c !in cv
      modifies this`cv
      ensures Valid() && cv == old(cv)[c := Cond([], 0)]
    {
      hide Inv;
      NewCondInv(th, mx, cv, evconds, readyq, runq, cur, pls, want, c);
      cv := cv[c := Cond([], 0)];
    }

    /** pthread_exit by a thread that holds no mutex: its joiner, if any, runs again. */
    method Exit(t: Tid, detached: bool)
      requires Valid() && cur == Some(t) && t in th && t in pls && pls[t] == Current && t !in want
      requires forall m :: m in mx && mx[m].owner == t ==> !mx[m].locked
      modifies this
      ensures Valid() && cur == None && t in th && t in pls && pls[t] == Nowhere
      ensures th[t].state == (if detached then FREE else EXIT) && th[t].joiner == old(th)[t].joiner
      ensures old(th)[t].joiner.Some? ==> var j := old(th)[t].joiner.value; j in old(pls) && old(pls)[j] == Joining(t) && j in pls && pls[j] == Ready
      ensures HandedOver(old(mx), mx, t) && WokenFrom(old(cv), cv) && runq == old(runq)
      ensures EventsReadied(old(th), old(mx), old(cv), old(evconds), t,
                            old(readyq) + (if old(th)[t].joiner.Some? then [old(th)[t].joiner.value] else []), readyq)
      ensures MutexSteps(old(mx), mx) && CondSteps(old(cv), cv)
    {
      hide QueuesOk, JoinsOk, OwnersOk, StealOk, StatesOk, EventsOk, ReqsOk, GrantsOk, HandedOver, WokenFrom, MutexStep, QueueStep,
        EventsReadied;
      ghost var waked := if th[t].joiner.Some? then [th[t].joiner.value] else [];
      var joiner := th[t].joiner;             // set aside while the events are dealt with
      if th[t].joiner.Some? {
        var j := th[t].joiner.value;
        ReleaseInv(th, mx, cv, evconds, readyq, runq, pls, want, t, j);
        th := th[j := th[j].(state := RUN)][t := th[t].(joiner := None)];
        readyq := readyq + [j];
        pls := pls[j := Ready];
      }
      assert readyq == old(readyq) + waked;
      ghost var th1 := th;
      TEvents(t);
      ReadiedSame(old(th), th1, old(mx), old(cv), old(evconds), t, old(readyq) + waked, readyq);
      Unlocked(old(mx), mx, t);
      GoneInv(th, mx, cv, evconds, readyq, runq, pls, want, t, if detached then FREE else EXIT);
      th := th[t := th[t].(state := if detached then FREE else EXIT)];
      pls := pls[t := Nowhere];
      cur := None;
      JoinerFree(th, mx, cv, evconds, readyq, runq, cur, pls, want, t, joiner);
      th := th[t := th[t].(joiner := joiner)];
    }

    /** In every state between master operations each thread is on at most one queue, and its state says on which. */
    lemma OneQueue(t: Tid, m: Mid, m': Mid, c: Cid, c': Cid)
      requires Valid() && cur == None && m in mx && m' in mx && c in cv && c' in cv && t in th
      ensures t in readyq || t in runq ==> th[t].state == RUN && t !in mx[m].queue && t !in cv[c].queue && !(t in readyq && t in runq)
      ensures t in mx[m].queue ==> th[t].state == MUTEX && t !in cv[c].queue && (t in mx[m'].queue ==> m == m')
      ensures t in cv[c].queue ==> th[t].state == COND && (t in cv[c'].queue ==> c == c')
      ensures th[t].state == RUN ==> t in readyq || t in runq
    {
      hide QueuesOk, JoinsOk, ReqsOk, OwnersOk, StealOk, GrantsOk, EventsOk, Distinct, Holds;
      QueuePlaces(mx, cv, readyq, runq, pls, t, m, c);
      QueuePlaces(mx, cv, readyq, runq, pls, t, m', c');
    }

    /** All that condwakeups will wake. */
    ghost function WokenAll(): seq<Tid>
      reads this
      requires Valid()
    {
      Woken(evconds, cv)
    }
  }

  /* ---------- the other moves of the current thread ---------- */

  lemma HandedKeys(mx0: Mxs, mx: Mxs, t: Tid)
    requires HandedOver(mx0, mx, t)
    ensures mx.Keys == mx0.Keys
  {
  }

  lemma CurPlace(th: Ths, pls: Places, t: Tid)
    requires StatesOk(th, Some(t), pls)
    ensures t in pls && !pls[t].Ready? && !pls[t].Running? && !pls[t].Nowhere?
  {
  }

  lemma GrantPlace(mx: Mxs, pls: Places, want: map<Tid, Mid>, t: Tid)
    requires GrantsOk(mx, pls, want) && t in pls && pls[t] != Current && pls[t] != Ready
    ensures t in want ==> pls[t] == OnMutex(want[t])
  {
    if t in want { assert GrantAt(mx, pls, t, want[t]); }
  }

  lemma BlockInv(th: Ths, mx: Mxs, cv: Cvs, evconds: seq<Cid>, readyq: seq<Tid>, runq: seq<Tid>, pls: Places,
                 want: map<Tid, Mid>, t: Tid, newstate: State)
    requires Inv(th, mx, cv, evconds, readyq, runq, Some(t), pls, want) && t in th && t in pls && StateFits(newstate, pls[t])
    requires forall m :: m in mx && mx[m].owner == t && !mx[m].locked ==> mx[m].queue == []
    ensures Inv(th[t := th[t].(state := newstate)], mx, cv, evconds, readyq, runq, None, pls, want)
  {
    hide QueuesOk, OwnersOk, GrantsOk, ReqsOk, EventsOk;
    ReqsSame(th, th[t := th[t].(state := newstate)], mx);
    EventsIdle(cv, evconds, Some(t), pls);
    StealBlock(th, mx, t, newstate);
  }

  lemma EventsIdle(cv: Cvs, evconds: seq<Cid>, cur: Opt<Tid>, pls: Places)
    requires EventsOk(cv, evconds, cur, pls)
    ensures EventsOk(cv, evconds, None, pls)
  {
  }

  lemma StealBlock(th: Ths, mx: Mxs, t: Tid, newstate: State)
    requires StealOk(th, mx) && t in th && forall m :: m in mx && mx[m].owner == t && !mx[m].locked ==> mx[m].queue == []
    ensures StealOk(th[t := th[t].(state := newstate)], mx)
  {
  }

  lemma QueuesMove(mx: Mxs, cv: Cvs, readyq: seq<Tid>, runq: seq<Tid>, pls: Places, t: Tid, pl: Place)
    requires QueuesOk(mx, cv, readyq, runq, pls) && t in pls && pls[t] == Current
    requires pl.Running? || pl.Joining? || (pl.OnMutex? && pl.m in mx) || (pl.OnCond? && pl.c in cv) || pl.Nowhere?
    ensures pl.Running? ==> QueuesOk(mx, cv, readyq, runq + [t], pls[t := pl])
    ensures pl.OnMutex? ==> QueuesOk(mx[pl.m := mx[pl.m].(queue := mx[pl.m].queue + [t])], cv, readyq, runq, pls[t := pl])
    ensures pl.OnCond? ==> QueuesOk(mx, cv[pl.c := cv[pl.c].(queue := cv[pl.c].queue + [t])], readyq, runq, pls[t := pl])
    ensures pl.Joining? || pl.Nowhere? ==> QueuesOk(mx, cv, readyq, runq, pls[t := pl])
  {
    hide Holds;
    var pls' := pls[t := pl];
    HoldsOther(readyq, pls, Ready, t, pl);
    if pl.Running? { HoldsAdd(runq, pls, t, pl); } else { HoldsOther(runq, pls, Running, t, pl); }
    forall d | d in mx && pl != OnMutex(d) ensures Holds(mx[d].queue, pls', OnMutex(d)) { HoldsOther(mx[d].queue, pls, OnMutex(d), t, pl); }
    forall d | d in cv && pl != OnCond(d) ensures Holds(cv[d].queue, pls', OnCond(d)) { HoldsOther(cv[d].queue, pls, OnCond(d), t, pl); }
    if pl.OnMutex? { HoldsAdd(mx[pl.m].queue, pls, t, pl); }
    if pl.OnCond? { HoldsAdd(cv[pl.c].queue, pls, t, pl); }
  }

  /* One thread, which is executing or about to execute, goes to another place. */

  lemma StatesMove(th: Ths, cur: Opt<Tid>, cur': Opt<Tid>, pls: Places, t: Tid, pl: Place)
    requires StatesOk(th, cur, pls) && t in th && t in pls && th[t].state == RUN
    requires (cur == Some(t) || cur == None) && (cur' == Some(t) || cur' == None)
    requires if cur' == Some(t) then !pl.Nowhere? && !pl.Ready? && !pl.Running? else StateFits(RUN, pl)
    ensures StatesOk(th, cur', pls[t := pl])
  {
  }

  lemma OwnersMove(mx: Mxs, pls: Places, t: Tid, pl: Place)
    requires OwnersOk(mx, pls) && t in pls && !pl.Nowhere? && (pl.OnMutex? ==> pl.m in mx && mx[pl.m].owner != t)
    ensures OwnersOk(mx, pls[t := pl])
  {
  }

  lemma GrantsMove(mx: Mxs, pls: Places, want: map<Tid, Mid>, t: Tid, pl: Place)
    requires GrantsOk(mx, pls, want) && t in pls && !pls[t].OnMutex? && !pl.OnMutex? && (t in want ==> pls[t] == Ready && pl == Current)
    ensures GrantsOk(mx, pls[t := pl], want)
  {
    var pls' := pls[t := pl];
    forall u | u in want ensures GrantAt(mx, pls', u, want[u]) { assert GrantAt(mx, pls, u, want[u]); }
  }

  lemma EventsMove(cv: Cvs, evconds: seq<Cid>, cur: Opt<Tid>, cur': Opt<Tid>, pls: Places, t: Tid, pl: Place)
    requires EventsOk(cv, evconds, cur, pls) && (cur' == Some(t) || cur' == None) && (pl.OnCond? ==> pl.c !in evconds)
    ensures EventsOk(cv, evconds, cur', pls[t := pl])
  {
  }

  lemma RunsHere(th: Ths, cur: Opt<Tid>, pls: Places, t: Tid)
    requires StatesOk(th, cur, pls) && t in pls && (pls[t] == Ready || pls[t] == Running || cur == Some(t))
    ensures t in th && th[t].state == RUN
  {
  }

  lemma RunInv(th: Ths, mx: Mxs, cv: Cvs, evconds: seq<Cid>, readyq: seq<Tid>, runq: seq<Tid>, pls: Places,
               want: map<Tid, Mid>, t: Tid)
    requires Inv(th, mx, cv, evconds, readyq, runq, Some(t), pls, want) && t in th && t in pls && pls[t] == Current && t !in want
    ensures Inv(th, mx, cv, evconds, readyq, runq + [t], None, pls[t := Running], want)
  {
    hide QueuesOk, StatesOk, JoinsOk, ReqsOk, OwnersOk, StealOk, GrantsOk, EventsOk;
    QueuesMove(mx, cv, readyq, runq, pls, t, Running);
    JoinsSame(th, th, pls, pls[t := Running], t);
    RunsHere(th, Some(t), pls, t);
    StatesMove(th, Some(t), None, pls, t, Running);
    OwnersMove(mx, pls, t, Running);
    GrantsMove(mx, pls, want, t, Running);
    EventsMove(cv, evconds, Some(t), None, pls, t, Running);
  }

  /** The head of the ready queue, or of the run queue, is taken off it to execute. */
  lemma QueuesTake(mx: Mxs, cv: Cvs, readyq: seq<Tid>, runq: seq<Tid>, pls: Places)
    requires QueuesOk(mx, cv, readyq, runq, pls)
    ensures readyq != [] ==> readyq[0] in pls && pls[readyq[0]] == Ready && QueuesOk(mx, cv, readyq[1..], runq, pls[readyq[0] := Current])
    ensures runq != [] ==> runq[0] in pls && pls[runq[0]] == Running && QueuesOk(mx, cv, readyq, runq[1..], pls[runq[0] := Current])
  {
    if readyq != [] { QueuesTaken(mx, cv, readyq, runq, pls, readyq[0], Ready); }
    if runq != [] { QueuesTaken(mx, cv, readyq, runq, pls, runq[0], Running); }
  }

  lemma QueuesTaken(mx: Mxs, cv: Cvs, readyq: seq<Tid>, runq: seq<Tid>, pls: Places, t: Tid, pl: Place)
    requires QueuesOk(mx, cv, readyq, runq, pls)
    requires (pl == Ready && readyq != [] && t == readyq[0]) || (pl == Running && runq != [] && t == runq[0])
    ensures t in pls && pls[t] == pl
    ensures QueuesOk(mx, cv, if pl == Ready then readyq[1..] else readyq, if pl == Running then runq[1..] else runq, pls[t := Current])
  {
    hide Holds;
    var pls' := pls[t := Current];
    if pl == Ready {
      PlaceOf(readyq, pls, Ready, 0);
      HoldsHead(readyq, pls, Ready, Current);
      HoldsOther(runq, pls, Running, t, Current);
    } else {
      PlaceOf(runq, pls, Running, 0);
      HoldsHead(runq, pls, Running, Current);
      HoldsOther(readyq, pls, Ready, t, Current);
    }
    forall d | d in mx ensures Holds(mx[d].queue, pls', OnMutex(d)) { HoldsOther(mx[d].queue, pls, OnMutex(d), t, Current); }
    forall d | d in cv ensures Holds(cv[d].queue, pls', OnCond(d)) { HoldsOther(cv[d].queue, pls, OnCond(d), t, Current); }
  }

  lemma NotGranted(mx: Mxs, pls: Places, want: map<Tid, Mid>, t: Tid)
    requires GrantsOk(mx, pls, want) && t in pls && pls[t] == Running
    ensures t !in want
  {
    forall u | u in want ensures u != t { assert GrantAt(mx, pls, u, want[u]); }
  }

  lemma ResumeInv(th: Ths, mx: Mxs, cv: Cvs, evconds: seq<Cid>, readyq: seq<Tid>, runq: seq<Tid>, pls: Places, want: map<Tid, Mid>)
    requires Inv(th, mx, cv, evconds, readyq, runq, None, pls, want) && readyq != []
    ensures readyq[0] in th && readyq[0] in pls
    ensures Inv(th, mx, cv, evconds, readyq[1..], runq, Some(readyq[0]), pls[readyq[0] := Current], want)
  {
    hide QueuesOk, StatesOk, JoinsOk, ReqsOk, OwnersOk, StealOk, GrantsOk, EventsOk;
    var t := readyq[0];
    QueuesTake(mx, cv, readyq, runq, pls);
    JoinsSame(th, th, pls, pls[t := Current], t);
    RunsHere(th, None, pls, t);
    StatesMove(th, None, Some(t), pls, t, Current);
    OwnersMove(mx, pls, t, Current);
    GrantsMove(mx, pls, want, t, Current);
    EventsMove(cv, evconds, None, Some(t), pls, t, Current);
  }

  lemma CollectInv(th: Ths, mx: Mxs, cv: Cvs, evconds: seq<Cid>, readyq: seq<Tid>, runq: seq<Tid>, pls: Places, want: map<Tid, Mid>)
    requires Inv(th, mx, cv, evconds, readyq, runq, None, pls, want) && runq != []
    ensures runq[0] in th && runq[0] in pls && runq[0] !in want
    ensures Inv(th, mx, cv, evconds, readyq, runq[1..], Some(runq[0]), pls[runq[0] := Current], want)
  {
    hide QueuesOk, StatesOk, JoinsOk, ReqsOk, OwnersOk, StealOk, GrantsOk, EventsOk;
    var t := runq[0];
    QueuesTake(mx, cv, readyq, runq, pls);
    NotGranted(mx, pls, want, t);
    JoinsSame(th, th, pls, pls[t := Current], t);
    RunsHere(th, None, pls, t);
    StatesMove(th, None, Some(t), pls, t, Current);
    OwnersMove(mx, pls, t, Current);
    GrantsMove(mx, pls, want, t, Current);
    EventsMove(cv, evconds, None, Some(t), pls, t, Current);
  }

  lemma OwnerIn(th: Ths, mx: Mxs, m: Mid)
    requires ReqsOk(th, mx) && m in mx
    ensures mx[m].owner in th
  {
  }

  /* A mutex changes hands or its lock, its queue staying as it is. */

  lemma QueuesMx(mx: Mxs, cv: Cvs, readyq: seq<Tid>, runq: seq<Tid>, pls: Places, m: Mid, x: Mutex)
    requires QueuesOk(mx, cv, readyq, runq, pls) && m in mx && x.queue == mx[m].queue
    ensures QueuesOk(mx[m := x], cv, readyq, runq, pls)
  {
    hide Holds;
  }

  lemma ReqsMx(th: Ths, mx: Mxs, m: Mid, x: Mutex)
    requires ReqsOk(th, mx) && m in mx && x.queue == mx[m].queue && x.owner in th && (x.owner == mx[m].owner || x.queue == [])
    ensures ReqsOk(th, mx[m := x])
  {
    var mx' := mx[m := x];
    assert m in th[x.owner].reqs ==> mx[m].owner == x.owner;
    forall t, d | t in th && d in th[t].reqs ensures d in mx' && mx'[d].owner == t {
      assert mx[d].owner == t;
    }
  }

  lemma OwnersMx(mx: Mxs, pls: Places, m: Mid, x: Mutex)
    requires OwnersOk(mx, pls) && m in mx && x.owner in pls && pls[x.owner] != OnMutex(m) && !pls[x.owner].Nowhere?
    ensures OwnersOk(mx[m := x], pls)
  {
  }

  lemma StealMx(th: Ths, mx: Mxs, m: Mid, x: Mutex)
    requires StealOk(th, mx) && m in mx && x.owner in th && th[x.owner].state == RUN
    ensures StealOk(th, mx[m := x])
  {
  }

  lemma GrantsMx(mx: Mxs, pls: Places, want: map<Tid, Mid>, m: Mid, x: Mutex)
    requires GrantsOk(mx, pls, want) && m in mx
    requires forall u :: u in want && want[u] == m && u in pls && pls[u] != OnMutex(m) ==> x.owner == u && !x.locked
    ensures GrantsOk(mx[m := x], pls, want)
  {
    var mx' := mx[m := x];
    forall u | u in want ensures GrantAt(mx', pls, u, want[u]) { assert GrantAt(mx, pls, u, want[u]); }
  }

  /** Nobody but the owner has been given the mutex. */
  lemma OnlyOwner(mx: Mxs, pls: Places, want: map<Tid, Mid>, m: Mid)
    requires GrantsOk(mx, pls, want) && m in mx
    ensures forall u :: u in want && want[u] == m && u in pls && pls[u] != OnMutex(m) ==>
              mx[m].owner == u && !mx[m].locked && (pls[u] == Ready || pls[u] == Current)
  {
    forall u | u in want && want[u] == m && u in pls && pls[u] != OnMutex(m)
      ensures mx[m].owner == u && !mx[m].locked && (pls[u] == Ready || pls[u] == Current)
    {
      assert GrantAt(mx, pls, u, m);
    }
  }

  lemma OwnerStuck(th: Ths, cur: Opt<Tid>, pls: Places, u: Tid)
    requires StatesOk(th, cur, pls) && u in th && th[u].state != RUN && u in pls
    ensures pls[u] != Ready && pls[u] != Current
  {
  }

  lemma Unwaited(th: Ths, mx: Mxs, m: Mid)
    requires StealOk(th, mx) && m in mx && !mx[m].locked && mx[m].owner in th && th[mx[m].owner].state != RUN
    ensures mx[m].queue == []
  {
  }

  /** Taking over an unlocked mutex from a blocked owner: nobody waits for it. */
  lemma StealInv(th: Ths, mx: Mxs, cv: Cvs, evconds: seq<Cid>, readyq: seq<Tid>, runq: seq<Tid>, pls: Places,
                 want: map<Tid, Mid>, t: Tid, m: Mid)
    requires Inv(th, mx, cv, evconds, readyq, runq, Some(t), pls, want) && t in th && t in pls && pls[t] == Current && m in mx
    requires !mx[m].locked && mx[m].owner in th && th[mx[m].owner].state != RUN
    ensures mx[m].queue == [] && Inv(th, mx[m := mx[m].(owner := t)], cv, evconds, readyq, runq, Some(t), pls, want)
  {
    hide QueuesOk, StatesOk, JoinsOk, ReqsOk, OwnersOk, StealOk, GrantsOk, EventsOk;
    var x := mx[m].(owner := t);
    Unwaited(th, mx, m);
    OnlyOwner(mx, pls, want, m);
    RunsHere(th, Some(t), pls, t);
    if mx[m].owner in pls { OwnerStuck(th, Some(t), pls, mx[m].owner); }
    QueuesMx(mx, cv, readyq, runq, pls, m, x);
    ReqsMx(th, mx, m, x);
    OwnersMx(mx, pls, m, x);
    StealMx(th, mx, m, x);
    GrantsMx(mx, pls, want, m, x);
  }

  lemma WaitReqs(th: Ths, mx: Mxs, t: Tid, m: Mid)
    requires ReqsOk(th, mx) && m in mx
    ensures mx[m].owner in th
    ensures var th' := if mx[m].queue == [] then th[mx[m].owner := th[mx[m].owner].(reqs := [m] + th[mx[m].owner].reqs)] else th;
            ReqsOk(th', mx[m := mx[m].(queue := mx[m].queue + [t])])
  {
  }

  /** Queueing for a mutex that is locked or whose owner runs. */
  lemma WaitInv(th: Ths, mx: Mxs, cv: Cvs, evconds: seq<Cid>, readyq: seq<Tid>, runq: seq<Tid>, pls: Places,
                want: map<Tid, Mid>, t: Tid, m: Mid)
    requires Inv(th, mx, cv, evconds, readyq, runq, Some(t), pls, want) && t in th && t in pls && pls[t] == Current && t !in want
    requires m in mx && mx[m].owner in th && mx[m].owner != t && (mx[m].locked || th[mx[m].owner].state == RUN)
    ensures var th' := if mx[m].queue == [] then th[mx[m].owner := th[mx[m].owner].(reqs := [m] + th[mx[m].owner].reqs)] else th;
            Inv(th', mx[m := mx[m].(queue := mx[m].queue + [t])], cv, evconds, readyq, runq, Some(t), pls[t := OnMutex(m)], want[t := m])
  {
    hide QueuesOk, StatesOk, JoinsOk, ReqsOk, OwnersOk, StealOk, GrantsOk, EventsOk;
    var th' := if mx[m].queue == [] then th[mx[m].owner := th[mx[m].owner].(reqs := [m] + th[mx[m].owner].reqs)] else th;
    var mx', pls' := mx[m := mx[m].(queue := mx[m].queue + [t])], pls[t := OnMutex(m)];
    QueuesMove(mx, cv, readyq, runq, pls, t, OnMutex(m));
    WaitReqs(th, mx, t, m);
    JoinsSame(th, th', pls, pls', t);
    RunsHere(th, Some(t), pls, t);
    StatesMove(th, Some(t), Some(t), pls, t, OnMutex(m));
    StatesReqs(th, th', Some(t), pls');
    OwnersWait(mx, mx', pls, t, m);
    StealWait(th, th', mx, mx', m);
    GrantsWait(mx, mx', pls, want, t, m);
    EventsMove(cv, evconds, Some(t), Some(t), pls, t, OnMutex(m));
  }

  lemma StatesReqs(th: Ths, th': Ths, cur: Opt<Tid>, pls: Places)
    requires StatesOk(th, cur, pls) && th'.Keys == th.Keys && forall u :: u in th ==> th'[u].state == th[u].state
    ensures StatesOk(th', cur, pls)
  {
  }

  lemma OwnersWait(mx: Mxs, mx': Mxs, pls: Places, t: Tid, m: Mid)
    requires OwnersOk(mx, pls) && m in mx && mx' == mx[m := mx[m].(queue := mx[m].queue + [t])] && mx[m].owner != t && t in pls
    ensures OwnersOk(mx', pls[t := OnMutex(m)])
  {
  }

  lemma StealWait(th: Ths, th': Ths, mx: Mxs, mx': Mxs, m: Mid)
    requires StealOk(th, mx) && m in mx && (mx[m].locked || (mx[m].owner in th && th[mx[m].owner].state == RUN))
    requires th'.Keys == th.Keys && forall u :: u in th ==> th'[u].state == th[u].state
    requires m in mx' && mx' == mx[m := mx'[m]] && mx'[m].owner == mx[m].owner && mx'[m].locked == mx[m].locked
    ensures StealOk(th', mx')
  {
  }

  lemma GrantsWait(mx: Mxs, mx': Mxs, pls: Places, want: map<Tid, Mid>, t: Tid, m: Mid)
    requires GrantsOk(mx, pls, want) && t in pls && t !in want && m in mx && mx' == mx[m := mx[m].(queue := mx[m].queue + [t])]
    ensures GrantsOk(mx', pls[t := OnMutex(m)], want[t := m])
  {
    var pls', want' := pls[t := OnMutex(m)], want[t := m];
    forall u | u in want' ensures GrantAt(mx', pls', u, want'[u]) {
      if u != t { assert GrantAt(mx, pls, u, want[u]); }
    }
  }

  lemma LockInv(th: Ths, mx: Mxs, cv: Cvs, evconds: seq<Cid>, readyq: seq<Tid>, runq: seq<Tid>, pls: Places,
                want: map<Tid, Mid>, t: Tid, m: Mid)
    requires Inv(th, mx, cv, evconds, readyq, runq, Some(t), pls, want) && t in th && t in pls && pls[t] == Current && t !in want
    requires m in mx && mx[m].owner == t
    ensures Inv(th, mx[m := mx[m].(locked := true)], cv, evconds, readyq, runq, Some(t), pls, want)
  {
    hide QueuesOk, StatesOk, JoinsOk, ReqsOk, OwnersOk, StealOk, GrantsOk, EventsOk;
    var x := mx[m].(locked := true);
    OnlyOwner(mx, pls, want, m);
    RunsHere(th, Some(t), pls, t);
    QueuesMx(mx, cv, readyq, runq, pls, m, x);
    ReqsMx(th, mx, m, x);
    OwnersMx(mx, pls, m, x);
    StealMx(th, mx, m, x);
    GrantsMx(mx, pls, want, m, x);
  }

  lemma WantLess(mx: Mxs, pls: Places, want: map<Tid, Mid>, t: Tid)
    requires GrantsOk(mx, pls, want) && t in pls && !pls[t].OnMutex?
    ensures GrantsOk(mx, pls, want - {t})
  {
    var want' := want - {t};
    forall u | u in want' ensures GrantAt(mx, pls, u, want'[u]) { assert GrantAt(mx, pls, u, want[u]); }
  }

  lemma GrantedTo(mx: Mxs, pls: Places, want: map<Tid, Mid>, t: Tid)
    requires GrantsOk(mx, pls, want) && t in want && t in pls && !pls[t].OnMutex?
    ensures want[t] in mx && mx[want[t]].owner == t && !mx[want[t]].locked
  {
    assert GrantAt(mx, pls, t, want[t]);
  }

  lemma GrantedInv(th: Ths, mx: Mxs, cv: Cvs, evconds: seq<Cid>, readyq: seq<Tid>, runq: seq<Tid>, pls: Places,
                   want: map<Tid, Mid>, t: Tid, m: Mid)
    requires Inv(th, mx, cv, evconds, readyq, runq, Some(t), pls, want) && t in th && t in pls && pls[t] == Current
    requires t in want && want[t] == m
    ensures m in mx && mx[m].owner == t && !mx[m].locked
    ensures Inv(th, mx[m := mx[m].(locked := true)], cv, evconds, readyq, runq, Some(t), pls, want - {t})
  {
    hide QueuesOk, StatesOk, JoinsOk, ReqsOk, OwnersOk, StealOk, GrantsOk, EventsOk;
    GrantedTo(mx, pls, want, t);
    WantLess(mx, pls, want, t);
    LockInv(th, mx, cv, evconds, readyq, runq, pls, want - {t}, t, m);
  }

  lemma UnlockInv(th: Ths, mx: Mxs, cv: Cvs, evconds: seq<Cid>, readyq: seq<Tid>, runq: seq<Tid>, pls: Places,
                  want: map<Tid, Mid>, t: Tid, m: Mid)
    requires Inv(th, mx, cv, evconds, readyq, runq, Some(t), pls, want) && t in th && t in pls && m in mx && mx[m].owner == t
    ensures Inv(th, mx[m := mx[m].(locked := false)], cv, evconds, readyq, runq, Some(t), pls, want)
  {
    hide QueuesOk, StatesOk, JoinsOk, ReqsOk, OwnersOk, StealOk, GrantsOk, EventsOk;
    var x := mx[m].(locked := false);
    OnlyOwner(mx, pls, want, m);
    RunsHere(th, Some(t), pls, t);
    OwnerPlace(th, mx, pls, t, m);
    QueuesMx(mx, cv, readyq, runq, pls, m, x);
    ReqsMx(th, mx, m, x);
    OwnersMx(mx, pls, m, x);
    StealMx(th, mx, m, x);
    GrantsMx(mx, pls, want, m, x);
  }

  lemma OwnerPlace(th: Ths, mx: Mxs, pls: Places, t: Tid, m: Mid)
    requires OwnersOk(mx, pls) && StatesOk(th, Some(t), pls) && m in mx && mx[m].owner == t && t in pls
    ensures pls[t] != OnMutex(m) && !pls[t].Nowhere?
  {
  }

  lemma CvKnown(cv: Cvs, evconds: seq<Cid>, cur: Opt<Tid>, pls: Places, c: Cid)
    requires EventsOk(cv, evconds, cur, pls) && c in cv
    ensures c in evconds <==> cv[c].nwake > 0
    ensures cv[c].nwake == 0 ==> Distinct([c] + evconds)
  {
  }

  lemma SleepInv(th: Ths, mx: Mxs, cv: Cvs, evconds: seq<Cid>, readyq: seq<Tid>, runq: seq<Tid>, pls: Places,
                 want: map<Tid, Mid>, t: Tid, c: Cid)
    requires Inv(th, mx, cv, evconds, readyq, runq, Some(t), pls, want) && t in th && t in pls && pls[t] == Current && t !in want
    requires c in cv && cv[c].nwake == 0
    ensures Inv(th, mx, cv[c := cv[c].(queue := cv[c].queue + [t])], evconds, readyq, runq, Some(t), pls[t := OnCond(c)], want)
  {
    hide QueuesOk, StatesOk, JoinsOk, ReqsOk, OwnersOk, StealOk, GrantsOk, EventsOk;
    var cv' := cv[c := cv[c].(queue := cv[c].queue + [t])];
    QueuesMove(mx, cv, readyq, runq, pls, t, OnCond(c));
    JoinsSame(th, th, pls, pls[t := OnCond(c)], t);
    RunsHere(th, Some(t), pls, t);
    StatesMove(th, Some(t), Some(t), pls, t, OnCond(c));
    OwnersMove(mx, pls, t, OnCond(c));
    GrantsMove(mx, pls, want, t, OnCond(c));
    CvKnown(cv, evconds, Some(t), pls, c);
    EventsMove(cv, evconds, Some(t), Some(t), pls, t, OnCond(c));
    EventsSleep(cv, cv', evconds, Some(t), pls[t := OnCond(c)]);
  }

  lemma EventsSleep(cv: Cvs, cv': Cvs, evconds: seq<Cid>, cur: Opt<Tid>, pls: Places)
    requires EventsOk(cv, evconds, cur, pls) && cv'.Keys == cv.Keys && forall c :: c in cv ==> cv'[c].nwake == cv[c].nwake
    ensures EventsOk(cv', evconds, cur, pls)
  {
  }

  lemma JoinInv(th: Ths, mx: Mxs, cv: Cvs, evconds: seq<Cid>, readyq: seq<Tid>, runq: seq<Tid>, pls: Places,
                want: map<Tid, Mid>, t: Tid, x: Tid)
    requires Inv(th, mx, cv, evconds, readyq, runq, Some(t), pls, want) && t in th && t in pls && pls[t] == Current && t !in want
    requires x in th && x != t && th[x].state != FREE && th[x].state != EXIT && th[x].joiner == None
    ensures Inv(th[x := th[x].(joiner := Some(t))], mx, cv, evconds, readyq, runq, Some(t), pls[t := Joining(x)], want)
  {
    hide QueuesOk, ReqsOk, OwnersOk, StealOk, GrantsOk, EventsOk, JoinsOk, StatesOk;
    var th' := th[x := th[x].(joiner := Some(t))];
    JoinStates(th, pls, t, x);
    JoinJoins(th, pls, t, x);
    QueuesMove(mx, cv, readyq, runq, pls, t, Joining(x));
    ReqsSame(th, th', mx);
    OwnersMove(mx, pls, t, Joining(x));
    GrantsMove(mx, pls, want, t, Joining(x));
    EventsMove(cv, evconds, Some(t), Some(t), pls, t, Joining(x));
    StealStates(th, th', mx);
  }

  lemma JoinStates(th: Ths, pls: Places, t: Tid, x: Tid)
    requires StatesOk(th, Some(t), pls) && t in th && t in pls && pls[t] == Current
    requires x in th && x != t && th[x].state != FREE && th[x].state != EXIT
    ensures x in pls && pls[x] != Nowhere && th.Keys == pls.Keys
    ensures StatesOk(th[x := th[x].(joiner := Some(t))], Some(t), pls[t := Joining(x)])
  {
  }

  lemma JoinJoins(th: Ths, pls: Places, t: Tid, x: Tid)
    requires JoinsOk(th, pls) && t in th && t in pls && pls[t] == Current
    requires x in th && x != t && pls[x] != Nowhere && th[x].joiner == None
    ensures JoinsOk(th[x := th[x].(joiner := Some(t))], pls[t := Joining(x)])
  {
  }

  lemma StealStates(th: Ths, th': Ths, mx: Mxs)
    requires StealOk(th, mx) && th'.Keys == th.Keys
    requires forall u :: u in th ==> th'[u].state == RUN || (th[u].state != RUN && th'[u].state != RUN)
    ensures StealOk(th', mx)
  {
  }

  lemma FreeInv(th: Ths, mx: Mxs, cv: Cvs, evconds: seq<Cid>, readyq: seq<Tid>, runq: seq<Tid>, pls: Places,
                want: map<Tid, Mid>, t: Tid, x: Tid)
    requires Inv(th, mx, cv, evconds, readyq, runq, Some(t), pls, want) && x in th && x != t && th[x].state == EXIT
    ensures Inv(th[x := th[x].(state := FREE)], mx, cv, evconds, readyq, runq, Some(t), pls, want)
  {
    hide QueuesOk, ReqsOk, OwnersOk, StealOk, GrantsOk, EventsOk, JoinsOk, StatesOk;
    FreeStates(th, pls, t, x);
    ReqsSame(th, th[x := th[x].(state := FREE)], mx);
    StealStates(th, th[x := th[x].(state := FREE)], mx);
  }

  lemma FreeStates(th: Ths, pls: Places, t: Tid, x: Tid)
    requires StatesOk(th, Some(t), pls) && JoinsOk(th, pls) && x in th && x != t && th[x].state == EXIT
    ensures StatesOk(th[x := th[x].(state := FREE)], Some(t), pls) && JoinsOk(th[x := th[x].(state := FREE)], pls)
  {
  }

  /** The joiner of an exiting thread becomes ready. */
  lemma ReleaseInv(th: Ths, mx: Mxs, cv: Cvs, evconds: seq<Cid>, readyq: seq<Tid>, runq: seq<Tid>, pls: Places,
                   want: map<Tid, Mid>, t: Tid, j: Tid)
    requires Inv(th, mx, cv, evconds, readyq, runq, Some(t), pls, want) && t in th && t in pls && pls[t] == Current
    requires th[t].joiner == Some(j)
    ensures j in th && j in pls && j != t && pls[j] == Joining(t)
    ensures Inv(th[j := th[j].(state := RUN)][t := th[t].(joiner := None)], mx, cv, evconds, readyq + [j], runq, Some(t), pls[j := Ready], want)
  {
    hide QueuesOk, ReqsOk, OwnersOk, StealOk, GrantsOk, EventsOk;
    JoinerOf(th, pls, t, j);
    hide JoinsOk, StatesOk;
    var th' := th[j := th[j].(state := RUN)][t := th[t].(joiner := None)];
    JoinsRelease(th, pls, t, j);
    StatesRelease(th, pls, t, j);
    QueuesRelease(mx, cv, readyq, runq, pls, j);
    ReqsSame(th, th', mx);
    StealStates(th, th', mx);
    OwnersMove(mx, pls, j, Ready);
    NotWanting(mx, pls, want, j);
    GrantsMove(mx, pls, want, j, Ready);
    EventsReady(cv, evconds, Some(t), pls, j);
  }

  lemma JoinerOf(th: Ths, pls: Places, t: Tid, j: Tid)
    requires JoinsOk(th, pls) && t in th && pls[t] == Current && th[t].joiner == Some(j)
    ensures j in th && j in pls && j != t && pls[j] == Joining(t)
  {
  }

  lemma JoinsRelease(th: Ths, pls: Places, t: Tid, j: Tid)
    requires JoinsOk(th, pls) && t in th && pls[t] == Current && j in th && pls[j] == Joining(t) && th[t].joiner == Some(j)
    ensures JoinsOk(th[j := th[j].(state := RUN)][t := th[t].(joiner := None)], pls[j := Ready])
  {
  }

  lemma StatesRelease(th: Ths, pls: Places, t: Tid, j: Tid)
    requires StatesOk(th, Some(t), pls) && j in th && j != t
    ensures StatesOk(th[j := th[j].(state := RUN)][t := th[t].(joiner := None)], Some(t), pls[j := Ready])
  {
  }

  lemma EventsReady(cv: Cvs, evconds: seq<Cid>, cur: Opt<Tid>, pls: Places, j: Tid)
    requires EventsOk(cv, evconds, cur, pls) && cur != Some(j)
    ensures EventsOk(cv, evconds, cur, pls[j := Ready])
  {
  }

  lemma NotWanting(mx: Mxs, pls: Places, want: map<Tid, Mid>, j: Tid)
    requires GrantsOk(mx, pls, want) && j in pls && pls[j].Joining?
    ensures j !in want
  {
    forall u | u in want ensures u != j { assert GrantAt(mx, pls, u, want[u]); }
  }

  lemma QueuesRelease(mx: Mxs, cv: Cvs, readyq: seq<Tid>, runq: seq<Tid>, pls: Places, j: Tid)
    requires QueuesOk(mx, cv, readyq, runq, pls) && j in pls && (pls[j].Joining? || pls[j].Nowhere?)
    ensures QueuesOk(mx, cv, readyq + [j], runq, pls[j := Ready])
  {
    hide Holds;
    var pls' := pls[j := Ready];
    HoldsAdd(readyq, pls, j, Ready);
    HoldsOther(runq, pls, Running, j, Ready);
    forall d | d in mx ensures Holds(mx[d].queue, pls', OnMutex(d)) { HoldsOther(mx[d].queue, pls, OnMutex(d), j, Ready); }
    forall d | d in cv ensures Holds(cv[d].queue, pls', OnCond(d)) { HoldsOther(cv[d].queue, pls, OnCond(d), j, Ready); }
  }

  /** A free slot becomes a ready thread. */
  lemma CreateInv(th: Ths, mx: Mxs, cv: Cvs, evconds: seq<Cid>, readyq: seq<Tid>, runq: seq<Tid>, pls: Places,
                  want: map<Tid, Mid>, t: Tid, x: Tid)
    requires Inv(th, mx, cv, evconds, readyq, runq, Some(t), pls, want) && x in th && th[x].state == FREE
    ensures x != t && x in pls && x !in want
    ensures Inv(th[x := Thread(RUN, None, [])], mx, cv, evconds, readyq + [x], runq, Some(t), pls[x := Ready], want)
  {
    hide QueuesOk, ReqsOk, OwnersOk, StealOk, GrantsOk, EventsOk, JoinsOk;
    var th' := th[x := Thread(RUN, None, [])];
    assert pls[x] == Nowhere;
    QueuesRelease(mx, cv, readyq, runq, pls, x);
    NoReqs(th, mx, pls, x);
    ReqsSame(th, th', mx);
    StealStates(th, th', mx);
    OwnersMove(mx, pls, x, Ready);
    JoinsCreate(th, pls, x);
    NowhereWants(mx, pls, want, x);
    GrantsMove(mx, pls, want, x, Ready);
    EventsReady(cv, evconds, Some(t), pls, x);
  }

  lemma JoinsCreate(th: Ths, pls: Places, x: Tid)
    requires JoinsOk(th, pls) && x in th && pls[x] == Nowhere
    ensures JoinsOk(th[x := Thread(RUN, None, [])], pls[x := Ready])
  {
  }

  lemma NowhereWants(mx: Mxs, pls: Places, want: map<Tid, Mid>, x: Tid)
    requires GrantsOk(mx, pls, want) && x in pls && pls[x] == Nowhere
    ensures x !in want
  {
  }

  /** A thread that has gone left no mutex that somebody waits for. */
  lemma NoReqs(th: Ths, mx: Mxs, pls: Places, x: Tid)
    requires ReqsOk(th, mx) && StealOk(th, mx) && OwnersOk(mx, pls) && x in th && x in pls && pls[x] == Nowhere && th[x].state != RUN
    ensures th[x].reqs == []
  {
    forall m | m in mx && mx[m].owner == x ensures !mx[m].locked && mx[m].queue == [] && m !in th[x].reqs {
    }
    SomeIn(th[x].reqs);
  }

  lemma SomeIn(r: seq<Mid>)
    ensures r != [] ==> exists m :: m in r
  {
    if r != [] { assert r[0] in r; }
  }

  lemma NewMutexInv(th: Ths, mx: Mxs, cv: Cvs, evconds: seq<Cid>, readyq: seq<Tid>, runq: seq<Tid>, cur: Opt<Tid>, pls: Places,
                    want: map<Tid, Mid>, t: Tid, m: Mid)
    requires Inv(th, mx, cv, evconds, readyq, runq, cur, pls, want) && t in th && m !in mx
    ensures Inv(th, mx[m := Mutex(t, false, [])], cv, evconds, readyq, runq, cur, pls, want)
  {
    hide StatesOk, JoinsOk, EventsOk, QueuesOk, ReqsOk, OwnersOk, StealOk, GrantsOk;
    NewMutexQueues(mx, cv, readyq, runq, pls, t, m);
    KnownMutexes(mx, cv, readyq, runq, pls);
    NewMutexOwners(th, mx, pls, t, m);
    NewMutexGrants(mx, pls, want, t, m);
  }

  lemma KnownMutexes(mx: Mxs, cv: Cvs, readyq: seq<Tid>, runq: seq<Tid>, pls: Places)
    requires QueuesOk(mx, cv, readyq, runq, pls)
    ensures forall u :: u in pls && pls[u].OnMutex? ==> pls[u].m in mx
  {
  }

  lemma NewMutexQueues(mx: Mxs, cv: Cvs, readyq: seq<Tid>, runq: seq<Tid>, pls: Places, t: Tid, m: Mid)
    requires QueuesOk(mx, cv, readyq, runq, pls) && m !in mx
    ensures QueuesOk(mx[m := Mutex(t, false, [])], cv, readyq, runq, pls)
  {
    hide Holds;
    NobodyHolds(pls, m);
  }

  lemma NobodyHolds(pls: Places, m: Mid)
    requires forall t :: t in pls && pls[t].OnMutex? ==> pls[t].m != m
    ensures Holds([], pls, OnMutex(m))
  {
  }

  lemma NewMutexOwners(th: Ths, mx: Mxs, pls: Places, t: Tid, m: Mid)
    requires ReqsOk(th, mx) && OwnersOk(mx, pls) && StealOk(th, mx) && t in th && m !in mx
    requires forall u :: u in pls && pls[u].OnMutex? ==> pls[u].m in mx
    ensures ReqsOk(th, mx[m := Mutex(t, false, [])]) && OwnersOk(mx[m := Mutex(t, false, [])], pls) && StealOk(th, mx[m := Mutex(t, false, [])])
  {
    hide Distinct;
  }

  lemma NewMutexGrants(mx: Mxs, pls: Places, want: map<Tid, Mid>, t: Tid, m: Mid)
    requires GrantsOk(mx, pls, want) && m !in mx
    ensures GrantsOk(mx[m := Mutex(t, false, [])], pls, want)
  {
    forall u | u in want ensures GrantAt(mx[m := Mutex(t, false, [])], pls, u, want[u]) { assert GrantAt(mx, pls, u, want[u]); }
  }

  lemma NewCondInv(th: Ths, mx: Mxs, cv: Cvs, evconds: seq<Cid>, readyq: seq<Tid>, runq: seq<Tid>, cur: Opt<Tid>, pls: Places,
                   want: map<Tid, Mid>, c: Cid)
    requires Inv(th, mx, cv, evconds, readyq, runq, cur, pls, want) && c !in cv
    ensures Inv(th, mx, cv[c := Cond([], 0)], evconds, readyq, runq, cur, pls, want)
  {
    hide StatesOk, JoinsOk, ReqsOk, OwnersOk, StealOk, GrantsOk;
  }

  /** Whom a thread that has gone remembers as its joiner does not matter. */
  lemma JoinerFree(th: Ths, mx: Mxs, cv: Cvs, evconds: seq<Cid>, readyq: seq<Tid>, runq: seq<Tid>, cur: Opt<Tid>, pls: Places,
                   want: map<Tid, Mid>, t: Tid, j: Opt<Tid>)
    requires Inv(th, mx, cv, evconds, readyq, runq, cur, pls, want) && t in th && t in pls && pls[t] == Nowhere
    ensures Inv(th[t := th[t].(joiner := j)], mx, cv, evconds, readyq, runq, cur, pls, want)
  {
    hide QueuesOk, OwnersOk, GrantsOk, EventsOk, ReqsOk, StealOk, JoinsOk, StatesOk;
    JoinerJoins(th, cur, pls, t, j);
    ReqsSame(th, th[t := th[t].(joiner := j)], mx);
    StealStates(th, th[t := th[t].(joiner := j)], mx);
  }

  lemma JoinerJoins(th: Ths, cur: Opt<Tid>, pls: Places, t: Tid, j: Opt<Tid>)
    requires JoinsOk(th, pls) && StatesOk(th, cur, pls) && t in th && t in pls && pls[t] == Nowhere
    ensures JoinsOk(th[t := th[t].(joiner := j)], pls) && StatesOk(th[t := th[t].(joiner := j)], cur, pls)
  {
  }

  lemma Unlocked(mx0: Mxs, mx: Mxs, t: Tid)
    requires HandedOver(mx0, mx, t) && forall m :: m in mx0 && mx0[m].owner == t ==> !mx0[m].locked
    ensures forall m :: m in mx && mx[m].owner == t ==> !mx[m].locked
  {
  }

  /** A thread without mutexes and without a joiner waiting for it leaves. */
  lemma GoneInv(th: Ths, mx: Mxs, cv: Cvs, evconds: seq<Cid>, readyq: seq<Tid>, runq: seq<Tid>, pls: Places,
                want: map<Tid, Mid>, t: Tid, s: State)
    requires Inv(th, mx, cv, evconds, readyq, runq, Some(t), pls, want) && t in th && t in pls && pls[t] == Current && t !in want
    requires th[t].joiner == None && (s == FREE || s == EXIT)
    requires forall m :: m in mx && mx[m].owner == t ==> !mx[m].locked && mx[m].queue == []
    ensures Inv(th[t := th[t].(state := s)], mx, cv, evconds, readyq, runq, None, pls[t := Nowhere], want)
  {
    hide QueuesOk, ReqsOk, GrantsOk, EventsOk, StealOk, JoinsOk, StatesOk, OwnersOk;
    var th' := th[t := th[t].(state := s)];
    GoneStates(th, mx, pls, t, s);
    QueuesMove(mx, cv, readyq, runq, pls, t, Nowhere);
    ReqsSame(th, th', mx);
    StealBlock(th, mx, t, s);
    GrantsMove(mx, pls, want, t, Nowhere);
    EventsMove(cv, evconds, Some(t), None, pls, t, Nowhere);
  }

  lemma GoneStates(th: Ths, mx: Mxs, pls: Places, t: Tid, s: State)
    requires StatesOk(th, Some(t), pls) && JoinsOk(th, pls) && OwnersOk(mx, pls) && t in th && t in pls && pls[t] == Current
    requires th[t].joiner == None && (s == FREE || s == EXIT) && forall m :: m in mx && mx[m].owner == t ==> !mx[m].locked
    ensures StatesOk(th[t := th[t].(state := s)], None, pls[t := Nowhere]) && JoinsOk(th[t := th[t].(state := s)], pls[t := Nowhere])
    ensures OwnersOk(mx, pls[t := Nowhere])
  {
  }

  /** A thread's place says which queue it is on. */
  lemma QueuePlaces(mx: Mxs, cv: Cvs, readyq: seq<Tid>, runq: seq<Tid>, pls: Places, t: Tid, m: Mid, c: Cid)
    requires QueuesOk(mx, cv, readyq, runq, pls) && t in pls && m in mx && c in cv
    ensures (t in readyq <==> pls[t] == Ready) && (t in runq <==> pls[t] == Running)
    ensures (t in mx[m].queue <==> pls[t] == OnMutex(m)) && (t in cv[c].queue <==> pls[t] == OnCond(c))
  {
    assert Holds(mx[m].queue, pls, OnMutex(m)) && Holds(cv[c].queue, pls, OnCond(c));
  }

  lemma Asleep(mx: Mxs, cv: Cvs, readyq: seq<Tid>, runq: seq<Tid>, pls: Places, t: Tid, c: Cid)
    requires QueuesOk(mx, cv, readyq, runq, pls) && t in pls && pls[t] == OnCond(c)
    ensures c in cv && t in cv[c].queue
  {
    assert Holds(cv[c].queue, pls, OnCond(c));
  }

  lemma Ends(q: seq<Tid>, w: nat, k: nat)
    requires k <= |q| && k <= w && (k == w || k == |q|)
    ensures q[k..] == Back(q, w) && q[..k] == Front(q, w)
  {
  }

  lemma Regroup(a: seq<Tid>, b: seq<Tid>, c: seq<Tid>)
    ensures a + b + c == a + (b + c)
  {
  }

  ghost predicate ReadyStays(pls: Places, pls': Places)
  {
    forall u :: u in pls && pls[u] == Ready ==> u in pls' && pls'[u] == Ready
  }

  /** Threads keep their request lists and joiners; the current thread stays where it is. */
  ghost predicate Undisturbed(th: Ths, th': Ths, cur: Opt<Tid>, pls: Places, pls': Places)
  {
    && ReadyStays(pls, pls')
    && th'.Keys == th.Keys && (forall t :: t in th ==> th'[t].reqs == th[t].reqs && th'[t].joiner == th[t].joiner)
    && (cur.Some? && cur.value in pls && cur.value in th ==> cur.value in pls' && pls'[cur.value] == pls[cur.value] && th'[cur.value] == th[cur.value])
  }

  lemma UndisturbedRefl(th: Ths, cur: Opt<Tid>, pls: Places)
    ensures Undisturbed(th, th, cur, pls, pls)
  {
  }

  lemma UndisturbedTrans(th: Ths, th1: Ths, th2: Ths, cur: Opt<Tid>, pls: Places, pls1: Places, pls2: Places)
    requires Undisturbed(th, th1, cur, pls, pls1) && Undisturbed(th1, th2, cur, pls1, pls2)
    ensures Undisturbed(th, th2, cur, pls, pls2)
  {
  }

  /** Some mutexes of t have been handed over. */
  ghost predicate HandedSome(mx0: Mxs, mx: Mxs, t: Tid)
  {
    mx.Keys == mx0.Keys && forall m :: m in mx ==> mx[m] == mx0[m] || GivenAway(mx0[m], mx[m], t)
  }

  predicate GivenAway(x0: Mutex, x: Mutex, t: Tid)
  {
    x0.owner == t && !x0.locked && x0.queue != [] && x0.queue[0] != t && x == Mutex(x0.queue[0], false, x0.queue[1..])
  }

  ghost predicate AllLocked(reqs: seq<Mid>, mx: Mxs, n: nat)
  {
    n <= |reqs| && forall j :: 0 <= j < n ==> reqs[j] in mx && mx[reqs[j]].locked
  }

  /** Every mutex on t's list is there. */
  ghost predicate ReqsIn(th: Ths, mx: Mxs, t: Tid)
  {
    t in th && forall m :: m in th[t].reqs ==> m in mx
  }

  /** What tevents adds to the ready queue: first the threads woken from conditions, then those that are given a mutex. */
  ghost predicate EventsReadied(th: Ths, mx: Mxs, cv: Cvs, evconds: seq<Cid>, t: Tid, readyq: seq<Tid>, readyq': seq<Tid>)
  {
    && ReqsIn(th, mx, t) && (forall c :: c in evconds ==> c in cv)
    && readyq' == readyq + Woken(evconds, cv) + Heirs(th[t].reqs, mx)
  }

  lemma ReadiedSame(th: Ths, th1: Ths, mx: Mxs, cv: Cvs, evconds: seq<Cid>, t: Tid, readyq: seq<Tid>, readyq': seq<Tid>)
    requires EventsReadied(th1, mx, cv, evconds, t, readyq, readyq') && t in th && t in th1 && th1[t].reqs == th[t].reqs
    ensures EventsReadied(th, mx, cv, evconds, t, readyq, readyq')
  {
  }

  lemma ListedIn(th: Ths, mx: Mxs, t: Tid)
    requires ReqsOk(th, mx) && t in th
    ensures ReqsIn(th, mx, t) && Distinct(th[t].reqs)
  {
  }

  lemma EventsListed(th: Ths, mx: Mxs, cv: Cvs, evconds: seq<Cid>, cur: Opt<Tid>, pls: Places, t: Tid)
    requires ReqsOk(th, mx) && t in th && EventsOk(cv, evconds, cur, pls)
    ensures ReqsIn(th, mx, t) && forall c :: c in evconds ==> c in cv
  {
  }

  lemma HeirsSkip(reqs: seq<Mid>, mx: Mxs, i: nat)
    requires i < |reqs| && (forall m :: m in reqs ==> m in mx) && mx[reqs[i]].locked
    ensures Heirs(reqs[i..], mx) == Heirs(reqs[i + 1..], mx)
  {
    assert reqs[i..][1..] == reqs[i + 1..];
  }

  lemma HeirsNext(reqs: seq<Mid>, mx: Mxs, mx': Mxs, i: nat)
    requires i < |reqs| && (forall m :: m in reqs ==> m in mx) && Distinct(reqs) && !mx[reqs[i]].locked && mx[reqs[i]].queue != []
    requires reqs[i] in mx' && mx' == mx[reqs[i] := mx'[reqs[i]]]
    ensures RemoveAt(reqs, i)[i..] == reqs[i + 1..]
    ensures Heirs(reqs[i..], mx) == [mx[reqs[i]].queue[0]] + Heirs(RemoveAt(reqs, i)[i..], mx')
  {
    assert reqs[i..][1..] == reqs[i + 1..];
    HeirsElse(reqs[i + 1..], mx, mx', reqs[i]);
  }

  lemma {:induction false} HeirsElse(reqs: seq<Mid>, mx: Mxs, mx': Mxs, m: Mid)
    requires (forall d :: d in reqs ==> d in mx) && m !in reqs && m in mx' && mx' == mx[m := mx'[m]]
    ensures Heirs(reqs, mx') == Heirs(reqs, mx)
  {
    if reqs != [] { HeirsElse(reqs[1..], mx, mx', m); }
  }

  lemma HandedSteps(mx: Mxs, mx': Mxs, t: Tid)
    requires HandedOver(mx, mx', t)
    ensures MutexSteps(mx, mx')
  {
  }

  lemma WokenSteps(cv: Cvs, cv': Cvs)
    requires WokenFrom(cv, cv')
    ensures CondSteps(cv, cv')
  {
  }

  lemma HandedOther(mx: Mxs, mx': Mxs, t: Tid, m: Mid)
    requires HandedOver(mx, mx', t) && m in mx && mx[m].owner != t
    ensures m in mx' && mx'[m] == mx[m]
  {
  }

  lemma HandedOwn(mx: Mxs, mx': Mxs, t: Tid, m: Mid)
    requires HandedOver(mx, mx', t) && m in mx && mx[m].owner == t && !mx[m].locked
    ensures m in mx' && !mx'[m].locked && (mx[m].queue != [] ==> mx'[m] == Mutex(mx[m].queue[0], false, mx[m].queue[1..]))
  {
  }

  lemma WaitSteps(mx: Mxs, mx1: Mxs, mx2: Mxs, t: Tid, m: Mid)
    requires m in mx && mx1 == mx[m := mx[m].(queue := mx[m].queue + [t])] && HandedOver(mx1, mx2, t) && mx[m].owner != t
    ensures MutexSteps(mx, mx2)
  {
    forall d | d in mx ensures d in mx2 && MutexStep(mx[d], mx2[d]) { }
  }

  lemma UnlockSteps(mx: Mxs, mx1: Mxs, mx2: Mxs, t: Tid, m: Mid)
    requires m in mx && mx1 == mx[m := mx[m].(locked := false)] && HandedOver(mx1, mx2, t)
    ensures MutexSteps(mx, mx2)
  {
  }

  lemma SleepSteps(cv: Cvs, cv1: Cvs, cv2: Cvs, t: Tid, c: Cid)
    requires c in cv && cv[c].nwake == 0 && cv1 == cv[c := cv[c].(queue := cv[c].queue + [t])] && WokenFrom(cv1, cv2)
    ensures CondSteps(cv, cv2) && c in cv2 && cv2[c].queue == cv[c].queue + [t]
  {
    forall d | d in cv ensures d in cv2 && QueueStep(cv[d].queue, cv2[d].queue) { }
  }

  lemma HandedRefl(mx: Mxs, t: Tid)
    ensures HandedSome(mx, mx, t)
  {
  }

  lemma LockedNone(reqs: seq<Mid>, mx: Mxs)
    ensures AllLocked(reqs, mx, 0)
  {
  }

  lemma LockedNext(reqs: seq<Mid>, mx: Mxs, i: nat)
    requires AllLocked(reqs, mx, i) && i < |reqs| && reqs[i] in mx && mx[reqs[i]].locked
    ensures AllLocked(reqs, mx, i + 1)
  {
  }

  lemma LockedKept(reqs: seq<Mid>, mx: Mxs, mx': Mxs, i: nat)
    requires AllLocked(reqs, mx, i) && i < |reqs| && reqs[i] in mx && !mx[reqs[i]].locked
    requires reqs[i] in mx' && mx' == mx[reqs[i] := mx'[reqs[i]]]
    ensures AllLocked(RemoveAt(reqs, i), mx', i)
  {
  }

  lemma HandedMore(mx0: Mxs, mx: Mxs, mx': Mxs, t: Tid, m: Mid)
    requires HandedSome(mx0, mx, t) && m in mx && mx[m].owner == t && !mx[m].locked && mx[m].queue != [] && mx[m].queue[0] != t
    requires mx' == mx[m := Mutex(mx[m].queue[0], false, mx[m].queue[1..])]
    ensures HandedSome(mx0, mx', t)
  {
  }

  lemma AllHanded(mx0: Mxs, mx: Mxs, th: Ths, t: Tid)
    requires ReqsOk(th, mx) && t in th && AllLocked(th[t].reqs, mx, |th[t].reqs|) && HandedSome(mx0, mx, t)
    ensures HandedOver(mx0, mx, t)
  {
    forall m | m in mx0 ensures mx[m] ==
      if mx0[m].owner == t && !mx0[m].locked && mx0[m].queue != [] then Mutex(mx0[m].queue[0], false, mx0[m].queue[1..]) else mx0[m]
    {
      LockedMember(th[t].reqs, mx, m);
    }
  }

  lemma LockedMember(reqs: seq<Mid>, mx: Mxs, m: Mid)
    requires AllLocked(reqs, mx, |reqs|)
    ensures m in reqs ==> m in mx && mx[m].locked
  {
  }

  lemma NoneWoken(cv: Cvs, evconds: seq<Cid>, cur: Opt<Tid>, pls: Places)
    requires EventsOk(cv, evconds, cur, pls)
    ensures evconds == [] ==> WokenFrom(cv, cv)
  {
    if evconds == [] {
      forall c | c in cv ensures cv[c] == Cond(Back(cv[c].queue, cv[c].nwake), 0) { assert c !in evconds; }
    }
  }

  lemma NoneHanded(mx: Mxs, th: Ths, t: Tid)
    requires ReqsOk(th, mx) && t in th
    ensures th[t].reqs == [] ==> HandedOver(mx, mx, t) && AllLocked(th[t].reqs, mx, |th[t].reqs|)
  {
    if th[t].reqs == [] {
      forall m | m in mx && mx[m].owner == t ensures mx[m].queue == [] { assert m !in th[t].reqs; }
    }
  }

  lemma NoneLeft(mx: Mxs, t: Tid, th: Ths)
    requires ReqsOk(th, mx) && t in th && AllLocked(th[t].reqs, mx, |th[t].reqs|)
    ensures forall m :: m in mx && mx[m].owner == t && !mx[m].locked ==> mx[m].queue == []
  {
    forall m | m in mx && mx[m].owner == t && !mx[m].locked ensures mx[m].queue == [] {
      LockedMember(th[t].reqs, mx, m);
    }
  }

  lemma CvCount(cv: Cvs, evconds: seq<Cid>, cur: Opt<Tid>, pls: Places, c: Cid)
    requires EventsOk(cv, evconds, cur, pls) && c in evconds
    ensures c in cv && cv[c].nwake > 0
  {
  }

  lemma CvCounts(cv: Cvs, evconds: seq<Cid>, cur: Opt<Tid>, pls: Places)
    requires EventsOk(cv, evconds, cur, pls)
    ensures forall c :: c in evconds ==> c in cv
    ensures forall c :: c in cv && c !in evconds ==> cv[c] == Cond(Back(cv[c].queue, cv[c].nwake), 0)
  {
  }

  lemma FirstOnly(evconds: seq<Cid>, cv: Cvs, cur: Opt<Tid>, pls: Places)
    requires EventsOk(cv, evconds, cur, pls) && evconds != []
    ensures evconds[0] !in evconds[1..] && forall c :: c in evconds <==> c == evconds[0] || c in evconds[1..]
  {
  }
}
