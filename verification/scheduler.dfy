/** The process kernel (kern/proc.c, kern/syscall.c): ready queue, processors, and parents waiting for children. */
module Scheduler {
  import opened Determinism

  datatype State = STOP | READY | RUN | WAIT
  datatype Opt<T> = None | Some(value: T)

  /** struct proc: user state, scheduling state, the processor it runs on, the child it waits for. */
  datatype Pcb<M> = Pcb(m: M, state: State, runcpu: Opt<nat>, waitchild: Opt<Pid>)
  type Table<M> = map<Pid, Pcb<M>>

  function Parent(p: Pid): Pid
    requires p != []
  {
    p[..|p| - 1]
  }

  /** The processes as the program sees them. */
  function WorldOf<M>(procs: Table<M>): World<M>
  {
    map p | p in procs :: Proc(procs[p].m, procs[p].state != STOP)
  }

  /** The queue holds exactly the ready processes, each once. */
  ghost predicate QueueOk<M>(procs: Table<M>, ready: seq<Pid>)
  {
    && (forall i :: 0 <= i < |ready| ==> ready[i] in procs && procs[ready[i]].state == READY)
    && (forall i, j :: 0 <= i < j < |ready| ==> ready[i] != ready[j])
    && (forall p :: p in procs && procs[p].state == READY ==> p in ready)
  }

  /** Each processor runs its own process. */
  ghost predicate CpusOk<M>(procs: Table<M>, running: map<nat, Pid>)
  {
    && (forall c :: c in running ==> running[c] in procs && procs[running[c]].state == RUN && procs[running[c]].runcpu == Some(c))
    && (forall p :: p in procs ==>
          if procs[p].state == RUN then procs[p].runcpu.Some? && procs[p].runcpu.value in running && running[procs[p].runcpu.value] == p
          else procs[p].runcpu == None)
  }

  /** A process waits for the child that its replayed system call names, and that child has not stopped. */
  ghost predicate WaitsOk<M>(mach: Machine<M>, procs: Table<M>, p: Pid)
    requires p in procs
  {
    if procs[p].state == WAIT then
      && Partner(mach, procs[p].m) != []
      && procs[p].waitchild == Some(p + Partner(mach, procs[p].m))
      && p + Partner(mach, procs[p].m) in procs && procs[p + Partner(mach, procs[p].m)].state != STOP
    else procs[p].waitchild == None
  }

  ghost predicate TreeOk<M>(procs: Table<M>)
  {
    forall p :: p in procs && p != [] ==> Parent(p) in procs
  }

  ghost predicate Inv<M>(mach: Machine<M>, procs: Table<M>, ready: seq<Pid>, running: map<nat, Pid>)
  {
    QueueOk(procs, ready) && CpusOk(procs, running) && TreeOk(procs) && forall p :: p in procs ==> WaitsOk(mach, procs, p)
  }

  /* ---------- what one kernel action does to the invariant ---------- */

  /** A child of q other than the one q waits for, or a change that keeps it live, does not disturb q's waiting. */
  lemma OthersWait<M>(mach: Machine<M>, procs: Table<M>, procs': Table<M>, p: Pid)
    requires TreeOk(procs) && (forall q :: q in procs ==> WaitsOk(mach, procs, q))
    requires p in procs && p in procs' && procs' == procs[p := procs'[p]]
    requires procs'[p].state == STOP ==> p == [] || procs[Parent(p)].waitchild != Some(p)
    requires procs'[p].state != WAIT && procs'[p].waitchild == None
    ensures TreeOk(procs') && forall q :: q in procs' ==> WaitsOk(mach, procs', q)
  {
    forall q | q in procs' ensures WaitsOk(mach, procs', q) {
      assert WaitsOk(mach, procs, q) by { assert q in procs; }
      if q != p && procs[q].state == WAIT && procs[q].waitchild == Some(p) {
        var cs := Partner(mach, procs[q].m);
        assert p == q + cs && |cs| == 1;
        assert Parent(p) == q;
      }
    }
  }

  lemma QueuePop<M>(mach: Machine<M>, procs: Table<M>, ready: seq<Pid>, running: map<nat, Pid>, c: nat)
    requires Inv(mach, procs, ready, running) && ready != [] && c !in running
    ensures ready[0] in procs
    ensures var p := ready[0]; var procs' := procs[p := procs[p].(state := RUN, runcpu := Some(c))];
            Inv(mach, procs', ready[1..], running[c := p]) && WorldOf(procs') == WorldOf(procs)
  {
    var p := ready[0];
    var procs' := procs[p := procs[p].(state := RUN, runcpu := Some(c))];
    assert WaitsOk(mach, procs, p);
    OthersWait(mach, procs, procs', p);
    assert QueueOk(procs', ready[1..]) by {
      forall q | q in procs' && procs'[q].state == READY ensures q in ready[1..] {
        assert q in ready && q != ready[0];
      }
    }
  }

  /** A process that leaves its processor for the queue, for waiting, or because it stops. */
  lemma LeaveCpu<M>(mach: Machine<M>, procs: Table<M>, ready: seq<Pid>, running: map<nat, Pid>, c: nat, b: Pcb<M>, ready': seq<Pid>)
    requires Inv(mach, procs, ready, running) && c in running
    requires b.state != RUN && b.runcpu == None
    requires b.state == READY ==> b.waitchild == None && ready' == ready + [running[c]]
    requires b.state != READY ==> ready' == ready
    ensures QueueOk(procs[running[c] := b], ready') && CpusOk(procs[running[c] := b], running - {c})
  {
    var p := running[c];
    var procs' := procs[p := b];
    forall q | q in procs' && procs'[q].state == READY ensures q in ready' {
      if q != p { assert q in ready; }
    }
    forall i, j | 0 <= i < j < |ready'| ensures ready'[i] != ready'[j] {
      if j == |ready| { assert procs[ready[i]].state == READY; }
    }
  }

  lemma YieldInv<M>(mach: Machine<M>, procs: Table<M>, ready: seq<Pid>, running: map<nat, Pid>, c: nat)
    requires Inv(mach, procs, ready, running) && c in running
    ensures running[c] in procs
    ensures var p := running[c]; var procs' := procs[p := procs[p].(state := READY, runcpu := None)];
            Inv(mach, procs', ready + [p], running - {c}) && WorldOf(procs') == WorldOf(procs)
  {
    var p := running[c];
    var procs' := procs[p := procs[p].(state := READY, runcpu := None)];
    assert WaitsOk(mach, procs, p);
    LeaveCpu(mach, procs, ready, running, c, procs'[p], ready + [p]);
    OthersWait(mach, procs, procs', p);
  }

  lemma WaitInv<M>(mach: Machine<M>, procs: Table<M>, ready: seq<Pid>, running: map<nat, Pid>, c: nat)
    requires Inv(mach, procs, ready, running) && c in running
    requires running[c] in procs && Partner(mach, procs[running[c]].m) != []
    requires running[c] + Partner(mach, procs[running[c]].m) in procs
    requires procs[running[c] + Partner(mach, procs[running[c]].m)].state != STOP
    ensures var p := running[c];
            var procs' := procs[p := procs[p].(state := WAIT, runcpu := None, waitchild := Some(p + Partner(mach, procs[p].m)))];
            Inv(mach, procs', ready, running - {c}) && WorldOf(procs') == WorldOf(procs)
  {
    var p := running[c];
    var cp := p + Partner(mach, procs[p].m);
    var procs' := procs[p := procs[p].(state := WAIT, runcpu := None, waitchild := Some(cp))];
    assert |cp| == |p| + 1;
    LeaveCpu(mach, procs, ready, running, c, procs'[p], ready);
    forall q | q in procs' ensures WaitsOk(mach, procs', q) {
      assert WaitsOk(mach, procs, q) by { assert q in procs; }
    }
  }

  lemma NotQueued<M>(procs: Table<M>, ready: seq<Pid>, running: map<nat, Pid>, c: nat)
    requires QueueOk(procs, ready) && CpusOk(procs, running) && c in running
    ensures running[c] !in ready
  {
  }

  /** The parent is there, and if it waits for p it does so in state WAIT. */
  lemma ParentOf<M>(mach: Machine<M>, procs: Table<M>, ready: seq<Pid>, running: map<nat, Pid>, p: Pid)
    requires Inv(mach, procs, ready, running) && p in procs && p != []
    ensures Parent(p) in procs && Parent(p) != p
    ensures procs[Parent(p)].waitchild == Some(p) ==> procs[Parent(p)].state == WAIT
  {
    assert WaitsOk(mach, procs, Parent(p));
  }

  /** proc_ret without a waiting parent. */
  lemma StopInv<M>(mach: Machine<M>, procs: Table<M>, ready: seq<Pid>, running: map<nat, Pid>, c: nat, m: M)
    requires Inv(mach, procs, ready, running) && c in running && running[c] in procs
    requires running[c] == [] || (Parent(running[c]) in procs && procs[Parent(running[c])].waitchild != Some(running[c]))
    ensures var p := running[c]; var procs' := procs[p := Pcb(m, STOP, None, None)];
            Inv(mach, procs', ready, running - {c}) && WorldOf(procs') == WorldOf(procs)[p := Proc(m, false)]
  {
    var p := running[c];
    var procs' := procs[p := Pcb(m, STOP, None, None)];
    LeaveCpu(mach, procs, ready, running, c, procs'[p], ready);
    OthersWait(mach, procs, procs', p);
  }

  /** proc_ret with the parent waiting for this child: the parent takes over the processor. */
  lemma WakeInv<M>(mach: Machine<M>, procs: Table<M>, ready: seq<Pid>, running: map<nat, Pid>, c: nat, m: M)
    requires Inv(mach, procs, ready, running) && c in running && running[c] in procs && running[c] != []
    requires Parent(running[c]) in procs && procs[Parent(running[c])].state == WAIT
    requires procs[Parent(running[c])].waitchild == Some(running[c])
    ensures var p, q := running[c], Parent(running[c]);
            var procs' := procs[p := Pcb(m, STOP, None, None)][q := procs[q].(state := RUN, runcpu := Some(c), waitchild := None)];
            Inv(mach, procs', ready, running[c := q]) && WorldOf(procs') == WorldOf(procs)[p := Proc(m, false)]
  {
    var p, q := running[c], Parent(running[c]);
    var mid := procs[q := procs[q].(state := RUN, runcpu := None, waitchild := None)];
    var procs' := procs[p := Pcb(m, STOP, None, None)][q := procs[q].(state := RUN, runcpu := Some(c), waitchild := None)];
    OthersWait(mach, procs, mid, q);
    var mid' := mid[q := procs'[q]];
    OthersWait(mach, mid, mid', q);
    assert procs' == mid'[p := procs'[p]];
    OthersWait(mach, mid', procs', p);
    WakeQueue(procs, ready, running, c, m);
  }

  lemma WakeQueue<M>(procs: Table<M>, ready: seq<Pid>, running: map<nat, Pid>, c: nat, m: M)
    requires QueueOk(procs, ready) && CpusOk(procs, running) && c in running && running[c] in procs && running[c] != []
    requires Parent(running[c]) in procs && procs[Parent(running[c])].state == WAIT
    ensures var p, q := running[c], Parent(running[c]);
            var procs' := procs[p := Pcb(m, STOP, None, None)][q := procs[q].(state := RUN, runcpu := Some(c), waitchild := None)];
            QueueOk(procs', ready) && CpusOk(procs', running[c := q]) && WorldOf(procs') == WorldOf(procs)[p := Proc(m, false)]
  {
    var p, q := running[c], Parent(running[c]);
    var procs' := procs[p := Pcb(m, STOP, None, None)][q := procs[q].(state := RUN, runcpu := Some(c), waitchild := None)];
    assert p != q;
    forall r | r in procs' ensures WorldOf(procs')[r] == WorldOf(procs)[p := Proc(m, false)][r] { }
  }

  /** The running process changes its own user state. */
  lemma LocalInv<M>(mach: Machine<M>, procs: Table<M>, ready: seq<Pid>, running: map<nat, Pid>, c: nat, m: M)
    requires Inv(mach, procs, ready, running) && c in running
    ensures running[c] in procs
    ensures var p := running[c]; var procs' := procs[p := procs[p].(m := m)];
            Inv(mach, procs', ready, running) && WorldOf(procs') == WorldOf(procs)[p := Proc(m, true)]
  {
    var p := running[c];
    var procs' := procs[p := procs[p].(m := m)];
    assert WaitsOk(mach, procs, p);
    OthersWait(mach, procs, procs', p);
  }

  /** A stopped or new child of the running process gets a new user state. */
  lemma ChildInv<M>(mach: Machine<M>, procs: Table<M>, ready: seq<Pid>, running: map<nat, Pid>, c: nat, cn: ChildNo, m: M)
    requires Inv(mach, procs, ready, running) && c in running && running[c] in procs
    requires running[c] + [cn] in procs ==> procs[running[c] + [cn]].state == STOP
    ensures var cp := running[c] + [cn]; var procs' := procs[cp := Pcb(m, STOP, None, None)];
            Inv(mach, procs', ready, running) && WorldOf(procs') == WorldOf(procs)[cp := Proc(m, false)]
  {
    var cp := running[c] + [cn];
    var procs' := procs[cp := Pcb(m, STOP, None, None)];
    assert Parent(cp) == running[c];
    forall q | q in procs' ensures WaitsOk(mach, procs', q) {
      if q != cp { assert WaitsOk(mach, procs, q); }
    }
    assert QueueOk(procs', ready);
    assert CpusOk(procs', running);
  }

  /** proc_ready for a stopped child. */
  lemma StartInv<M>(mach: Machine<M>, procs: Table<M>, ready: seq<Pid>, running: map<nat, Pid>, cp: Pid)
    requires Inv(mach, procs, ready, running) && cp in procs && procs[cp].state == STOP
    ensures var procs' := procs[cp := procs[cp].(state := READY)];
            Inv(mach, procs', ready + [cp], running) && WorldOf(procs') == WorldOf(procs)[cp := Proc(procs[cp].m, true)]
  {
    var procs' := procs[cp := procs[cp].(state := READY)];
    assert WaitsOk(mach, procs, cp);
    OthersWait(mach, procs, procs', cp);
    assert QueueOk(procs', ready + [cp]) by {
      forall q | q in procs' && procs'[q].state == READY ensures q in ready + [cp] {
        if q != cp { assert q in ready; }
      }
      forall i, j | 0 <= i < j < |ready + [cp]| ensures (ready + [cp])[i] != (ready + [cp])[j] {
        if j == |ready| { assert procs[ready[i]].state == READY; }
      }
    }
  }

  /** A run grows by one step at its end. */
  lemma OneMore<M>(mach: Machine<M>, w: World<M>, s: seq<Pid>, p: Pid)
    requires Runs(mach, w, s) && Enabled(mach, Final(mach, w, s), p)
    ensures Runs(mach, w, s + [p]) && Final(mach, w, s + [p]) == Next(mach, Final(mach, w, s), p)
  {
    RunsConcat(mach, w, s, [p], p);
  }

  /* ---------- who gets the processor ---------- */

  /** Processor c has left its process and looks for work: it takes the head of the queue, if there is one. */
  predicate Vacated(ready: seq<Pid>, running: map<nat, Pid>, c: nat, ready': seq<Pid>, running': map<nat, Pid>)
  {
    if ready == [] then ready' == [] && running' == running - {c}
    else ready' == ready[1..] && running' == running[c := ready[0]]
  }

  /** The process on c has stopped: a parent waiting for just this child takes over the processor. */
  predicate Left<M>(procs: Table<M>, ready: seq<Pid>, running: map<nat, Pid>, c: nat, ready': seq<Pid>, running': map<nat, Pid>)
    requires c in running
  {
    var p := running[c];
    if p != [] && Parent(p) in procs && procs[Parent(p)].waitchild == Some(p) then ready' == ready && running' == running[c := Parent(p)]
    else Vacated(ready, running, c, ready', running')
  }

  /** A queue that only grows at its end, by add, and is served from its head, once if pop. */
  datatype Move = Move(add: seq<Pid>, pop: bool)

  function Moved(q: seq<Pid>, v: Move): seq<Pid>
  {
    var r := q + v.add; if v.pop && r != [] then r[1..] else r
  }

  function MovedAll(q: seq<Pid>, vs: seq<Move>): seq<Pid>
    decreases |vs|
  {
    if vs == [] then q else MovedAll(Moved(q, vs[0]), vs[1..])
  }

  function Pops(vs: seq<Move>): nat
  {
    if vs == [] then 0 else (if vs[0].pop then 1 else 0) + Pops(vs[1..])
  }

  /** Nobody starves in the queue: a process with i others in front of it comes to the head after i of them have been served, and
      not before, whatever is added meanwhile. */
  lemma {:induction false} InTurn(q: seq<Pid>, vs: seq<Move>, i: nat)
    requires i < |q| && Pops(vs) <= i
    ensures i - Pops(vs) < |MovedAll(q, vs)| && MovedAll(q, vs)[i - Pops(vs)] == q[i]
    decreases |vs|
  {
    if vs != [] {
      InTurn(Moved(q, vs[0]), vs[1..], if vs[0].pop then i - 1 else i);
    }
  }

  class Kernel<M> {
    const mach: Machine<M>
    var procs: Table<M>
    var ready: seq<Pid>             // the list from readyhead to readytail
    var running: map<nat, Pid>      // cpu->proc of the processors that are not looking for work
    ghost var start: World<M>
    ghost var steps: seq<Pid>       // the process steps carried out so far

    ghost predicate Valid()
      reads this
    {
      Inv(mach, procs, ready, running) && Runs(mach, start, steps) && Final(mach, start, steps) == WorldOf(procs)
    }

    /** The kernel as it starts the root process. */
    constructor (mach: Machine<M>, m: M)
      ensures Valid() && this.mach == mach && start == map[[] := Proc(m, true)] && steps == [] && running == map[]
      ensures WorldOf(procs) == start
    {
      this.mach := mach;
      procs, ready, running := map[[] := Pcb(m, READY, None, None)], [[]], map[];
      start, steps := map[[] := Proc(m, true)], [];
    }

    /** proc_ready */
    method ProcReady(p: Pid)
      requires p in procs
      modifies this`procs, this`ready
      ensures procs == old(procs)[p := old(procs)[p].(state := READY)] && ready == old(ready) + [p]
    {
      procs := procs[p := procs[p].(state := READY)];
      ready := ready + [p];
    }

    /** proc_run, as far as scheduling is concerned */
    method ProcRun(c: nat, p: Pid)
      requires p in procs
      modifies this`procs, this`running
      ensures procs == old(procs)[p := old(procs)[p].(state := RUN, runcpu := Some(c))] && running == old(running)[c := p]
    {
      procs := procs[p := procs[p].(state := RUN, runcpu := Some(c))];
      running := running[c := p];
    }

    /** proc_sched: run the process at the head of the queue; a processor that finds the queue empty looks again. */
    method ProcSched(c: nat)
      requires Inv(mach, procs, ready, running) && c !in running
      modifies this`procs, this`ready, this`running
      ensures Inv(mach, procs, ready, running) && WorldOf(procs) == old(WorldOf(procs))
      ensures if old(ready) == [] then ready == [] && running == old(running) && procs == old(procs)
              else ready == old(ready)[1..] && running == old(running)[c := old(ready)[0]]
      ensures forall q :: q in old(procs) && q !in old(ready) ==> q in procs && procs[q] == old(procs)[q]
    {
      hide QueueOk, CpusOk, WaitsOk, TreeOk;
      if ready != [] {
        QueuePop(mach, procs, ready, running, c);
        var p := ready[0];
        ready := ready[1..];
        ProcRun(c, p);
      }
    }

    /** proc_yield: the timer moves the running process to the tail of the queue. */
    method ProcYield(c: nat)
      requires Valid() && c in running
      modifies this`procs, this`ready, this`running
      ensures Valid() && WorldOf(procs) == old(WorldOf(procs))
      ensures Vacated(old(ready) + [old(running[c])], old(running), c, ready, running)
    {
      hide QueueOk, CpusOk, WaitsOk, TreeOk, Runs, Final, WorldOf;
      YieldInv(mach, procs, ready, running, c);
      ghost var was := procs;
      var p := running[c];
      procs := procs[p := procs[p].(runcpu := None)];
      running := running - {c};
      ProcReady(p);
      assert procs == was[p := was[p].(state := READY, runcpu := None)];
      ProcSched(c);
    }

    /** proc_wait: give up the processor; the saved state is that before the INT instruction. */
    method ProcWait(c: nat, cp: Pid)
      requires Inv(mach, procs, ready, running) && c in running && running[c] in procs
      requires Partner(mach, procs[running[c]].m) != [] && cp == running[c] + Partner(mach, procs[running[c]].m)
      requires cp in procs && procs[cp].state != STOP
      modifies this`procs, this`ready, this`running
      ensures Inv(mach, procs, ready, running) && WorldOf(procs) == old(WorldOf(procs))
      ensures old(running[c]) in procs && procs[old(running[c])].state == WAIT && procs[old(running[c])].waitchild == Some(cp)
      ensures Vacated(old(ready), old(running), c, ready, running)
    {
      hide QueueOk, CpusOk, WaitsOk, TreeOk, WorldOf;
      WaitInv(mach, procs, ready, running, c);
      NotQueued(procs, ready, running, c);
      var p := running[c];
      procs := procs[p := procs[p].(state := WAIT, runcpu := None, waitchild := Some(cp))];
      running := running - {c};
      ProcSched(c);
    }

    /** proc_ret: the running process stops with user state m, and its parent goes on if it was waiting for that. */
    method ProcRet(c: nat, m: M)
      requires Inv(mach, procs, ready, running) && c in running && running[c] in procs
      modifies this`procs, this`ready, this`running
      ensures Inv(mach, procs, ready, running)
      ensures WorldOf(procs) == old(WorldOf(procs)[running[c] := Proc(m, false)])
      ensures Left(old(procs), old(ready), old(running), c, ready, running)
    {
      hide QueueOk, CpusOk, WaitsOk, TreeOk, WorldOf;
      var cp := running[c];
      if cp != [] {
        ParentOf(mach, procs, ready, running, cp);
        var p := Parent(cp);
        if procs[p].state == WAIT && procs[p].waitchild == Some(cp) {
          WakeInv(mach, procs, ready, running, c, m);
          ghost var was := procs;
          procs := procs[cp := Pcb(m, STOP, None, None)];
          procs := procs[p := procs[p].(waitchild := None)];
          ProcRun(c, p);
          assert procs == was[cp := Pcb(m, STOP, None, None)][p := was[p].(state := RUN, runcpu := Some(c), waitchild := None)];
          return;
        }
      }
      StopInv(mach, procs, ready, running, c, m);
      procs := procs[cp := Pcb(m, STOP, None, None)];
      running := running - {c};
      ProcSched(c);
    }

    /** The part of do_put that follows once the child has stopped. */
    method PutNow(c: nat, cn: ChildNo)
      requires Inv(mach, procs, ready, running) && c in running && running[c] in procs
      requires mach.act(procs[running[c]].m) == Put(cn) && Enabled(mach, WorldOf(procs), running[c])
      modifies this`procs, this`ready, this`running
      ensures Inv(mach, procs, ready, running) && WorldOf(procs) == Next(mach, old(WorldOf(procs)), old(running[c]))
      ensures Scheduled(old(procs), old(ready), old(running), c)
    {
      hide QueueOk, CpusOk, WaitsOk, TreeOk;
      var p := running[c];
      var cp := p + [cn];
      PutWorld(procs, p, cn);
      var r := mach.put(procs[p].m, if cp in procs then procs[cp].m else mach.blank);
      ChildInv(mach, procs, ready, running, c, cn, r.child);
      procs := procs[cp := Pcb(r.child, STOP, None, None)];
      match r
      case PutTrap(m, _) =>
        ProcRet(c, m);
      case PutDone(m, _, start) =>
        LocalInv(mach, procs, ready, running, c, m);
        procs := procs[p := procs[p].(m := m)];
        assert ready + [] == ready;
        if start {
          StartInv(mach, procs, ready, running, cp);
          ProcReady(cp);
        }
    }

    lemma PutWorld(procs: Table<M>, p: Pid, cn: ChildNo)
      requires p in procs && mach.act(procs[p].m) == Put(cn) && Enabled(mach, WorldOf(procs), p)
      ensures p + [cn] != p && (p + [cn] in procs ==> procs[p + [cn]].state == STOP)
      ensures var w, c := WorldOf(procs), p + [cn];
        var r := mach.put(procs[p].m, if c in procs then procs[c].m else mach.blank);
        Next(mach, w, p) == match r
          case PutDone(m', mc, start) => w[c := Proc(mc, start)][p := Proc(m', true)]
          case PutTrap(m', mc) => w[c := Proc(mc, false)][p := Proc(m', false)]
    {
      assert |p + [cn]| == |p| + 1;
    }

    /** do_put */
    method DoPut(c: nat, cn: ChildNo)
      requires Valid() && c in running && running[c] in procs && mach.act(procs[running[c]].m) == Put(cn)
      modifies this`procs, this`ready, this`running, this`steps
      ensures Valid() && Stepped(old(WorldOf(procs)), old(running[c]), old(steps))
      ensures Scheduled(old(procs), old(ready), old(running), c)
    {
      hide QueueOk, CpusOk, WaitsOk, TreeOk, Runs, Final, Next;
      var p := running[c];
      var cp := p + [cn];
      RunsHere(c);
      if cp in procs && procs[cp].state != STOP {
        ProcWait(c, cp);
      } else {
        OneMore(mach, start, steps, p);
        PutNow(c, cn);
        steps := steps + [p];
      }
    }

    /** do_get */
    method DoGet(c: nat, cn: ChildNo)
      requires Valid() && c in running && running[c] in procs && mach.act(procs[running[c]].m) == Get(cn)
      modifies this`procs, this`ready, this`running, this`steps
      ensures Valid() && Stepped(old(WorldOf(procs)), old(running[c]), old(steps))
      ensures Scheduled(old(procs), old(ready), old(running), c)
    {
      hide QueueOk, CpusOk, WaitsOk, TreeOk, Runs, Final;
      var p := running[c];
      var cp := p + [cn];
      RunsHere(c);
      if cp in procs && procs[cp].state != STOP {
        ProcWait(c, cp);
      } else {
        OneMore(mach, start, steps, p);
        match mach.get(procs[p].m, if cp in procs then procs[cp].m else mach.nobody)
        case GetTrap(m) =>
          ProcRet(c, m);
          steps := steps + [p];
        case GetDone(m) =>
          LocalInv(mach, procs, ready, running, c, m);
          procs := procs[p := procs[p].(m := m)];
          steps := steps + [p];
      }
    }

    /** Processor c goes on with the process it runs, up to and including the next kernel entry it causes. */
    method Step(c: nat)
      requires Valid() && c in running
      modifies this`procs, this`ready, this`running, this`steps
      ensures Valid() && Stepped(old(WorldOf(procs)), old(running[c]), old(steps))
      ensures Scheduled(old(procs), old(ready), old(running), c)
    {
      hide QueueOk, CpusOk, WaitsOk, TreeOk, Runs, Final;
      var p := running[c];
      RunsHere(c);
      match mach.act(procs[p].m)
      case Put(cn) =>
        DoPut(c, cn);
      case Get(cn) =>
        DoGet(c, cn);
      case Local(m) =>
        OneMore(mach, start, steps, p);
        LocalInv(mach, procs, ready, running, c, m);
        procs := procs[p := procs[p].(m := m)];
        steps := steps + [p];
      case Ret(m) =>
        OneMore(mach, start, steps, p);
        ProcRet(c, m);
        steps := steps + [p];
    }

    /** Who runs and who is queued after the process on c, in table was, has entered the kernel: it goes on after a call or
        its own computation; a child it starts is queued behind all others; it leaves the processor when it stops, or waits for a
        child that has not. */
    ghost predicate Scheduled(was: Table<M>, q: seq<Pid>, on: map<nat, Pid>, c: nat)
      reads this
      requires c in on && on[c] in was
    {
      var p, m := on[c], was[on[c]].m;
      if !Enabled(mach, WorldOf(was), p) then Vacated(q, on, c, ready, running)
      else match mach.act(m)
        case Local(_) => ready == q && running == on
        case Ret(_) => Left(was, q, on, c, ready, running)
        case Put(cn) =>
          (match mach.put(m, if p + [cn] in was then was[p + [cn]].m else mach.blank)
           case PutDone(_, _, start) => ready == q + (if start then [p + [cn]] else []) && running == on
           case PutTrap(_, _) => Left(was, q, on, c, ready, running))
        case Get(cn) =>
          (match mach.get(m, if p + [cn] in was then was[p + [cn]].m else mach.nobody)
           case GetDone(_) => ready == q && running == on
           case GetTrap(_) => Left(was, q, on, c, ready, running))
    }

    /** Whatever a kernel entry does to the queue is such a move. */
    lemma ScheduledMoves(was: Table<M>, q: seq<Pid>, on: map<nat, Pid>, c: nat) returns (v: Move)
      requires c in on && on[c] in was && Scheduled(was, q, on, c)
      ensures ready == Moved(q, v) && |v.add| <= 1
    {
      var p, m := on[c], was[on[c]].m;
      v := if ready == q then Move([], false) else Move([], true);
      if Enabled(mach, WorldOf(was), p) && mach.act(m).Put? {
        var cp := p + [mach.act(m).cn];
        var r := mach.put(m, if cp in was then was[cp].m else mach.blank);
        if r.PutDone? && r.start { v := Move([cp], false); }
      }
    }

    /** Process p took its step, or could not yet and nothing the program can see has changed. */
    ghost predicate Stepped(w: World<M>, p: Pid, s: seq<Pid>)
      reads this
    {
      if Enabled(mach, w, p) then steps == s + [p] && WorldOf(procs) == Next(mach, w, p)
      else steps == s && WorldOf(procs) == w && p in procs && procs[p].state == WAIT
    }

    lemma RunsHere(c: nat)
      requires Inv(mach, procs, ready, running) && c in running
      ensures running[c] in procs && procs[running[c]].state == RUN && WorldOf(procs)[running[c]].live
    {
    }
  }

  /* ---------- what this means ---------- */

  /** No lost wakeup and no deadlock: as long as some process has not stopped, one is ready or running. */
  lemma {:induction false} SomeoneRuns<M>(mach: Machine<M>, procs: Table<M>, ready: seq<Pid>, running: map<nat, Pid>, p: Pid)
    returns (q: Pid)
    requires Inv(mach, procs, ready, running) && p in procs && procs[p].state != STOP
    ensures q in procs && (q in ready || exists c :: c in running && running[c] == q)
    ensures p <= q
    decreases |Longer(procs.Keys, |p|)|
  {
    if procs[p].state == WAIT {
      assert WaitsOk(mach, procs, p);
      var cp := p + Partner(mach, procs[p].m);
      assert Longer(procs.Keys, |cp|) < Longer(procs.Keys, |p|) by {
        assert p in Longer(procs.Keys, |p|) && p !in Longer(procs.Keys, |cp|);
      }
      SetSmaller(Longer(procs.Keys, |cp|), Longer(procs.Keys, |p|));
      q := SomeoneRuns(mach, procs, ready, running, cp);
    } else {
      q := p;
      if procs[p].state == RUN { assert running[procs[p].runcpu.value] == p; }
    }
  }

  /** A kernel with nothing queued and all processors idle has carried out a run that is at rest. */
  lemma IdleAtRest<M>(k: Kernel<M>)
    requires k.Valid() && k.ready == [] && k.running == map[]
    ensures Quiescent(k.mach, Final(k.mach, k.start, k.steps))
  {
    var w := WorldOf(k.procs);
    forall p | p in w ensures !w[p].live {
      if w[p].live { var q := SomeoneRuns(k.mach, k.procs, k.ready, k.running, p); }
    }
    RestMeansStopped(k.mach, w);
  }

  /** Two kernels that start the same program, with any number of processors and any timer and scheduling decisions:
      when both have nothing left to run, all their processes have the same registers and memory, and went through
      the same states. */
  lemma SameOutcome<M>(k: Kernel<M>, l: Kernel<M>)
    requires k.Valid() && l.Valid() && k.mach == l.mach && k.start == l.start
    requires k.ready == [] && k.running == map[] && l.ready == [] && l.running == map[]
    ensures WorldOf(k.procs) == WorldOf(l.procs) && multiset(k.steps) == multiset(l.steps)
    ensures forall p :: History(k.mach, k.start, k.steps, p) == History(l.mach, l.start, l.steps, p)
  {
    IdleAtRest(k);
    IdleAtRest(l);
    ScheduleIndependence(k.mach, k.start, k.steps, l.steps);
  }

  /** At any moment of two such executions, of the states any process has gone through one list continues the other. */
  lemma SameProgress<M>(k: Kernel<M>, l: Kernel<M>, p: Pid)
    requires k.Valid() && l.Valid() && k.mach == l.mach && k.start == l.start
    ensures History(k.mach, k.start, k.steps, p) <= History(l.mach, l.start, l.steps, p)
         || History(l.mach, l.start, l.steps, p) <= History(k.mach, k.start, k.steps, p)
  {
    SameHistory(k.mach, k.start, k.steps, l.steps, p);
  }
}
