/** Pairing and reconciling the inodes of a parent's and a child's file system (lib/file.c, lib/fork.c). */
module Pairing {
  import opened Reconcile

  const FILE_INODES: nat := 256
  const GENERAL: nat := 4               // inodes 1, 2 and 3 are console input, console output and the root directory
  const ROOTDIR: nat := 3

  type Ino = i: nat | i < FILE_INODES

  /** An inode: where it lives, what it holds, and what a child records of the parent's corresponding inode. */
  datatype Entry = Entry(dino: Ino, name: string, node: Inode, rino: int, rver: nat, rlen: nat)

  const Blank := Entry(0, "", Inode(0, 0, false, []), 0, 0, 0)

  type Table = t: seq<Entry> | |t| == FILE_INODES witness seq(FILE_INODES, i => Blank)
  type Links = l: seq<Ino> | |l| == FILE_INODES witness seq(FILE_INODES, i => 0)

  /** Both file systems and the two tables between them. */
  datatype Maps = Maps(p: Table, c: Table, p2c: Links, c2p: Links)

  predicate Used(t: Table, i: int) { 1 <= i < FILE_INODES && t[i].name != "" }

  predicate Gone(n: Inode) { n.mode == 0 && !n.conflict }

  predicate Live(t: Table, i: int) { Used(t, i) && !Gone(t[i].node) }

  predicate Is(e: Entry, dino: Ino, name: string) { e.dino == dino && e.name == name }

  /* ---------- finding and creating inodes ---------- */

  function Find(t: Table, dino: Ino, name: string, k: nat): (r: nat)
    requires k <= FILE_INODES
    ensures k <= r <= FILE_INODES && (r < FILE_INODES ==> Is(t[r], dino, name))
    ensures forall i :: k <= i < r ==> !Is(t[i], dino, name)
    decreases FILE_INODES - k
  {
    if k == FILE_INODES || Is(t[k], dino, name) then k else Find(t, dino, name, k + 1)
  }

  function FirstFree(t: Table, k: nat): (r: nat)
    requires k <= FILE_INODES
    ensures k <= r <= FILE_INODES && (r < FILE_INODES ==> t[r].name == "")
    ensures forall i :: k <= i < r ==> t[i].name != ""
    decreases FILE_INODES - k
  {
    if k == FILE_INODES || t[k].name == "" then k else FirstFree(t, k + 1)
  }

  /** The inode with this name, made if there is none, or -1 if there is no room. */
  function Create(t: Table, dino: Ino, name: string): (r: (Table, int))
  {
    var i, f := Find(t, dino, name, GENERAL), FirstFree(t, GENERAL);
    if i < FILE_INODES then (t, i)
    else if f < FILE_INODES then (t[f := t[f].(dino := dino, name := name)], f)
    else (t, -1)
  }

  /** Names are unique within their directory, inodes are handed out in order and after their directory's, and unused
      ones are blank. */
  ghost predicate TableOk(t: Table)
  {
    && (forall k :: 1 <= k < GENERAL ==> t[k].name != "" && t[k].dino == ROOTDIR)
    && (forall i, j :: 1 <= i < j < FILE_INODES && t[j].name != "" ==> t[i].name != "")
    && (forall i :: GENERAL <= i < FILE_INODES && t[i].name != "" ==> 1 <= t[i].dino < i)
    && Unique(t)
    && (forall i :: 0 <= i < FILE_INODES && t[i].name == "" ==> t[i] == Blank)
    && t[0].name == ""
  }

  ghost predicate Unique(t: Table)
  {
    forall i, j :: Used(t, i) && Used(t, j) && t[i].dino == t[j].dino && t[i].name == t[j].name ==> i == j
  }

  predicate Full(t: Table) { t[FILE_INODES - 1].name != "" }

  /** Every used inode is as it was. */
  ghost predicate Kept(t: Table, t': Table)
  {
    forall i :: 0 <= i < FILE_INODES ==> t'[i] == t[i] || (t[i] == Blank && t'[i] == Blank.(dino := t'[i].dino, name := t'[i].name))
  }

  /** fileino_create keeps names unique, touches no inode in use, and fails only if all are in use. */
  lemma CreateKeeps(t: Table, dino: Ino, name: string)
    requires TableOk(t) && Used(t, dino) && name != ""
    requires forall k :: 1 <= k < GENERAL ==> !Is(t[k], dino, name)
    ensures var (t', r) := Create(t, dino, name);
      && TableOk(t') && Kept(t, t')
      && (if r == -1 then t' == t && Full(t) else GENERAL <= r < FILE_INODES && Is(t'[r], dino, name))
  {
    hide TableOk, Kept, Full;
    var i, f := Find(t, dino, name, GENERAL), FirstFree(t, GENERAL);
    AllUsed(t, f);
    if i == FILE_INODES && f < FILE_INODES {
      AddedOk(t, f, dino, name);
    } else {
      KeptSame(t);
    }
  }

  lemma KeptSame(t: Table)
    ensures Kept(t, t)
  {
  }

  lemma AllUsed(t: Table, f: nat)
    requires f == FirstFree(t, GENERAL) && TableOk(t)
    ensures f == FILE_INODES ==> Full(t)
  {
  }

  lemma AddedOk(t: Table, f: nat, dino: Ino, name: string)
    requires TableOk(t) && Used(t, dino) && name != "" && f == FirstFree(t, GENERAL) < FILE_INODES
    requires forall k :: 1 <= k < FILE_INODES ==> !Is(t[k], dino, name)
    ensures TableOk(t[f := t[f].(dino := dino, name := name)]) && Kept(t, t[f := t[f].(dino := dino, name := name)])
  {
    hide FirstFree;
    var t' := t[f := t[f].(dino := dino, name := name)];
    assert t[f] == Blank;
    assert forall i :: Used(t, i) ==> i < f;
  }

  /* ---------- the pairing ---------- */

  /** An inode of each, paired: same name, in directories that are paired, and the child knows of it. */
  predicate Agree(m: Maps, i: Ino, j: Ino)
  {
    && m.p[i].name != "" && m.p[i].name == m.c[j].name
    && m.p2c[m.p[i].dino] == m.c[j].dino && m.c[j].rino == i
  }

  /** The two tables are each other's inverse, on inodes that correspond. */
  ghost predicate Paired(m: Maps)
  {
    && m.p2c[0] == 0 && m.c2p[0] == 0
    && (forall i: Ino :: m.p2c[i] != 0 ==> m.c2p[m.p2c[i]] == i && Agree(m, i, m.p2c[i]))
    && (forall j: Ino :: m.c2p[j] != 0 ==> m.p2c[m.c2p[j]] == j)
    && (forall k: Ino :: 1 <= k < GENERAL ==> m.p2c[k] == k && m.c2p[k] == k)
  }

  ghost predicate Good(m: Maps)
  {
    TableOk(m.p) && TableOk(m.c) && Paired(m)
  }

  /** The console and the root directory are the same on both sides. */
  ghost predicate SameSpecials(p: Table, c: Table)
  {
    forall k :: 1 <= k < GENERAL ==> p[k].name == c[k].name && c[k].rino == k
  }

  function Start(p: Table, c: Table): Maps
  {
    var l: seq<Ino> := seq(FILE_INODES, i => if i < GENERAL then i else 0);
    Maps(p, c, l, l)
  }

  function Valid(m: Maps, j: Ino): bool
  {
    var e := m.c[j];
    && 0 < e.rino < FILE_INODES && m.p2c[m.p[e.rino].dino] == e.dino && m.p[e.rino].name == e.name
    && e.rver <= m.p[e.rino].node.ver && e.rver <= e.node.ver
  }

  /** Record the child's own mapping if nothing is wrong with it. */
  function Link(m: Maps, j: Ino): Maps
  {
    if Valid(m, j) then m.(p2c := m.p2c[m.c[j].rino := j], c2p := m.c2p[j := m.c[j].rino]) else m
  }

  /** One child inode. */
  function ChildTurn(m: Maps, j: Ino): Maps
  {
    var e := m.c[j];
    if e.name == "" || (Gone(e.node) && e.rino == 0) then m
    else if e.rino == 0 then
      if m.c2p[e.dino] == 0 then m
      else
        var (p, r) := Create(m.p, m.c2p[e.dino], e.name);
        Link(m.(p := p, c := m.c[j := e.(rino := r)]), j)
    else Link(m, j)
  }

  /** One parent inode; there is none if the directory has no counterpart, where fileino_create's assertion fails. */
  function ParentTurn(m: Maps, i: Ino): Option<Maps>
  {
    var e := m.p[i];
    if e.name == "" || Gone(e.node) || m.p2c[i] != 0 then Some(m)
    else if m.p2c[e.dino] == 0 then None
    else
      var (c, r) := Create(m.c, m.p2c[e.dino], e.name);
      if r <= 0 || r >= FILE_INODES then Some(m.(c := c))
      else Some(m.(c := c[r := c[r].(rino := i)], p2c := m.p2c[i := r], c2p := m.c2p[r := i]))
  }

  function PairOf(m: Maps, i: Ino): Pair
  {
    var e := m.c[m.p2c[i]];
    Pair(m.p[i].node, e.node, e.rver, e.rlen)
  }

  function WithPair(m: Maps, i: Ino, y: Pair): Maps
  {
    var j := m.p2c[i];
    m.(p := m.p[i := m.p[i].(node := y.p)], c := m.c[j := m.c[j].(node := y.c, rver := y.rver, rlen := y.rlen)])
  }

  /** One pair; there is none if one of the assertions about the pair fails. */
  function PairTurn(m: Maps, i: Ino): Option<(Maps, bool)>
  {
    if m.p2c[i] == 0 then Some((m, false))
    else if m.c2p[m.p2c[i]] != i || !Sound(PairOf(m, i)) then None
    else
      var (y, didio) := Outcome(PairOf(m, i));
      Some((WithPair(m, i, y), didio))
  }

  datatype Option<T> = None | Some(value: T)

  /* ---------- all inodes below n ---------- */

  function ChildTurns(m: Maps, n: nat): Maps
    requires n <= FILE_INODES
  {
    if n <= 1 then m else ChildTurn(ChildTurns(m, n - 1), n - 1)
  }

  function ParentTurns(m: Maps, n: nat): Option<Maps>
    requires n <= FILE_INODES
  {
    if n <= 1 then Some(m)
    else match ParentTurns(m, n - 1) case None => None case Some(m1) => ParentTurn(m1, n - 1)
  }

  function PairTurns(m: Maps, n: nat): Option<(Maps, bool)>
    requires n <= FILE_INODES
  {
    if n <= 1 then Some((m, false))
    else match PairTurns(m, n - 1)
      case None => None
      case Some((m1, before)) =>
        match PairTurn(m1, n - 1) case None => None case Some((m2, now)) => Some((m2, before || now))
  }

  /** The pairing, and the whole reconciliation. */
  function Pairs(p: Table, c: Table): Option<Maps>
  {
    ParentTurns(ChildTurns(Start(p, c), |p|), |p|)
  }

  function Reconciled(p: Table, c: Table): Option<(Maps, bool)>
  {
    match Pairs(p, c) case None => None case Some(m) => PairTurns(m, |p|)
  }

  /* ---------- the methods ---------- */

  class FileState {
    var fi: Table

    constructor ()
      ensures fi == seq(FILE_INODES, i => Blank)
    {
      fi := seq(FILE_INODES, i => Blank);
    }

    method FileinoCreate(dino: Ino, name: string) returns (ino: int)
      requires dino != 0 && name != ""
      modifies this
      ensures (fi, ino) == Create(old(fi), dino, name)
    {
      hide Find, FirstFree;
      var i: nat := GENERAL;
      while i < FILE_INODES
        invariant GENERAL <= i <= FILE_INODES && fi == old(fi) && Find(fi, dino, name, GENERAL) == Find(fi, dino, name, i)
      {
        FindStep(fi, dino, name, i);
        if fi[i].dino == dino && fi[i].name == name {
          return i;
        }
        i := i + 1;
      }
      i := GENERAL;
      while i < FILE_INODES
        invariant GENERAL <= i <= FILE_INODES && fi == old(fi) && FirstFree(fi, GENERAL) == FirstFree(fi, i)
      {
        FreeStep(fi, i);
        if fi[i].name == "" {
          fi := fi[i := fi[i].(dino := dino, name := name)];
          return i;
        }
        i := i + 1;
      }
      ino := -1;
    }
  }

  lemma FindStep(t: Table, dino: Ino, name: string, k: nat)
    requires k < FILE_INODES
    ensures Find(t, dino, name, k) == if Is(t[k], dino, name) then k else Find(t, dino, name, k + 1)
  {
  }

  lemma FreeStep(t: Table, k: nat)
    requires k < FILE_INODES
    ensures FirstFree(t, k) == if t[k].name == "" then k else FirstFree(t, k + 1)
  {
  }

  /** reconcile; not ok when an assertion fails, which stops the parent. */
  method ReconcileAll(files: FileState, cfiles: FileState) returns (didio: bool, ok: bool)
    requires files != cfiles
    modifies files, cfiles
    ensures var r := Reconciled(old(files.fi), old(cfiles.fi));
      && ok == r.Some?
      && (ok ==> files.fi == r.value.0.p && cfiles.fi == r.value.0.c && didio == r.value.1)
  {
    hide Create, Valid, Outcome, Sound;
    didio, ok := false, true;
    var p2c: seq<Ino> := seq(FILE_INODES, i => if i < GENERAL then i else 0);
    var c2p: seq<Ino> := p2c;
    ghost var m0 := Maps(files.fi, cfiles.fi, p2c, c2p);
    assert m0 == Start(files.fi, cfiles.fi);
    var cino: nat := 1;
    while cino < FILE_INODES
      invariant 1 <= cino <= FILE_INODES && |p2c| == |c2p| == FILE_INODES
      invariant Maps(files.fi, cfiles.fi, p2c, c2p) == ChildTurns(m0, cino)
    {
      p2c, c2p := ReconcileChild(files, cfiles, cino, p2c, c2p);
      cino := cino + 1;
    }
    ghost var m1 := Maps(files.fi, cfiles.fi, p2c, c2p);
    var pino: nat := 1;
    while pino < FILE_INODES
      invariant 1 <= pino <= FILE_INODES && |p2c| == |c2p| == FILE_INODES
      invariant ParentTurns(m1, pino) == Some(Maps(files.fi, cfiles.fi, p2c, c2p))
    {
      p2c, c2p, ok := ReconcileParent(files, cfiles, pino, p2c, c2p);
      if !ok {
        ParentStuck(m1, pino + 1, FILE_INODES);
        return;
      }
      pino := pino + 1;
    }
    ghost var m2 := Maps(files.fi, cfiles.fi, p2c, c2p);
    pino := 1;
    while pino < FILE_INODES
      invariant 1 <= pino <= FILE_INODES && ok
      invariant PairTurns(m2, pino) == Some((Maps(files.fi, cfiles.fi, p2c, c2p), didio))
    {
      var did;
      did, ok := ReconcilePair(files, cfiles, pino, p2c, c2p);
      if !ok {
        PairStuck(m2, pino + 1, FILE_INODES);
        return;
      }
      didio := didio || did;
      pino := pino + 1;
    }
  }

  /** The turn of one child inode in the first loop. */
  method ReconcileChild(files: FileState, cfiles: FileState, cino: Ino, p2c: Links, c2p: Links) returns (p2c': Links, c2p': Links)
    requires files != cfiles && cino != 0
    modifies files, cfiles
    ensures Maps(files.fi, cfiles.fi, p2c', c2p') == ChildTurn(Maps(old(files.fi), old(cfiles.fi), p2c, c2p), cino)
  {
    hide Create;
    p2c', c2p' := p2c, c2p;
    var cfi := cfiles.fi[cino];
    if cfi.name == "" || (Gone(cfi.node) && cfi.rino == 0) {
      return;
    }
    if cfi.rino == 0 {
      if c2p[cfi.dino] == 0 {
        return;
      }
      var ino := files.FileinoCreate(c2p[cfi.dino], cfi.name);
      cfi := cfi.(rino := ino);
      cfiles.fi := cfiles.fi[cino := cfi];
      if ino <= 0 {
        return;
      }
    }
    var pino := cfi.rino;
    if pino <= 0 || pino >= FILE_INODES || p2c[files.fi[pino].dino] != cfi.dino || files.fi[pino].name != cfi.name
        || cfi.rver > files.fi[pino].node.ver || cfi.rver > cfi.node.ver {
      return;
    }
    p2c', c2p' := p2c[pino := cino], c2p[cino := pino];
  }

  /** The turn of one parent inode in the second loop. */
  method ReconcileParent(files: FileState, cfiles: FileState, pino: Ino, p2c: Links, c2p: Links)
    returns (p2c': Links, c2p': Links, ok: bool)
    requires files != cfiles && pino != 0
    modifies cfiles
    ensures var r := ParentTurn(Maps(files.fi, old(cfiles.fi), p2c, c2p), pino);
      ok == r.Some? && (ok ==> Maps(files.fi, cfiles.fi, p2c', c2p') == r.value)
  {
    hide Create;
    p2c', c2p', ok := p2c, c2p, true;
    var pfi := files.fi[pino];
    if pfi.name == "" || Gone(pfi.node) || p2c[pino] != 0 {
      return;
    }
    if p2c[pfi.dino] == 0 {
      ok := false;
      return;
    }
    var cino := cfiles.FileinoCreate(p2c[pfi.dino], pfi.name);
    if cino <= 0 || cino >= FILE_INODES {
      return;
    }
    cfiles.fi := cfiles.fi[cino := cfiles.fi[cino].(rino := pino)];
    p2c', c2p' := p2c[pino := cino], c2p[cino := pino];
  }

  /** The turn of one pair in the third loop. */
  method ReconcilePair(files: FileState, cfiles: FileState, pino: Ino, p2c: Links, c2p: Links) returns (didio: bool, ok: bool)
    requires files != cfiles
    modifies files, cfiles
    ensures var r := PairTurn(Maps(old(files.fi), old(cfiles.fi), p2c, c2p), pino);
      ok == r.Some? && (ok ==> (Maps(files.fi, cfiles.fi, p2c, c2p), didio) == r.value)
  {
    hide Outcome, Sound;
    didio, ok := false, true;
    var cino := p2c[pino];
    if cino == 0 {
      return;
    }
    var x := Pair(files.fi[pino].node, cfiles.fi[cino].node, cfiles.fi[cino].rver, cfiles.fi[cino].rlen);
    if c2p[cino] != pino || !Sound(x) {
      ok := false;
      return;
    }
    var y;
    y, didio := ReconcileInode(x);
    files.fi := files.fi[pino := files.fi[pino].(node := y.p)];
    cfiles.fi := cfiles.fi[cino := cfiles.fi[cino].(node := y.c, rver := y.rver, rlen := y.rlen)];
  }

  lemma {:induction false} ParentStuck(m: Maps, k: nat, n: nat)
    requires 1 <= k <= n <= FILE_INODES && ParentTurns(m, k).None?
    ensures ParentTurns(m, n).None?
  {
    if k < n { ParentStuck(m, k, n - 1); }
  }

  lemma {:induction false} PairStuck(m: Maps, k: nat, n: nat)
    requires 1 <= k <= n <= FILE_INODES && PairTurns(m, k).None?
    ensures PairTurns(m, n).None?
  {
    if k < n { PairStuck(m, k, n - 1); }
  }

  /* ---------- the two tables are mutual inverses ---------- */

  /** An inode fits at most one counterpart: the names and directories decide it. */
  lemma Fits(m: Maps, i: Ino, j: Ino)
    requires Good(m) && m.p[i].name != "" && m.p[i].name == m.c[j].name && m.p2c[m.p[i].dino] == m.c[j].dino
    ensures (m.p2c[i] == 0 || m.p2c[i] == j) && (m.c2p[j] == 0 || m.c2p[j] == i)
  {
    assert Used(m.p, i) && Used(m.c, j) && m.c[j].dino != 0;
    var j0, i0 := m.p2c[i], m.c2p[j];
    if j0 != 0 {
      assert Agree(m, i, j0) && Used(m.c, j0);
    }
    if i0 != 0 {
      assert Agree(m, i0, j) && Used(m.p, i0);
      assert m.p[i0].dino == m.p[i].dino;
    }
  }

  function Joined(m: Maps, i: Ino, j: Ino): Maps
  {
    m.(c := m.c[j := m.c[j].(rino := i)], p2c := m.p2c[i := j], c2p := m.c2p[j := i])
  }

  lemma JoinedGood(m: Maps, i: Ino, j: Ino)
    requires Good(m) && m.p[i].name != "" && m.p[i].name == m.c[j].name && m.p2c[m.p[i].dino] == m.c[j].dino
    ensures Good(Joined(m, i, j))
  {
    Fits(m, i, j);
    var n := Joined(m, i, j);
    assert m.c[j].dino != 0 && m.p[i].dino != 0;
    assert TableOk(n.c) by { RinoFree(m.c, j, i); }
    forall k: Ino | n.p2c[k] != 0 ensures n.c2p[n.p2c[k]] == k && Agree(n, k, n.p2c[k]) {
      if k != i { assert Agree(m, k, m.p2c[k]); }
    }
  }

  /** What a child knows of the parent's inode does not matter to the table. */
  lemma RinoFree(t: Table, j: Ino, r: int)
    requires TableOk(t) && t[j].name != ""
    ensures TableOk(t[j := t[j].(rino := r)])
  {
  }

  lemma GrownGood(m: Maps, p: Table, c: Table)
    requires Good(m) && TableOk(p) && TableOk(c) && Kept(m.p, p) && Kept(m.c, c)
    ensures Good(m.(p := p, c := c))
  {
    forall i: Ino | m.p2c[i] != 0 ensures Agree(m.(p := p, c := c), i, m.p2c[i]) {
      assert Agree(m, i, m.p2c[i]) && m.p[i].name != Blank.name;
    }
  }

  lemma LooseGood(m: Maps, j: Ino, r: int)
    requires Good(m) && m.c2p[j] == 0 && m.c[j].name != ""
    ensures Good(m.(c := m.c[j := m.c[j].(rino := r)]))
  {
    RinoFree(m.c, j, r);
    var n := m.(c := m.c[j := m.c[j].(rino := r)]);
    forall i: Ino | m.p2c[i] != 0 ensures Agree(n, i, m.p2c[i]) {
      assert Agree(m, i, m.p2c[i]);
    }
  }

  lemma LinkGood(m: Maps, j: Ino)
    requires Good(m) && m.c[j].name != ""
    ensures Good(Link(m, j))
  {
    hide Good;
    if Valid(m, j) {
      JoinedGood(m, m.c[j].rino, j);
      assert Joined(m, m.c[j].rino, j).c == m.c;
    }
  }

  /** A child inode the parent does not know yet is new to the parent too. */
  lemma NewToParent(m: Maps, j: Ino)
    requires Good(m) && m.c[j].name != "" && m.c[j].rino == 0 && m.c2p[m.c[j].dino] != 0
    ensures m.c2p[j] == 0 && Used(m.p, m.c2p[m.c[j].dino])
    ensures forall k :: 1 <= k < GENERAL ==> !Is(m.p[k], m.c2p[m.c[j].dino], m.c[j].name)
  {
    var d := m.c2p[m.c[j].dino];
    assert Agree(m, d, m.c[j].dino);
    assert m.c2p[j] == 0 || Agree(m, m.c2p[j], j);
    forall k: Ino | 1 <= k < GENERAL && Is(m.p[k], d, m.c[j].name) ensures false {
      assert Agree(m, k, m.p2c[k]) && Used(m.c, k) && Used(m.c, j);
    }
  }

  lemma NewToChild(m: Maps, i: Ino)
    requires Good(m) && m.p[i].name != "" && m.p2c[i] == 0 && m.p2c[m.p[i].dino] != 0
    ensures Used(m.c, m.p2c[m.p[i].dino])
    ensures forall k :: 1 <= k < GENERAL ==> !Is(m.c[k], m.p2c[m.p[i].dino], m.p[i].name)
  {
    var d := m.p2c[m.p[i].dino];
    assert Agree(m, m.p[i].dino, d);
    forall k: Ino | 1 <= k < GENERAL && Is(m.c[k], d, m.p[i].name) ensures false {
      assert Agree(m, k, m.p2c[k]) && Used(m.p, k) && Used(m.p, i);
    }
  }

  lemma KeptItself(t: Table)
    ensures Kept(t, t)
  {
  }

  /** Whatever a child inode says of the parent, its turn keeps the pairing. */
  lemma ChildTurnGood(m: Maps, j: Ino)
    requires Good(m)
    ensures Good(ChildTurn(m, j)) && Kept(m.p, ChildTurn(m, j).p)
  {
    hide Good, Kept, Create, Valid;
    var e := m.c[j];
    KeptItself(m.p);
    KeptItself(m.c);
    if e.name != "" && e.rino == 0 && !Gone(e.node) && m.c2p[e.dino] != 0 {
      NewToParent(m, j);
      GoodTables(m);
      CreateKeeps(m.p, m.c2p[e.dino], e.name);
      var (p, r) := Create(m.p, m.c2p[e.dino], e.name);
      GrownGood(m, p, m.c);
      assert m.(p := p).(c := m.c) == m.(p := p);
      LooseGood(m.(p := p), j, r);
      LinkGood(m.(p := p, c := m.c[j := e.(rino := r)]), j);
    } else if e.name != "" && e.rino != 0 {
      LinkGood(m, j);
    }
  }

  lemma GoodTables(m: Maps)
    requires Good(m)
    ensures TableOk(m.p) && TableOk(m.c)
  {
  }

  lemma ParentTurnGood(m: Maps, i: Ino)
    requires Good(m) && ParentTurn(m, i).Some?
    ensures Good(ParentTurn(m, i).value) && ParentTurn(m, i).value.p == m.p
  {
    hide Good, Kept, Create;
    var e := m.p[i];
    if e.name != "" && !Gone(e.node) && m.p2c[i] == 0 {
      NewToChild(m, i);
      GoodTables(m);
      CreateKeeps(m.c, m.p2c[e.dino], e.name);
      var (c, r) := Create(m.c, m.p2c[e.dino], e.name);
      KeptItself(m.p);
      GrownGood(m, m.p, c);
      assert m.(p := m.p, c := c) == m.(c := c);
      if r > 0 { InSameDirectory(m, c, i, r); JoinedGood(m.(c := c), i, r); }
    }
  }

  lemma InSameDirectory(m: Maps, c: Table, i: Ino, r: Ino)
    requires Is(c[r], m.p2c[m.p[i].dino], m.p[i].name)
    ensures m.(c := c).p2c[m.p[i].dino] == c[r].dino && m.p[i].name == c[r].name
  {
  }

  lemma StartGood(p: Table, c: Table)
    requires TableOk(p) && TableOk(c) && SameSpecials(p, c)
    ensures Good(Start(p, c))
  {
    var m := Start(p, c);
    assert forall k: Ino :: m.p2c[k] == m.c2p[k] == if k < GENERAL then k else 0;
    forall k: Ino | 1 <= k < GENERAL ensures Agree(m, k, k) { assert p[k].dino == ROOTDIR && c[k].dino == ROOTDIR; }
  }

  lemma {:induction false} ChildTurnsGood(m: Maps, n: nat)
    requires Good(m) && n <= FILE_INODES
    ensures Good(ChildTurns(m, n)) && Kept(m.p, ChildTurns(m, n).p)
  {
    hide Good, Kept, ChildTurn;
    KeptItself(m.p);
    if n > 1 {
      ChildTurnsGood(m, n - 1);
      ChildTurnGood(ChildTurns(m, n - 1), n - 1);
      KeptTrans(m.p, ChildTurns(m, n - 1).p, ChildTurns(m, n).p);
    }
  }

  lemma KeptTrans(s: Table, t: Table, u: Table)
    requires Kept(s, t) && Kept(t, u)
    ensures Kept(s, u)
  {
  }

  lemma {:induction false} ParentTurnsGood(m: Maps, n: nat)
    requires Good(m) && n <= FILE_INODES && ParentTurns(m, n).Some?
    ensures Good(ParentTurns(m, n).value) && ParentTurns(m, n).value.p == m.p
  {
    hide Good, ParentTurn;
    if n > 1 {
      ParentTurnsGood(m, n - 1);
      ParentTurnGood(ParentTurns(m, n - 1).value, n - 1);
    }
  }

  /** For any child file system with unique names, whatever it claims about its parent's inodes, the two tables come out
      as mutual inverses between inodes of the same name in paired directories; names stay unique on both sides and the
      parent's inodes stay what they were. */
  lemma MutualInverses(p: Table, c: Table)
    requires TableOk(p) && TableOk(c) && SameSpecials(p, c) && Pairs(p, c).Some?
    ensures Good(Pairs(p, c).value) && Kept(p, Pairs(p, c).value.p)
  {
    hide Good, Kept, TableOk, ChildTurns, ParentTurns;
    StartGood(p, c);
    ChildTurnsGood(Start(p, c), |p|);
    ParentTurnsGood(ChildTurns(Start(p, c), |p|), |p|);
  }
}
