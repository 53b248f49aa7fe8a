/** A whole reconciliation of two file systems: what it pairs, when it stops, that a second one is idle (lib/fork.c). */
module Settling {
  import opened Reconcile
  import opened Pairing

  /* ---------- what the pairs become ---------- */

  ghost predicate AllSound(m: Maps, n: nat)
  {
    forall i: Ino :: 1 <= i < n && m.p2c[i] != 0 ==> Sound(PairOf(m, i))
  }

  ghost predicate AllIdle(m: Maps, n: nat)
    requires AllSound(m, n)
  {
    forall i: Ino :: 1 <= i < n && m.p2c[i] != 0 ==> !Outcome(PairOf(m, i)).1
  }

  /** The pairs below n have been reconciled, each from what it was at the start; nothing else has changed. */
  ghost predicate Done(m: Maps, m': Maps, n: nat)
    requires Inverse(m) && AllSound(m, n)
  {
    && m'.p2c == m.p2c && m'.c2p == m.c2p
    && (forall i: Ino :: m'.p[i] == if 1 <= i < n && m.p2c[i] != 0 then NewParent(m, i) else m.p[i])
    && (forall j: Ino :: m'.c[j] == if 1 <= m.c2p[j] < n then NewChild(m, m.c2p[j], j) else m.c[j])
  }

  function NewParent(m: Maps, i: Ino): Entry
    requires Sound(PairOf(m, i))
  {
    m.p[i].(node := Outcome(PairOf(m, i)).0.p)
  }

  function NewChild(m: Maps, i: Ino, j: Ino): Entry
    requires Sound(PairOf(m, i))
  {
    var y := Outcome(PairOf(m, i)).0;
    m.c[j].(node := y.c, rver := y.rver, rlen := y.rlen)
  }

  ghost predicate Inverse(m: Maps)
  {
    && m.p2c[0] == 0 && m.c2p[0] == 0
    && (forall i: Ino :: m.p2c[i] != 0 ==> m.c2p[m.p2c[i]] == i)
    && (forall j: Ino :: m.c2p[j] != 0 ==> m.p2c[m.c2p[j]] == j)
  }

  lemma DoneStep(m: Maps, m': Maps, i: Ino, m2: Maps, did: bool)
    requires Inverse(m) && i != 0 && m.p2c[i] != 0 && AllSound(m, i + 1) && Done(m, m', i)
    requires PairTurn(m', i) == Some((m2, did))
    ensures Done(m, m2, i + 1) && did == Outcome(PairOf(m, i)).1
  {
    hide Sound, Outcome;
    var j := m.p2c[i];
    assert m'.p[i] == m.p[i] && m'.c[j] == m.c[j];
    assert PairOf(m', i) == PairOf(m, i);
    forall k: Ino ensures m2.p[k] == if 1 <= k < i + 1 && m.p2c[k] != 0 then NewParent(m, k) else m.p[k] {
      assert k != i ==> m2.p[k] == m'.p[k];
    }
    forall k: Ino ensures m2.c[k] == if 1 <= m.c2p[k] < i + 1 then NewChild(m, m.c2p[k], k) else m.c[k] {
      assert k != j ==> m2.c[k] == m'.c[k];
      assert k != j ==> m.c2p[k] != i;
    }
  }

  lemma DoneSkip(m: Maps, m': Maps, i: Ino)
    requires Inverse(m) && i != 0 && m.p2c[i] == 0 && AllSound(m, i) && Done(m, m', i)
    ensures AllSound(m, i + 1) && Done(m, m', i + 1)
  {
    hide Sound, Outcome;
    assert forall j: Ino :: m.c2p[j] != i;
  }

  lemma StillThere(m: Maps, m': Maps, i: Ino)
    requires Inverse(m) && i != 0 && m.p2c[i] != 0 && AllSound(m, i) && Done(m, m', i)
    ensures m'.c2p[m'.p2c[i]] == i && PairOf(m', i) == PairOf(m, i)
  {
    hide Sound, Outcome;
    var j := m.p2c[i];
    assert m'.p[i] == m.p[i] && m'.c[j] == m.c[j];
  }

  /** The reconciliation of the pairs stops exactly at a pair that is not sound; otherwise each pair becomes what
      reconciling it alone gives, and something was done exactly when something was done for one of them. */
  lemma {:induction false} PairTurnsDo(m: Maps, n: nat)
    requires Inverse(m) && n <= FILE_INODES
    ensures PairTurns(m, n).Some? <==> AllSound(m, n)
    ensures AllSound(m, n) ==> Done(m, PairTurns(m, n).value.0, n) && (PairTurns(m, n).value.1 <==> !AllIdle(m, n))
  {
    hide Sound, Outcome, Done, Inverse;
    if n <= 1 {
      DoneNone(m);
    } else {
      PairTurnsDo(m, n - 1);
      if AllSound(m, n - 1) {
        var m' := PairTurns(m, n - 1).value.0;
        if m.p2c[n - 1] != 0 {
          StillThere(m, m', n - 1);
          SameMaps(m, m', n - 1);
          if Sound(PairOf(m, n - 1)) {
            var (m2, did) := PairTurn(m', n - 1).value;
            DoneStep(m, m', n - 1, m2, did);
          }
        } else {
          SameMaps(m, m', n - 1);
          DoneSkip(m, m', n - 1);
        }
      }
    }
  }

  lemma SameMaps(m: Maps, m': Maps, n: nat)
    requires Inverse(m) && AllSound(m, n) && Done(m, m', n)
    ensures m'.p2c == m.p2c && m'.c2p == m.c2p
  {
  }

  lemma DoneNone(m: Maps)
    requires Inverse(m)
    ensures forall n: nat :: n <= 1 ==> AllSound(m, n) && Done(m, m, n)
  {
    hide Sound, Outcome;
  }

  /* ---------- the pairing is complete ---------- */

  /** The parent's inode that a child's inode stands for. */
  ghost predicate RefOk(p: Table, c: Table, j: Ino)
  {
    && 0 < c[j].rino < FILE_INODES && c[j].name != "" && p[c[j].rino].name == c[j].name
    && c[c[j].dino].rino == p[c[j].rino].dino
    && c[j].rver <= p[c[j].rino].node.ver && c[j].rver <= c[j].node.ver
  }

  /** A child that keeps its references as fork and reconcile leave them. */
  ghost predicate Linked(p: Table, c: Table)
  {
    && SameSpecials(p, c)
    && (forall j: Ino :: Used(c, j) ==> if c[j].rino != 0 then RefOk(p, c, j) else c[j].rver == 0)
  }

  /** Files that exist are in directories that exist. */
  ghost predicate LiveDirs(t: Table)
  {
    forall i: Ino :: Live(t, i) ==> Live(t, t[i].dino)
  }

  /** There is room on each side for all the other's inodes. */
  predicate Room(p: Table, c: Table)
  {
    FirstFree(p, GENERAL) + FirstFree(c, GENERAL) <= FILE_INODES + GENERAL
  }

  /** How many of the general inodes below n are below the first free one. */
  function Taken(n: nat, free: nat): nat
  {
    var k := if n < free then n else free;
    if k < GENERAL then 0 else k - GENERAL
  }

  lemma CreateRoom(t: Table, dino: Ino, name: string)
    requires TableOk(t) && name != ""
    ensures FirstFree(t, GENERAL) < FILE_INODES ==> Create(t, dino, name).1 >= GENERAL
    ensures FirstFree(Create(t, dino, name).0, GENERAL) <= FirstFree(t, GENERAL) + 1
  {
    var f, t' := FirstFree(t, GENERAL), Create(t, dino, name).0;
    if t' != t && f + 1 < FILE_INODES {
      assert t'[f + 1].name == "";
    }
  }

  lemma CreateOnly(t: Table, dino: Ino, name: string)
    ensures forall j: Ino :: j != Create(t, dino, name).1 ==> Create(t, dino, name).0[j] == t[j]
  {
  }

  lemma UsedBelow(t: Table, j: Ino)
    requires TableOk(t) && Used(t, j)
    ensures j < FirstFree(t, GENERAL)
  {
    var f := FirstFree(t, GENERAL);
    assert f < FILE_INODES ==> t[f].name == "";
  }

  /** The child inodes below n are paired, but for those that came and went in the child. */
  ghost predicate ChildDone(p: Table, c: Table, m: Maps, n: nat)
  {
    && Good(m) && Kept(p, m.p)
    && (forall j: Ino :: m.c[j] == c[j].(rino := m.c[j].rino) && (j >= n || c[j].rino != 0 ==> m.c[j] == c[j]))
    && (forall j: Ino :: 1 <= j < n && Used(c, j) ==> m.c2p[j] != 0 || (Gone(c[j].node) && m.c[j].rino == 0))
  }

  /** A child's own reference passes the check. */
  lemma OwnRefValid(p: Table, c: Table, m: Maps, j: Ino)
    requires TableOk(p) && TableOk(c) && Linked(p, c) && ChildDone(p, c, m, j) && Used(c, j) && c[j].rino != 0
    ensures Valid(m, j)
  {
    var i, d := c[j].rino, c[j].dino;
    assert RefOk(p, c, j) && Used(p, i) && m.p[i] == p[i];
    if j < GENERAL {
      assert i == j && p[i].dino == ROOTDIR && m.p2c[ROOTDIR] == ROOTDIR;
    } else {
      assert 1 <= d < j && Used(c, d);
      assert m.c2p[d] != 0;
      assert Agree(m, m.c2p[d], d);
    }
  }

  lemma NewRefValid(m: Maps, p: Table, j: Ino, r: Ino)
    requires Inverse(m) && m.c2p[m.c[j].dino] != 0 && m.c[j].rver == 0 && r != 0 && Is(p[r], m.c2p[m.c[j].dino], m.c[j].name)
    ensures Valid(m.(p := p, c := m.c[j := m.c[j].(rino := r)]), j)
  {
  }

  lemma GoodInverse(m: Maps)
    requires Good(m)
    ensures Inverse(m)
  {
  }

  lemma ChildDoneStep(p: Table, c: Table, m: Maps, j: Ino)
    requires TableOk(p) && TableOk(c) && Linked(p, c) && LiveDirs(c) && ChildDone(p, c, m, j) && j != 0
    requires Used(c, j) && j >= GENERAL ==> FirstFree(m.p, GENERAL) < FILE_INODES
    ensures ChildDone(p, c, ChildTurn(m, j), j + 1)
    ensures FirstFree(ChildTurn(m, j).p, GENERAL) <= FirstFree(m.p, GENERAL) + if Used(c, j) && j >= GENERAL then 1 else 0
  {
    hide Create, TableOk, Paired, Valid, Kept, LiveDirs, Linked, ChildDone;
    var e, m' := m.c[j], ChildTurn(m, j);
    BeforeTurn(p, c, m, j);
    ChildTurnGood(m, j);
    KeptTrans(p, m.p, m'.p);
    assert m.c[j := e] == m.c;
    if Used(c, j) && e.rino != 0 {
      OwnRefValid(p, c, m, j);
      assert m'.c2p[j] != 0;
    } else if Used(c, j) && !Gone(e.node) {
      SpecialRef(p, c, j);
      LiveParent(c, j);
      DirBefore(p, c, m, j);
      var d := m.c2p[e.dino];
      NewToParent(m, j);
      CreateRoom(m.p, d, e.name);
      CreateKeeps(m.p, d, e.name);
      var (p', r) := Create(m.p, d, e.name);
      NewRefValid(m, p', j, r);
      assert m'.c2p[j] != 0;
    }
    AfterTurn(p, c, m, j, m');
  }

  lemma BeforeTurn(p: Table, c: Table, m: Maps, j: Ino)
    requires ChildDone(p, c, m, j)
    ensures Good(m) && Inverse(m) && Kept(p, m.p) && m.c[j] == c[j]
  {
    hide TableOk, Kept;
  }

  lemma DirBefore(p: Table, c: Table, m: Maps, j: Ino)
    requires ChildDone(p, c, m, j) && Live(c, c[j].dino) && c[j].dino < j
    ensures m.c2p[c[j].dino] != 0
  {
    hide Good, Kept;
  }

  lemma AfterTurn(p: Table, c: Table, m: Maps, j: Ino, m': Maps)
    requires ChildDone(p, c, m, j) && Good(m') && Kept(p, m'.p) && j != 0
    requires m'.c == m.c[j := m.c[j].(rino := m'.c[j].rino)] && (c[j].rino != 0 ==> m'.c == m.c)
    requires forall k: Ino :: k != j ==> m'.c2p[k] == m.c2p[k]
    requires Used(c, j) ==> m'.c2p[j] != 0 || (Gone(c[j].node) && m'.c[j].rino == 0)
    ensures ChildDone(p, c, m', j + 1)
  {
    hide Good, Kept;
    forall k: Ino ensures m'.c[k] == c[k].(rino := m'.c[k].rino) && (k >= j + 1 || c[k].rino != 0 ==> m'.c[k] == c[k]) {
      assert k != j ==> m'.c[k] == m.c[k];
    }
    forall k: Ino | 1 <= k < j + 1 && Used(c, k) ensures m'.c2p[k] != 0 || (Gone(c[k].node) && m'.c[k].rino == 0) {
      assert k != j ==> m'.c[k] == m.c[k];
    }
  }

  lemma LiveParent(c: Table, j: Ino)
    requires LiveDirs(c) && Live(c, j) && TableOk(c) && j >= GENERAL
    ensures Live(c, c[j].dino) && c[j].dino < j
  {
  }

  lemma SpecialRef(p: Table, c: Table, j: Ino)
    requires Linked(p, c) && Used(c, j) && c[j].rino == 0
    ensures j >= GENERAL && c[j].rver == 0
  {
  }

  /** How far the parent's table has filled up before child inode n. */
  lemma {:induction false} ChildTurnsDone(p: Table, c: Table, n: nat)
    requires TableOk(p) && TableOk(c) && Linked(p, c) && LiveDirs(c) && Room(p, c) && 1 <= n <= FILE_INODES
    ensures ChildDone(p, c, ChildTurns(Start(p, c), n), n)
    ensures FirstFree(ChildTurns(Start(p, c), n).p, GENERAL) <= FirstFree(p, GENERAL) + Taken(n, FirstFree(c, GENERAL))
  {
    hide TableOk, Linked, LiveDirs, FirstFree, ChildTurn, ChildDone;
    if n == 1 {
      StartDone(p, c);
    } else {
      ChildTurnsDone(p, c, n - 1);
      var m := ChildTurns(Start(p, c), n - 1);
      if Used(c, n - 1) { UsedBelow(c, n - 1); }
      ChildDoneStep(p, c, m, n - 1);
    }
  }

  lemma StartDone(p: Table, c: Table)
    requires TableOk(p) && TableOk(c) && Linked(p, c)
    ensures ChildDone(p, c, Start(p, c), 1)
  {
    hide TableOk;
    StartGood(p, c);
    KeptItself(p);
  }

  /** The live parent inodes below n are paired; the child has changed only where an inode was paired. */
  ghost predicate ParentDone(m: Maps, m': Maps, n: nat)
  {
    && Good(m') && m'.p == m.p
    && (forall i: Ino :: 1 <= i < n && Live(m.p, i) ==> m'.p2c[i] != 0)
    && (forall j: Ino :: m'.c2p[j] != 0 || (m'.c[j] == m.c[j] && m.c2p[j] == 0))
    && (forall j: Ino :: m.c[j].name != "" ==> m'.c[j] == m.c[j].(rino := m'.c[j].rino))
    && (forall j: Ino :: m.c[j].name == "" && m'.c[j].name != "" ==> m'.c[j].node == Blank.node && m'.c[j].rver == 0)
  }

  lemma ParentDoneStep(m: Maps, m1: Maps, i: Ino)
    requires Good(m) && LiveDirs(m.p) && ParentDone(m, m1, i) && i != 0
    requires Live(m.p, i) && m1.p2c[i] == 0 ==> FirstFree(m1.c, GENERAL) < FILE_INODES
    ensures ParentTurn(m1, i).Some? && ParentDone(m, ParentTurn(m1, i).value, i + 1)
    ensures FirstFree(ParentTurn(m1, i).value.c, GENERAL)
         <= FirstFree(m1.c, GENERAL) + if Live(m.p, i) && m1.p2c[i] == 0 then 1 else 0
  {
    hide Create, TableOk, Paired, LiveDirs, ParentDone;
    SameParent(m, m1, i);
    if Live(m1.p, i) && m1.p2c[i] == 0 {
      var e := m1.p[i];
      ParentDirPaired(m, m1, i);
      ParentTurnGood(m1, i);
      NewToChild(m1, i);
      CreateKeeps(m1.c, m1.p2c[e.dino], e.name);
      CreateRoom(m1.c, m1.p2c[e.dino], e.name);
      var (c, r) := Create(m1.c, m1.p2c[e.dino], e.name);
      SameFree(c, r, i);
      CreateOnly(m1.c, m1.p2c[e.dino], e.name);
      JoinDone(m, m1, i, c, r);
    } else {
      SkipDone(m, m1, i);
    }
  }

  lemma SameParent(m: Maps, m1: Maps, n: nat)
    requires ParentDone(m, m1, n)
    ensures m1.p == m.p && Good(m1)
  {
  }

  lemma SkipDone(m: Maps, m1: Maps, i: Ino)
    requires ParentDone(m, m1, i) && (Live(m.p, i) ==> m1.p2c[i] != 0)
    ensures ParentDone(m, m1, i + 1)
  {
    hide Good;
  }

  lemma JoinDone(m: Maps, m1: Maps, i: Ino, c: Table, r: Ino)
    requires ParentDone(m, m1, i) && Kept(m1.c, c) && Good(Joined(m1.(c := c), i, r)) && i != 0 && r != 0 && c[r].name != ""
    requires forall j: Ino :: j != r ==> c[j] == m1.c[j]
    ensures ParentDone(m, Joined(m1.(c := c), i, r), i + 1)
  {
    hide Good;
    var m2 := Joined(m1.(c := c), i, r);
    forall k: Ino | 1 <= k < i + 1 && Live(m.p, k) ensures m2.p2c[k] != 0 {
      assert k != i ==> m1.p2c[k] != 0;
    }
  }

  lemma SameFree(t: Table, j: Ino, r: int)
    requires t[j].name != ""
    ensures FirstFree(t[j := t[j].(rino := r)], GENERAL) == FirstFree(t, GENERAL)
  {
    var f, g := FirstFree(t, GENERAL), FirstFree(t[j := t[j].(rino := r)], GENERAL);
    assert f < FILE_INODES ==> t[j := t[j].(rino := r)][f].name == "";
  }

  lemma ParentDirPaired(m: Maps, m1: Maps, i: Ino)
    requires Good(m) && LiveDirs(m.p) && ParentDone(m, m1, i) && Live(m.p, i) && m1.p2c[i] == 0
    ensures m1.p2c[m.p[i].dino] != 0 && i >= GENERAL
  {
    assert forall k: Ino :: 1 <= k < GENERAL ==> m1.p2c[k] == k;
  }

  lemma {:induction false} ParentTurnsDone(p: Table, m: Maps, n: nat)
    requires Good(m) && TableOk(p) && Kept(p, m.p) && LiveDirs(p) && 1 <= n <= FILE_INODES
    requires FirstFree(p, GENERAL) + FirstFree(m.c, GENERAL) <= FILE_INODES + GENERAL
    ensures ParentTurns(m, n).Some? && ParentDone(m, ParentTurns(m, n).value, n)
    ensures FirstFree(ParentTurns(m, n).value.c, GENERAL) <= FirstFree(m.c, GENERAL) + Taken(n, FirstFree(p, GENERAL))
  {
    hide TableOk, LiveDirs, FirstFree, ParentTurn, ParentDone, Good, Kept;
    if n == 1 {
      NoneDone(m);
    } else {
      ParentTurnsDone(p, m, n - 1);
      var m1 := ParentTurns(m, n - 1).value;
      LiveBefore(p, m.p);
      if Live(m.p, n - 1) && m1.p2c[n - 1] == 0 {
        UsedBelow(p, n - 1);
        ParentDirPaired(m, m1, n - 1);
      }
      ParentDoneStep(m, m1, n - 1);
    }
  }

  lemma NoneDone(m: Maps)
    requires Good(m)
    ensures ParentDone(m, m, 1)
  {
    hide TableOk;
  }

  /** What is newly made does not exist yet as a file. */
  lemma LiveBefore(p: Table, p': Table)
    requires Kept(p, p') && LiveDirs(p)
    ensures LiveDirs(p') && forall i :: Live(p', i) ==> Live(p, i)
  {
    forall i: Ino | Live(p', i) ensures Live(p, i) && p'[i] == p[i] && Live(p', p'[i].dino) {
      assert p'[i] == p[i];
    }
  }

  /** Every file that exists on either side has its counterpart. */
  ghost predicate Complete(m: Maps)
  {
    && (forall i: Ino :: Live(m.p, i) ==> m.p2c[i] != 0)
    && (forall j: Ino :: Used(m.c, j) ==> m.c2p[j] != 0 || (Gone(m.c[j].node) && m.c[j].rino == 0 && m.c[j].rver == 0))
  }

  /** With sound references, no files left in deleted directories and enough room, the pairing neither stops nor leaves
      a file out. */
  lemma PairsAll(p: Table, c: Table)
    requires TableOk(p) && TableOk(c) && Linked(p, c) && LiveDirs(p) && LiveDirs(c) && Room(p, c)
    ensures Pairs(p, c).Some? && Good(Pairs(p, c).value) && Complete(Pairs(p, c).value)
    ensures Kept(p, Pairs(p, c).value.p)
    ensures forall j: Ino :: Used(c, j) ==> Pairs(p, c).value.c[j] == c[j].(rino := Pairs(p, c).value.c[j].rino)
  {
    hide Good, TableOk, Kept, ChildTurns, ParentTurns, FirstFree, LiveDirs, ChildDone, ParentDone, Linked, Complete;
    ChildTurnsDone(p, c, |p|);
    var m := ChildTurns(Start(p, c), |p|);
    AfterChildren(p, c, m, |p|);
    ParentTurnsDone(p, m, |p|);
    AfterParents(p, c, m, ParentTurns(m, |p|).value, |p|);
  }

  lemma AfterChildren(p: Table, c: Table, m: Maps, n: nat)
    requires ChildDone(p, c, m, n)
    ensures Good(m) && Kept(p, m.p) && FirstFree(m.c, GENERAL) == FirstFree(c, GENERAL)
  {
    hide Good, Kept;
    var f, g := FirstFree(m.c, GENERAL), FirstFree(c, GENERAL);
    assert forall j: Ino :: m.c[j].name == c[j].name;
    assert f < FILE_INODES ==> c[f].name == "";
    assert g < FILE_INODES ==> m.c[g].name == "";
  }

  lemma AfterParents(p: Table, c: Table, m: Maps, m': Maps, n: nat)
    requires ChildDone(p, c, m, n) && ParentDone(m, m', n) && n == FILE_INODES && Linked(p, c)
    ensures Good(m') && Complete(m') && m'.p == m.p
    ensures forall j: Ino :: Used(c, j) ==> m'.c[j] == c[j].(rino := m'.c[j].rino)
  {
    hide Good, Kept;
    forall j: Ino | Used(m'.c, j) && m'.c2p[j] == 0 ensures Gone(m'.c[j].node) && m'.c[j].rino == 0 && m'.c[j].rver == 0 {
      assert m'.c[j] == m.c[j] && m.c2p[j] == 0;
      assert Used(c, j);
    }
  }

  /** When the whole reconciliation stops: exactly at a pair that is not sound. */
  lemma StopsWhen(p: Table, c: Table)
    requires TableOk(p) && TableOk(c) && Linked(p, c) && LiveDirs(p) && LiveDirs(c) && Room(p, c)
    ensures Pairs(p, c).Some? && (Reconciled(p, c).Some? <==> AllSound(Pairs(p, c).value, |p|))
  {
    hide TableOk, Linked, LiveDirs, Room, Good, Complete, AllSound, Pairs, PairTurns;
    PairsAll(p, c);
    GoodInverse(Pairs(p, c).value);
    PairTurnsDo(Pairs(p, c).value, |p|);
  }

  /** A new file that is still at version 0 is such a pair: the parent's new inode for it is at version 0 too, with no
      mode, and the modes of equal versions are asserted to be the same. */
  lemma NewFileStops(p: Table, c: Table, j: Ino)
    requires TableOk(p) && TableOk(c) && Linked(p, c) && LiveDirs(p) && LiveDirs(c) && Room(p, c)
    requires Live(c, j) && c[j].rino == 0 && c[j].node.ver == 0 && forall i: Ino :: p[i].name != c[j].name
    ensures Reconciled(p, c).None?
  {
    hide TableOk, Linked, LiveDirs, Room, Pairs, Reconciled;
    PairsAll(p, c);
    StopsWhen(p, c);
    var m := Pairs(p, c).value;
    var i := m.c2p[j];
    assert m.c[j].node == c[j].node && i != 0;
    assert Agree(m, i, m.p2c[i]) && m.p[i].name == c[j].name;
    assert m.p[i].node == Blank.node;
    assert !Sound(PairOf(m, i));
  }

  /* ---------- what a child may claim ---------- */

  /** Pairs made by the first loop have sound versions, whatever the child claims; the special files are not checked. */
  ghost predicate Checked(m: Maps)
  {
    forall j: Ino :: j >= GENERAL && m.c2p[j] != 0 ==> m.c[j].rver <= m.p[m.c2p[j]].node.ver && m.c[j].rver <= m.c[j].node.ver
  }

  lemma CheckedTurn(m: Maps, j: Ino)
    requires Checked(m)
    ensures Checked(ChildTurn(m, j))
  {
    hide Find, FirstFree;
  }

  lemma {:induction false} ChildrenChecked(p: Table, c: Table, n: nat)
    requires n <= FILE_INODES
    ensures Checked(ChildTurns(Start(p, c), n))
    decreases n
  {
    hide ChildTurn;
    if n > 1 {
      ChildrenChecked(p, c, n - 1);
      CheckedTurn(ChildTurns(Start(p, c), n - 1), n - 1);
    }
  }

  /** The second loop undoes this: for a file of the parent that was left without a counterpart it finds the very inode that was
      turned down, and pairs the two without a check, so that the assertion in the last loop stops the parent. */
  lemma CheckUndone(m: Maps, i: Ino, j: Ino)
    requires m.p[i].name != "" && !Gone(m.p[i].node) && i != 0 && m.p2c[i] == 0 && m.p2c[m.p[i].dino] != 0
    requires j >= GENERAL && j == Find(m.c, m.p2c[m.p[i].dino], m.p[i].name, GENERAL) && m.c[j].rver > m.c[j].node.ver
    ensures ParentTurn(m, i).Some? && ParentTurn(m, i).value.p2c[i] == j && PairTurn(ParentTurn(m, i).value, i).None?
  {
    hide Find, FirstFree;
  }

  /* ---------- a second reconciliation ---------- */

  ghost predicate Idle(p: Table, c: Table, j: Ino)
    requires RefOk(p, c, j)
  {
    var x := Pair(p[c[j].rino].node, c[j].node, c[j].rver, c[j].rlen);
    Sound(x) && Outcome(x) == (x, false)
  }

  /** Every file has a counterpart it agrees with. */
  ghost predicate Settled(p: Table, c: Table)
  {
    && TableOk(p) && TableOk(c) && Linked(p, c)
    && (forall j: Ino :: Used(c, j) && c[j].rino == 0 ==> Gone(c[j].node))
    && (forall j: Ino :: Used(c, j) && c[j].rino != 0 ==> Idle(p, c, j))
    && (forall i: Ino :: Live(p, i) ==> HasPartner(c, i))
  }

  ghost predicate HasPartner(c: Table, i: Ino)
  {
    exists j: Ino :: Used(c, j) && c[j].rino == i
  }

  /** What the first loop finds when everything is settled. */
  ghost predicate Found(p: Table, c: Table, m: Maps, n: nat)
  {
    && m.p == p && m.c == c && Good(m)
    && (forall j: Ino :: 1 <= j < n && Used(c, j) && c[j].rino != 0 ==> m.c2p[j] == c[j].rino)
  }

  lemma FoundStep(p: Table, c: Table, m: Maps, j: Ino)
    requires Settled(p, c) && Found(p, c, m, j) && j != 0
    ensures Found(p, c, ChildTurn(m, j), j + 1)
  {
    hide TableOk, Paired, Idle, HasPartner, Valid;
    ChildTurnGood(m, j);
    if Used(c, j) && c[j].rino != 0 {
      FoundValid(p, c, m, j);
    }
  }

  lemma FoundValid(p: Table, c: Table, m: Maps, j: Ino)
    requires Settled(p, c) && Found(p, c, m, j) && Used(c, j) && c[j].rino != 0
    ensures Valid(m, j)
  {
    hide Idle, HasPartner;
    var i, d := c[j].rino, c[j].dino;
    assert RefOk(p, c, j) && Used(p, i);
    if j < GENERAL {
      assert i == j && p[i].dino == ROOTDIR && m.p2c[ROOTDIR] == ROOTDIR;
    } else {
      assert 1 <= d < j && Used(c, d) && c[d].rino == p[i].dino != 0;
      assert m.c2p[d] != 0;
    }
  }

  lemma {:induction false} FoundAll(p: Table, c: Table, n: nat)
    requires Settled(p, c) && 1 <= n <= FILE_INODES
    ensures Found(p, c, ChildTurns(Start(p, c), n), n)
  {
    hide ChildTurn, Good, TableOk, Linked, Idle, HasPartner;
    if n == 1 {
      LinkedSpecials(p, c);
      StartGood(p, c);
    } else {
      FoundAll(p, c, n - 1);
      FoundStep(p, c, ChildTurns(Start(p, c), n - 1), n - 1);
    }
  }

  lemma LinkedSpecials(p: Table, c: Table)
    requires Linked(p, c)
    ensures SameSpecials(p, c)
  {
  }

  lemma {:induction false} NothingNew(p: Table, c: Table, m: Maps, n: nat)
    requires Settled(p, c) && Found(p, c, m, FILE_INODES) && 1 <= n <= FILE_INODES
    ensures ParentTurns(m, n) == Some(m)
  {
    hide TableOk, Linked, Idle, Create;
    if n > 1 {
      NothingNew(p, c, m, n - 1);
      var i: Ino := n - 1;
      if Live(p, i) {
        assert HasPartner(c, i);
        var j: Ino :| Used(c, j) && c[j].rino == i;
        assert m.c2p[j] == i && m.p2c[i] == j;
      }
    }
  }

  lemma IdleTurn(p: Table, c: Table, m: Maps, i: Ino)
    requires Settled(p, c) && Found(p, c, m, FILE_INODES)
    ensures PairTurn(m, i) == Some((m, false))
  {
    hide TableOk, Linked, Sound, Outcome, HasPartner;
    var j := m.p2c[i];
    if j != 0 {
      assert Agree(m, i, j) && Used(c, j) && i != 0;
      RefIs(p, c, j);
      assert Idle(p, c, j);
      assert PairOf(m, i) == Pair(p[c[j].rino].node, c[j].node, c[j].rver, c[j].rlen);
      assert WithPair(m, i, PairOf(m, i)).p == m.p && WithPair(m, i, PairOf(m, i)).c == m.c;
    }
  }

  lemma RefIs(p: Table, c: Table, j: Ino)
    requires Linked(p, c) && Used(c, j) && c[j].rino != 0
    ensures RefOk(p, c, j)
  {
  }

  lemma {:induction false} AllIdleTurns(p: Table, c: Table, m: Maps, n: nat)
    requires Settled(p, c) && Found(p, c, m, FILE_INODES) && n <= FILE_INODES
    ensures PairTurns(m, n) == Some((m, false))
  {
    hide Settled, Found, PairTurn;
    if n > 1 {
      AllIdleTurns(p, c, m, n - 1);
      IdleTurn(p, c, m, n - 1);
    }
  }

  /** When every file agrees with its counterpart, a reconciliation changes nothing and says so. */
  lemma SettledStays(p: Table, c: Table)
    requires Settled(p, c)
    ensures Reconciled(p, c).Some? && Reconciled(p, c).value.0.p == p && Reconciled(p, c).value.0.c == c
    ensures !Reconciled(p, c).value.1
  {
    hide Settled, ChildTurns, ParentTurns, PairTurns, Good;
    FoundAll(p, c, |p|);
    var m := ChildTurns(Start(p, c), |p|);
    NothingNew(p, c, m, |p|);
    AllIdleTurns(p, c, m, |p|);
  }

  /** No pair was, or has become, marked as conflicting. */
  ghost predicate NoConflict(m: Maps)
    requires AllSound(m, |m.p|)
  {
    forall i: Ino :: i != 0 && m.p2c[i] != 0 ==>
      !PairOf(m, i).p.conflict && !PairOf(m, i).c.conflict && !Marked(PairOf(m, i), Outcome(PairOf(m, i)).0)
  }

  lemma ShapeOk(t: Table, t': Table)
    requires TableOk(t) && forall i: Ino :: t'[i].name == t[i].name && t'[i].dino == t[i].dino && (t[i].name == "" ==> t'[i] == t[i])
    ensures TableOk(t')
  {
    assert forall i: Ino :: Used(t', i) <==> Used(t, i);
  }

  lemma ShapesKept(m: Maps, m': Maps)
    requires Good(m) && Inverse(m) && AllSound(m, FILE_INODES) && Done(m, m', FILE_INODES)
    ensures TableOk(m'.p) && TableOk(m'.c)
    ensures forall i: Ino :: m'.p[i].name == m.p[i].name && m'.p[i].dino == m.p[i].dino
    ensures forall j: Ino :: m'.c[j].name == m.c[j].name && m'.c[j].dino == m.c[j].dino && m'.c[j].rino == m.c[j].rino
  {
    hide TableOk, Sound, Outcome;
    forall i: Ino ensures m'.p[i].name == m.p[i].name && m'.p[i].dino == m.p[i].dino && (m.p[i].name == "" ==> m'.p[i] == m.p[i]) {
      assert m.p2c[i] != 0 ==> Agree(m, i, m.p2c[i]);
    }
    forall j: Ino ensures m'.c[j].name == m.c[j].name && m'.c[j].dino == m.c[j].dino && m'.c[j].rino == m.c[j].rino
                       && (m.c[j].name == "" ==> m'.c[j] == m.c[j]) {
      assert m.c2p[j] != 0 ==> Agree(m, m.c2p[j], j);
    }
    ShapeOk(m.p, m'.p);
    ShapeOk(m.c, m'.c);
  }

  lemma PairSettled(m: Maps, m': Maps, j: Ino)
    requires Good(m) && Inverse(m) && AllSound(m, FILE_INODES) && Done(m, m', FILE_INODES) && m.c2p[j] != 0
    requires forall i: Ino :: m'.p[i].name == m.p[i].name && m'.p[i].dino == m.p[i].dino
    requires forall k: Ino :: m'.c[k].name == m.c[k].name && m'.c[k].dino == m.c[k].dino && m'.c[k].rino == m.c[k].rino
    requires |m.p| == FILE_INODES && NoConflict(m)
    ensures RefOk(m'.p, m'.c, j) && Idle(m'.p, m'.c, j) && m'.c[j].rino != 0
  {
    hide TableOk, Sound, Outcome, Marked;
    var i := m.c2p[j];
    assert Agree(m, i, j);
    DirRef(m, i, j);
    var x := PairOf(m, i);
    var y := Outcome(x).0;
    assert m'.p[i].node == y.p && m'.c[j].node == y.c && m'.c[j].rver == y.rver && m'.c[j].rlen == y.rlen;
    Agreed(x, y);
    Idempotent(x, y);
  }

  lemma DirRef(m: Maps, i: Ino, j: Ino)
    requires Good(m) && Agree(m, i, j)
    ensures m.c[m.c[j].dino].rino == m.p[i].dino
  {
    assert Used(m.c, j);
    assert m.c[j].dino != 0;
    assert Agree(m, m.p[i].dino, m.c[j].dino);
  }

  lemma SettledByDone(m: Maps, m': Maps)
    requires Good(m) && Inverse(m) && Complete(m) && AllSound(m, FILE_INODES) && Done(m, m', FILE_INODES)
    requires |m.p| == FILE_INODES && NoConflict(m)
    ensures Settled(m'.p, m'.c)
  {
    hide TableOk, Sound, Outcome, Marked, RefOk, Idle, NoConflict;
    ShapesKept(m, m');
    forall j: Ino | m.c2p[j] != 0 ensures RefOk(m'.p, m'.c, j) && Idle(m'.p, m'.c, j) && m'.c[j].rino != 0 {
      PairSettled(m, m', j);
    }
    assert forall j: Ino :: Used(m'.c, j) ==> Used(m.c, j);
    assert forall i: Ino :: Live(m'.p, i) && m.p2c[i] == 0 ==> Live(m.p, i);
    forall i: Ino | Live(m'.p, i) ensures HasPartner(m'.c, i) {
      assert Agree(m, i, m.p2c[i]) && Used(m'.c, m.p2c[i]);
    }
    assert SameSpecials(m'.p, m'.c) by {
      forall k: Ino | 1 <= k < GENERAL ensures m'.p[k].name == m'.c[k].name && m'.c[k].rino == k {
        assert m.p2c[k] == k && Agree(m, k, m.p2c[k]);
      }
    }
  }

  /** After a reconciliation that found no conflict, every file agrees with its counterpart; so a second one changes
      nothing and returns false. */
  lemma SecondPassIdle(p: Table, c: Table)
    requires TableOk(p) && TableOk(c) && Linked(p, c) && LiveDirs(p) && LiveDirs(c) && Room(p, c)
    requires Reconciled(p, c).Some? && AllSound(Pairs(p, c).value, |p|) && NoConflict(Pairs(p, c).value)
    ensures var m := Reconciled(p, c).value.0;
      && Settled(m.p, m.c)
      && Reconciled(m.p, m.c).Some? && Reconciled(m.p, m.c).value.0.p == m.p && Reconciled(m.p, m.c).value.0.c == m.c
      && !Reconciled(m.p, m.c).value.1
  {
    hide TableOk, Linked, LiveDirs, Room, Good, Complete, AllSound, Pairs, PairTurns, NoConflict, Done, Settled;
    PairsAll(p, c);
    var m := Pairs(p, c).value;
    GoodInverse(m);
    PairTurnsDo(m, |p|);
    var m' := Reconciled(p, c).value.0;
    SettledByDone(m, m');
    SettledStays(m'.p, m'.c);
  }

  /* ---------- fork ---------- */

  /** What a new child records: its inodes are the parent's, as they are now. */
  function Forked(t: Table): Table
  {
    seq(FILE_INODES, i requires 0 <= i < FILE_INODES =>
      if Used(t, i) then t[i].(rino := i, rver := t[i].node.ver, rlen := |t[i].node.data|) else t[i])
  }

  /** The loop over the inodes in a child that fork has just made. */
  method ForkRefs(files: FileState)
    modifies files
    ensures files.fi == Forked(old(files.fi))
  {
    var i: nat := 1;
    ghost var t := files.fi;
    while i < FILE_INODES
      invariant 1 <= i <= FILE_INODES
      invariant forall k: Ino :: files.fi[k] == if k < i then Forked(t)[k] else t[k]
    {
      if files.fi[i].name != "" {
        files.fi := files.fi[i := files.fi[i].(rino := i, rver := files.fi[i].node.ver, rlen := |files.fi[i].node.data|)];
      }
      i := i + 1;
    }
    assert files.fi == Forked(t);
  }

  /** A fork starts settled, so reconciling with a child that has done nothing does nothing. */
  lemma ForkSettled(t: Table)
    requires TableOk(t) && forall i: Ino :: |t[i].node.data| <= FILE_MAXSIZE
    ensures Settled(t, Forked(t))
  {
    hide TableOk;
    var c := Forked(t);
    ForkShape(t);
    forall j: Ino | Used(c, j) ensures RefOk(t, c, j) && Idle(t, c, j) {
      ForkDir(t, j);
    }
    forall i: Ino | Live(t, i) ensures HasPartner(c, i) {
      assert Used(c, i) && c[i].rino == i;
    }
  }

  lemma ForkShape(t: Table)
    requires TableOk(t)
    ensures TableOk(Forked(t)) && SameSpecials(t, Forked(t))
  {
    ShapeOk(t, Forked(t));
  }

  lemma ForkDir(t: Table, j: Ino)
    requires TableOk(t) && Used(t, j)
    ensures Used(t, t[j].dino)
  {
  }
}
