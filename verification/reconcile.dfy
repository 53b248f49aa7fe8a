/** Reconciling one file between parent and child, and appends spreading over a tree of processes (lib/fork.c). */
module Reconcile {

  type Byte = b: int | 0 <= b < 256

  /** The state of a file in one of the copies; its size is the length of the data. */
  datatype Inode = Inode(ver: nat, mode: nat, conflict: bool, data: seq<Byte>)

  /** Parent's and child's inode and what the child records of the last reconciliation. */
  datatype Pair = Pair(p: Inode, c: Inode, rver: nat, rlen: nat)

  const FILE_MAXSIZE: nat := 4194304
  const REG: nat := 0x1000              // S_IFREG

  predicate IsReg(mode: nat) { mode / REG % 8 == 1 }

  /** Versions only grow, within a version the length only grows, and equal versions mean equal modes. */
  predicate Sound(x: Pair)
  {
    && x.p.ver >= x.rver && x.c.ver >= x.rver
    && (x.p.ver == x.rver ==> |x.p.data| >= x.rlen) && (x.c.ver == x.rver ==> |x.c.data| >= x.rlen)
    && (x.p.ver == x.rver && x.c.ver == x.rver ==> x.p.mode == x.c.mode && x.p.conflict == x.c.conflict)
    && |x.p.data| <= FILE_MAXSIZE && |x.c.data| <= FILE_MAXSIZE
  }

  /** An exclusive change since the last reconciliation, or any change at all. */
  predicate Exclusive(i: Inode, x: Pair) { i.ver > x.rver }
  predicate Changed(i: Inode, x: Pair) { i.ver > x.rver || |i.data| > x.rlen }

  /** Nothing new and nothing done, or each side's new bytes behind the other's, or too much for one file. */
  function Merged(x: Pair): (r: (Pair, bool))
    requires x.rlen <= |x.p.data| && x.rlen <= |x.c.data|
  {
    var pgrow, cgrow := x.p.data[x.rlen..], x.c.data[x.rlen..];
    if !IsReg(x.p.mode) || pgrow + cgrow == [] then (x, false)
    else if |x.p.data| + |cgrow| > FILE_MAXSIZE then
      (x.(p := x.p.(conflict := true), c := x.c.(conflict := true)), true)
    else
      (Pair(x.p.(data := x.p.data + cgrow), x.c.(data := x.c.data + pgrow), x.rver, |x.p.data| + |cgrow|), true)
  }

  /** reconcile_merge: both sides have only appended. */
  method ReconcileMerge(x: Pair) returns (y: Pair, didio: bool)
    requires Sound(x) && x.p.ver == x.rver && x.c.ver == x.rver
    ensures (y, didio) == Merged(x)
  {
    y, didio := x, false;
    if !IsReg(x.p.mode) {
      return;
    }
    var plen, clen := |x.p.data|, |x.c.data|;
    var pgrow, cgrow := plen - x.rlen, clen - x.rlen;
    if pgrow == 0 && cgrow == 0 {
      return;
    }
    var newlen := x.rlen + pgrow + cgrow;
    didio := true;
    if newlen > FILE_MAXSIZE {
      y := x.(p := x.p.(conflict := true), c := x.c.(conflict := true));
      return;
    }
    var pdata := CopyIn(x.p.data, x.c.data, x.rlen);
    var cdata := CopyIn(x.c.data, pdata[..plen], x.rlen);
    y := Pair(x.p.(data := pdata), x.c.(data := cdata), x.rver, newlen);
  }

  /** memcpy of everything from position rlen of src to the end of dst. */
  method CopyIn(dst: seq<Byte>, src: seq<Byte>, rlen: nat) returns (r: seq<Byte>)
    requires rlen <= |src|
    ensures r == dst + src[rlen..]
  {
    r := dst;
    var k := rlen;
    while k < |src|
      invariant rlen <= k <= |src| && r == dst + src[rlen..k]
    {
      r := r + [src[k]];
      k := k + 1;
    }
  }

  function Max(a: nat, b: nat): nat { if a >= b then a else b }

  /** reconcile_inode */
  method ReconcileInode(x: Pair) returns (y: Pair, didio: bool)
    requires Sound(x)
    ensures (y, didio) == Outcome(x)
  {
    if x.p.ver == x.rver && x.c.ver == x.rver {
      y, didio := ReconcileMerge(x);
      return;
    }
    didio := true;
    if Changed(x.p, x) && Changed(x.c, x) {
      var ver := Max(x.p.ver, x.c.ver);
      y := Pair(x.p.(conflict := true, ver := ver), x.c.(conflict := true, ver := ver), ver, x.rlen);
      return;
    }
    if Changed(x.p, x) {
      y := Pair(x.p, x.p, x.p.ver, |x.p.data|);
    } else {
      y := Pair(x.c, x.c, x.c.ver, |x.c.data|);
    }
  }

  /** The pair after a reconciliation, and whether anything was done. */
  function Outcome(x: Pair): (r: (Pair, bool))
    requires Sound(x)
  {
    if !Exclusive(x.p, x) && !Exclusive(x.c, x) then Merged(x)
    else if Changed(x.p, x) && Changed(x.c, x) then
      var ver := Max(x.p.ver, x.c.ver);
      (Pair(x.p.(conflict := true, ver := ver), x.c.(conflict := true, ver := ver), ver, x.rlen), true)
    else if Changed(x.p, x) then (Pair(x.p, x.p, x.p.ver, |x.p.data|), true)
    else (Pair(x.c, x.c, x.c.ver, |x.c.data|), true)
  }

  /** This reconciliation marked the file as conflicting. */
  predicate Marked(x: Pair, y: Pair)
  {
    (y.p.conflict && !x.p.conflict) || (y.c.conflict && !x.c.conflict)
  }

  /** Exactly the changes that cannot be put together are marked: two changes of which one is exclusive, or appends
      that together exceed the largest file. */
  lemma WhenMarked(x: Pair, y: Pair)
    requires Sound(x) && y == Outcome(x).0 && !x.p.conflict && !x.c.conflict
    ensures Marked(x, y) <==>
      ((Exclusive(x.p, x) || Exclusive(x.c, x)) && Changed(x.p, x) && Changed(x.c, x))
      || (!Exclusive(x.p, x) && !Exclusive(x.c, x) && IsReg(x.p.mode) && |x.p.data| + |x.c.data| > FILE_MAXSIZE + x.rlen)
  {
  }

  /** Without a conflict both sides end up with the same version, mode and length, and the pair is sound again. */
  lemma Agreed(x: Pair, y: Pair)
    requires Sound(x) && y == Outcome(x).0 && !Marked(x, y) && !x.p.conflict && !x.c.conflict
    ensures Sound(y) && y.p.ver == y.c.ver == y.rver && y.p.mode == y.c.mode
    ensures IsReg(y.p.mode) ==> |y.p.data| == |y.c.data| == y.rlen
  {
  }

  /** No exclusive change is lost: changed on one side only, it ends up on both and nothing is marked; changed on both,
      each side keeps its own and the file is marked. */
  lemma NoneLost(x: Pair, y: Pair)
    requires Sound(x) && y == Outcome(x).0 && !x.p.conflict && !x.c.conflict
    requires Exclusive(x.p, x) || Exclusive(x.c, x)
    ensures Marked(x, y) <==> Changed(x.p, x) && Changed(x.c, x)
    ensures Marked(x, y) ==> y.p == x.p.(conflict := true, ver := y.rver) && y.c == x.c.(conflict := true, ver := y.rver)
    ensures Marked(x, y) ==> y.rver == (if x.p.ver >= x.c.ver then x.p.ver else x.c.ver) && y.rlen == x.rlen
    ensures !Marked(x, y) ==> y.p == y.c == if Changed(x.p, x) then x.p else x.c
  {
  }

  /** The appends on both sides are too much for one file. */
  predicate TooLong(x: Pair)
  {
    !Exclusive(x.p, x) && !Exclusive(x.c, x) && IsReg(x.p.mode) && |x.p.data| + |x.c.data| > FILE_MAXSIZE + x.rlen
  }

  /** Exactly when the pass reports that something was done, by which waitpid decides whether to wait for its own parent: something
      changed, or the file is too long and both sides were already marked for it. */
  lemma ReportedIff(x: Pair)
    requires Sound(x)
    ensures Outcome(x).1 <==> Outcome(x).0 != x || (TooLong(x) && x.p.conflict && x.c.conflict)
  {
    var y := Outcome(x).0;
    if Exclusive(x.p, x) || Exclusive(x.c, x) {
      assert y.rver > x.rver;
    } else if IsReg(x.p.mode) && (|x.p.data| > x.rlen || |x.c.data| > x.rlen) && !TooLong(x) {
      assert y.rlen > x.rlen;
    }
  }

  /** Bytes that one side has appended reach the other, behind its own, and this is reported. */
  lemma AppendsArrive(x: Pair)
    requires Sound(x) && !Exclusive(x.p, x) && !Exclusive(x.c, x) && IsReg(x.p.mode) && !TooLong(x)
    ensures var (y, didio) := Outcome(x);
      && y.p.data == x.p.data + x.c.data[x.rlen..] && y.c.data == x.c.data + x.p.data[x.rlen..]
      && (didio <==> |x.p.data| > x.rlen || |x.c.data| > x.rlen)
  {
    var pgrow, cgrow := x.p.data[x.rlen..], x.c.data[x.rlen..];
    assert |pgrow + cgrow| == |pgrow| + |cgrow|;
  }

  /** A second conflict-free pass changes nothing and reports that. */
  lemma Idempotent(x: Pair, y: Pair)
    requires Sound(x) && y == Outcome(x).0 && !Marked(x, y) && !x.p.conflict && !x.c.conflict
    ensures Sound(y) && Outcome(y) == (y, false)
  {
    Agreed(x, y);
  }

  /* ---------- appends in a tree of processes ---------- */

  /** A process, by the child numbers on the way from the root. */
  type Pid = seq<nat>

  /** A byte that process w appended. */
  datatype Item = Item(w: Pid, b: Byte)
  type Log = seq<Item>

  /** The file as each process has it, and for each process the length last reconciled with its parent. */
  datatype Tree = Tree(files: map<Pid, Log>, rlen: map<Pid, nat>)

  function Parent(n: Pid): Pid
    requires n != []
  {
    n[..|n| - 1]
  }

  predicate Under(n: Pid, w: Pid) { n <= w }

  /** The bytes of writer w, in order. */
  function Of(l: Log, w: Pid): Log
  {
    if l == [] then [] else (if l[0].w == w then [l[0]] else []) + Of(l[1..], w)
  }

  lemma OfFirst(l: Log, w: Pid)
    requires l != []
    ensures Of(l, w) == (if l[0].w == w then [l[0]] else []) + Of(l[1..], w)
  {
  }

  lemma {:induction false} OfSum(a: Log, b: Log, w: Pid)
    ensures Of(a + b, w) == Of(a, w) + Of(b, w)
    decreases |a|
  {
    hide Of;
    if a == [] {
      assert a + b == b;
      OfEmpty(w);
    } else {
      OfFirst(a + b, w);
      OfFirst(a, w);
      assert (a + b)[1..] == a[1..] + b;
      OfSum(a[1..], b, w);
    }
  }

  lemma OfEmpty(w: Pid)
    ensures Of([], w) == []
  {
  }

  lemma {:induction false} OfNone(l: Log, w: Pid)
    requires forall i :: 0 <= i < |l| ==> l[i].w != w
    ensures Of(l, w) == []
  {
    if l != [] { OfNone(l[1..], w); }
  }

  /** Writers of the part of a log from position n on. */
  ghost predicate From(l: Log, n: nat, under: Pid, inside: bool)
  {
    forall i :: n <= i < |l| ==> (Under(under, l[i].w) <==> inside)
  }

  /** Across the edge between n and its parent: both agree on every writer's bytes within the reconciled length; what
      the child has beyond it was written at or below the child, what the parent has beyond it elsewhere. */
  ghost predicate EdgeOk(t: Tree, n: Pid)
  {
    && n != [] && n in t.files && Parent(n) in t.files && n in t.rlen
    && t.rlen[n] <= |t.files[n]| && t.rlen[n] <= |t.files[Parent(n)]|
    && From(t.files[n], t.rlen[n], n, true) && From(t.files[Parent(n)], t.rlen[n], n, false)
    && (forall w :: Of(t.files[n][..t.rlen[n]], w) == Of(t.files[Parent(n)][..t.rlen[n]], w))
  }

  ghost predicate TreeOk(t: Tree)
  {
    && [] in t.files && (forall n :: n in t.files && n != [] ==> EdgeOk(t, n))
    && (forall n, i :: n in t.files && 0 <= i < |t.files[n]| ==> t.files[n][i].w in t.files)
  }

  datatype Event = Append(n: Pid, b: Byte) | Fork(n: Pid, k: nat) | Sync(n: Pid)

  /** A process writes; a new child starts with its parent's files; parent and child reconcile without overflow. */
  predicate Possible(t: Tree, e: Event)
  {
    match e
    case Append(n, _) => n in t.files
    case Fork(n, k) => n in t.files && n + [k] !in t.files
    case Sync(n) => n != [] && n in t.files && Parent(n) in t.files && n in t.rlen
                    && t.rlen[n] <= |t.files[n]| && t.rlen[n] <= |t.files[Parent(n)]|
  }

  function Step(t: Tree, e: Event): Tree
    requires Possible(t, e)
  {
    match e
    case Append(n, b) => t.(files := t.files[n := t.files[n] + [Item(n, b)]])
    case Fork(n, k) => Tree(t.files[n + [k] := t.files[n]], t.rlen[n + [k] := |t.files[n]|])
    case Sync(n) =>
      var q := Parent(n);
      var p, c, r := t.files[q], t.files[n], t.rlen[n];
      Tree(t.files[q := p + c[r..]][n := c + p[r..]], t.rlen[n := |p| + |c| - r])
  }

  /** The bytes alone, which is all a file holds. */
  function Plain(l: Log): (r: seq<Byte>)
    ensures |r| == |l|
  {
    seq(|l|, i requires 0 <= i < |l| => l[i].b)
  }

  /** On the bytes, a reconciliation in the tree is what ReconcileMerge does to the two files. */
  lemma SyncIsMerge(t: Tree, n: Pid, x: Pair)
    requires Possible(t, Sync(n)) && Sound(x) && !Exclusive(x.p, x) && !Exclusive(x.c, x) && IsReg(x.p.mode)
    requires x.p.data == Plain(t.files[Parent(n)]) && x.c.data == Plain(t.files[n]) && x.rlen == t.rlen[n]
    requires |x.p.data| + |x.c.data| <= FILE_MAXSIZE + x.rlen
    ensures var t', y := Step(t, Sync(n)), Outcome(x).0;
      y.p.data == Plain(t'.files[Parent(n)]) && y.c.data == Plain(t'.files[n]) && y.rlen == t'.rlen[n]
  {
    var p, c, r := t.files[Parent(n)], t.files[n], t.rlen[n];
    assert Plain(p) + Plain(c)[r..] == Plain(p + c[r..]);
    assert Plain(c) + Plain(p)[r..] == Plain(c + p[r..]);
    assert Parent(n) != n;
  }

  /** Growing a file at its end with bytes from the right side keeps an edge. */
  lemma EdgeGrows(t: Tree, t': Tree, n: Pid, pg: Log, cg: Log)
    requires EdgeOk(t, n) && n in t'.files && Parent(n) in t'.files && n in t'.rlen && t'.rlen[n] == t.rlen[n]
    requires t'.files[n] == t.files[n] + cg && t'.files[Parent(n)] == t.files[Parent(n)] + pg
    requires From(pg, 0, n, false) && From(cg, 0, n, true)
    ensures EdgeOk(t', n)
  {
    var r := t.rlen[n];
    assert t'.files[n][..r] == t.files[n][..r] && t'.files[Parent(n)][..r] == t.files[Parent(n)][..r];
  }

  lemma AppendOk(t: Tree, n: Pid, b: Byte)
    requires TreeOk(t) && n in t.files
    ensures TreeOk(Step(t, Append(n, b)))
  {
    var t' := Step(t, Append(n, b));
    forall m | m in t'.files && m != [] ensures EdgeOk(t', m) {
      assert EdgeOk(t, m);
      assert Parent(m) != m;
      var i := [Item(n, b)];
      if m == n {
        EdgeGrows(t, t', m, [], i);
      } else if Parent(m) == n {
        assert !Under(m, n);
        EdgeGrows(t, t', m, i, []);
      }
    }
  }

  lemma ForkOk(t: Tree, n: Pid, k: nat)
    requires TreeOk(t) && n in t.files && n + [k] !in t.files
    ensures TreeOk(Step(t, Fork(n, k)))
  {
    var c := n + [k];
    var t' := Step(t, Fork(n, k));
    assert Parent(c) == n && |c| == |n| + 1;
    forall m | m in t'.files && m != [] ensures EdgeOk(t', m) {
      if m != c { assert EdgeOk(t, m) && Parent(m) in t.files; }
    }
  }

  /** The lengths of the two sides grow to the same, and every writer's bytes are now the same on both. */
  lemma SyncEdge(t: Tree, n: Pid)
    requires TreeOk(t) && n in t.files && n != []
    ensures Possible(t, Sync(n)) && EdgeOk(Step(t, Sync(n)), n)
  {
    assert EdgeOk(t, n);
    var t', q := Step(t, Sync(n)), Parent(n);
    var p, c, r := t.files[q], t.files[n], t.rlen[n];
    assert q != n;
    assert |t'.files[n]| == |t'.files[q]| == t'.rlen[n];
    forall w ensures Of(t'.files[n][..t'.rlen[n]], w) == Of(t'.files[q][..t'.rlen[n]], w) {
      assert t'.files[n][..t'.rlen[n]] == c + p[r..] && t'.files[q][..t'.rlen[n]] == p + c[r..];
      SyncBytes(p, c, r, n, w);
    }
  }

  lemma SyncBytes(p: Log, c: Log, r: nat, n: Pid, w: Pid)
    requires r <= |p| && r <= |c| && Of(c[..r], w) == Of(p[..r], w) && From(c, r, n, true) && From(p, r, n, false)
    ensures Of(c + p[r..], w) == Of(p + c[r..], w)
  {
    hide Of, From, Under;
    OfCut(c, r, w);
    OfCut(p, r, w);
    OfSum(c, p[r..], w);
    OfSum(p, c[r..], w);
    OneEmpty(p, c, r, n, w);
  }

  lemma OfCut(l: Log, r: nat, w: Pid)
    requires r <= |l|
    ensures Of(l, w) == Of(l[..r], w) + Of(l[r..], w)
  {
    assert l == l[..r] + l[r..];
    OfSum(l[..r], l[r..], w);
  }

  lemma OneEmpty(p: Log, c: Log, r: nat, n: Pid, w: Pid)
    requires r <= |p| && r <= |c| && From(c, r, n, true) && From(p, r, n, false)
    ensures if Under(n, w) then Of(p[r..], w) == [] else Of(c[r..], w) == []
  {
    hide Of;
    if Under(n, w) { OfNone(p[r..], w); } else { OfNone(c[r..], w); }
  }

  /** Other edges see bytes arrive from the side they come from. */
  lemma SyncOther(t: Tree, n: Pid, m: Pid)
    requires TreeOk(t) && n in t.files && n != [] && m in t.files && m != [] && m != n
    ensures Possible(t, Sync(n)) && EdgeOk(Step(t, Sync(n)), m)
  {
    assert EdgeOk(t, n) && EdgeOk(t, m);
    var t', q := Step(t, Sync(n)), Parent(n);
    var p, c, r := t.files[q], t.files[n], t.rlen[n];
    var pg := if Parent(m) == q then c[r..] else if Parent(m) == n then p[r..] else [];
    var cg := if m == q then c[r..] else [];
    assert q != n && Parent(m) != m;
    Sides(n, m);
    assert From(pg, 0, m, false) && From(cg, 0, m, true);
    EdgeGrows(t, t', m, pg, cg);
  }

  /** Where the processes below n lie with respect to m. */
  lemma Sides(n: Pid, m: Pid)
    requires n != [] && m != [] && m != n
    ensures Parent(m) == Parent(n) ==> forall w :: Under(n, w) ==> !Under(m, w)
    ensures Parent(m) == n ==> forall w :: !Under(n, w) ==> !Under(m, w)
    ensures m == Parent(n) ==> forall w :: Under(n, w) ==> Under(m, w)
  {
    if Parent(m) == Parent(n) {
      forall w | Under(n, w) ensures !Under(m, w) {
        assert n == w[..|n|] && |n| == |m|;
      }
    }
    if Parent(m) == n {
      forall w | Under(m, w) ensures Under(n, w) { assert n == m[..|n|] == w[..|n|]; }
    }
    if m == Parent(n) {
      forall w | Under(n, w) ensures Under(m, w) { assert m == n[..|m|] == w[..|m|]; }
    }
  }

  lemma SyncOk(t: Tree, n: Pid)
    requires TreeOk(t) && n in t.files && n != []
    ensures Possible(t, Sync(n)) && TreeOk(Step(t, Sync(n)))
  {
    SyncEdge(t, n);
    var t' := Step(t, Sync(n));
    forall m | m in t'.files && m != [] ensures EdgeOk(t', m) {
      if m != n { SyncOther(t, n, m); }
    }
  }

  predicate Runs(t: Tree, es: seq<Event>)
    decreases |es|
  {
    es != [] ==> Possible(t, es[0]) && Runs(Step(t, es[0]), es[1..])
  }

  function After(t: Tree, es: seq<Event>): Tree
    requires Runs(t, es)
    decreases |es|
  {
    if es == [] then t else After(Step(t, es[0]), es[1..])
  }

  lemma {:induction false} RunOk(t: Tree, es: seq<Event>)
    requires TreeOk(t) && Runs(t, es)
    ensures TreeOk(After(t, es))
    decreases |es|
  {
    if es != [] {
      match es[0] {
        case Append(n, b) => AppendOk(t, n, b);
        case Fork(n, k) => ForkOk(t, n, k);
        case Sync(n) => SyncOk(t, n);
      }
      RunOk(Step(t, es[0]), es[1..]);
    }
  }

  /** One process has seen the bytes of a writer on the far side of an edge only as far as they were reconciled. */
  lemma AcrossEdge(t: Tree, n: Pid, w: Pid)
    requires EdgeOk(t, n)
    ensures Under(n, w) ==> Of(t.files[Parent(n)], w) <= Of(t.files[n], w)
    ensures !Under(n, w) ==> Of(t.files[n], w) <= Of(t.files[Parent(n)], w)
  {
    hide Of;
    var c, p, r := t.files[n], t.files[Parent(n)], t.rlen[n];
    OfCut(c, r, w);
    OfCut(p, r, w);
    OneEmpty(p, c, r, n, w);
  }

  /** Every process has, of every writer's bytes, exactly a prefix of what the writer itself has: each byte once, in
      the writer's order. */
  lemma {:induction false} PrefixOfWriter(t: Tree, n: Pid, w: Pid)
    requires TreeOk(t) && n in t.files && w in t.files
    ensures Of(t.files[n], w) <= Of(t.files[w], w)
    decreases Distance(n, w)
  {
    if n != w {
      if Under(n, w) {
        Toward(n, w);
        var m := w[..|n| + 1];
        Ancestors(t, w, |n| + 1);
        assert Parent(m) == n && EdgeOk(t, m);
        AcrossEdge(t, m, w);
        PrefixOfWriter(t, m, w);
      } else {
        assert n != [] && EdgeOk(t, n);
        Away(n, w);
        AcrossEdge(t, n, w);
        PrefixOfWriter(t, Parent(n), w);
      }
    }
  }

  /** The length of the longest common start. */
  function Common(n: Pid, w: Pid): (k: nat)
    ensures k <= |n| && k <= |w| && n[..k] == w[..k]
    ensures k < |n| && k < |w| ==> n[k] != w[k]
  {
    if n != [] && w != [] && n[0] == w[0] then
      var k := Common(n[1..], w[1..]);
      assert n == [n[0]] + n[1..] && w == [w[0]] + w[1..];
      k + 1
    else 0
  }

  /** Edges on the way between two processes. */
  function Distance(n: Pid, w: Pid): nat { |n| + |w| - 2 * Common(n, w) }

  lemma CommonIs(n: Pid, w: Pid, k: nat)
    requires k <= |n| && k <= |w| && n[..k] == w[..k] && (k < |n| && k < |w| ==> n[k] != w[k])
    ensures Common(n, w) == k
  {
    var c := Common(n, w);
    assert forall i :: 0 <= i < k ==> n[i] == n[..k][i] == w[..k][i] == w[i];
    assert forall i :: 0 <= i < c ==> n[i] == n[..c][i] == w[..c][i] == w[i];
  }

  lemma Toward(n: Pid, w: Pid)
    requires Under(n, w) && n != w
    ensures Distance(w[..|n| + 1], w) < Distance(n, w)
  {
    assert n == w[..|n|];
    CommonIs(n, w, |n|);
    CommonIs(w[..|n| + 1], w, |n| + 1);
  }

  lemma Away(n: Pid, w: Pid)
    requires !Under(n, w) && n != []
    ensures Distance(Parent(n), w) < Distance(n, w)
  {
    var k := Common(n, w);
    assert k < |n| by { if k == |n| { assert false; } }
    assert Parent(n)[..k] == n[..k];
    assert k < |Parent(n)| && k < |w| ==> Parent(n)[k] == n[k];
    CommonIs(Parent(n), w, k);
  }

  lemma {:induction false} Ancestors(t: Tree, w: Pid, k: nat)
    requires TreeOk(t) && w in t.files && k <= |w|
    ensures w[..k] in t.files
    decreases |w| - k
  {
    if k < |w| {
      Ancestors(t, w, k + 1);
      assert EdgeOk(t, w[..k + 1]) && Parent(w[..k + 1]) == w[..k];
    } else {
      assert w[..k] == w;
    }
  }

  /** Conservation: after any run of appends, forks and reconciliations from a single process with an empty file,
      every process holds a prefix of every writer's bytes, and parent and child that have just reconciled hold the same. */
  lemma Conservation(es: seq<Event>, n: Pid, w: Pid)
    requires Runs(Tree(map[[] := []], map[]), es)
    requires n in After(Tree(map[[] := []], map[]), es).files && w in After(Tree(map[[] := []], map[]), es).files
    ensures var t := After(Tree(map[[] := []], map[]), es);
      && Of(t.files[n], w) <= Of(t.files[w], w)
      && (n != [] ==> n in t.rlen && Parent(n) in t.files && t.rlen[n] <= |t.files[n]| && t.rlen[n] <= |t.files[Parent(n)]|
                      && Of(t.files[n][..t.rlen[n]], w) == Of(t.files[Parent(n)][..t.rlen[n]], w))
  {
    var t0 := Tree(map[[] := []], map[]);
    assert TreeOk(t0);
    RunOk(t0, es);
    var t := After(t0, es);
    PrefixOfWriter(t, n, w);
    if n != [] { assert EdgeOk(t, n); }
  }
}
