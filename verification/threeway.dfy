/** Merging the bytes of a page three ways (pmap_mergepage in kern/pmap.c): s and d have both started from r. */
module ThreeWay {
  import opened Paging

  /** Both sides changed byte i. */
  predicate Clash(r: seq<Byte>, s: seq<Byte>, d: seq<Byte>, i: nat)
    requires |r| == |s| == |d| == PAGESIZE && i < PAGESIZE
  {
    s[i] != r[i] && d[i] != r[i]
  }

  predicate Conflict(r: seq<Byte>, s: seq<Byte>, d: seq<Byte>)
    requires |r| == |s| == |d| == PAGESIZE
  {
    exists i :: 0 <= i < PAGESIZE && Clash(r, s, d, i)
  }

  /** The page after the merge; on a conflict it is removed and reads as zeros. */
  function Merge(r: seq<Byte>, s: seq<Byte>, d: seq<Byte>): (m: seq<Byte>)
    requires |r| == |s| == |d| == PAGESIZE
    ensures |m| == PAGESIZE
  {
    if Conflict(r, s, d) then Zeros()
    else seq(PAGESIZE, i requires 0 <= i < PAGESIZE => if s[i] == r[i] then d[i] else s[i])
  }

  /** The shortcuts taken for whole subtrees agree with the byte-by-byte merge. */
  lemma Shortcuts(r: seq<Byte>, s: seq<Byte>, d: seq<Byte>)
    requires |r| == |s| == |d| == PAGESIZE
    ensures s == r ==> Merge(r, s, d) == d
    ensures d == r ==> Merge(r, s, d) == s
  {
  }

  /** The merging loop of pmap_mergepage over copies of the three pages. */
  method MergeBytes(r: seq<Byte>, s: seq<Byte>, d: seq<Byte>) returns (conflict: bool, m: seq<Byte>)
    requires |r| == |s| == |d| == PAGESIZE
    ensures conflict <==> Conflict(r, s, d)
    ensures !conflict ==> m == Merge(r, s, d)
  {
    m := d;
    var i := 0;
    while i < PAGESIZE
      invariant 0 <= i <= PAGESIZE == |m|
      invariant forall j :: 0 <= j < i ==> !Clash(r, s, d, j) && m[j] == if s[j] == r[j] then d[j] else s[j]
      invariant forall j :: i <= j < PAGESIZE ==> m[j] == d[j]
    {
      if s[i] == r[i] {
        i := i + 1;
      } else if m[i] == r[i] {
        m := m[i := s[i]];
        i := i + 1;
      } else {
        assert Clash(r, s, d, i);
        return true, m;
      }
    }
    return false, m;
  }

  /* ---------- joining several children ---------- */

  datatype Joined = Joined(page: seq<Byte>) | Clashed

  /** Merge the children of snapshot r into the parent's page d, one after another, until one conflicts. */
  function Join(r: seq<Byte>, cs: seq<seq<Byte>>, d: seq<Byte>): (j: Joined)
    requires |r| == |d| == PAGESIZE && forall c :: c in cs ==> |c| == PAGESIZE
    ensures j.Joined? ==> |j.page| == PAGESIZE
  {
    if cs == [] then Joined(d)
    else if Conflict(r, cs[0], d) then Clashed
    else Join(r, cs[1..], Merge(r, cs[0], d))
  }

  /** How many of the pages differ from the snapshot at byte i. */
  function Writers(r: seq<Byte>, cs: seq<seq<Byte>>, i: nat): (n: nat)
    requires |r| == PAGESIZE && i < PAGESIZE && forall c :: c in cs ==> |c| == PAGESIZE
  {
    if cs == [] then 0 else (if cs[0][i] != r[i] then 1 else 0) + Writers(r, cs[1..], i)
  }

  /** No byte was written by two of the children, or by a child and the parent. */
  ghost predicate Disjoint(r: seq<Byte>, cs: seq<seq<Byte>>, d: seq<Byte>)
    requires |r| == |d| == PAGESIZE && forall c :: c in cs ==> |c| == PAGESIZE
  {
    forall i :: 0 <= i < PAGESIZE ==> Writers(r, cs, i) + (if d[i] != r[i] then 1 else 0) <= 1
  }

  /** Byte i after all joins: what its only writer wrote. */
  ghost predicate IsJoin(r: seq<Byte>, cs: seq<seq<Byte>>, d: seq<Byte>, m: seq<Byte>)
    requires |r| == |d| == |m| == PAGESIZE && forall c :: c in cs ==> |c| == PAGESIZE
  {
    && (forall i :: 0 <= i < PAGESIZE && Writers(r, cs, i) == 0 ==> m[i] == d[i])
    && (forall i, c :: 0 <= i < PAGESIZE && c in cs && c[i] != r[i] ==> m[i] == c[i])
  }

  /** Joining succeeds exactly when the writes are disjoint, and then every byte is its writer's. */
  lemma {:induction false} JoinIff(r: seq<Byte>, cs: seq<seq<Byte>>, d: seq<Byte>)
    requires |r| == |d| == PAGESIZE && forall c :: c in cs ==> |c| == PAGESIZE
    ensures Join(r, cs, d).Joined? <==> Disjoint(r, cs, d)
    ensures Join(r, cs, d).Joined? ==> IsJoin(r, cs, d, Join(r, cs, d).page)
    decreases |cs|
  {
    if cs != [] {
      if Conflict(r, cs[0], d) {
        var i :| 0 <= i < PAGESIZE && Clash(r, cs[0], d, i);
        assert Writers(r, cs, i) >= 1;
      } else {
        var m := Merge(r, cs[0], d);
        JoinIff(r, cs[1..], m);
        forall i | 0 <= i < PAGESIZE
          ensures Writers(r, cs, i) + (if d[i] != r[i] then 1 else 0)
               == Writers(r, cs[1..], i) + (if m[i] != r[i] then 1 else 0)
        {
          assert !Clash(r, cs[0], d, i);
        }
        if Join(r, cs, d).Joined? { JoinStep(r, cs, d, m, Join(r, cs, d).page); }
      }
    }
  }

  lemma JoinStep(r: seq<Byte>, cs: seq<seq<Byte>>, d: seq<Byte>, m: seq<Byte>, p: seq<Byte>)
    requires |r| == |d| == |p| == PAGESIZE && cs != [] && forall c :: c in cs ==> |c| == PAGESIZE
    requires !Conflict(r, cs[0], d) && m == Merge(r, cs[0], d) && IsJoin(r, cs[1..], m, p) && Disjoint(r, cs[1..], m)
    ensures IsJoin(r, cs, d, p)
  {
    forall i | 0 <= i < PAGESIZE && Writers(r, cs, i) == 0 ensures p[i] == d[i] {
      assert !Clash(r, cs[0], d, i);
    }
    forall i, c | 0 <= i < PAGESIZE && c in cs && c[i] != r[i] ensures p[i] == c[i] {
      if c in cs[1..] {
      } else {
        assert c == cs[0] && !Clash(r, cs[0], d, i);
      }
    }
  }

  lemma {:induction false} WritersMove(r: seq<Byte>, cs: seq<seq<Byte>>, k: nat, i: nat)
    requires |r| == PAGESIZE && i < PAGESIZE && k < |cs| && forall c :: c in cs ==> |c| == PAGESIZE
    ensures forall c :: c in cs[..k] + cs[k + 1..] ==> |c| == PAGESIZE
    ensures Writers(r, cs, i) == Writers(r, cs[..k] + cs[k + 1..], i) + (if cs[k][i] != r[i] then 1 else 0)
    decreases k
  {
    var rest := cs[..k] + cs[k + 1..];
    forall c | c in rest ensures |c| == PAGESIZE { assert c in cs; }
    if k == 0 {
      assert rest == cs[1..];
    } else {
      WritersMove(r, cs[1..], k - 1, i);
      assert rest[1..] == cs[1..][..k - 1] + cs[1..][k..];
    }
  }

  lemma TakeOut<T>(s: seq<T>, k: nat)
    requires k < |s|
    ensures multiset(s[..k] + s[k + 1..]) == multiset(s) - multiset{s[k]}
  {
    assert s == s[..k] + [s[k]] + s[k + 1..];
  }

  /** The number of writers of a byte does not depend on the order of the children. */
  lemma {:induction false} WritersOrder(r: seq<Byte>, cs: seq<seq<Byte>>, ds: seq<seq<Byte>>, i: nat)
    requires |r| == PAGESIZE && i < PAGESIZE && multiset(cs) == multiset(ds) && forall c :: c in cs ==> |c| == PAGESIZE
    ensures forall c :: c in ds ==> |c| == PAGESIZE
    ensures Writers(r, cs, i) == Writers(r, ds, i)
    decreases |cs|
  {
    hide Writers;
    forall c | c in ds ensures |c| == PAGESIZE { assert c in multiset(cs); }
    if cs != [] {
      assert cs[0] in multiset(ds);
      var k :| 0 <= k < |ds| && ds[k] == cs[0];
      var rest := ds[..k] + ds[k + 1..];
      TakeOut(cs, 0);
      TakeOut(ds, k);
      assert cs[..0] + cs[1..] == cs[1..];
      WritersOrder(r, cs[1..], rest, i);
      WritersMove(r, ds, k, i);
      WritersMove(r, cs, 0, i);
    } else {
      assert |multiset(ds)| == 0;
      assert ds == [];
    }
  }

  /** Joining the children of one snapshot in any order gives the same page, or a conflict in every order. */
  lemma JoinOrder(r: seq<Byte>, cs: seq<seq<Byte>>, ds: seq<seq<Byte>>, d: seq<Byte>)
    requires |r| == |d| == PAGESIZE && multiset(cs) == multiset(ds) && forall c :: c in cs ==> |c| == PAGESIZE
    ensures forall c :: c in ds ==> |c| == PAGESIZE
    ensures Join(r, cs, d) == Join(r, ds, d)
  {
    WritersOrder(r, cs, ds, 0);
    forall i | 0 <= i < PAGESIZE ensures Writers(r, cs, i) == Writers(r, ds, i) { WritersOrder(r, cs, ds, i); }
    JoinIff(r, cs, d);
    JoinIff(r, ds, d);
    if Disjoint(r, cs, d) {
      var p, q := Join(r, cs, d).page, Join(r, ds, d).page;
      forall i | 0 <= i < PAGESIZE ensures p[i] == q[i] {
        if Writers(r, cs, i) > 0 {
          var c := SomeWriter(r, cs, i);
          assert c in multiset(cs) && c in multiset(ds);
        }
      }
      assert p == q;
    }
  }

  ghost function SomeWriter(r: seq<Byte>, cs: seq<seq<Byte>>, i: nat): (c: seq<Byte>)
    requires |r| == PAGESIZE && i < PAGESIZE && (forall c :: c in cs ==> |c| == PAGESIZE) && Writers(r, cs, i) > 0
    ensures c in cs && |c| == PAGESIZE && c[i] != r[i]
  {
    if cs[0][i] != r[i] then cs[0] else SomeWriter(r, cs[1..], i)
  }
}
