/** Path names: finding and making inodes by path (dir_walk in lib/dir.c). */
module Dirs {
  import opened Reconcile
  import opened Pairing
  import opened Settling

  const NAME_MAX: nat := 63
  const DIR: nat := 4                   // S_IFDIR / S_IFREG

  datatype Errno = ENOENT | ENOTDIR | ENAMETOOLONG | ENOSPC
  datatype Walked = Found(ino: Ino) | Failed(e: Errno)

  predicate IsDir(t: Table, i: Ino) { Used(t, i) && t[i].node.mode / REG % 8 == DIR }

  predicate NoSlash(s: string) { forall k :: 0 <= k < |s| ==> s[k] != '/' }

  /** The path up to the first slash, and a path without slashes in front. */
  function Component(path: string): (c: string)
    ensures |c| <= |path| && c == path[..|c|] && NoSlash(c) && (|c| < |path| ==> path[|c|] == '/')
  {
    if path == "" || path[0] == '/' then "" else [path[0]] + Component(path[1..])
  }

  function Skip(path: string): (r: string)
    ensures |r| <= |path| && (r != "" ==> r[0] != '/')
  {
    if path == "" || path[0] != '/' then path else Skip(path[1..])
  }

  /** The end of the path has been found: it exists, or existed and is made again, which is an exclusive change. */
  function Arrive(t: Table, i: Ino, mode: nat): (Table, Walked)
  {
    if !Gone(t[i].node) then (t, Found(i))
    else if mode == 0 then (t, Failed(ENOENT))
    else (t[i := t[i].(node := Inode(t[i].node.ver + 1, mode, false, []))], Found(i))
  }

  /** The last component is new. */
  function Make(t: Table, dino: Ino, path: string, mode: nat): (Table, Walked)
  {
    if mode == 0 || !NoSlash(path) then (t, Failed(ENOENT))
    else if |path| > NAME_MAX then (t, Failed(ENAMETOOLONG))
    else
      var f := FirstFree(t, GENERAL);
      if f == FILE_INODES then (t, Failed(ENOSPC))
      else (t[f := t[f].(dino := dino, name := path, node := Inode(0, mode, false, []))], Found(f))
  }

  /** The inode that the first component of a path stands for. */
  function Lookup(t: Table, dino: Ino, c: string): (r: nat)
    ensures r <= FILE_INODES
  {
    var i := Find(t, dino, c, 1);
    if i < FILE_INODES then i else if c == "." then dino else if c == ".." then t[dino].dino else FILE_INODES
  }

  function WalkFrom(t: Table, dino: Ino, path: string, mode: nat): (Table, Walked)
    requires path != "" && path[0] != '/'
    decreases |path|
  {
    var c := Component(path);
    var i, rest := Lookup(t, dino, c), path[|c|..];
    if i == FILE_INODES then Make(t, dino, path, mode)
    else if rest == "" then Arrive(t, i, mode)
    else if !IsDir(t, i) then (t, Failed(ENOTDIR))
    else if Skip(rest) == "" then (t, Found(i))
    else WalkFrom(t, i, Skip(rest), mode)
  }

  function WalkPath(t: Table, cwd: Ino, path: string, mode: nat): (Table, Walked)
    requires path != ""
  {
    if path[0] != '/' then WalkFrom(t, cwd, path, mode)
    else if Skip(path) == "" then (t, Found(ROOTDIR))
    else WalkFrom(t, ROOTDIR, Skip(path), mode)
  }

  /* ---------- the method ---------- */

  /** Names are single components. */
  predicate NamesOk(t: Table)
  {
    forall i: Ino :: NoSlash(t[i].name)
  }

  /** memcmp(path, name, len) == 0 and the path ends or goes on with a slash behind it. */
  predicate Matches(path: string, name: string)
  {
    name <= path && (|name| == |path| || path[|name|] == '/')
  }

  lemma MatchesIs(path: string, name: string)
    requires NoSlash(name)
    ensures Matches(path, name) <==> name == Component(path)
  {
    if Matches(path, name) { FirstOf(path, name); }
  }

  lemma {:induction false} FirstOf(path: string, name: string)
    requires NoSlash(name) && Matches(path, name)
    ensures Component(path) == name
  {
    if name != "" {
      assert NoSlash(name[1..]) && name == [name[0]] + name[1..];
      FirstOf(path[1..], name[1..]);
    }
  }

  /** The search through the inodes of a directory. */
  method Search(t: Table, dino: Ino, path: string) returns (ino: nat)
    requires path != "" && path[0] != '/' && NamesOk(t)
    ensures ino == Find(t, dino, Component(path), 1)
  {
    hide Find, Component;
    ino := 1;
    while ino < FILE_INODES
      invariant 1 <= ino <= FILE_INODES && Find(t, dino, Component(path), 1) == Find(t, dino, Component(path), ino)
    {
      FindStep(t, dino, Component(path), ino);
      MatchesIs(path, t[ino].name);
      NotEmpty(path);
      if t[ino].name != "" && t[ino].dino == dino && Matches(path, t[ino].name) {
        return;
      }
      ino := ino + 1;
    }
  }

  lemma NotEmpty(path: string)
    requires path != "" && path[0] != '/'
    ensures Component(path) != ""
  {
  }

  method SkipSlashes(path: string) returns (r: string)
    ensures r == Skip(path)
  {
    r := path;
    while r != "" && r[0] == '/'
      invariant Skip(r) == Skip(path)
      decreases |r|
    {
      r := r[1..];
    }
  }

  /** dir_walk */
  method DirWalk(fs: FileState, cwd: Ino, path: string, mode: nat) returns (r: Walked)
    requires path != "" && NamesOk(fs.fi)
    modifies fs
    ensures (fs.fi, r) == WalkPath(old(fs.fi), cwd, path, mode)
  {
    hide Find, Component, Skip, Lookup, Arrive, Make;
    var dino: Ino, p := cwd, path;
    if p[0] == '/' {
      dino := ROOTDIR;
      p := SkipSlashes(p);
      if p == "" {
        return Found(dino);
      }
    }
    while true
      invariant p != "" && p[0] != '/' && fs.fi == old(fs.fi)
      invariant WalkFrom(fs.fi, dino, p, mode) == WalkPath(fs.fi, cwd, path, mode)
      decreases |p|
    {
      var ino, len := Select(fs.fi, dino, p);
      if ino == FILE_INODES {
        r := Create(fs, dino, p, mode);
        return;
      }
      if len == |p| {
        r := Reach(fs, ino, mode);
        return;
      }
      if !IsDir(fs.fi, ino) {
        return Failed(ENOTDIR);
      }
      var rest := SkipSlashes(p[len..]);
      if rest == "" {
        return Found(ino);
      }
      Shorter(p[len..]);
      dino, p := ino, rest;
    }
  }

  /** An entry of the directory, or one of the special entries. */
  method Select(t: Table, dino: Ino, p: string) returns (ino: nat, len: nat)
    requires p != "" && p[0] != '/' && NamesOk(t)
    ensures ino == Lookup(t, dino, Component(p)) && (ino < FILE_INODES ==> len == |Component(p)|)
  {
    hide Find, Component;
    ino := Search(t, dino, p);
    len := 0;
    Dots(p);
    if ino < FILE_INODES {
      len := |t[ino].name|;
    } else if p[0] == '.' && (|p| == 1 || p[1] == '/') {
      len, ino := 1, dino;
    } else if |p| >= 2 && p[0] == '.' && p[1] == '.' && (|p| == 2 || p[2] == '/') {
      len, ino := 2, t[dino].dino;
    }
  }

  /** found: the end of the path. */
  method Reach(fs: FileState, ino: Ino, mode: nat) returns (r: Walked)
    modifies fs
    ensures (fs.fi, r) == Arrive(old(fs.fi), ino, mode)
  {
    if !Gone(fs.fi[ino].node) {
      return Found(ino);
    }
    if mode == 0 {
      return Failed(ENOENT);
    }
    fs.fi := fs.fi[ino := fs.fi[ino].(node := Inode(fs.fi[ino].node.ver + 1, mode, false, []))];
    return Found(ino);
  }

  lemma Dots(p: string)
    requires p != "" && p[0] != '/'
    ensures Component(p) == "." <==> p[0] == '.' && (|p| == 1 || p[1] == '/')
    ensures Component(p) == ".." <==> |p| >= 2 && p[0] == '.' && p[1] == '.' && (|p| == 2 || p[2] == '/')
  {
    MatchesIs(p, ".");
    MatchesIs(p, "..");
  }

  lemma Shorter(s: string)
    ensures |Skip(s)| <= |s|
  {
  }

  /** The end of dir_walk: make a new inode for the last component. */
  method Create(fs: FileState, dino: Ino, path: string, mode: nat) returns (r: Walked)
    modifies fs
    ensures (fs.fi, r) == Make(old(fs.fi), dino, path, mode)
  {
    if mode == 0 || exists k :: 0 <= k < |path| && path[k] == '/' {
      return Failed(ENOENT);
    }
    if |path| > NAME_MAX {
      return Failed(ENAMETOOLONG);
    }
    var f: nat := GENERAL;
    while f < FILE_INODES
      invariant GENERAL <= f <= FILE_INODES && FirstFree(fs.fi, GENERAL) == FirstFree(fs.fi, f) && fs.fi == old(fs.fi)
    {
      FreeStep(fs.fi, f);
      if fs.fi[f].name == "" {
        fs.fi := fs.fi[f := fs.fi[f].(dino := dino, name := path, node := Inode(0, mode, false, []))];
        return Found(f);
      }
      f := f + 1;
    }
    return Failed(ENOSPC);
  }

  /* ---------- what walking keeps ---------- */

  lemma LookupIs(t: Table, dino: Ino, c: string)
    requires TableOk(t) && Used(t, dino) && c != "" && Lookup(t, dino, c) < FILE_INODES
    ensures Used(t, Lookup(t, dino, c))
  {
  }

  lemma ArriveKeeps(t: Table, i: Ino, mode: nat)
    requires TableOk(t) && NamesOk(t) && Used(t, i)
    ensures TableOk(Arrive(t, i, mode).0) && NamesOk(Arrive(t, i, mode).0)
    ensures Grown(t, Arrive(t, i, mode).0)
  {
    ShapeOk(t, Arrive(t, i, mode).0);
  }

  lemma MakeKeeps(t: Table, dino: Ino, path: string, mode: nat)
    requires TableOk(t) && NamesOk(t) && Used(t, dino) && path != ""
    requires NoSlash(path) ==> forall i :: 1 <= i < FILE_INODES ==> !Is(t[i], dino, path)
    ensures TableOk(Make(t, dino, path, mode).0) && NamesOk(Make(t, dino, path, mode).0)
    ensures Grown(t, Make(t, dino, path, mode).0)
  {
    var f := FirstFree(t, GENERAL);
    var t' := Make(t, dino, path, mode).0;
    if t' != t {
      MadeOk(t, f, dino, path, t'[f].node);
    }
  }

  lemma MadeOk(t: Table, f: nat, dino: Ino, name: string, node: Inode)
    requires TableOk(t) && Used(t, dino) && name != "" && f == FirstFree(t, GENERAL) < FILE_INODES
    requires forall k :: 1 <= k < FILE_INODES ==> !Is(t[k], dino, name)
    ensures t[f] == Blank && TableOk(t[f := t[f].(dino := dino, name := name, node := node)])
  {
    hide FirstFree, TableOk;
    AddedOk(t, f, dino, name);
    var t1, t2 := t[f := t[f].(dino := dino, name := name)], t[f := t[f].(dino := dino, name := name, node := node)];
    ShapeOk(t1, t2);
    FreeBlank(t, f);
  }

  lemma FreeBlank(t: Table, f: nat)
    requires TableOk(t) && f < FILE_INODES && t[f].name == ""
    ensures t[f] == Blank
  {
  }

  /** Names and directories stay, versions do not fall, what is new is blank but for its name and mode. */
  ghost predicate Grown(t: Table, t': Table)
  {
    forall i: Ino ::
      && (t[i].name != "" ==> t'[i] == t[i].(node := t'[i].node) && t'[i].node.ver >= t[i].node.ver)
      && (t[i].name == "" ==> t'[i] == t[i] || (t[i] == Blank && t'[i] == Blank.(dino := t'[i].dino, name := t'[i].name, node := t'[i].node)))
  }

  /** Walking, whatever it makes, keeps names unique in their directories. */
  lemma {:induction false} WalkKeeps(t: Table, dino: Ino, path: string, mode: nat)
    requires TableOk(t) && NamesOk(t) && Used(t, dino) && path != "" && path[0] != '/'
    ensures TableOk(WalkFrom(t, dino, path, mode).0) && NamesOk(WalkFrom(t, dino, path, mode).0)
    ensures Grown(t, WalkFrom(t, dino, path, mode).0)
    decreases |path|
  {
    hide TableOk, NamesOk, Find, Component, Skip, Arrive, Make, Grown;
    var c := Component(path);
    var i, rest := Lookup(t, dino, c), path[|c|..];
    NotEmpty(path);
    GrownSame(t);
    if i == FILE_INODES {
      WholePath(path);
      MakeKeeps(t, dino, path, mode);
    } else {
      LookupIs(t, dino, c);
      if rest == "" {
        ArriveKeeps(t, i, mode);
      } else if IsDir(t, i) && Skip(rest) != "" {
        RestShorter(path);
        WalkKeeps(t, i, Skip(rest), mode);
      }
    }
  }

  lemma WholePath(path: string)
    ensures NoSlash(path) ==> Component(path) == path
  {
    if NoSlash(path) { MatchesIs(path, path); }
  }

  lemma RestShorter(path: string)
    requires path != "" && path[0] != '/' && Skip(path[|Component(path)|..]) != ""
    ensures |Skip(path[|Component(path)|..])| < |path|
  {
  }

  lemma GrownSame(t: Table)
    ensures Grown(t, t)
  {
  }

  /** So the references that a later reconciliation relies on stay sound, whichever side walks. */
  lemma ReferencesKept(p: Table, c: Table, t: Table)
    requires Linked(p, c) && TableOk(p) && TableOk(c) && TableOk(t)
    ensures Grown(p, t) ==> Linked(t, c)
    ensures Grown(c, t) ==> Linked(p, t)
  {
    if Grown(p, t) {
      forall j: Ino | Used(c, j) && c[j].rino != 0 ensures RefOk(t, c, j) { assert RefOk(p, c, j); }
    }
    if Grown(c, t) {
      forall j: Ino | Used(t, j) ensures if t[j].rino != 0 then RefOk(p, t, j) else t[j].rver == 0 {
        if Used(c, j) && c[j].rino != 0 { assert RefOk(p, c, j); }
      }
    }
  }

  /* ---------- paths and inodes ---------- */

  /** The names on the way from the root directory, with slashes between them. */
  function PathOf(t: Table, i: Ino): (s: string)
    requires TableOk(t) && Used(t, i)
    ensures NamesOk(t) ==> s != "" && s[0] != '/'
    decreases i
  {
    if i < GENERAL || t[i].dino == ROOTDIR then t[i].name
    else assert t[t[i].dino].name != ""; PathOf(t, t[i].dino) + "/" + t[i].name
  }

  /** All directories on the way are there. */
  predicate UnderDirs(t: Table, i: Ino)
    requires TableOk(t) && Used(t, i)
    decreases i
  {
    i < GENERAL || t[i].dino == ROOTDIR || (t[i].dino >= GENERAL && IsDir(t, t[i].dino) && UnderDirs(t, t[i].dino))
  }

  /** Walking one component that is there. */
  lemma OneComponent(t: Table, i: Ino, q: string, mode: nat)
    requires TableOk(t) && NamesOk(t) && Used(t, i) && IsDir(t, i) && q != "" && q[0] != '/'
    ensures t[i].name[0] != '/' && WalkFrom(t, t[i].dino, t[i].name + "/" + q, mode) == WalkFrom(t, i, q, mode)
  {
    hide TableOk, Find, Component, WalkFrom;
    var path := t[i].name + "/" + q;
    MatchesIs(path, t[i].name);
    FoundThere(t, i);
    assert path[|t[i].name|..] == "/" + q && ("/" + q)[1..] == q;
    assert Skip("/" + q) == Skip(q) == q;
    WalkStep(t, t[i].dino, path, mode);
  }

  lemma FoundThere(t: Table, i: Ino)
    requires TableOk(t) && Used(t, i)
    ensures Find(t, t[i].dino, t[i].name, 1) == i
  {
    var k := Find(t, t[i].dino, t[i].name, 1);
    assert Is(t[i], t[i].dino, t[i].name);
  }

  lemma WalkStep(t: Table, dino: Ino, path: string, mode: nat)
    requires path != "" && path[0] != '/'
    requires var c := Component(path);
      var i := Find(t, dino, c, 1); i < FILE_INODES && path[|c|..] != "" && IsDir(t, i) && Skip(path[|c|..]) != ""
    ensures WalkFrom(t, dino, path, mode)
         == WalkFrom(t, Find(t, dino, Component(path), 1), Skip(path[|Component(path)|..]), mode)
  {
  }

  /** Below a directory, the walk goes on from the directory itself. */
  lemma {:induction false} WalkThrough(t: Table, d: Ino, q: string, mode: nat)
    requires TableOk(t) && NamesOk(t) && Used(t, d) && d >= GENERAL && IsDir(t, d) && UnderDirs(t, d) && q != "" && q[0] != '/'
    ensures WalkFrom(t, ROOTDIR, PathOf(t, d) + "/" + q, mode) == WalkFrom(t, d, q, mode)
    decreases d
  {
    hide WalkFrom;
    OneComponent(t, d, q, mode);
    if t[d].dino != ROOTDIR {
      var rest := t[d].name + "/" + q;
      WalkThrough(t, t[d].dino, rest, mode);
      assert PathOf(t, d) + "/" + q == PathOf(t, t[d].dino) + "/" + rest;
    }
  }

  lemma LastComponent(t: Table, i: Ino)
    requires TableOk(t) && NamesOk(t) && Live(t, i)
    ensures t[i].name[0] != '/' && WalkFrom(t, t[i].dino, t[i].name, 0) == (t, Found(i))
  {
    hide TableOk, Find, Component;
    WholePath(t[i].name);
    FoundThere(t, i);
  }

  /** The path of an existing inode leads to it, from everywhere; in particular different files have different paths. */
  lemma PathFinds(t: Table, i: Ino, cwd: Ino)
    requires TableOk(t) && NamesOk(t) && Live(t, i) && i >= GENERAL && UnderDirs(t, i)
    ensures WalkPath(t, cwd, "/" + PathOf(t, i), 0) == (t, Found(i))
  {
    hide WalkFrom;
    var s := PathOf(t, i);
    assert ("/" + s)[1..] == s && Skip("/" + s) == Skip(s) == s;
    LastComponent(t, i);
    if t[i].dino != ROOTDIR {
      WalkThrough(t, t[i].dino, t[i].name, 0);
    }
  }

  /* ---------- the special entries ---------- */

  /** One component that stands for a directory, special entries included. */
  lemma LookupStep(t: Table, d: Ino, c: string, q: string, mode: nat)
    requires c != "" && NoSlash(c) && q != "" && q[0] != '/' && Lookup(t, d, c) < FILE_INODES && IsDir(t, Lookup(t, d, c))
    ensures WalkFrom(t, d, c + "/" + q, mode) == WalkFrom(t, Lookup(t, d, c), q, mode)
  {
    hide Find, Component, Lookup;
    var path := c + "/" + q;
    MatchesIs(path, c);
    assert path[|c|..] == "/" + q && ("/" + q)[1..] == q;
    assert Skip("/" + q) == Skip(q) == q;
  }

  /** From a directory, up and down again: <name>/../<q> leads where <q> does, beside it, and ./<q> too, unless the directory has an
      entry with that very name. */
  lemma UpAgain(t: Table, i: Ino, q: string, mode: nat)
    requires TableOk(t) && NamesOk(t) && Used(t, i) && IsDir(t, i) && IsDir(t, t[i].dino) && q != "" && q[0] != '/'
    ensures Find(t, i, "..", 1) == FILE_INODES ==>
              WalkFrom(t, t[i].dino, t[i].name + "/" + (".." + "/" + q), mode) == WalkFrom(t, t[i].dino, q, mode)
    ensures Find(t, i, ".", 1) == FILE_INODES ==> WalkFrom(t, i, "." + "/" + q, mode) == WalkFrom(t, i, q, mode)
  {
    hide TableOk, Find, Component, WalkFrom, Skip;
    if Find(t, i, "..", 1) == FILE_INODES {
      OneComponent(t, i, ".." + "/" + q, mode);
      LookupStep(t, i, "..", q, mode);
    }
    if Find(t, i, ".", 1) == FILE_INODES { LookupStep(t, i, ".", q, mode); }
  }

  /** A deleted file is not found, but made again when asked for, empty; and whatever a reconciliation recorded before, that is an
      exclusive change. */
  lemma Recreated(t: Table, i: Ino, mode: nat)
    requires TableOk(t) && NamesOk(t) && Used(t, i) && Gone(t[i].node)
    ensures WalkFrom(t, t[i].dino, t[i].name, 0) == (t, Failed(ENOENT))
    ensures mode != 0 ==>
      var (t', r) := WalkFrom(t, t[i].dino, t[i].name, mode);
      && r == Found(i) && t' == t[i := t'[i]] && t'[i] == t[i].(node := t'[i].node)
      && t'[i].node.mode == mode && t'[i].node.data == [] && !t'[i].node.conflict
      && forall x: Pair :: x.rver <= t[i].node.ver ==> Exclusive(t'[i].node, x)
  {
    hide TableOk, Find, Component;
    WholePath(t[i].name);
    FoundThere(t, i);
    assert t[i].name[0] != '/';
  }

  /** A new name in a directory: what is made for it is a blank inode of that name and mode, in a free place, and from then on the
      name leads to it.  Nothing is made without a mode, for a name that is too long, or without a free place. */
  lemma NewFileFound(t: Table, d: Ino, name: string, mode: nat)
    requires TableOk(t) && NamesOk(t) && Used(t, d) && name != "" && NoSlash(name) && Lookup(t, d, name) == FILE_INODES
    ensures var (t', r) := WalkFrom(t, d, name, mode);
      if mode == 0 then (t', r) == (t, Failed(ENOENT))
      else if |name| > NAME_MAX then (t', r) == (t, Failed(ENAMETOOLONG))
      else if forall i :: GENERAL <= i < FILE_INODES ==> t[i].name != "" then (t', r) == (t, Failed(ENOSPC))
      else
        && r.Found? && GENERAL <= r.ino < FILE_INODES && t[r.ino] == Blank && t' == t[r.ino := t'[r.ino]]
        && t'[r.ino] == Blank.(dino := d, name := name, node := Inode(0, mode, false, []))
        && (!Gone(t'[r.ino].node) ==> WalkFrom(t', d, name, 0) == (t', Found(r.ino)))
  {
    hide TableOk, Component, Find;
    WholePath(name);
    var f := FirstFree(t, GENERAL);
    FreePlace(t, GENERAL);
    if mode != 0 && |name| <= NAME_MAX && f < FILE_INODES {
      FreeBlank(t, f);
      var t' := t[f := t[f].(dino := d, name := name, node := Inode(0, mode, false, []))];
      NothingFound(t, d, name);
      OnlyOne(t, t', f, d, name);
    }
  }

  lemma {:induction false} FreePlace(t: Table, k: nat)
    requires k <= FILE_INODES
    ensures k <= FirstFree(t, k) <= FILE_INODES && (FirstFree(t, k) < FILE_INODES ==> t[FirstFree(t, k)].name == "")
    ensures FirstFree(t, k) == FILE_INODES <==> forall i :: k <= i < FILE_INODES ==> t[i].name != ""
    decreases FILE_INODES - k
  {
    if k < FILE_INODES && t[k].name != "" { FreePlace(t, k + 1); }
  }

  lemma NothingFound(t: Table, d: Ino, name: string)
    requires Lookup(t, d, name) == FILE_INODES
    ensures Find(t, d, name, 1) == FILE_INODES && forall i :: 1 <= i < FILE_INODES ==> !Is(t[i], d, name)
  {
  }

  lemma OnlyOne(t: Table, t': Table, f: nat, d: Ino, name: string)
    requires 1 <= f < FILE_INODES && (forall i :: 1 <= i < FILE_INODES ==> !Is(t[i], d, name)) && t' == t[f := t'[f]] && Is(t'[f], d, name)
    ensures Find(t', d, name, 1) == f
  {
    var k := Find(t', d, name, 1);
  }
}
