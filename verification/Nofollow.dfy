/** Walking, creating and removing by directory handles. Names are only ever resolved one at a time, so what a symlink
    leads to never matters: it is a leaf like any other. */
module Nofollow {
  import opened Kernel
  import opened Trees
  import opened Steps
  import opened Growth
  import opened FileSystems

  /** Any inode number may be given as a home; only that of a directory is opened. */
  method OpenHome(fs: FileSystem, home: Option<Ino>) returns (r: Result<Ino, Errno>)
    requires fs.Valid()
    modifies fs`faults
    ensures fs.Looked()
    ensures r.Ok? ==> home == Some(r.value) && IsDir(fs.st, r.value)
    ensures r.Err? && r.error == NoEnt ==> home == None
    ensures r != Err(Io) ==> fs.faults == old(fs.faults)
    ensures fs.faults == old(fs.faults) ==> (r.Ok? <==> home.Some? && IsDir(fs.st, home.value))
    ensures fs.faults == old(fs.faults) && home == None ==> r == Err(NoEnt)
  {
    var a := fs.Attempt();
    if a.Err? { return Err(Io); }
    r := match home case None => Err(NoEnt) case Some(i) => if IsDir(fs.st, i) then Ok(i) else Err(NotDir);
  }

  /** The walk of `WalkDir`, call by call. */
  method FindDir(fs: FileSystem, root: Ino, rel: Path) returns (r: Result<Option<Ino>, Errno>)
    requires fs.Valid() && IsDir(fs.st, root)
    modifies fs`faults
    ensures fs.Looked()
    ensures r == WalkDir(fs.st, root, rel) || r == Err(Io)
    ensures r != Err(Io) ==> fs.faults == old(fs.faults)
    ensures fs.faults == old(fs.faults) ==> r == WalkDir(fs.st, root, rel)
  {
    var dup := fs.Attempt();
    if dup.Err? { return Err(Io); }
    var dir, k := root, 0;
    while k < |rel|
      invariant k <= |rel| && fs.Looked() && IsDir(fs.st, dir) && fs.faults == old(fs.faults)
      invariant WalkDir(fs.st, root, rel) == WalkDir(fs.st, dir, rel[k..])
    {
      var child := fs.OpenDirAt(dir, rel[k]);
      match child {
        case Ok(c) => dir := c;
        case Err(NoEnt) => return Ok(None);
        case Err(e) => return Err(e);
      }
      assert rel[k..][1..] == rel[k + 1..];
      k := k + 1;
    }
    r := Ok(Some(dir));
  }

  /** Without faults it succeeds exactly if the name is free. The directory is root's, and may be left behind, empty,
      by a failure. */
  method CreateDir(fs: FileSystem, parent: Ino, name: Name, mode: nat) returns (r: Result<Ino, Errno>)
    requires fs.Valid()
    modifies fs
    ensures fs.Ran()
    ensures r.Ok? ==> fs.faults == old(fs.faults)
    ensures fs.faults == old(fs.faults) ==>
      (r.Ok? <==> IsDir(old(fs.st), parent) && Bound(old(fs.st), parent, name) == None)
    ensures r.Ok? ==> IsDir(old(fs.st), parent) && Bound(old(fs.st), parent, name) == None
    ensures r.Ok? ==>
      r.value == old(fs.st).next && Create(old(fs.st), parent, name, Dir(Meta(ROOT_UID, mode), map[])) == Ok(fs.st)
    ensures r.Err? ==>
      fs.st == old(fs.st) || Create(old(fs.st), parent, name, Dir(Meta(ROOT_UID, mode), map[])) == Ok(fs.st)
    ensures forall k :: old(|fs.history|) <= k < |fs.history| ==>
      Create(old(fs.st), parent, name, Dir(Meta(ROOT_UID, mode), map[])) == Ok(fs.history[k])
  {
    hide Bound, ValidFs;
    var made := fs.MkdirAt(parent, name, mode);
    if made.Err? { return Err(made.error); }
    CreateStep(old(fs.st), parent, name, Dir(Meta(ROOT_UID, mode), map[]), fs.st);
    var dir := fs.OpenDirAt(parent, name);
    if dir.Err? { return Err(dir.error); }
    var chmod := fs.Chmod(dir.value, mode);
    if chmod.Err? { return Err(chmod.error); }
    assert fs.st.nodes ==
      old(fs.st).nodes[parent := fs.st.nodes[parent]][old(fs.st).next := Dir(Meta(ROOT_UID, mode), map[])];
    r := Ok(dir.value);
  }

  /** One component of `EnsureDir`: opens `name` in the directory at `q`, or creates it for the account. */
  method EnsureChild(fs: FileSystem, root: Ino, q: Path, dir: Ino, name: Name, mode: nat, uid: nat,
                     ghost made: set<Path>)
    returns (r: Result<Ino, Errno>)
    requires fs.Valid() && IsDir(fs.st, root) && Lookup(fs.st, root, q) == Some(dir) && IsDir(fs.st, dir)
    requires q + [name] in made
    modifies fs
    ensures fs.Ran() && Grown(old(fs.st), fs.st, root, made)
    ensures forall k :: old(|fs.history|) <= k < |fs.history| ==> Grown(old(fs.st), fs.history[k], root, made)
    ensures r.Ok? ==> Lookup(fs.st, root, q + [name]) == Some(r.value) && IsDir(fs.st, r.value)
    ensures r.Ok? && Bound(old(fs.st), dir, name) == None ==> fs.st.nodes[r.value].meta == Meta(uid, mode)
    ensures r.Err? && fs.faults == old(fs.faults) ==>
      Bound(old(fs.st), dir, name).Some? && !IsDir(old(fs.st), Bound(old(fs.st), dir, name).value)
    ensures r.Ok? ==> fs.faults == old(fs.faults)
  {
    hide Grown, ValidFs, WalkDir, Added, Touch, Closed, Create, Tree, MadeDir, Bound;
    GrownRefl(fs.st, root, made);
    LookupLast(fs.st, root, q, name);
    r := fs.OpenDirAt(dir, name);
    if r != Err(NoEnt) { return; }
    r := CreateDir(fs, dir, name, mode);
    var meta := Meta(ROOT_UID, mode);
    forall c: Fs | Create(old(fs.st), dir, name, Dir(meta, map[])) == Ok(c)
      ensures Grown(old(fs.st), c, root, made)
      ensures Lookup(c, root, q + [name]) == Some(old(fs.st).next) && IsDir(c, old(fs.st).next)
    {
      GrownCreate(old(fs.st), c, root, made, q, dir, name, meta);
    }
    if r.Err? { return; }
    ghost var created := fs.st;
    var child := r.value;
    var owned := fs.Chown(child, uid);
    if owned.Err? { return Err(owned.error); }
    CreateStep(old(fs.st), dir, name, Dir(meta, map[]), created);
    MetaStep(created, child, created.nodes[child].meta.(uid := uid));
    GrownMeta(old(fs.st), created, root, made, child, created.nodes[child].meta.(uid := uid));
    LookupSame(created, fs.st, root, q + [name]);
  }

  /** A directory that was not there has the owner and mode asked for. */
  ghost predicate MadeWith(a: Fs, b: Fs, root: Ino, p: Path, meta: Meta) {
    Lookup(a, root, p) == None ==>
      Lookup(b, root, p).Some? && IsDir(b, Lookup(b, root, p).value) && b.nodes[Lookup(b, root, p).value].meta == meta
  }

  /** The first `k` components are made where they were missing, the others still missing. */
  ghost predicate PartMade(a: Fs, b: Fs, root: Ino, rel: Path, k: nat, j: nat, meta: Meta)
    requires j <= |rel|
  {
    if j <= k then MadeWith(a, b, root, rel[..j], meta)
    else Lookup(a, root, rel[..j]) == None ==> Lookup(b, root, rel[..j]) == None
  }

  lemma PartNone(a: Fs, root: Ino, rel: Path, j: nat, meta: Meta)
    requires j <= |rel|
    ensures PartMade(a, a, root, rel, 0, j, meta)
  {
  }

  lemma PartAll(a: Fs, b: Fs, root: Ino, rel: Path, j: nat, meta: Meta)
    requires j <= |rel| && PartMade(a, b, root, rel, |rel|, j, meta)
    ensures MadeWith(a, b, root, rel[..j], meta)
  {
  }

  lemma PartMore(a: Fs, b: Fs, c: Fs, root: Ino, rel: Path, k: nat, j: nat, meta: Meta)
    requires ValidFs(b) && root in b.nodes && k < |rel| && j <= |rel| && PartMade(a, b, root, rel, k, j, meta)
    requires Grown(b, c, root, {rel[..k + 1]})
    requires Lookup(c, root, rel[..k + 1]).Some? && IsDir(c, Lookup(c, root, rel[..k + 1]).value)
    requires Lookup(b, root, rel[..k + 1]) == None ==> c.nodes[Lookup(c, root, rel[..k + 1]).value].meta == meta
    ensures PartMade(a, c, root, rel, k + 1, j, meta)
  {
    hide ValidFs, Touch, Lookup, Grown, MadeWith;
    var p, q := rel[..j], rel[..k + 1];
    assert j != k + 1 ==> |p| != |q|;
    if j != k + 1 { OtherPath(a, b, c, root, q, p, meta); } else { NewPath(a, b, c, root, p, meta); }
  }

  lemma OtherPath(a: Fs, b: Fs, c: Fs, root: Ino, q: Path, p: Path, meta: Meta)
    requires Grown(b, c, root, {q}) && p != q
    ensures MadeWith(a, b, root, p, meta) ==> MadeWith(a, c, root, p, meta)
    ensures Lookup(c, root, p) == Lookup(b, root, p)
  {
    hide Touch, Lookup;
    assert Lookup(c, root, p) == Lookup(b, root, p) || MadeDir(b, c, root, {q}, p);
    if Lookup(b, root, p).Some? && IsDir(b, Lookup(b, root, p).value) {
      OldMeta(b, c, root, {q}, Lookup(b, root, p).value);
    }
  }

  lemma NewPath(a: Fs, b: Fs, c: Fs, root: Ino, p: Path, meta: Meta)
    requires Lookup(c, root, p).Some? && IsDir(c, Lookup(c, root, p).value)
    requires Lookup(b, root, p) == None ==> c.nodes[Lookup(c, root, p).value].meta == meta
    requires Lookup(a, root, p) == None ==> Lookup(b, root, p) == None
    ensures MadeWith(a, c, root, p, meta)
  {
  }

  lemma OldMeta(b: Fs, c: Fs, root: Ino, made: set<Path>, i: Ino)
    requires Grown(b, c, root, made) && IsDir(b, i)
    ensures IsDir(c, i) && c.nodes[i].meta == b.nodes[i].meta
  {
    assert Preserved(b.nodes[i], c.nodes[i]);
  }

  /** The directory at `rel`, made where it was missing: each component keeps what it leads to or is new with that
      owner and mode. */
  method EnsureDir(fs: FileSystem, root: Ino, rel: Path, mode: nat, uid: nat) returns (r: Result<Ino, Errno>)
    requires fs.Valid() && IsDir(fs.st, root)
    modifies fs
    ensures fs.Ran() && IsDir(fs.st, root) && Grown(old(fs.st), fs.st, root, Prefixes(rel))
    ensures forall k :: old(|fs.history|) <= k < |fs.history| ==> Grown(old(fs.st), fs.history[k], root, Prefixes(rel))
    ensures r.Ok? ==> Lookup(fs.st, root, rel) == Some(r.value) && IsDir(fs.st, r.value)
    ensures r.Ok? ==> forall k: nat :: k <= |rel| ==> MadeWith(old(fs.st), fs.st, root, rel[..k], Meta(uid, mode))
    ensures WalkDir(old(fs.st), root, rel).Err? ==> r.Err?
    ensures r.Ok? ==> fs.faults == old(fs.faults)
    ensures fs.faults == old(fs.faults) ==> (r.Ok? <==> WalkDir(old(fs.st), root, rel).Ok?)
  {
    hide Grown, ValidFs, WalkDir, Touch, Bound;
    ghost var a := fs.st;
    var dup := fs.Attempt();
    GrownRefl(fs.st, root, Prefixes(rel));
    if dup.Err? { return Err(Io); }
    var dir, k := root, 0;
    ghost var meta := Meta(uid, mode);
    forall j: nat | j <= |rel| ensures PartMade(a, a, root, rel, 0, j, meta) { PartNone(a, root, rel, j, meta); }
    while k < |rel|
      invariant k <= |rel| && fs.Ran() && IsDir(fs.st, root) && IsDir(fs.st, dir) && fs.faults == old(fs.faults)
      invariant Lookup(fs.st, root, rel[..k]) == Some(dir)
      invariant Grown(a, fs.st, root, Prefixes(rel))
      invariant forall j :: old(|fs.history|) <= j < |fs.history| ==> Grown(a, fs.history[j], root, Prefixes(rel))
      invariant forall j: nat :: j <= |rel| ==> PartMade(a, fs.st, root, rel, k, j, meta)
    {
      ghost var before, step := fs.st, {rel[..k + 1]};
      assert rel[..k] + [rel[k]] == rel[..k + 1];
      LookupLast(fs.st, root, rel[..k], rel[k]);
      var child := EnsureChild(fs, root, rel[..k], dir, rel[k], mode, uid, step);
      forall c: Fs | Grown(before, c, root, step)
        ensures Grown(a, c, root, Prefixes(rel)) && Grown(before, c, root, Prefixes(rel))
      {
        GrownWider(before, c, root, step, Prefixes(rel));
        GrownTrans(a, before, c, root, Prefixes(rel));
      }
      if child.Ok? {
        ghost var next := k + 1;
        forall j: nat | j <= |rel|
          ensures PartMade(a, fs.st, root, rel, next, j, meta)
        {
          PartMore(a, before, fs.st, root, rel, k, j, meta);
        }
      }
      KindKept(before, fs.st, root, Prefixes(rel), root);
      if child.Err? {
        if fs.faults == old(fs.faults) {
          WalkBlocked(before, root, rel);
          WalkGrown(a, before, root, Prefixes(rel), rel);
        }
        return Err(child.error);
      }
      dir := child.value;
      k := k + 1;
    }
    assert rel[..k] == rel;
    forall j: nat | j <= |rel|
      ensures MadeWith(a, fs.st, root, rel[..j], meta)
    {
      PartAll(a, fs.st, root, rel, j, meta);
    }
    WalkFinds(fs.st, root, rel);
    WalkGrown(a, fs.st, root, Prefixes(rel), rel);
    r := Ok(dir);
  }

  /** Without faults it succeeds exactly if nothing is bound to the name, be it a leaf of any kind. A failure may
      leave the file behind, empty. */
  method CreateFile(fs: FileSystem, dir: Ino, name: Name, mode: nat) returns (r: Result<Ino, Errno>)
    requires fs.Valid()
    modifies fs
    ensures fs.Ran()
    ensures r.Ok? ==> fs.faults == old(fs.faults)
    ensures fs.faults == old(fs.faults) ==> (r.Ok? <==> IsDir(old(fs.st), dir) && Bound(old(fs.st), dir, name) == None)
    ensures r.Ok? ==>
      r.value == old(fs.st).next && Create(old(fs.st), dir, name, File(Meta(ROOT_UID, mode), [])) == Ok(fs.st)
    ensures r.Err? ==> fs.st == old(fs.st) || Create(old(fs.st), dir, name, File(Meta(ROOT_UID, mode), [])) == Ok(fs.st)
    ensures forall k :: old(|fs.history|) <= k < |fs.history| ==>
      Create(old(fs.st), dir, name, File(Meta(ROOT_UID, mode), [])) == Ok(fs.history[k])
  {
    hide ValidFs;
    var made := fs.CreateAt(dir, name, mode);
    if made.Err? { return Err(made.error); }
    assert made.value in fs.st.nodes by { assert fs.st.nodes[made.value] == File(Meta(ROOT_UID, mode), []); }
    ghost var c := fs.st;
    var chmod := fs.Chmod(made.value, mode);
    if chmod.Err? { return Err(chmod.error); }
    assert fs.st.nodes == c.nodes;
    r := Ok(made.value);
  }
}
