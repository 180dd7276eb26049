/** The two recursive walks below a held directory: removing a tree and handing one over to root. */
module TreeWalks {
  import opened Kernel
  import opened Trees
  import opened Steps
  import opened Growth
  import opened FileSystems

  ghost function Subtree(fs: Fs, x: Ino): set<Ino> {
    set d | d in fs.nodes.Keys && Reach(fs, x, d)
  }

  /** Same inodes, same owners and modes, same bytes; only directory entries may differ. */
  ghost predicate OnlyEntries(a: Fs, b: Fs) {
    && b.next == a.next && b.nodes.Keys == a.nodes.Keys
    && forall i: Ino :: i in a.nodes ==>
         if IsDir(a, i) then IsDir(b, i) && b.nodes[i].meta == a.nodes[i].meta else b.nodes[i] == a.nodes[i]
  }

  /** The entry itself, or any entry of a directory at or below what it names. */
  ghost predicate InTree(a: Fs, parent: Ino, name: Name, d: Ino, n: Name) {
    (d == parent && n == name) || (Bound(a, parent, name).Some? && Reach(a, Bound(a, parent, name).value, d))
  }

  /** Only entries of the tree at `(parent, name)` are gone, perhaps not all of them. */
  ghost predicate Pruned(a: Fs, b: Fs, parent: Ino, name: Name) {
    && OnlyEntries(a, b)
    && forall d: Ino, n: Name ::
      Bound(b, d, n) == Bound(a, d, n) || (Bound(b, d, n) == None && InTree(a, parent, name, d, n))
  }

  /** Exactly the entries of the tree at `(parent, name)` are gone. */
  ghost predicate Removed(a: Fs, b: Fs, parent: Ino, name: Name) {
    && OnlyEntries(a, b)
    && forall d: Ino, n: Name :: Bound(b, d, n) == if InTree(a, parent, name, d, n) then None else Bound(a, d, n)
  }

  /** The trees of the names in `done`, all entries of directory `x`. */
  ghost predicate InTrees(a: Fs, x: Ino, done: seq<Name>, d: Ino, n: Name) {
    exists m :: m in done && InTree(a, x, m, d, n)
  }

  ghost predicate Emptied(a: Fs, b: Fs, x: Ino, done: seq<Name>) {
    && OnlyEntries(a, b)
    && forall d: Ino, n: Name :: Bound(b, d, n) == if InTrees(a, x, done, d, n) then None else Bound(a, d, n)
  }

  lemma LookupLeaf(a: Fs, x: Ino, p: Path)
    requires Lookup(a, x, p).Some? && forall n: Name :: Bound(a, x, n) == None
    ensures p == []
  {
  }

  /** Fewer entries reach no more. */
  lemma {:induction false} LookupShrunk(a: Fs, b: Fs, r: Ino, p: Path)
    requires forall d: Ino, n: Name :: Bound(b, d, n).Some? ==> Bound(b, d, n) == Bound(a, d, n)
    requires Lookup(b, r, p).Some?
    ensures Lookup(a, r, p) == Lookup(b, r, p)
    decreases |p|
  {
    if p != [] { LookupShrunk(a, b, Bound(b, r, p[0]).value, p[1..]); }
  }

  lemma ShapeShrunk(a: Fs, b: Fs, s: Shape)
    requires Shaped(a, s) && OnlyEntries(a, b)
    requires forall d: Ino, n: Name :: Bound(b, d, n).Some? ==> Bound(b, d, n) == Bound(a, d, n)
    ensures Shaped(b, s)
  {
  }

  /** Different entries of one directory share no directory below them, and do not contain it. */
  lemma Siblings(a: Fs, x: Ino, m: Name, n: Name, d: Ino)
    requires ValidFs(a) && IsDir(a, d) && Bound(a, x, n).Some? && Reach(a, Bound(a, x, n).value, d)
    ensures d != x
    ensures m != n && Bound(a, x, m).Some? ==> !Reach(a, Bound(a, x, m).value, d)
  {
    var q :| Lookup(a, Bound(a, x, n).value, q) == Some(d);
    LookupAppend(a, x, [n], q);
    LookupLast(a, x, [], n);
    assert [] + [n] == [n];
    if d == x { UniquePath(a, x, [n] + q, []); }
    if m != n && Bound(a, x, m).Some? && Reach(a, Bound(a, x, m).value, d) {
      var p :| Lookup(a, Bound(a, x, m).value, p) == Some(d);
      LookupAppend(a, x, [m], p);
      LookupLast(a, x, [], m);
      assert [] + [m] == [m];
      UniquePath(a, x, [m] + p, [n] + q);
    }
  }

  /** Emptying siblings leaves the tree of `n` as it was. */
  lemma {:induction false} SiblingKept(a: Fs, c: Fs, x: Ino, done: seq<Name>, n: Name, p: Path)
    requires ValidFs(a) && Emptied(a, c, x, done) && n !in done && Bound(a, x, n).Some?
    ensures Lookup(c, Bound(a, x, n).value, p) == Lookup(a, Bound(a, x, n).value, p)
    decreases |p|
  {
    var child := Bound(a, x, n).value;
    if p != [] {
      var p0, m := p[..|p| - 1], p[|p| - 1];
      assert p == p0 + [m];
      SiblingKept(a, c, x, done, n, p0);
      LookupLast(a, child, p0, m);
      LookupLast(c, child, p0, m);
      if Lookup(a, child, p0).Some? {
        var d := Lookup(a, child, p0).value;
        assert Reach(a, child, d);
        if IsDir(a, d) && InTrees(a, x, done, d, m) {
          var w :| w in done && InTree(a, x, w, d, m);
          Siblings(a, x, w, n, d);
        }
      }
    }
  }

  /** One more child gone. */
  lemma EmptiedMore(a: Fs, c: Fs, b: Fs, x: Ino, done: seq<Name>, n: Name)
    requires ValidFs(a) && IsDir(a, x) && Emptied(a, c, x, done) && n !in done && Bound(a, x, n).Some?
    requires Bound(c, x, n) == Bound(a, x, n)
    requires Removed(c, b, x, n)
    ensures Emptied(a, b, x, done + [n])
  {
    var child := Bound(a, x, n).value;
    forall d: Ino, m: Name ensures Bound(b, d, m) == if InTrees(a, x, done + [n], d, m) then None else Bound(a, d, m) {
      assert InTrees(a, x, done + [n], d, m) <==> InTrees(a, x, done, d, m) || InTree(a, x, n, d, m) by {
        if InTree(a, x, n, d, m) { assert n in done + [n]; }
        if InTrees(a, x, done, d, m) { var w :| w in done && InTree(a, x, w, d, m); assert w in done + [n]; }
      }
      assert Reach(c, child, d) <==> Reach(a, child, d) by {
        if Reach(c, child, d) { var p :| Lookup(c, child, p) == Some(d); SiblingKept(a, c, x, done, n, p); }
        if Reach(a, child, d) { var p :| Lookup(a, child, p) == Some(d); SiblingKept(a, c, x, done, n, p); }
      }
    }
  }

  /** What pruning one child cuts lies in the tree of `(parent, name)`. */
  lemma PrunedInside(a: Fs, c: Fs, b: Fs, parent: Ino, name: Name, x: Ino, done: seq<Name>, n: Name)
    requires Bound(a, parent, name) == Some(x) && Emptied(a, c, x, done) && Pruned(c, b, x, n)
    ensures Pruned(a, b, parent, name)
  {
    forall d: Ino, m: Name
      ensures Bound(b, d, m) == Bound(a, d, m) || (Bound(b, d, m) == None && InTree(a, parent, name, d, m))
    {
      if Bound(c, d, m) != Bound(a, d, m) {
        var w :| w in done && InTree(a, x, w, d, m);
        InsideParent(a, parent, name, x, w, d, m);
      } else if Bound(b, d, m) != Bound(c, d, m) {
        if d == x && m == n {
          ReachSelf(a, x);
        } else {
          var child := Bound(c, x, n).value;
          assert Bound(a, x, n) == Some(child);
          var p :| Lookup(c, child, p) == Some(d);
          LookupShrunk(a, c, child, p);
          InsideParent(a, parent, name, x, n, d, m);
        }
      }
    }
  }

  lemma InsideParent(a: Fs, parent: Ino, name: Name, x: Ino, w: Name, d: Ino, m: Name)
    requires Bound(a, parent, name) == Some(x) && InTree(a, x, w, d, m)
    ensures InTree(a, parent, name, d, m)
  {
    if d == x && m == w {
      ReachSelf(a, x);
    } else {
      LookupLast(a, x, [], w);
      assert [] + [w] == [w];
      ReachTrans(a, x, [w], Bound(a, x, w).value, d);
    }
  }

  lemma PrunedRefl(a: Fs, parent: Ino, name: Name)
    ensures Pruned(a, a, parent, name)
  {
  }

  /** The directories at and below what is named. */
  ghost function TreeOf(fs: Fs, dir: Ino, name: Name): set<Ino> {
    if Bound(fs, dir, name).Some? then set d | d in Subtree(fs, Bound(fs, dir, name).value) && IsDir(fs, d) else {}
  }

  lemma PrunedTouch(a: Fs, b: Fs, parent: Ino, name: Name)
    requires Pruned(a, b, parent, name)
    ensures Touch(a, b, {parent} + TreeOf(a, parent, name))
  {
    var e := {parent} + TreeOf(a, parent, name);
    forall i: Ino | i in a.nodes && i !in e ensures SameBody(a.nodes[i], b.nodes[i]) {
      if IsDir(a, i) {
        forall n: Name ensures Bound(b, i, n) == Bound(a, i, n) { assert InTree(a, parent, name, i, n) ==> i in e; }
        EntriesEqual(a, b, i);
      }
    }
  }

  /** With every entry of `x` gone, cutting the last entry removes exactly the tree. */
  lemma LastCut(a: Fs, c: Fs, b: Fs, parent: Ino, name: Name, x: Ino, done: seq<Name>)
    requires ValidFs(a) && Bound(a, parent, name) == Some(x) && IsDir(a, x)
    requires forall n :: n in done <==> Bound(a, x, n).Some?
    requires Emptied(a, c, x, done) && Rebound(c, b, parent, name, None) && OnlyEntries(c, b)
    ensures Removed(a, b, parent, name)
  {
    forall d: Ino, m: Name ensures Bound(b, d, m) == if InTree(a, parent, name, d, m) then None else Bound(a, d, m) {
      if InTrees(a, x, done, d, m) {
        var w :| w in done && InTree(a, x, w, d, m);
        InsideParent(a, parent, name, x, w, d, m);
      } else if Reach(a, x, d) && Bound(a, d, m).Some? {
        var p :| Lookup(a, x, p) == Some(d);
        if p != [] {
          assert Lookup(a, Bound(a, x, p[0]).value, p[1..]) == Some(d);
          assert p[0] in done && InTree(a, x, p[0], d, m);
        }
      }
    }
  }

  /** The `k`-th entry of `x`, itself the entry `name` of `parent` in state `a`: a directory goes as a tree, anything
      else is unlinked. */
  method RemoveChild(fs: FileSystem, ghost a: Fs, ghost s: Shape, ghost parent: Ino, ghost name: Name, x: Ino,
                     names: seq<Name>, k: nat)
    returns (r: Result<(), Errno>)
    requires fs.Valid() && ValidFs(a) && Shaped(fs.st, s) && k < |names|
    requires Bound(a, parent, name) == Some(x) && IsDir(a, x) && Bound(a, x, names[k]).Some? && names[k] !in names[..k]
    requires Emptied(a, fs.st, x, names[..k])
    modifies fs
    ensures fs.Ran() && Shaped(fs.st, s) && Pruned(a, fs.st, parent, name)
    ensures forall j :: old(|fs.history|) <= j < |fs.history| ==> Pruned(a, fs.history[j], parent, name)
    ensures r.Ok? ==> Emptied(a, fs.st, x, names[..k + 1])
    ensures r.Err? ==> fs.faults > old(fs.faults)
    ensures r.Ok? ==> fs.faults == old(fs.faults)
    decreases s.height(x), 1
  {
    hide ValidFs, Pruned, Removed, Emptied, Reach, InTree;
    ghost var c, n := fs.st, names[k];
    StillThere(a, c, x, names[..k], n);
    forall b: Fs | Pruned(c, b, x, n)
      ensures Pruned(a, b, parent, name)
    {
      PrunedInside(a, c, b, parent, name, x, names[..k], n);
    }
    PrunedRefl(c, x, n);
    var reported: bool := *;
    if !reported {
      var stat := fs.Stat(x, names[k]);
      if stat.Err? { return Err(stat.error); }
    }
    if IsDir(fs.st, Bound(fs.st, x, names[k]).value) {
      r := RemoveTreeIn(fs, x, names[k], s);
    } else {
      r := fs.UnlinkAt(x, names[k]);
      if r.Ok? { CutLeaf(c, fs.st, x, n, s); }
    }
    if r.Ok? {
      EmptiedMore(a, c, fs.st, x, names[..k], n);
      assert names[..k] + [n] == names[..k + 1];
    }
  }

  lemma StillThere(a: Fs, c: Fs, x: Ino, done: seq<Name>, n: Name)
    requires ValidFs(a) && IsDir(a, x) && Emptied(a, c, x, done) && n !in done && Bound(a, x, n).Some?
    ensures IsDir(c, x) && Bound(c, x, n) == Bound(a, x, n)
  {
    if InTrees(a, x, done, x, n) {
      var w :| w in done && InTree(a, x, w, x, n);
      Siblings(a, x, n, w, x);
    }
  }

  /** Unlinking a leaf removes exactly its one-entry tree. */
  lemma CutLeaf(c: Fs, b: Fs, x: Ino, n: Name, s: Shape)
    requires ValidFs(c) && Shaped(c, s) && Unlink(c, x, n) == Ok(b)
    ensures Removed(c, b, x, n) && Pruned(c, b, x, n) && Shaped(b, s)
  {
    CutStep(c, x, n);
    var leaf := Bound(c, x, n).value;
    forall d: Ino, m: Name | InTree(c, x, n, d, m) && !(d == x && m == n) ensures Bound(c, d, m) == None {
      var p :| Lookup(c, leaf, p) == Some(d);
      LookupLeaf(c, leaf, p);
    }
  }

  lemma CutDir(a: Fs, c: Fs, b: Fs, parent: Ino, name: Name, x: Ino, done: seq<Name>, s: Shape)
    requires ValidFs(a) && Bound(a, parent, name) == Some(x) && IsDir(a, x)
    requires forall n :: n in done <==> Bound(a, x, n).Some?
    requires Emptied(a, c, x, done) && ValidFs(c) && Shaped(c, s) && Rmdir(c, parent, name) == Ok(b)
    ensures Removed(a, b, parent, name) && Pruned(a, b, parent, name) && Shaped(b, s)
  {
    CutStep(c, parent, name);
    LastCut(a, c, b, parent, name, x, done);
    ShapeShrunk(c, b, s);
  }

  /** Once all its entries are gone the directory can go: it is empty and still named where it was. */
  lemma ReadyToGo(a: Fs, c: Fs, parent: Ino, name: Name, x: Ino, done: seq<Name>)
    requires ValidFs(a) && Bound(a, parent, name) == Some(x) && IsDir(a, x)
    requires forall n :: n in done <==> Bound(a, x, n).Some?
    requires Emptied(a, c, x, done)
    ensures Rmdir(c, parent, name).Ok?
  {
    if InTrees(a, x, done, parent, name) {
      var w :| w in done && InTree(a, x, w, parent, name);
      if !(parent == x && name == w) {
        ReachStep(a, Bound(a, x, w).value, parent, name);
        Siblings(a, x, w, w, x);
      }
    }
    forall n: Name ensures Bound(c, x, n) == None {
      if n in done { assert InTree(a, x, n, x, n); }
    }
    assert c.nodes[x].entries == map[] by {
      forall n: Name ensures n !in c.nodes[x].entries { assert Bound(c, x, n) == None; }
    }
  }

  /** Unbinds every name in the subtree, leaves first, and last the one it hangs on. */
  method RemoveTreeIn(fs: FileSystem, parent: Ino, name: Name, ghost s: Shape) returns (r: Result<(), Errno>)
    requires fs.Valid() && Shaped(fs.st, s)
    modifies fs
    ensures fs.Ran() && Shaped(fs.st, s) && Pruned(old(fs.st), fs.st, parent, name)
    ensures forall k :: old(|fs.history|) <= k < |fs.history| ==> Pruned(old(fs.st), fs.history[k], parent, name)
    ensures r.Ok? ==> Removed(old(fs.st), fs.st, parent, name)
    ensures r.Ok? ==> Bound(old(fs.st), parent, name).Some? && IsDir(old(fs.st), Bound(old(fs.st), parent, name).value)
    ensures r.Err? && fs.faults == old(fs.faults) ==>
      fs.st == old(fs.st) && OpenDir(fs.st, parent, name) == Err(r.error)
    ensures OpenDir(old(fs.st), parent, name).Err? ==> fs.Looked()
    ensures r.Ok? ==> fs.faults == old(fs.faults)
    decreases s.height(parent), 0
  {
    hide ValidFs, Pruned, Removed, Emptied, Reach, InTree, Tree, Bound;
    ghost var a := fs.st;
    PrunedRefl(a, parent, name);
    EmptiedNone(a);
    var dir := fs.OpenDirAt(parent, name);
    if dir.Err? { return Err(dir.error); }
    var x := dir.value;
    var listed := fs.List(x);
    if listed.Err? { return Err(listed.error); }
    var names, k := listed.value, 0;
    assert names[..0] == [];
    while k < |names|
      invariant k <= |names| && fs.Ran() && Shaped(fs.st, s) && Emptied(a, fs.st, x, names[..k])
      invariant fs.faults == old(fs.faults)
      invariant Pruned(a, fs.st, parent, name)
      invariant forall j :: old(|fs.history|) <= j < |fs.history| ==> Pruned(a, fs.history[j], parent, name)
    {
      assert names[k] in names;
      r := RemoveChild(fs, a, s, parent, name, x, names, k);
      if r.Err? { return; }
      k := k + 1;
    }
    assert names[..k] == names;
    ghost var c := fs.st;
    ReadyToGo(a, c, parent, name, x, names);
    r := fs.RmdirAt(parent, name);
    if r.Ok? { CutDir(a, c, fs.st, parent, name, x, names, s); }
  }

  lemma EmptiedNone(a: Fs)
    ensures forall x: Ino :: Emptied(a, a, x, [])
  {
  }

  method RemoveTree(fs: FileSystem, parent: Ino, name: Name) returns (r: Result<(), Errno>)
    requires fs.Valid()
    modifies fs
    ensures fs.Ran() && Pruned(old(fs.st), fs.st, parent, name)
    ensures forall k :: old(|fs.history|) <= k < |fs.history| ==> Pruned(old(fs.st), fs.history[k], parent, name)
    ensures r.Ok? ==> Removed(old(fs.st), fs.st, parent, name)
    ensures r.Ok? ==> OpenDir(old(fs.st), parent, name).Ok?
    ensures r.Err? && fs.faults == old(fs.faults) ==>
      fs.st == old(fs.st) && OpenDir(fs.st, parent, name) == Err(r.error)
    ensures OpenDir(old(fs.st), parent, name).Err? ==> fs.Looked()
    ensures r.Ok? ==> fs.faults == old(fs.faults)
  {
    ghost var s :| Shaped(fs.st, s);
    r := RemoveTreeIn(fs, parent, name, s);
  }

  // ------------------------------------------------------------------ re-owning

  /** The filesystem with every inode of `s` handed to root. */
  ghost function Handed(a: Fs, s: set<Ino>): Fs {
    Fs(map i | i in a.nodes :: if i in s then a.nodes[i].(meta := a.nodes[i].meta.(uid := ROOT_UID)) else a.nodes[i],
       a.next)
  }

  /** What a walk over `x` must hand over: everything at or below it owned by `uid`, but no non-directory with another
      name. */
  ghost function Owed(a: Fs, x: Ino, uid: nat): set<Ino> {
    set i | i in a.nodes.Keys && Reach(a, x, i) && a.nodes[i].meta.uid == uid && (IsDir(a, i) || |Links(a, i)| == 1)
  }

  /** What the walks over the entries `done` of `x` hand over. */
  ghost function OwedBy(a: Fs, x: Ino, done: seq<Name>, uid: nat): set<Ino> {
    set i |
      i in a.nodes.Keys && exists n :: n in done && Bound(a, x, n).Some? && i in Owed(a, Bound(a, x, n).value, uid)
  }

  /** Some part of what is owed has been handed over. */
  ghost predicate PartHanded(a: Fs, b: Fs, owed: set<Ino>) {
    exists s :: s <= owed && b == Handed(a, s)
  }

  lemma HandedBodies(a: Fs, s: set<Ino>)
    ensures forall d: Ino, n: Name :: Bound(Handed(a, s), d, n) == Bound(a, d, n)
    ensures forall i: Ino :: Links(Handed(a, s), i) == Links(a, i)
    ensures Handed(a, s).nodes.Keys == a.nodes.Keys && forall i: Ino :: IsDir(Handed(a, s), i) <==> IsDir(a, i)
    ensures forall x: Ino, p: Path :: Lookup(Handed(a, s), x, p) == Lookup(a, x, p)
  {
    var b := Handed(a, s);
    forall i: Ino ensures Links(b, i) == Links(a, i) { LinksSame(a, b, i); }
    forall x: Ino, p: Path ensures Lookup(b, x, p) == Lookup(a, x, p) { LookupSame(a, b, x, p); }
  }

  lemma HandedNames(a: Fs, s: set<Ino>, d: Ino)
    ensures IsDir(Handed(a, s), d) <==> IsDir(a, d)
    ensures forall n: Name :: Bound(Handed(a, s), d, n) == Bound(a, d, n)
  {
  }

  lemma LinksSame(a: Fs, b: Fs, i: Ino)
    requires forall d: Ino, n: Name :: Bound(b, d, n) == Bound(a, d, n)
    ensures Links(b, i) == Links(a, i)
  {
    forall d: Ino, n: Name ensures (d, n) in Links(a, i) <==> (d, n) in Links(b, i) {
      assert (d, n) in Links(a, i) <==> Bound(a, d, n) == Some(i);
      assert (d, n) in Links(b, i) <==> Bound(b, d, n) == Some(i);
    }
  }

  lemma SameReach(a: Fs, s: set<Ino>, x: Ino)
    ensures forall i: Ino :: Reach(Handed(a, s), x, i) <==> Reach(a, x, i)
  {
    var b := Handed(a, s);
    HandedBodies(a, s);
    forall i: Ino ensures Reach(b, x, i) <==> Reach(a, x, i) {
      if Reach(b, x, i) { var p :| Lookup(b, x, p) == Some(i); assert Lookup(a, x, p) == Some(i); }
      if Reach(a, x, i) { var p :| Lookup(a, x, p) == Some(i); assert Lookup(b, x, p) == Some(i); }
    }
  }

  /** What is still owed after part of it was handed over. */
  lemma OwedLeft(a: Fs, s: set<Ino>, x: Ino, uid: nat)
    requires uid != ROOT_UID
    ensures Owed(Handed(a, s), x, uid) == Owed(a, x, uid) - s
  {
    HandedBodies(a, s);
    SameReach(a, s, x);
  }

  /** Handing the account's own inodes over changes nothing that is owed elsewhere; root handing to root changes
      nothing at all. */
  lemma OwedElsewhere(a: Fs, s: set<Ino>, x: Ino, uid: nat)
    requires (forall i: Ino :: i in s && i in a.nodes ==> a.nodes[i].meta.uid == uid) && s !! Owed(a, x, uid)
    ensures Owed(Handed(a, s), x, uid) == Owed(a, x, uid)
  {
    if uid == ROOT_UID {
      OwnHanded(a, s, uid);
    } else {
      OwedLeft(a, s, x, uid);
    }
  }

  lemma OwnHanded(a: Fs, s: set<Ino>, uid: nat)
    requires uid == ROOT_UID && forall i: Ino :: i in s && i in a.nodes ==> a.nodes[i].meta.uid == uid
    ensures Handed(a, s) == a
  {
    assert Handed(a, s).nodes == a.nodes;
  }

  lemma OwedAreOwned(a: Fs, x: Ino, names: seq<Name>, uid: nat)
    ensures forall i: Ino :: i in Owed(a, x, uid) || i in OwedBy(a, x, names, uid) ==>
      i in a.nodes && a.nodes[i].meta.uid == uid
  {
  }

  /** The last entry on the way to an inode from `x`. */
  lemma WayIn(a: Fs, x: Ino, n: Name, i: Ino) returns (d: Ino, m: Name)
    requires Bound(a, x, n).Some? && Reach(a, Bound(a, x, n).value, i)
    ensures Bound(a, d, m) == Some(i)
    ensures (d == x && m == n) || (IsDir(a, d) && Reach(a, Bound(a, x, n).value, d))
  {
    var child := Bound(a, x, n).value;
    var p := PathTo(a, child, i);
    if p == [] {
      d, m := x, n;
    } else {
      assert p == p[..|p| - 1] + [p[|p| - 1]];
      LookupLast(a, child, p[..|p| - 1], p[|p| - 1]);
      d, m := Lookup(a, child, p[..|p| - 1]).value, p[|p| - 1];
    }
  }

  /** Different entries of a directory owe different inodes: they share no directory, and what has one name has one
      way in. */
  lemma OwedApart(a: Fs, x: Ino, m: Name, n: Name, uid: nat)
    requires ValidFs(a) && m != n && Bound(a, x, m).Some? && Bound(a, x, n).Some?
    ensures Owed(a, Bound(a, x, m).value, uid) !! Owed(a, Bound(a, x, n).value, uid)
  {
    forall i: Ino | i in Owed(a, Bound(a, x, m).value, uid) ensures i !in Owed(a, Bound(a, x, n).value, uid) {
      if i in Owed(a, Bound(a, x, n).value, uid) {
        if IsDir(a, i) {
          Siblings(a, x, m, n, i);
        } else {
          var d, k := WayIn(a, x, m, i);
          var e, l := WayIn(a, x, n, i);
          OneWay(a, i, d, k, e, l);
          if d != x { Siblings(a, x, n, m, d); } else if e != x { Siblings(a, x, m, n, e); }
          if (d == x && k == m) && !(e == x && l == n) { Siblings(a, x, m, n, e); }
          if !(d == x && k == m) { Siblings(a, x, n, m, d); }
        }
      }
    }
  }

  lemma OneWay(a: Fs, i: Ino, d: Ino, k: Name, e: Ino, l: Name)
    requires |Links(a, i)| == 1 && Bound(a, d, k) == Some(i) && Bound(a, e, l) == Some(i)
    ensures d == e && k == l
  {
    assert (d, k) in Links(a, i) && (e, l) in Links(a, i);
    assert |Links(a, i) - {(d, k)}| == 0;
    assert (e, l) in Links(a, i) - {(d, k)} || (e, l) == (d, k);
  }

  /** A directory is not owed below one of its own entries. */
  lemma OwnApart(a: Fs, x: Ino, n: Name, uid: nat)
    requires ValidFs(a) && IsDir(a, x) && Bound(a, x, n).Some?
    ensures x !in Owed(a, Bound(a, x, n).value, uid)
  {
    if x in Owed(a, Bound(a, x, n).value, uid) { Siblings(a, x, n, n, x); }
  }

  lemma HandedMore(a: Fs, s: set<Ino>, t: set<Ino>)
    ensures Handed(Handed(a, s), t) == Handed(a, s + t)
  {
  }

  lemma HandedNone(a: Fs)
    ensures Handed(a, {}) == a
  {
    assert Handed(a, {}).nodes == a.nodes;
  }

  lemma HandedOne(a: Fs, s: set<Ino>, i: Ino)
    requires i in a.nodes
    ensures SetMeta(Handed(a, s), i, Handed(a, s).nodes[i].meta.(uid := ROOT_UID)) == Handed(a, s + {i})
  {
    assert SetMeta(Handed(a, s), i, Handed(a, s).nodes[i].meta.(uid := ROOT_UID)).nodes == Handed(a, s + {i}).nodes;
  }

  /** A directory owes itself if the account owns it, and what its entries owe. */
  lemma OwedDir(a: Fs, x: Ino, names: seq<Name>, uid: nat)
    requires ValidFs(a) && IsDir(a, x) && forall n :: n in names <==> Bound(a, x, n).Some?
    ensures Owed(a, x, uid) == (if a.nodes[x].meta.uid == uid then {x} else {}) + OwedBy(a, x, names, uid)
  {
    ReachSelf(a, x);
    forall i: Ino | i in Owed(a, x, uid) && i != x ensures i in OwedBy(a, x, names, uid) {
      var p :| Lookup(a, x, p) == Some(i);
      assert Bound(a, x, p[0]).Some? && Lookup(a, Bound(a, x, p[0]).value, p[1..]) == Some(i);
      assert p[0] in names && i in Owed(a, Bound(a, x, p[0]).value, uid);
    }
    forall i: Ino | i in OwedBy(a, x, names, uid) ensures i in Owed(a, x, uid) {
      var n :| n in names && Bound(a, x, n).Some? && i in Owed(a, Bound(a, x, n).value, uid);
      LookupLast(a, x, [], n);
      assert [] + [n] == [n];
      ReachTrans(a, x, [n], Bound(a, x, n).value, i);
    }
  }

  lemma OwedByMore(a: Fs, x: Ino, done: seq<Name>, n: Name, uid: nat)
    requires Bound(a, x, n).Some?
    ensures OwedBy(a, x, done + [n], uid) == OwedBy(a, x, done, uid) + Owed(a, Bound(a, x, n).value, uid)
  {
    forall i: Ino | i in Owed(a, Bound(a, x, n).value, uid)
      ensures i in OwedBy(a, x, done + [n], uid)
    {
      assert n in done + [n];
    }
    forall i: Ino | i in OwedBy(a, x, done, uid) ensures i in OwedBy(a, x, done + [n], uid) {
      var m :| m in done && Bound(a, x, m).Some? && i in Owed(a, Bound(a, x, m).value, uid);
      assert m in done + [n];
    }
  }

  /** A leaf owes at most itself. */
  lemma OwedLeaf(a: Fs, x: Ino, uid: nat)
    requires x in a.nodes && !IsDir(a, x)
    ensures Owed(a, x, uid) == if a.nodes[x].meta.uid == uid && |Links(a, x)| == 1 then {x} else {}
  {
    ReachSelf(a, x);
    forall i: Ino | Reach(a, x, i) ensures i == x {
      var p :| Lookup(a, x, p) == Some(i);
      LookupLeaf(a, x, p);
    }
  }

  /** A leaf changes owner exactly if it is owed: it is the account's and this is the only name bound to it. What a
      symlink's target is plays no part. */
  method ReownEntry(fs: FileSystem, x: Ino, uid: nat) returns (r: Result<nat, Errno>)
    requires fs.Valid() && x in fs.st.nodes && !IsDir(fs.st, x)
    modifies fs
    ensures fs.Ran() && (r.Err? ==> fs.st == old(fs.st) && fs.faults > old(fs.faults))
    ensures forall k :: old(|fs.history|) <= k < |fs.history| ==>
      PartHanded(old(fs.st), fs.history[k], Owed(old(fs.st), x, uid))
    ensures r.Ok? ==> fs.st == Handed(old(fs.st), Owed(old(fs.st), x, uid)) && r.value == |Owed(old(fs.st), x, uid)|
    ensures r.Ok? ==> fs.faults == old(fs.faults)
  {
    hide ValidFs, Reach, Links, Owed;
    ghost var a := fs.st;
    HandedNone(a);
    OwedLeaf(a, x, uid);
    if fs.st.nodes[x].meta.uid != uid || |Links(fs.st, x)| != 1 { return Ok(0); }
    var own := fs.Chown(x, ROOT_UID);
    if own.Err? { return Err(own.error); }
    HandedOne(a, {}, x);
    assert {} + {x} == Owed(a, x, uid);
    r := Ok(1);
  }

  /** A directory changes owner exactly if its inode is the account's. */
  method ReownDir(fs: FileSystem, d: Ino, uid: nat) returns (r: Result<nat, Errno>)
    requires fs.Valid() && IsDir(fs.st, d)
    modifies fs
    ensures fs.Ran() && (r.Err? ==> fs.st == old(fs.st) && fs.faults > old(fs.faults))
    ensures r.Err? ==> fs.history == old(fs.history)
    ensures r.Ok? ==> fs.st == Handed(old(fs.st), if old(fs.st).nodes[d].meta.uid == uid then {d} else {})
    ensures r.Ok? ==> r.value == if old(fs.st).nodes[d].meta.uid == uid then 1 else 0
    ensures r.Ok? ==> forall k :: old(|fs.history|) <= k < |fs.history| ==> fs.history[k] == fs.st
    ensures r.Ok? ==> fs.faults == old(fs.faults)
  {
    hide ValidFs;
    ghost var a := fs.st;
    HandedNone(a);
    var look := fs.Attempt();
    if look.Err? { return Err(look.error); }
    if fs.st.nodes[d].meta.uid != uid { return Ok(0); }
    var own := fs.Chown(d, ROOT_UID);
    if own.Err? { return Err(own.error); }
    HandedOne(a, {}, d);
    assert {} + {d} == {d};
    r := Ok(1);
  }

  /** What `child` owes is part of `owed` and was not handed over before; what was belonged to the account. */
  ghost predicate NextOwed(a: Fs, handed: set<Ino>, owed: set<Ino>, child: Ino, uid: nat) {
    && handed <= owed && Owed(a, child, uid) <= owed && handed !! Owed(a, child, uid)
    && forall i: Ino :: i in handed && i in a.nodes ==> a.nodes[i].meta.uid == uid
  }

  /** One entry of directory `x`, after `handed` (part of what `a` owes) was handed over. */
  method ReownChild(fs: FileSystem, ghost a: Fs, ghost handed: set<Ino>, ghost owed: set<Ino>, x: Ino, name: Name,
                    uid: nat, ghost s: Shape)
    returns (r: Result<nat, Errno>)
    requires fs.Valid() && Shaped(a, s) && Bound(a, x, name).Some?
    requires fs.st == Handed(a, handed) && NextOwed(a, handed, owed, Bound(a, x, name).value, uid)
    modifies fs
    ensures fs.Ran() && (r.Err? ==> fs.faults > old(fs.faults))
    ensures PartHanded(a, fs.st, owed)
    ensures forall k :: old(|fs.history|) <= k < |fs.history| ==> PartHanded(a, fs.history[k], owed)
    ensures r.Ok? ==> fs.st == Handed(a, handed + Owed(a, Bound(a, x, name).value, uid))
    ensures r.Ok? ==> r.value == |handed + Owed(a, Bound(a, x, name).value, uid)| - |handed|
    ensures r.Ok? ==> fs.faults == old(fs.faults)
    decreases s.height(x), 1
  {
    hide ValidFs, Reach, Links, Owed, Handed;
    ghost var before, child := fs.st, Bound(a, x, name).value;
    HandedBodies(a, handed);
    ShapeHanded(a, handed, s);
    OwedElsewhere(a, handed, child, uid);
    ghost var more := Owed(before, child, uid);
    forall b: Fs | PartHanded(before, b, more) ensures PartHanded(a, b, owed) {
      var t :| t <= more && b == Handed(before, t);
      HandedMore(a, handed, t);
      assert handed + t <= owed;
    }
    r := ReownTreeIn(fs, x, name, uid, s);
    HandedMore(a, handed, more);
    assert handed + more == handed + Owed(a, child, uid);
    assert |handed + more| == |handed| + |more|;
  }

  /** The names in a directory, each once. */
  ghost predicate Listed(a: Fs, x: Ino, names: seq<Name>) {
    (forall n :: n in names <==> Bound(a, x, n).Some?) && forall i, j :: 0 <= i < j < |names| ==> names[i] != names[j]
  }

  /** What has been handed over once the directory itself and the first `k` entries are done. */
  ghost function DoneBy(a: Fs, x: Ino, names: seq<Name>, k: nat, uid: nat): set<Ino>
    requires IsDir(a, x) && k <= |names|
  {
    (if a.nodes[x].meta.uid == uid then {x} else {}) + OwedBy(a, x, names[..k], uid)
  }

  /** The walk through the entries of directory `x`, whoever owns it, after the directory itself. */
  method ReownChildren(fs: FileSystem, ghost a: Fs, x: Ino, names: seq<Name>, uid: nat, ghost s: Shape)
    returns (r: Result<nat, Errno>)
    requires fs.Valid() && ValidFs(a) && Shaped(a, s) && IsDir(a, x) && Listed(a, x, names)
    requires fs.st == Handed(a, DoneBy(a, x, names, 0, uid))
    modifies fs
    ensures fs.Ran() && (r.Err? ==> fs.faults > old(fs.faults)) && PartHanded(a, fs.st, Owed(a, x, uid))
    ensures forall k :: old(|fs.history|) <= k < |fs.history| ==> PartHanded(a, fs.history[k], Owed(a, x, uid))
    ensures r.Ok? ==>
      fs.st == Handed(a, Owed(a, x, uid)) && r.value == |Owed(a, x, uid)| - |DoneBy(a, x, names, 0, uid)|
    ensures r.Ok? ==> fs.faults == old(fs.faults)
    decreases s.height(x), 2
  {
    hide ValidFs, Reach, Links, Owed, OwedBy, Handed, PartHanded, NextOwed, Listed, IsDir, Shaped, DoneBy;
    var reowned, k := 0, 0;
    ghost var owed := Owed(a, x, uid);
    AllDone(a, x, names, uid);
    SomeHanded(a, DoneBy(a, x, names, 0, uid), owed);
    while k < |names|
      invariant k <= |names| && fs.Ran() && fs.st == Handed(a, DoneBy(a, x, names, k, uid))
      invariant fs.faults == old(fs.faults)
      invariant PartHanded(a, fs.st, owed)
      invariant reowned == |DoneBy(a, x, names, k, uid)| - |DoneBy(a, x, names, 0, uid)|
      invariant forall j :: old(|fs.history|) <= j < |fs.history| ==> PartHanded(a, fs.history[j], owed)
    {
      NextChild(a, x, names, k, uid);
      var more := ReownChild(fs, a, DoneBy(a, x, names, k, uid), owed, x, names[k], uid, s);
      if more.Err? { return Err(more.error); }
      reowned := reowned + more.value;
      k := k + 1;
    }
    CardinalityOfPart(DoneBy(a, x, names, 0, uid), owed);
    r := Ok(reowned);
  }

  lemma AllDone(a: Fs, x: Ino, names: seq<Name>, uid: nat)
    requires ValidFs(a) && IsDir(a, x) && Listed(a, x, names)
    ensures DoneBy(a, x, names, |names|, uid) == Owed(a, x, uid) && DoneBy(a, x, names, 0, uid) <= Owed(a, x, uid)
    ensures DoneBy(a, x, names, 0, uid) == if a.nodes[x].meta.uid == uid then {x} else {}
  {
    OwedDir(a, x, names, uid);
    OwedByNone(a, x, uid);
    assert names[..|names|] == names && names[..0] == [];
  }

  /** The next entry of a directory, after those before it. */
  lemma NextChild(a: Fs, x: Ino, names: seq<Name>, k: nat, uid: nat)
    requires ValidFs(a) && IsDir(a, x) && k < |names| && Listed(a, x, names)
    ensures Bound(a, x, names[k]).Some?
    ensures NextOwed(a, DoneBy(a, x, names, k, uid), Owed(a, x, uid), Bound(a, x, names[k]).value, uid)
    ensures DoneBy(a, x, names, k + 1, uid) == DoneBy(a, x, names, k, uid) + Owed(a, Bound(a, x, names[k]).value, uid)
  {
    hide ValidFs, Owed;
    assert names[k] in names;
    OwedDir(a, x, names, uid);
    OwedByMore(a, x, names[..k], names[k], uid);
    assert names[..k] + [names[k]] == names[..k + 1];
    OwedByPart(a, x, names, names[k], uid);
    OwnApart(a, x, names[k], uid);
    OwedAreOwned(a, x, names[..k], uid);
    forall i: Ino | i in OwedBy(a, x, names[..k], uid)
      ensures i in OwedBy(a, x, names, uid) && i !in Owed(a, Bound(a, x, names[k]).value, uid)
    {
      var m :| m in names[..k] && Bound(a, x, m).Some? && i in Owed(a, Bound(a, x, m).value, uid);
      OwedApart(a, x, m, names[k], uid);
      assert m in names;
    }
  }

  lemma {:induction false} CardinalityOfPart(s: set<Ino>, t: set<Ino>)
    requires s <= t
    ensures |s| <= |t|
  {
    assert |t| == |s| + |t - s| by { assert t == s + (t - s); }
  }

  method ReownOpened(fs: FileSystem, x: Ino, uid: nat, ghost s: Shape) returns (r: Result<nat, Errno>)
    requires fs.Valid() && Shaped(fs.st, s) && IsDir(fs.st, x)
    modifies fs
    ensures fs.Ran() && (r.Err? ==> fs.faults > old(fs.faults))
    ensures PartHanded(old(fs.st), fs.st, Owed(old(fs.st), x, uid))
    ensures forall k :: old(|fs.history|) <= k < |fs.history| ==>
      PartHanded(old(fs.st), fs.history[k], Owed(old(fs.st), x, uid))
    ensures r.Ok? ==> fs.st == Handed(old(fs.st), Owed(old(fs.st), x, uid)) && r.value == |Owed(old(fs.st), x, uid)|
    ensures r.Ok? ==> fs.faults == old(fs.faults)
    decreases s.height(x), 3
  {
    hide ValidFs, Shaped, Reach, Links, Owed, OwedBy, Handed, PartHanded, DoneBy;
    ghost var a, owed := fs.st, Owed(fs.st, x, uid);
    NoneHanded(a, owed);
    OwedDirSelf(a, x, uid);
    ghost var own: set<Ino> := if a.nodes[x].meta.uid == uid then {x} else {};
    SomeHanded(a, own, owed);
    var first := ReownDir(fs, x, uid);
    if first.Err? { return Err(first.error); }
    HandedNames(a, own, x);
    var listed := fs.List(x);
    if listed.Err? { return Err(listed.error); }
    AllDone(a, x, listed.value, uid);
    var rest := ReownChildren(fs, a, x, listed.value, uid, s);
    if rest.Err? { return Err(rest.error); }
    r := Ok(first.value + rest.value);
  }

  /** What the walk from an entry owes; nothing if there is no such entry. */
  ghost function OwedAt(a: Fs, parent: Ino, name: Name, uid: nat): set<Ino> {
    if Bound(a, parent, name).Some? then Owed(a, Bound(a, parent, name).value, uid) else {}
  }

  /** The walk from one entry: what it names, and if that is a directory everything in it. */
  method ReownTreeIn(fs: FileSystem, parent: Ino, name: Name, uid: nat, ghost s: Shape) returns (r: Result<nat, Errno>)
    requires fs.Valid() && Shaped(fs.st, s)
    modifies fs
    ensures fs.Ran() && PartHanded(old(fs.st), fs.st, OwedAt(old(fs.st), parent, name, uid))
    ensures forall k :: old(|fs.history|) <= k < |fs.history| ==>
      PartHanded(old(fs.st), fs.history[k], OwedAt(old(fs.st), parent, name, uid))
    ensures r.Ok? ==>
      Bound(old(fs.st), parent, name).Some? && fs.st == Handed(old(fs.st), OwedAt(old(fs.st), parent, name, uid))
    ensures r.Ok? ==> r.value == |OwedAt(old(fs.st), parent, name, uid)|
    ensures r.Err? ==> fs.faults > old(fs.faults) || Bound(old(fs.st), parent, name) == None
    ensures r.Ok? ==> fs.faults == old(fs.faults)
    decreases s.height(parent), 0
  {
    hide ValidFs, Shaped, Links, Owed, OwedBy, Handed, PartHanded;
    ghost var a := fs.st;
    ghost var owed := OwedAt(a, parent, name, uid);
    NoneHanded(a, owed);
    var stat := fs.Stat(parent, name);
    if stat.Err? { return Err(stat.error); }
    NamedExists(a, parent, name);
    if !IsDir(fs.st, stat.value) {
      r := ReownEntry(fs, stat.value, uid);
      AllHanded(a, owed);
      return;
    }
    NamedDir(a, s, parent, name);
    var dir := fs.OpenDirAt(parent, name);
    if dir.Err? { return Err(dir.error); }
    r := ReownOpened(fs, dir.value, uid, s);
  }

  lemma NoneHanded(a: Fs, owed: set<Ino>)
    ensures PartHanded(a, a, owed)
  {
    HandedNone(a);
    SomeHanded(a, {}, owed);
  }

  lemma AllHanded(a: Fs, owed: set<Ino>)
    ensures PartHanded(a, Handed(a, owed), owed)
  {
  }

  lemma SomeHanded(a: Fs, s: set<Ino>, owed: set<Ino>)
    ensures s <= owed ==> PartHanded(a, Handed(a, s), owed)
  {
  }

  lemma NamedExists(a: Fs, parent: Ino, name: Name)
    requires ValidFs(a) && Bound(a, parent, name).Some?
    ensures Bound(a, parent, name).value in a.nodes
  {
  }

  lemma NamedDir(a: Fs, s: Shape, parent: Ino, name: Name)
    requires Shaped(a, s) && Bound(a, parent, name).Some? && IsDir(a, Bound(a, parent, name).value)
    ensures s.height(Bound(a, parent, name).value) < s.height(parent)
  {
  }

  lemma OwedDirSelf(a: Fs, x: Ino, uid: nat)
    requires IsDir(a, x)
    ensures x in Owed(a, x, uid) <==> a.nodes[x].meta.uid == uid
  {
    ReachSelf(a, x);
  }

  lemma OwedByNone(a: Fs, x: Ino, uid: nat)
    ensures OwedBy(a, x, [], uid) == {}
  {
  }

  lemma OwedByPart(a: Fs, x: Ino, names: seq<Name>, n: Name, uid: nat)
    requires n in names && Bound(a, x, n).Some?
    ensures Owed(a, Bound(a, x, n).value, uid) <= OwedBy(a, x, names, uid)
  {
  }

  lemma ShapeHanded(a: Fs, handed: set<Ino>, s: Shape)
    requires Shaped(a, s)
    ensures Shaped(Handed(a, handed), s)
  {
    HandedBodies(a, handed);
    assert forall i: Ino :: IsDir(Handed(a, handed), i) <==> IsDir(a, i);
  }

  method ReownTree(fs: FileSystem, parent: Ino, name: Name, uid: nat) returns (r: Result<nat, Errno>)
    requires fs.Valid()
    modifies fs
    ensures fs.Ran() && PartHanded(old(fs.st), fs.st, OwedAt(old(fs.st), parent, name, uid))
    ensures forall k :: old(|fs.history|) <= k < |fs.history| ==>
      PartHanded(old(fs.st), fs.history[k], OwedAt(old(fs.st), parent, name, uid))
    ensures r.Ok? ==>
      && fs.st == Handed(old(fs.st), OwedAt(old(fs.st), parent, name, uid))
      && r.value == |OwedAt(old(fs.st), parent, name, uid)|
    ensures r.Ok? ==> fs.faults == old(fs.faults)
    ensures fs.faults == old(fs.faults) ==> (r.Ok? <==> Bound(old(fs.st), parent, name).Some?)
  {
    ghost var s :| Shaped(fs.st, s);
    r := ReownTreeIn(fs, parent, name, uid, s);
  }

  ghost predicate ManyNamed(fs: Fs, i: Ino) {
    !IsDir(fs, i) && |Links(fs, i)| != 1
  }

  /** After a complete walk for an account nothing at or below `x` is owned by it but multiply linked leaves. Nobody
      else's inode changed, and the count is the number of changed owners. A second walk finds nothing, unless the
      account is root itself, whose inodes are counted again and again without changing. */
  lemma ReownExact(a: Fs, x: Ino, uid: nat)
    ensures var b := Handed(a, Owed(a, x, uid));
      && (uid != ROOT_UID ==>
        forall i: Ino :: i in a.nodes && Reach(b, x, i) && b.nodes[i].meta.uid == uid ==> ManyNamed(b, i))
      && (forall i: Ino :: i in a.nodes && !(Reach(a, x, i) && a.nodes[i].meta.uid == uid) ==> b.nodes[i] == a.nodes[i])
      && (set i | i in a.nodes.Keys && b.nodes[i].meta.uid != a.nodes[i].meta.uid) ==
        (if uid == ROOT_UID then {} else Owed(a, x, uid))
      && (Owed(b, x, uid) == {} <==> uid != ROOT_UID || Owed(a, x, uid) == {})
      && (uid == ROOT_UID ==> b == a)
  {
    if uid == ROOT_UID {
      OwnHanded(a, Owed(a, x, uid), uid);
    } else {
      OwedLeft(a, Owed(a, x, uid), x, uid);
      HandedBodies(a, Owed(a, x, uid));
    }
  }

  /** The path uses an entry of the tree at `(parent, name)`. */
  ghost predicate Through(a: Fs, parent: Ino, name: Name, r: Ino, q: Path) {
    exists k: nat :: ThroughAt(a, parent, name, r, q, k)
  }

  ghost predicate ThroughAt(a: Fs, parent: Ino, name: Name, r: Ino, q: Path, k: nat) {
    k < |q| && Lookup(a, r, q[..k]).Some? && InTree(a, parent, name, Lookup(a, r, q[..k]).value, q[k])
  }

  lemma ThroughNone(a: Fs, parent: Ino, name: Name, r: Ino)
    ensures !Through(a, parent, name, r, [])
  {
  }

  lemma ThroughLast(a: Fs, parent: Ino, name: Name, r: Ino, q0: Path, m: Name)
    requires Lookup(a, r, q0).Some?
    ensures Through(a, parent, name, r, q0 + [m]) <==>
      Through(a, parent, name, r, q0) || InTree(a, parent, name, Lookup(a, r, q0).value, m)
  {
    hide Lookup, InTree, Reach;
    var q := q0 + [m];
    assert q[..|q0|] == q0 && q[|q0|] == m;
    forall k: nat | k < |q0| ensures q[..k] == q0[..k] && q[k] == q0[k] { }
    if Through(a, parent, name, r, q0) {
      var k: nat :| ThroughAt(a, parent, name, r, q0, k);
      assert ThroughAt(a, parent, name, r, q, k);
    }
    if Through(a, parent, name, r, q) {
      var k: nat :| ThroughAt(a, parent, name, r, q, k);
      if k < |q0| { assert ThroughAt(a, parent, name, r, q0, k); }
    }
    if InTree(a, parent, name, Lookup(a, r, q0).value, m) { assert ThroughAt(a, parent, name, r, q, |q0|); }
  }

  /** A complete removal cuts the tree out and nothing else: from anywhere, a path resolves to what it did
      before exactly when it does not lead through an entry of that tree, and to nothing otherwise. */
  lemma {:induction false} RemoveExact(a: Fs, b: Fs, parent: Ino, name: Name, r: Ino, q: Path)
    requires Removed(a, b, parent, name) && Lookup(a, r, q).Some?
    ensures Lookup(b, r, q) == if Through(a, parent, name, r, q) then None else Lookup(a, r, q)
    decreases |q|
  {
    hide Reach, InTree, Through, OnlyEntries;
    if q == [] {
      ThroughNone(a, parent, name, r);
    } else {
      var q0, m := q[..|q| - 1], q[|q| - 1];
      assert q == q0 + [m];
      PrefixIsDir(a, r, q, |q0|);
      LookupLast(a, r, q0, m);
      LookupLast(b, r, q0, m);
      RemoveExact(a, b, parent, name, r, q0);
      ThroughLast(a, parent, name, r, q0, m);
    }
  }
}
