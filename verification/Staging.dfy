/** Filling a staging directory: every copy is verified against the digest taken before anything was created. */
module Staging {
  import opened Kernel
  import opened Trees
  import opened Steps
  import opened Growth
  import opened FileSystems
  import opened Layout
  import opened Nofollow
  import opened TreeWalks
  import opened Identity

  function ParentOf(p: Path): Path
    requires p != []
  {
    p[..|p| - 1]
  }

  function NameOf(p: Path): Name
    requires p != []
  {
    p[|p| - 1]
  }

  /** A regular file with one name, at `path` below `r`, holding exactly `bytes`. */
  ghost predicate FileAt(fs: Fs, r: Ino, path: Path, bytes: Bytes) {
    path != [] && Lookup(fs, r, ParentOf(path)).Some? &&
    var d := Lookup(fs, r, ParentOf(path)).value;
    Bound(fs, d, NameOf(path)).Some? &&
    var f := Bound(fs, d, NameOf(path)).value;
    f in fs.nodes && fs.nodes[f].File? && fs.nodes[f].data == bytes && Links(fs, f) == {(d, NameOf(path))}
  }

  lemma LinksMember(fs: Fs, f: Ino, d: Ino, n: Name)
    ensures (d, n) in Links(fs, f) <==> Bound(fs, d, n) == Some(f)
  {
  }

  lemma LinksNoNew(a: Fs, b: Fs, f: Ino)
    requires NoNewLinks(a, b, f) && forall d: Ino, n: Name :: Bound(a, d, n) == Some(f) ==> Bound(b, d, n) == Some(f)
    ensures Links(b, f) == Links(a, f)
  {
    forall d: Ino, n: Name ensures (d, n) in Links(a, f) <==> (d, n) in Links(b, f) {
      LinksMember(a, f, d, n);
      LinksMember(b, f, d, n);
    }
  }

  lemma FileAtAdded(a: Fs, b: Fs, r: Ino, path: Path, bytes: Bytes)
    requires Added(a, b) && FileAt(a, r, path, bytes)
    ensures FileAt(b, r, path, bytes)
  {
    LookupAdded(a, b, r, ParentOf(path));
    var f := Bound(a, Lookup(a, r, ParentOf(path)).value, NameOf(path)).value;
    LinksNoNew(a, b, f);
  }

  lemma FileAtFrame(a: Fs, b: Fs, e: set<Ino>, r: Ino, path: Path, bytes: Bytes)
    requires ValidFs(a) && Touch(a, b, e) && r in a.nodes && forall i: Ino :: i in e ==> !Reach(a, r, i)
    requires FileAt(a, r, path, bytes)
    ensures FileAt(b, r, path, bytes)
  {
    var d := Lookup(a, r, ParentOf(path)).value;
    var f := Bound(a, d, NameOf(path)).value;
    LookupFrame(a, b, e, r, ParentOf(path));
    assert Reach(a, r, d);
    assert SameBody(a.nodes[d], b.nodes[d]);
    ReachStep(a, r, d, NameOf(path));
    assert SameBody(a.nodes[f], b.nodes[f]);
    LinksFrame(a, b, e, f, d, NameOf(path));
  }

  lemma LinksFrame(a: Fs, b: Fs, e: set<Ino>, f: Ino, d: Ino, n: Name)
    requires Touch(a, b, e) && f in a.nodes && Links(a, f) == {(d, n)} && d !in e && Bound(b, d, n) == Some(f)
    ensures Links(b, f) == {(d, n)}
  {
    forall x: Ino, m: Name ensures Bound(a, x, m) == Some(f) <==> (x, m) == (d, n) { LinksMember(a, f, x, m); }
    assert !BoundIn(a, e, f);
    assert NoNewLinks(a, b, f);
    forall x: Ino, m: Name ensures (x, m) in Links(b, f) <==> (x, m) == (d, n) { LinksMember(b, f, x, m); }
  }

  /** Owner and mode play no part in it. */
  lemma FileAtSame(a: Fs, b: Fs, r: Ino, path: Path, bytes: Bytes)
    requires FileAt(a, r, path, bytes)
    requires forall d: Ino, n: Name :: Bound(b, d, n) == Bound(a, d, n)
    requires forall i: Ino :: i in a.nodes ==> i in b.nodes && SameBody(a.nodes[i], b.nodes[i])
    ensures FileAt(b, r, path, bytes)
  {
    LookupSame(a, b, r, ParentOf(path));
    LinksSame(a, b, Bound(a, Lookup(a, r, ParentOf(path)).value, NameOf(path)).value);
  }

  /** The provenance marker is there; its text is known to be `text` if given (a write may go wrong unnoticed). */
  ghost predicate MarkerAt(fs: Fs, i: Ino, text: Option<Bytes>) {
    exists t :: FileAt(fs, i, [MIGRATED_FROM_FILE], t) && (text.Some? ==> t == text.value)
  }

  /** A planned file of that side, or a directory on the way to one. */
  ghost predicate Leads(plan: seq<Planned>, place: Place, p: Path) {
    exists k :: 0 <= k < |plan| && plan[k].place == place && p <= plan[k].rel
  }

  /** Nothing below `i` but what the plan puts there and, on the data side, the marker. */
  ghost predicate Tidy(fs: Fs, i: Ino, plan: seq<Planned>, place: Place) {
    forall p: Path :: p != [] && Lookup(fs, i, p).Some? ==>
      Leads(plan, place, p) || (place == Data && p == [MIGRATED_FROM_FILE])
  }

  /** A completely staged side: a directory whose planned files, and on the data side the marker, are all there, and
      nothing else is. */
  ghost predicate StagedOk(fs: Fs, i: Ino, plan: seq<Planned>, place: Place, marker: Option<Bytes>) {
    && IsDir(fs, i) && Tidy(fs, i, plan, place)
    && (forall k :: 0 <= k < |plan| && plan[k].place == place ==> FileAt(fs, i, plan[k].rel, plan[k].sha256.of))
    && (place == Data ==> MarkerAt(fs, i, marker))
  }

  /** The files belong to the account and are private to it, and so are the directory and those it holds. */
  ghost predicate OwnedBySide(fs: Fs, i: Ino, plan: seq<Planned>, place: Place, uid: nat) {
    && i in fs.nodes && fs.nodes[i].meta == Meta(uid, DIR_MODE)
    && (forall k :: 0 <= k < |plan| && plan[k].place == place ==> FileMeta(fs, i, plan[k].rel, uid))
    && (place == Data ==> FileMeta(fs, i, [MIGRATED_FROM_FILE], uid))
  }

  ghost predicate LeafMeta(fs: Fs, r: Ino, path: Path, uid: nat) {
    && Lookup(fs, r, path).Some? && Lookup(fs, r, path).value in fs.nodes
    && fs.nodes[Lookup(fs, r, path).value].meta == Meta(uid, FILE_MODE)
  }

  ghost predicate DirMeta(fs: Fs, r: Ino, path: Path, uid: nat) {
    && Lookup(fs, r, path).Some? && IsDir(fs, Lookup(fs, r, path).value)
    && fs.nodes[Lookup(fs, r, path).value].meta == Meta(uid, DIR_MODE)
  }

  /** The file at `path` and the directories on the way to it. */
  ghost predicate FileMeta(fs: Fs, r: Ino, path: Path, uid: nat) {
    LeafMeta(fs, r, path, uid) && forall j :: 0 < j < |path| ==> DirMeta(fs, r, path[..j], uid)
  }

  lemma StagedFrame(a: Fs, b: Fs, e: set<Ino>, i: Ino, plan: seq<Planned>, place: Place, marker: Option<Bytes>)
    requires ValidFs(a) && Touch(a, b, e) && forall x: Ino :: x in e ==> !Reach(a, i, x)
    requires StagedOk(a, i, plan, place, marker)
    ensures StagedOk(b, i, plan, place, marker)
  {
    hide FileAt, ValidFs, Reach, Lookup, Leads;
    forall p: Path ensures Lookup(b, i, p) == Lookup(a, i, p) { LookupFrame(a, b, e, i, p); }
    forall k | 0 <= k < |plan| && plan[k].place == place ensures FileAt(b, i, plan[k].rel, plan[k].sha256.of) {
      FileAtFrame(a, b, e, i, plan[k].rel, plan[k].sha256.of);
    }
    if place == Data {
      var t :| FileAt(a, i, [MIGRATED_FROM_FILE], t) && (marker.Some? ==> t == marker.value);
      FileAtFrame(a, b, e, i, [MIGRATED_FROM_FILE], t);
    }
  }

  /** The file or directory at `p` below `x` has the owner and mode it had. */
  ghost predicate MetaKept(a: Fs, b: Fs, x: Ino, p: Path) {
    Lookup(a, x, p).Some? && Lookup(a, x, p).value in a.nodes ==>
      Lookup(a, x, p).value in b.nodes && b.nodes[Lookup(a, x, p).value].meta == a.nodes[Lookup(a, x, p).value].meta
  }

  /** What makes up a complete side: the directory, the planned files with what leads to them, and the marker. */
  ghost predicate Part(plan: seq<Planned>, place: Place, p: Path) {
    p == [] || (place == Data && p == [MIGRATED_FROM_FILE]) || Leads(plan, place, p)
  }

  lemma OwnedFrame(a: Fs, b: Fs, e: set<Ino>, x: Ino, plan: seq<Planned>, place: Place, uid: nat)
    requires ValidFs(a) && Touch(a, b, e) && forall y: Ino :: y in e ==> !Reach(a, x, y)
    requires OwnedBySide(a, x, plan, place, uid) && forall p: Path :: Part(plan, place, p) ==> MetaKept(a, b, x, p)
    ensures OwnedBySide(b, x, plan, place, uid)
  {
    hide ValidFs, Reach, FileMeta;
    assert Lookup(a, x, []) == Some(x) && Part(plan, place, []);
    forall k | 0 <= k < |plan| && plan[k].place == place ensures FileMeta(b, x, plan[k].rel, uid) {
      forall p: Path | p <= plan[k].rel ensures MetaKept(a, b, x, p) {
        assert Leads(plan, place, p);
        assert Part(plan, place, p);
      }
      FileMetaFrame(a, b, e, x, plan[k].rel, uid);
    }
    if place == Data {
      forall p: Path | p <= [MIGRATED_FROM_FILE] ensures MetaKept(a, b, x, p) {
        assert |p| == 0 || |p| == 1;
        assert Part(plan, place, p);
      }
      FileMetaFrame(a, b, e, x, [MIGRATED_FROM_FILE], uid);
    }
  }

  lemma FileMetaFrame(a: Fs, b: Fs, e: set<Ino>, x: Ino, path: Path, uid: nat)
    requires ValidFs(a) && Touch(a, b, e) && x in a.nodes && forall y: Ino :: y in e ==> !Reach(a, x, y)
    requires FileMeta(a, x, path, uid) && forall p: Path :: p <= path ==> MetaKept(a, b, x, p)
    ensures FileMeta(b, x, path, uid)
  {
    hide ValidFs, Reach, Lookup, Touch;
    LookupFrame(a, b, e, x, path);
    assert MetaKept(a, b, x, path);
    forall j | 0 < j < |path| ensures DirMeta(b, x, path[..j], uid) {
      assert DirMeta(a, x, path[..j], uid) && MetaKept(a, b, x, path[..j]);
      LookupFrame(a, b, e, x, path[..j]);
      DirTouched(a, b, e, Lookup(a, x, path[..j]).value);
    }
  }

  lemma DirTouched(a: Fs, b: Fs, e: set<Ino>, i: Ino)
    requires Touch(a, b, e) && IsDir(a, i)
    ensures IsDir(b, i)
  {
  }

  // ------------------------------------------------------------------ building below one directory

  /** Below something new there is only what is new. */
  lemma {:induction false} FreshBelow(a: Fs, b: Fs, s: Ino, p: Path)
    requires ValidFs(a) && Added(a, b) && s !in a.nodes && Lookup(b, s, p).Some?
    ensures Lookup(b, s, p).value !in a.nodes
    decreases |p|
  {
    if p != [] {
      var p0, n := p[..|p| - 1], p[|p| - 1];
      assert p == p0 + [n];
      LookupLast(b, s, p0, n);
      FreshBelow(a, b, s, p0);
      var d, f := Lookup(b, s, p0).value, Lookup(b, s, p).value;
      assert f in a.nodes ==> NoNewLinks(a, b, f);
    }
  }

  /** From `a` to `b` things were only added, and only below `s`. */
  ghost predicate Built(a: Fs, b: Fs, s: Ino) {
    ValidFs(b) && Added(a, b) && Touch(a, b, Subtree(a, s))
  }

  lemma BuiltRefl(a: Fs, s: Ino)
    requires ValidFs(a)
    ensures Built(a, a, s)
  {
  }

  lemma BuiltTrans(a: Fs, b: Fs, c: Fs, s: Ino)
    requires ValidFs(a) && Built(a, b, s) && Built(b, c, s)
    ensures Built(a, c, s)
  {
    hide Touch, Added, ValidFs, Reach;
    AddedTrans(a, b, c);
    forall i: Ino | i in Subtree(b, s) && i in a.nodes ensures i in Subtree(a, s) {
      var p := PathTo(b, s, i);
      ReachBack(a, b, Subtree(a, s), s, p);
    }
    TouchTrans(a, b, c, Subtree(a, s), Subtree(b, s));
  }

  lemma BuiltGrown(a: Fs, b: Fs, s: Ino, made: set<Path>)
    requires ValidFs(a) && ValidFs(b) && s in a.nodes && Grown(a, b, s, made)
    ensures Built(a, b, s)
  {
    forall i | i in Parents(a, s, made) ensures i in Subtree(a, s) {
      var q :| q in made && q != [] && Lookup(a, s, q[..|q| - 1]) == Some(i);
      LookupInNodes(a, s, q[..|q| - 1]);
    }
    TouchWider(a, b, Parents(a, s, made), Subtree(a, s));
  }

  /** A new file in a directory below `s`. */
  lemma BuiltCreate(a: Fs, b: Fs, c: Fs, s: Ino, d: Ino, n: Name, node: Node)
    requires ValidFs(a) && Built(a, b, s) && Reach(b, s, d) && Create(b, d, n, node) == Ok(c) && node.File?
    ensures Built(a, c, s) && b.next !in a.nodes && Bound(c, d, n) == Some(b.next) && Links(c, b.next) == {(d, n)}
    ensures c.nodes[b.next] == node
    ensures forall x: Ino, m: Name :: !(x == d && m == n) ==> Bound(c, x, m) == Bound(b, x, m)
  {
    CreateStep(b, d, n, node, c);
    CreateAdded(b, c, d, n, node);
    TouchWider(b, c, {d}, Subtree(b, s));
    BuiltTrans(a, b, c, s);
    forall x: Ino, m: Name ensures (x, m) in Links(c, b.next) <==> (x, m) == (d, n) { LinksMember(c, b.next, x, m); }
  }

  /** `b` with the file `f` rewritten. */
  function WithFile(b: Fs, f: Ino, meta: Meta, data: Bytes): Fs {
    b.(nodes := b.nodes[f := File(meta, data)])
  }

  lemma RewriteStep(b: Fs, f: Ino, meta: Meta, data: Bytes)
    requires ValidFs(b) && f in b.nodes && b.nodes[f].File?
    ensures ValidFs(WithFile(b, f, meta, data)) && Touch(b, WithFile(b, f, meta, data), {f})
    ensures forall d: Ino, n: Name :: Bound(WithFile(b, f, meta, data), d, n) == Bound(b, d, n)
  {
    var c := WithFile(b, f, meta, data);
    assert forall d: Ino, n: Name :: Bound(c, d, n) == Bound(b, d, n);
    var sh :| Shaped(b, sh);
    TreeBy(c, sh);
  }

  lemma RewriteAdded(a: Fs, b: Fs, f: Ino, meta: Meta, data: Bytes)
    requires Added(a, b) && f in b.nodes && b.nodes[f].File? && f !in a.nodes
    ensures Added(a, WithFile(b, f, meta, data))
  {
    var c := WithFile(b, f, meta, data);
    assert forall d: Ino, n: Name :: Bound(c, d, n) == Bound(b, d, n);
  }

  /** Rewriting a file that is new since `a`. */
  lemma BuiltRewrite(a: Fs, b: Fs, s: Ino, f: Ino, meta: Meta, data: Bytes)
    requires ValidFs(a) && Built(a, b, s) && f in b.nodes && b.nodes[f].File? && f !in a.nodes
    ensures Built(a, WithFile(b, f, meta, data), s)
    ensures forall d: Ino, n: Name :: Bound(WithFile(b, f, meta, data), d, n) == Bound(b, d, n)
  {
    hide Touch, Added, ValidFs;
    RewriteStep(b, f, meta, data);
    RewriteAdded(a, b, f, meta, data);
    TouchTrans(a, b, WithFile(b, f, meta, data), Subtree(a, s), {f});
  }

  /** io::copy in chunks of any size; the source is another file and stays as it is. */
  method CopyBytes(fs: FileSystem, source: Ino, copy: Ino) returns (r: Result<(), Errno>)
    requires fs.Valid() && source in fs.st.nodes && fs.st.nodes[source].File? && copy in fs.st.nodes
    requires fs.st.nodes[copy].File? && fs.st.nodes[copy].data == [] && source != copy
    modifies fs
    ensures fs.Ran()
    ensures exists data :: fs.st == WithFile(old(fs.st), copy, old(fs.st).nodes[copy].meta, data)
    ensures forall k :: old(|fs.history|) <= k < |fs.history| ==>
      exists data :: fs.history[k] == WithFile(old(fs.st), copy, old(fs.st).nodes[copy].meta, data)
    ensures fs.faults == old(fs.faults) ==>
      r.Ok? && fs.st == WithFile(old(fs.st), copy, old(fs.st).nodes[copy].meta, old(fs.st).nodes[source].data)
  {
    hide ValidFs;
    ghost var a, meta := fs.st, fs.st.nodes[copy].meta;
    var size := |fs.st.nodes[source].data|;
    var at := 0;
    ghost var data: Bytes := [];
    assert WithFile(a, copy, meta, []).nodes == a.nodes;
    while at < size
      invariant at <= size && fs.Ran() && fs.st == WithFile(a, copy, meta, data)
      invariant forall k :: old(|fs.history|) <= k < |fs.history| ==>
        exists d :: fs.history[k] == WithFile(a, copy, meta, d)
      invariant fs.faults == old(fs.faults) ==> data == a.nodes[source].data[..at]
    {
      var n: nat :| 1 <= n <= size - at;
      var read := fs.ReadAll(source);
      if read.Err? { return Err(read.error); }
      ghost var before := fs.st;
      var wrote, stored := fs.Write(copy, read.value[at..at + n]);
      assert a.nodes[source].data[..at + n] == a.nodes[source].data[..at] + read.value[at..at + n];
      data := data + stored;
      assert fs.st.nodes == WithFile(a, copy, meta, data).nodes;
      if wrote.Err? { return Err(wrote.error); }
      at := at + n;
    }
    assert a.nodes[source].data[..at] == a.nodes[source].data;
    r := Ok(());
  }

  // ------------------------------------------------------------------ one file

  /** The first name of `rel` is still free in `s`, so nothing is in the way of a file at `rel`. */
  ghost predicate Vacant(fs: Fs, s: Ino, rel: Path) {
    rel != [] && IsDir(fs, s) && Bound(fs, s, rel[0]) == None
  }

  /** The other names of `s` keep their meaning. */
  ghost predicate OnlyHead(a: Fs, b: Fs, s: Ino, head: Name) {
    forall n: Name :: n != head ==> Bound(b, s, n) == Bound(a, s, n)
  }

  lemma OneName(fs: Fs, s: Ino, n: Name)
    ensures Lookup(fs, s, [n]) == Bound(fs, s, n)
  {
    LookupLast(fs, s, [], n);
    assert [] + [n] == [n];
  }

  /** Below `s` only `rel` and what leads to it changed its meaning. */
  ghost predicate OnlyLeads(a: Fs, b: Fs, s: Ino, rel: Path) {
    forall p: Path :: Lookup(b, s, p) == Lookup(a, s, p) || p <= rel
  }

  lemma GrownLeads(a: Fs, b: Fs, s: Ino, rel: Path)
    requires rel != [] && Grown(a, b, s, Prefixes(ParentOf(rel)))
    ensures OnlyLeads(a, b, s, rel)
  {
    hide Touch, Added, Lookup;
    forall p: Path ensures Lookup(b, s, p) == Lookup(a, s, p) || p <= rel {
      assert Lookup(b, s, p) == Lookup(a, s, p) || MadeDir(a, b, s, Prefixes(ParentOf(rel)), p);
    }
  }

  lemma VacantSub(a: Fs, b: Fs, s: Ino, rel: Path, d: Ino)
    requires Vacant(a, s, rel) && |rel| > 1 && Grown(a, b, s, Prefixes(ParentOf(rel)))
    requires Lookup(b, s, ParentOf(rel)) == Some(d)
    ensures Bound(b, d, NameOf(rel)) == None
  {
    hide Touch, Added;
    assert rel == ParentOf(rel) + [NameOf(rel)];
    LookupLast(b, s, ParentOf(rel), NameOf(rel));
    assert rel !in Prefixes(ParentOf(rel));
    assert Lookup(b, s, rel) == Lookup(a, s, rel) || MadeDir(a, b, s, Prefixes(ParentOf(rel)), rel);
  }

  /** The new inode, what it is and where it is. */
  ghost predicate NewFile(b: Fs, c: Fs, s: Ino, rel: Path, d: Ino, mode: nat)
    requires rel != []
  {
    && b.next !in b.nodes && b.next in c.nodes && c.nodes[b.next] == File(Meta(ROOT_UID, mode), [])
    && Lookup(c, s, ParentOf(rel)) == Some(d) && Bound(c, d, NameOf(rel)) == Some(b.next)
    && Links(c, b.next) == {(d, NameOf(rel))}
  }

  lemma NewFileBy(b: Fs, c: Fs, s: Ino, rel: Path, d: Ino, mode: nat)
    requires ValidFs(b) && rel != [] && Lookup(b, s, ParentOf(rel)) == Some(d)
    requires Create(b, d, NameOf(rel), File(Meta(ROOT_UID, mode), [])) == Ok(c)
    requires Bound(c, d, NameOf(rel)) == Some(b.next) && Links(c, b.next) == {(d, NameOf(rel))}
    ensures NewFile(b, c, s, rel, d, mode)
    ensures forall i: Ino :: i in b.nodes && b.nodes[i].File? ==> i in c.nodes && c.nodes[i] == b.nodes[i]
  {
    hide Touch, ValidFs, Links, Create, Lookup;
    var node := File(Meta(ROOT_UID, mode), []);
    CreateAdded(b, c, d, NameOf(rel), node);
    CreateStep(b, d, NameOf(rel), node, c);
    LookupAdded(b, c, s, ParentOf(rel));
  }

  /** A file created in the directory at `ParentOf(rel)`. */
  lemma FileMade(a: Fs, b: Fs, c: Fs, s: Ino, rel: Path, d: Ino, mode: nat)
    requires ValidFs(a) && Built(a, b, s) && IsDir(b, s) && rel != [] && Lookup(b, s, ParentOf(rel)) == Some(d)
    requires OnlyLeads(a, b, s, rel) && Create(b, d, NameOf(rel), File(Meta(ROOT_UID, mode), [])) == Ok(c)
    ensures Built(a, c, s) && OnlyLeads(a, c, s, rel) && b.next !in a.nodes && NewFile(b, c, s, rel, d, mode)
    ensures Added(b, c)
    ensures forall i: Ino :: i in b.nodes && b.nodes[i].File? ==> i in c.nodes && c.nodes[i] == b.nodes[i]
  {
    hide Touch, Added, ValidFs, Lookup, Links, Create, NewFile, Rebound;
    assert Reach(b, s, d);
    assert ValidFs(b);
    var node := File(Meta(ROOT_UID, mode), []);
    BuiltCreate(a, b, c, s, d, NameOf(rel), node);
    NewFileBy(b, c, s, rel, d, mode);
    CreateStep(b, d, NameOf(rel), node, c);
    CreateAdded(b, c, d, NameOf(rel), node);
    assert rel == ParentOf(rel) + [NameOf(rel)];
    assert IsDir(b, d) by { CreatedIn(b, d, NameOf(rel), node, c); }
    forall p: Path ensures Lookup(c, s, p) == Lookup(a, s, p) || p <= rel {
      LookupCreated(b, c, s, ParentOf(rel), NameOf(rel), d, p);
    }
  }

  lemma CreatedIn(b: Fs, d: Ino, n: Name, node: Node, c: Fs)
    requires Create(b, d, n, node) == Ok(c)
    ensures IsDir(b, d)
  {
  }

  /** And then rewritten, it is a file at `rel`. */
  lemma FileRewritten(a: Fs, b: Fs, c: Fs, s: Ino, rel: Path, d: Ino, mode: nat, meta: Meta, data: Bytes)
    requires ValidFs(a) && Built(a, c, s) && rel != [] && OnlyLeads(a, c, s, rel) && Added(b, c)
    requires b.next !in a.nodes && NewFile(b, c, s, rel, d, mode)
    ensures var e := WithFile(c, b.next, meta, data);
      Built(a, e, s) && OnlyLeads(a, e, s, rel) && FileAt(e, s, rel, data) && Added(b, e)
      && (meta == Meta(meta.uid, FILE_MODE) ==> LeafMeta(e, s, rel, meta.uid))
  {
    hide Touch, Added, ValidFs, Lookup, Links, Built, Bound;
    var f, e := b.next, WithFile(c, b.next, meta, data);
    BuiltRewrite(a, c, s, f, meta, data);
    RewriteAdded(b, c, f, meta, data);
    assert e.nodes[f] == File(meta, data);
    forall p: Path ensures Lookup(e, s, p) == Lookup(c, s, p) { LookupSame(c, e, s, p); }
    LinksSame(c, e, f);
    assert rel == ParentOf(rel) + [NameOf(rel)];
    LookupLast(e, s, ParentOf(rel), NameOf(rel));
  }

  lemma FileDone(a: Fs, b: Fs, c: Fs, s: Ino, rel: Path, d: Ino, mode: nat, meta: Meta, data: Bytes)
    requires ValidFs(a) && Built(a, b, s) && IsDir(b, s) && rel != [] && Lookup(b, s, ParentOf(rel)) == Some(d)
    requires OnlyLeads(a, b, s, rel) && Create(b, d, NameOf(rel), File(Meta(ROOT_UID, mode), [])) == Ok(c)
    ensures Built(a, c, s) && OnlyLeads(a, c, s, rel) && b.next !in a.nodes && b.next !in b.nodes
    ensures b.next in c.nodes && c.nodes[b.next] == File(Meta(ROOT_UID, mode), [])
    ensures forall i: Ino :: i in b.nodes && b.nodes[i].File? ==> i in c.nodes && c.nodes[i] == b.nodes[i]
    ensures Built(a, WithFile(c, b.next, meta, data), s) && OnlyLeads(a, WithFile(c, b.next, meta, data), s, rel)
    ensures FileAt(WithFile(c, b.next, meta, data), s, rel, data)
    ensures Added(b, WithFile(c, b.next, meta, data)) && Added(b, c)
    ensures meta == Meta(meta.uid, FILE_MODE) ==> LeafMeta(WithFile(c, b.next, meta, data), s, rel, meta.uid)
  {
    hide Touch, Added, ValidFs, Lookup, Links, Built, WithFile, Bound, FileAt, LeafMeta, OnlyLeads, Create;
    FileMade(a, b, c, s, rel, d, mode);
    FileRewritten(a, b, c, s, rel, d, mode, meta, data);
  }

  predicate HasSource(fs: Fs, planned: Planned) {
    planned.source in fs.nodes && fs.nodes[planned.source].File?
  }

  /** The open source still holds what was hashed. */
  predicate Unchanged(fs: Fs, planned: Planned) {
    HasSource(fs, planned) && Sha256(fs.nodes[planned.source].data) == planned.sha256
  }

  lemma BuiltKeeps(a: Fs, b: Fs, s: Ino)
    requires Built(a, b, s)
    ensures forall i: Ino :: IsDir(a, i) ==> IsDir(b, i)
    ensures forall p: Planned :: HasSource(a, p) ==> HasSource(b, p) && b.nodes[p.source] == a.nodes[p.source]
  {
  }

  lemma OnlyLeadsRefl(a: Fs, s: Ino, rel: Path)
    ensures OnlyLeads(a, a, s, rel)
  {
  }

  lemma WalkVacant(a: Fs, s: Ino, sub: Path)
    requires sub != [] && Bound(a, s, sub[0]) == None
    ensures WalkDir(a, s, sub) == Ok(None)
  {
  }

  /** The part of `CopyVerified` after the directory of the copy is open. */
  method CopyInto(fs: FileSystem, ghost a: Fs, planned: Planned, ghost s: Ino, dir: Ino, uid: nat)
    returns (r: Result<(), Failure>)
    requires fs.Valid() && ValidFs(a) && Built(a, fs.st, s) && IsDir(fs.st, s) && IsDir(fs.st, dir) && planned.rel != []
    requires Lookup(fs.st, s, ParentOf(planned.rel)) == Some(dir) && OnlyLeads(a, fs.st, s, planned.rel)
    requires HasSource(fs.st, planned)
    modifies fs
    ensures fs.Ran() && Built(a, fs.st, s) && OnlyLeads(a, fs.st, s, planned.rel)
    ensures forall k :: old(|fs.history|) <= k < |fs.history| ==> Built(a, fs.history[k], s)
    ensures r.Ok? ==> FileAt(fs.st, s, planned.rel, planned.sha256.of) && LeafMeta(fs.st, s, planned.rel, uid)
    ensures r.Ok? ==> Added(old(fs.st), fs.st)
    ensures r.Err? && r.error == Failure(LegacyStage) ==> fs.Looked()
    ensures r.Err? && fs.faults == old(fs.faults) ==> r.error == Failure(DestinationStage)
    ensures fs.faults == old(fs.faults) ==>
      Bound(old(fs.st), dir, NameOf(planned.rel)) == None && Unchanged(old(fs.st), planned) ==> r.Ok?
  {
    hide ValidFs, Built, Touch, FileAt, LeafMeta, OnlyLeads, Added, Create, Lookup, Bound, ParentOf, IsDir;
    ghost var b := fs.st;
    var failed := Err(Failure(DestinationStage));
    var seek := fs.Attempt();
    if seek.Err? { return Err(Failure(LegacyStage)); }
    var empty := File(Meta(ROOT_UID, FILE_MODE), []);
    forall c: Fs | Create(b, dir, NameOf(planned.rel), empty) == Ok(c)
      ensures Built(a, c, s) && OnlyLeads(a, c, s, planned.rel)
    {
      FileDone(a, b, c, s, planned.rel, dir, FILE_MODE, Meta(ROOT_UID, FILE_MODE), []);
    }
    var created := CreateFile(fs, dir, NameOf(planned.rel), FILE_MODE);
    if created.Err? { return failed; }
    ghost var c := fs.st;
    var copy := created.value;
    FileDone(a, b, c, s, planned.rel, dir, FILE_MODE, Meta(uid, FILE_MODE), []);
    r := FillAndVerify(fs, a, b, planned, s, dir, copy, uid);
  }

  /** The part of `CopyVerified` after the copy was created, empty and root-owned. */
  method FillAndVerify(fs: FileSystem, ghost a: Fs, ghost b: Fs, planned: Planned, ghost s: Ino, ghost dir: Ino,
                       copy: Ino, uid: nat)
    returns (r: Result<(), Failure>)
    requires fs.Valid() && ValidFs(a) && Built(a, b, s) && IsDir(b, s) && planned.rel != []
    requires Lookup(b, s, ParentOf(planned.rel)) == Some(dir)
    requires OnlyLeads(a, b, s, planned.rel)
    requires Create(b, dir, NameOf(planned.rel), File(Meta(ROOT_UID, FILE_MODE), [])) == Ok(fs.st)
    requires copy == b.next && copy in fs.st.nodes && fs.st.nodes[copy] == File(Meta(ROOT_UID, FILE_MODE), [])
    requires HasSource(fs.st, planned) && planned.source != copy
    modifies fs
    ensures fs.Ran() && Built(a, fs.st, s) && OnlyLeads(a, fs.st, s, planned.rel)
    ensures forall k :: old(|fs.history|) <= k < |fs.history| ==> Built(a, fs.history[k], s)
    ensures r.Ok? ==> FileAt(fs.st, s, planned.rel, planned.sha256.of) && LeafMeta(fs.st, s, planned.rel, uid)
    ensures r.Ok? ==> Added(b, fs.st)
    ensures r.Err? ==> r.error == Failure(DestinationStage)
    ensures fs.faults == old(fs.faults) ==> Unchanged(old(fs.st), planned) ==> r.Ok?
  {
    hide ValidFs, Built, Touch, FileAt, LeafMeta, OnlyLeads, Create, Lookup;
    ghost var c := fs.st;
    var failed := Err(Failure(DestinationStage));
    forall meta: Meta, data: Bytes
      ensures Built(a, WithFile(c, copy, meta, data), s)
      ensures OnlyLeads(a, WithFile(c, copy, meta, data), s, planned.rel)
    {
      FileDone(a, b, c, s, planned.rel, dir, FILE_MODE, meta, data);
    }
    var copied := CopyBytes(fs, planned.source, copy);
    ghost var data :| fs.st == WithFile(c, copy, Meta(ROOT_UID, FILE_MODE), data);
    if copied.Err? { return failed; }
    var own := fs.Chown(copy, uid);
    if own.Err? { return failed; }
    assert fs.st.nodes == WithFile(c, copy, Meta(uid, FILE_MODE), data).nodes;
    FileDone(a, b, c, s, planned.rel, dir, FILE_MODE, Meta(uid, FILE_MODE), data);
    r := VerifyCopy(fs, planned, copy);
  }

  /** fsync the copy and its directory, then read the copy back and compare digests. */
  method VerifyCopy(fs: FileSystem, planned: Planned, copy: Ino) returns (r: Result<(), Failure>)
    requires fs.Valid() && copy in fs.st.nodes && fs.st.nodes[copy].File?
    modifies fs`faults
    ensures fs.Looked()
    ensures r.Ok? ==> Sha256(fs.st.nodes[copy].data) == planned.sha256
    ensures r.Ok? ==> fs.faults == old(fs.faults)
    ensures r.Err? ==> r.error == Failure(DestinationStage)
    ensures fs.faults == old(fs.faults) ==> (r.Ok? <==> Sha256(fs.st.nodes[copy].data) == planned.sha256)
  {
    var failed := Err(Failure(DestinationStage));
    var syncFile := fs.Attempt();
    if syncFile.Err? { return failed; }
    var syncDir := fs.Attempt();
    if syncDir.Err? { return failed; }
    var rewind := fs.Attempt();
    if rewind.Err? { return failed; }
    var written := fs.ReadAll(copy);
    if written.Err? { return failed; }
    if Sha256(written.value) != planned.sha256 { return failed; }
    r := Ok(());
  }

  /** Success means the new file holds the planned bytes, whatever the writes reported, since they are read back and
      compared. */
  method CopyVerified(fs: FileSystem, planned: Planned, s: Ino, uid: nat) returns (r: Result<(), Failure>)
    requires fs.Valid() && IsDir(fs.st, s) && planned.rel != []
    requires HasSource(fs.st, planned)
    modifies fs
    ensures fs.Ran() && Built(old(fs.st), fs.st, s) && OnlyLeads(old(fs.st), fs.st, s, planned.rel)
    ensures forall k :: old(|fs.history|) <= k < |fs.history| ==> Built(old(fs.st), fs.history[k], s)
    ensures r.Ok? ==> FileAt(fs.st, s, planned.rel, planned.sha256.of) && LeafMeta(fs.st, s, planned.rel, uid)
    ensures r.Ok? && Vacant(old(fs.st), s, planned.rel) ==> FileMeta(fs.st, s, planned.rel, uid)
    ensures r.Err? && fs.faults == old(fs.faults) ==> r.error == Failure(DestinationStage)
    ensures fs.faults == old(fs.faults) ==>
      Vacant(old(fs.st), s, planned.rel) && Unchanged(old(fs.st), planned) ==> r.Ok?
  {
    hide ValidFs, Built, Touch, Grown, Reach, FileAt, LeafMeta, OnlyLeads, WalkDir;
    ghost var a := fs.st;
    var failed := Err(Failure(DestinationStage));
    BuiltRefl(a, s);
    OnlyLeadsRefl(a, s, planned.rel);
    var sub, dir := ParentOf(planned.rel), s;
    if sub != [] {
      var ensured := EnsureDir(fs, s, sub, DIR_MODE, uid);
      assert forall k: nat :: k < |planned.rel| ==> planned.rel[..k] == sub[..k];
      forall b: Fs | ValidFs(b) && Grown(a, b, s, Prefixes(sub))
        ensures Built(a, b, s)
      {
        BuiltGrown(a, b, s, Prefixes(sub));
      }
      GrownLeads(a, fs.st, s, planned.rel);
      if Vacant(a, s, planned.rel) { WalkVacant(a, s, sub); }
      if ensured.Err? { return failed; }
      dir := ensured.value;
      if Vacant(a, s, planned.rel) { VacantSub(a, fs.st, s, planned.rel, dir); }
    } else {
      var dup := fs.Attempt();
      if dup.Err? { return failed; }
    }
    BuiltKeeps(a, fs.st, s);
    ghost var b := fs.st;
    r := CopyInto(fs, a, planned, s, dir, uid);
    if r.Ok? && Vacant(a, s, planned.rel) { WaysOwned(a, b, fs.st, s, planned.rel, uid); }
  }

  /** What was made on the way to a new file is the account's, and stays so. */
  lemma WaysOwned(a: Fs, b: Fs, c: Fs, s: Ino, rel: Path, uid: nat)
    requires Vacant(a, s, rel) && Added(b, c) && LeafMeta(c, s, rel, uid)
    requires forall k: nat :: 0 < k < |rel| ==> MadeWith(a, b, s, rel[..k], Meta(uid, DIR_MODE))
    ensures FileMeta(c, s, rel, uid)
  {
    hide Added, Lookup, LeafMeta;
    forall k | 0 < k < |rel| ensures DirMeta(c, s, rel[..k], uid) {
      VacantBelow(a, s, rel, k);
      assert DirMeta(b, s, rel[..k], uid);
      DirMetaAdded(b, c, s, rel[..k], uid);
    }
  }

  lemma VacantBelow(a: Fs, s: Ino, rel: Path, k: nat)
    requires Vacant(a, s, rel) && 0 < k <= |rel|
    ensures Lookup(a, s, rel[..k]) == None
  {
  }

  lemma DirMetaAdded(a: Fs, b: Fs, s: Ino, path: Path, uid: nat)
    requires Added(a, b) && DirMeta(a, s, path, uid)
    ensures DirMeta(b, s, path, uid)
  {
    LookupAdded(a, b, s, path);
  }

  // ------------------------------------------------------------------ one side

  method WriteMarker(fs: FileSystem, s: Ino, content: Bytes, uid: nat) returns (r: Result<(), Failure>)
    requires fs.Valid() && IsDir(fs.st, s)
    modifies fs
    ensures fs.Ran() && Built(old(fs.st), fs.st, s) && OnlyLeads(old(fs.st), fs.st, s, [MIGRATED_FROM_FILE])
    ensures forall k :: old(|fs.history|) <= k < |fs.history| ==> Built(old(fs.st), fs.history[k], s)
    ensures r.Ok? ==>
      MarkerAt(fs.st, s, if fs.faulty then None else Some(content)) && FileMeta(fs.st, s, [MIGRATED_FROM_FILE], uid)
    ensures r.Err? ==> r.error == Failure(DestinationStage)
    ensures r.Ok? ==> fs.faults <= old(fs.faults) + 1
    ensures fs.faults == old(fs.faults) && Vacant(old(fs.st), s, [MIGRATED_FROM_FILE]) ==> r.Ok?
  {
    hide ValidFs, Built, Touch, FileAt, LeafMeta, OnlyLeads, Create, Added, Closed, DirMeta;
    ghost var a, rel, empty := fs.st, [MIGRATED_FROM_FILE], File(Meta(ROOT_UID, FILE_MODE), []);
    var failed := Err(Failure(DestinationStage));
    BuiltRefl(a, s);
    OnlyLeadsRefl(a, s, rel);
    assert ParentOf(rel) == [] && NameOf(rel) == MIGRATED_FROM_FILE;
    forall c: Fs, meta: Meta, data: Bytes | Create(a, s, MIGRATED_FROM_FILE, empty) == Ok(c)
      ensures Built(a, WithFile(c, a.next, meta, data), s)
      ensures OnlyLeads(a, WithFile(c, a.next, meta, data), s, rel)
    {
      FileDone(a, a, c, s, rel, s, FILE_MODE, meta, data);
    }
    forall c: Fs | Create(a, s, MIGRATED_FROM_FILE, empty) == Ok(c)
      ensures Built(a, c, s) && OnlyLeads(a, c, s, rel) && a.next in c.nodes && c.nodes[a.next] == empty
    {
      FileDone(a, a, c, s, rel, s, FILE_MODE, Meta(ROOT_UID, FILE_MODE), []);
    }
    var created := CreateFile(fs, s, MIGRATED_FROM_FILE, FILE_MODE);
    if created.Err? { return failed; }
    ghost var c := fs.st;
    var marker := created.value;
    var wrote, data := fs.Write(marker, content);
    assert [] + data == data;
    assert fs.st.nodes == WithFile(c, marker, Meta(ROOT_UID, FILE_MODE), data).nodes;
    if wrote.Err? { return failed; }
    var own := fs.Chown(marker, uid);
    if own.Err? { return failed; }
    assert fs.st.nodes == WithFile(c, marker, Meta(uid, FILE_MODE), data).nodes;
    FileDone(a, a, c, s, rel, s, FILE_MODE, Meta(uid, FILE_MODE), data);
    var sync := fs.Attempt();
    if sync.Err? { return failed; }
    r := Ok(());
  }

  /** Names in one directory of the plan do not get in each other's way or in the marker's. */
  ghost predicate HeadsDistinct(plan: seq<Planned>) {
    && (forall k :: 0 <= k < |plan| ==> plan[k].rel != [] && plan[k].rel[0] != MIGRATED_FROM_FILE)
    && (forall j, k :: 0 <= j < k < |plan| && plan[j].place == plan[k].place ==> plan[j].rel[0] != plan[k].rel[0])
  }

  /** `b` differs from `a` by new inodes under the single new name `name` of `parent`. */
  ghost predicate AddedUnder(a: Fs, b: Fs, parent: Ino, name: Name) {
    ValidFs(b) && Added(a, b) && Touch(a, b, {parent}) && OnlyHead(a, b, parent, name)
  }

  /** Everything in the staging directory came from the plan. */
  ghost predicate OnlyPlanned(fs: Fs, s: Ino, plan: seq<Planned>, place: Place) {
    forall p: Path :: p != [] && Lookup(fs, s, p).Some? ==> Leads(plan, place, p)
  }

  lemma UnderCreated(a: Fs, b: Fs, parent: Ino, name: Name, mode: nat)
    requires ValidFs(a) && Create(a, parent, name, Dir(Meta(ROOT_UID, mode), map[])) == Ok(b)
    ensures AddedUnder(a, b, parent, name) && Bound(b, parent, name) == Some(a.next) && IsDir(b, a.next)
    ensures b.nodes[a.next].meta == Meta(ROOT_UID, mode) && a.next !in a.nodes
    ensures forall n: Name :: Bound(b, a.next, n) == None
  {
    CreateStep(a, parent, name, Dir(Meta(ROOT_UID, mode), map[]), b);
    CreateAdded(a, b, parent, name, Dir(Meta(ROOT_UID, mode), map[]));
  }

  /** Building below the new directory stays under its name. */
  lemma UnderBuilt(a: Fs, c: Fs, b: Fs, parent: Ino, name: Name, mode: nat)
    requires ValidFs(a) && Create(a, parent, name, Dir(Meta(ROOT_UID, mode), map[])) == Ok(c) && Built(c, b, a.next)
    ensures AddedUnder(a, b, parent, name) && Bound(b, parent, name) == Some(a.next) && IsDir(b, a.next)
  {
    var s := a.next;
    UnderCreated(a, c, parent, name, mode);
    AddedTrans(a, c, b);
    forall i: Ino | i in Subtree(c, s) ensures i == s {
      var p :| Lookup(c, s, p) == Some(i);
      LookupLeaf(c, s, p);
    }
    TouchTrans(a, c, b, {parent}, Subtree(c, s));
    assert parent !in Subtree(c, s) by { assert parent in a.nodes; }
    EntriesKept(c, b, parent, Subtree(c, s));
  }

  lemma EntriesKept(a: Fs, b: Fs, d: Ino, e: set<Ino>)
    requires Touch(a, b, e) && IsDir(a, d) && d !in e
    ensures forall n: Name :: Bound(b, d, n) == Bound(a, d, n)
  {
    assert SameBody(a.nodes[d], b.nodes[d]);
  }

  lemma UnderOwned(a: Fs, b: Fs, parent: Ino, name: Name, s: Ino, uid: nat)
    requires ValidFs(a) && AddedUnder(a, b, parent, name) && s in b.nodes && s !in a.nodes
    ensures AddedUnder(a, SetMeta(b, s, b.nodes[s].meta.(uid := uid)), parent, name)
  {
    var meta := b.nodes[s].meta.(uid := uid);
    MetaStep(b, s, meta);
    AddedMeta(a, b, s, meta);
    TouchTrans(a, b, SetMeta(b, s, meta), {parent}, {});
  }

  lemma UnderRefl(a: Fs, parent: Ino, name: Name)
    requires ValidFs(a)
    ensures AddedUnder(a, a, parent, name)
  {
  }

  /** Owning the directory itself changes none of its files. */
  lemma OwnedStaged(b: Fs, s: Ino, plan: seq<Planned>, place: Place, marker: Option<Bytes>, uid: nat, mode: nat)
    requires ValidFs(b) && StagedOk(b, s, plan, place, marker) && b.nodes[s].meta == Meta(ROOT_UID, DIR_MODE)
    requires forall k :: 0 <= k < |plan| && plan[k].place == place ==> FileMeta(b, s, plan[k].rel, uid)
    requires place == Data ==> FileMeta(b, s, [MIGRATED_FROM_FILE], uid)
    requires mode == DIR_MODE
    ensures StagedOk(SetMeta(b, s, Meta(uid, mode)), s, plan, place, marker)
    ensures OwnedBySide(SetMeta(b, s, Meta(uid, mode)), s, plan, place, uid)
  {
    hide FileAt, Lookup, Leads;
    var c := SetMeta(b, s, Meta(uid, mode));
    MetaStep(b, s, Meta(uid, mode));
    assert forall i: Ino :: i in b.nodes ==> i in c.nodes && SameBody(b.nodes[i], c.nodes[i]);
    forall p: Path ensures Lookup(c, s, p) == Lookup(b, s, p) { LookupSame(b, c, s, p); }
    forall k | 0 <= k < |plan| && plan[k].place == place
      ensures FileAt(c, s, plan[k].rel, plan[k].sha256.of) && FileMeta(c, s, plan[k].rel, uid)
    {
      FileAtSame(b, c, s, plan[k].rel, plan[k].sha256.of);
      OwnedMeta(b, s, plan[k].rel, plan[k].sha256.of, uid);
    }
    if place == Data {
      var t :| FileAt(b, s, [MIGRATED_FROM_FILE], t) && (marker.Some? ==> t == marker.value);
      FileAtSame(b, c, s, [MIGRATED_FROM_FILE], t);
      OwnedMeta(b, s, [MIGRATED_FROM_FILE], t, uid);
    }
  }

  lemma OwnedMeta(b: Fs, s: Ino, path: Path, bytes: Bytes, uid: nat)
    requires IsDir(b, s) && FileAt(b, s, path, bytes) && FileMeta(b, s, path, uid)
    ensures FileMeta(SetMeta(b, s, Meta(uid, DIR_MODE)), s, path, uid)
  {
    hide Lookup, Links;
    var c := SetMeta(b, s, Meta(uid, DIR_MODE));
    assert path == ParentOf(path) + [NameOf(path)];
    LookupLast(b, s, ParentOf(path), NameOf(path));
    assert forall d: Ino, n: Name :: Bound(c, d, n) == Bound(b, d, n);
    LookupSame(b, c, s, path);
    forall j | 0 < j < |path| ensures DirMeta(c, s, path[..j], uid) {
      LookupSame(b, c, s, path[..j]);
      assert DirMeta(b, s, path[..j], uid);
    }
  }

  lemma FileMetaAdded(a: Fs, b: Fs, s: Ino, rel: Path, uid: nat)
    requires Added(a, b) && FileMeta(a, s, rel, uid)
    ensures FileMeta(b, s, rel, uid)
  {
    hide Lookup;
    LookupAdded(a, b, s, rel);
    forall j | 0 < j < |rel| ensures DirMeta(b, s, rel[..j], uid) { DirMetaAdded(a, b, s, rel[..j], uid); }
  }

  lemma BuiltKeepsFile(a: Fs, b: Fs, s: Ino, rel: Path, bytes: Bytes, uid: nat)
    requires Built(a, b, s) && FileAt(a, s, rel, bytes) && FileMeta(a, s, rel, uid)
    ensures FileAt(b, s, rel, bytes) && FileMeta(b, s, rel, uid)
  {
    FileAtAdded(a, b, s, rel, bytes);
    FileMetaAdded(a, b, s, rel, uid);
  }

  /** What holds while the planned files of one side are copied: the first `k` are there and nothing else is. */
  ghost predicate Copied(fs: Fs, s: Ino, plan: seq<Planned>, k: nat, place: Place, uid: nat) {
    && k <= |plan| && IsDir(fs, s) && OnlyPlanned(fs, s, plan[..k], place)
    && forall j :: 0 <= j < k && plan[j].place == place ==>
      FileAt(fs, s, plan[j].rel, plan[j].sha256.of) && FileMeta(fs, s, plan[j].rel, uid)
  }

  lemma CopiedNone(fs: Fs, s: Ino, plan: seq<Planned>, place: Place, uid: nat)
    requires IsDir(fs, s) && forall n: Name :: Bound(fs, s, n) == None
    ensures Copied(fs, s, plan, 0, place, uid)
  {
    forall p: Path | p != [] ensures Lookup(fs, s, p) == None { assert Bound(fs, s, p[0]) == None; }
  }

  lemma LeadsMore(plan: seq<Planned>, k: nat, place: Place, p: Path)
    requires k < |plan|
    ensures Leads(plan[..k + 1], place, p) <==>
            Leads(plan[..k], place, p) || (plan[k].place == place && p <= plan[k].rel)
  {
    var before, now := plan[..k], plan[..k + 1];
    assert now[k] == plan[k] && forall j :: 0 <= j < k ==> now[j] == before[j];
    if Leads(before, place, p) {
      var j :| 0 <= j < |before| && before[j].place == place && p <= before[j].rel;
      assert now[j].place == place && p <= now[j].rel;
    }
  }

  lemma CopiedSkip(fs: Fs, s: Ino, plan: seq<Planned>, k: nat, place: Place, uid: nat)
    requires Copied(fs, s, plan, k, place, uid) && k < |plan| && plan[k].place != place
    ensures Copied(fs, s, plan, k + 1, place, uid)
  {
    hide Leads, Lookup, FileAt, FileMeta;
    forall p: Path | p != [] && Lookup(fs, s, p).Some? ensures Leads(plan[..k + 1], place, p) {
      LeadsMore(plan, k, place, p);
    }
  }

  lemma CopiedMore(a: Fs, b: Fs, s: Ino, plan: seq<Planned>, k: nat, place: Place, uid: nat)
    requires Copied(a, s, plan, k, place, uid) && k < |plan| && plan[k].place == place && plan[k].rel != []
    requires Built(a, b, s) && OnlyLeads(a, b, s, plan[k].rel)
    requires FileAt(b, s, plan[k].rel, plan[k].sha256.of) && FileMeta(b, s, plan[k].rel, uid)
    ensures Copied(b, s, plan, k + 1, place, uid)
  {
    hide Touch, FileAt, FileMeta, Built, Added, Bound, IsDir, ValidFs, Leads, Lookup;
    forall j | 0 <= j < k && plan[j].place == place
      ensures FileAt(b, s, plan[j].rel, plan[j].sha256.of) && FileMeta(b, s, plan[j].rel, uid)
    {
      BuiltKeepsFile(a, b, s, plan[j].rel, plan[j].sha256.of, uid);
    }
    BuiltKeeps(a, b, s);
    forall p: Path | p != [] && Lookup(b, s, p).Some? ensures Leads(plan[..k + 1], place, p) {
      LeadsMore(plan, k, place, p);
      assert Lookup(b, s, p) == Lookup(a, s, p) || p <= plan[k].rel;
    }
  }

  lemma StillVacant(fs: Fs, s: Ino, plan: seq<Planned>, k: nat, place: Place, uid: nat)
    requires Copied(fs, s, plan, k, place, uid) && HeadsDistinct(plan)
    ensures k < |plan| && plan[k].place == place ==> Vacant(fs, s, plan[k].rel)
    ensures k == |plan| ==> Vacant(fs, s, [MIGRATED_FROM_FILE])
  {
    hide Lookup, FileAt, FileMeta;
    forall n: Name | Bound(fs, s, n).Some?
      ensures exists j :: 0 <= j < k && plan[j].place == place && plan[j].rel != [] && plan[j].rel[0] == n
    {
      OneName(fs, s, n);
      assert Leads(plan[..k], place, [n]);
      var j :| 0 <= j < |plan[..k]| && plan[..k][j].place == place && [n] <= plan[..k][j].rel;
      assert plan[..k][j] == plan[j] && plan[j].rel[0] == n;
    }
  }

  /** All copies of one side into the empty directory `s`. */
  method CopyAll(fs: FileSystem, s: Ino, plan: seq<Planned>, place: Place, uid: nat) returns (r: Result<(), Failure>)
    requires fs.Valid() && IsDir(fs.st, s) && (forall n: Name :: Bound(fs.st, s, n) == None)
    requires HeadsDistinct(plan) && forall k :: 0 <= k < |plan| ==> Unchanged(fs.st, plan[k])
    modifies fs
    ensures fs.Ran() && Built(old(fs.st), fs.st, s)
    ensures forall k :: old(|fs.history|) <= k < |fs.history| ==> Built(old(fs.st), fs.history[k], s)
    ensures r.Ok? ==> Copied(fs.st, s, plan, |plan|, place, uid)
    ensures r.Err? && fs.faults == old(fs.faults) ==> r.error == Failure(DestinationStage)
    ensures fs.faults == old(fs.faults) ==> r.Ok?
  {
    hide ValidFs, Built, Touch, FileAt, FileMeta, LeafMeta, OnlyLeads, Copied, HeadsDistinct, Vacant;
    ghost var a := fs.st;
    BuiltRefl(a, s);
    CopiedNone(a, s, plan, place, uid);
    var k := 0;
    while k < |plan|
      invariant k <= |plan| && fs.Ran() && IsDir(fs.st, s) && Built(a, fs.st, s)
      invariant Copied(fs.st, s, plan, k, place, uid)
      invariant forall j :: old(|fs.history|) <= j < |fs.history| ==> Built(a, fs.history[j], s)
    {
      ghost var b := fs.st;
      BuiltKeeps(a, b, s);
      if plan[k].place == place {
        HeadsGiveRel(plan, k);
        StillVacant(b, s, plan, k, place, uid);
        var copied := CopyVerified(fs, plan[k], s, uid);
        forall c: Fs | Built(b, c, s) ensures Built(a, c, s) { BuiltTrans(a, b, c, s); }
        if copied.Err? { return copied; }
        BuiltKeeps(b, fs.st, s);
        CopiedMore(b, fs.st, s, plan, k, place, uid);
      } else {
        CopiedSkip(b, s, plan, k, place, uid);
      }
      k := k + 1;
    }
    r := Ok(());
  }

  lemma HeadsGiveRel(plan: seq<Planned>, k: nat)
    requires HeadsDistinct(plan) && k < |plan|
    ensures plan[k].rel != []
  {
  }

  lemma SideDone(b: Fs, c: Fs, s: Ino, plan: seq<Planned>, place: Place, marker: Option<Bytes>, uid: nat)
    requires Copied(b, s, plan, |plan|, place, uid) && Built(b, c, s)
    requires if place == Data then OnlyLeads(b, c, s, [MIGRATED_FROM_FILE]) else c == b
    requires place == Data ==> MarkerAt(c, s, marker) && FileMeta(c, s, [MIGRATED_FROM_FILE], uid)
    ensures StagedOk(c, s, plan, place, marker)
    ensures forall k :: 0 <= k < |plan| && plan[k].place == place ==> FileMeta(c, s, plan[k].rel, uid)
  {
    hide Built, FileAt, FileMeta, MarkerAt, Lookup, Leads;
    BuiltKeeps(b, c, s);
    assert plan[..|plan|] == plan;
    forall k | 0 <= k < |plan| && plan[k].place == place
      ensures FileAt(c, s, plan[k].rel, plan[k].sha256.of) && FileMeta(c, s, plan[k].rel, uid)
    {
      BuiltKeepsFile(b, c, s, plan[k].rel, plan[k].sha256.of, uid);
    }
    forall p: Path | p != [] && Lookup(c, s, p).Some? && !Leads(plan, place, p)
      ensures place == Data && p == [MIGRATED_FROM_FILE]
    {
      assert Lookup(c, s, p) == Lookup(b, s, p) || p <= [MIGRATED_FROM_FILE];
    }
  }

  /** Stages one side; the directory becomes the account's as the last step. */
  method StagePlace(fs: FileSystem, parent: Ino, name: Name, plan: seq<Planned>, place: Place, content: Bytes, uid: nat)
    returns (r: Result<(), Failure>)
    requires fs.Valid() && HeadsDistinct(plan) && forall k :: 0 <= k < |plan| ==> Unchanged(fs.st, plan[k])
    modifies fs
    ensures fs.Ran() && AddedUnder(old(fs.st), fs.st, parent, name)
    ensures forall k :: old(|fs.history|) <= k < |fs.history| ==> AddedUnder(old(fs.st), fs.history[k], parent, name)
    ensures
      fs.st == old(fs.st) || (Bound(fs.st, parent, name) == Some(old(fs.st).next) && IsDir(fs.st, old(fs.st).next))
    ensures r.Ok? ==>
      && IsDir(fs.st, old(fs.st).next) && Bound(old(fs.st), parent, name) == None
      && Bound(fs.st, parent, name) == Some(old(fs.st).next)
    ensures r.Ok? ==> StagedOk(fs.st, old(fs.st).next, plan, place, if fs.faulty then None else Some(content))
    ensures r.Ok? ==> OwnedBySide(fs.st, old(fs.st).next, plan, place, uid)
    ensures r.Err? && fs.faults == old(fs.faults) ==> r.error == Failure(DestinationStage)
    ensures fs.faults == old(fs.faults) ==>
      (r.Ok? <==> IsDir(old(fs.st), parent) && Bound(old(fs.st), parent, name) == None)
  {
    hide ValidFs, Built, Touch, FileAt, FileMeta, Copied, HeadsDistinct, AddedUnder, Create, StagedOk,
        OwnedBySide, MarkerAt, Unchanged;
    ghost var a := fs.st;
    UnderRefl(a, parent, name);
    var made := CreateDir(fs, parent, name, DIR_MODE);
    if fs.st != a { UnderCreated(a, fs.st, parent, name, DIR_MODE); }
    forall k | old(|fs.history|) <= k < |fs.history| ensures AddedUnder(a, fs.history[k], parent, name) {
      UnderCreated(a, fs.history[k], parent, name, DIR_MODE);
    }
    if made.Err? { return Err(Failure(DestinationStage)); }
    r := FillNew(fs, a, parent, name, made.value, plan, place, content, uid);
  }

  /** The part of `StagePlace` after the directory is made. */
  method FillNew(fs: FileSystem, ghost a: Fs, ghost parent: Ino, ghost name: Name, s: Ino, plan: seq<Planned>,
                 place: Place, content: Bytes, uid: nat)
    returns (r: Result<(), Failure>)
    requires fs.Valid() && ValidFs(a) && s == a.next && HeadsDistinct(plan)
    requires Create(a, parent, name, Dir(Meta(ROOT_UID, DIR_MODE), map[])) == Ok(fs.st)
    requires forall k :: 0 <= k < |plan| ==> Unchanged(a, plan[k])
    modifies fs
    ensures fs.Ran() && AddedUnder(a, fs.st, parent, name) && Bound(fs.st, parent, name) == Some(s) && IsDir(fs.st, s)
    ensures forall k :: old(|fs.history|) <= k < |fs.history| ==> AddedUnder(a, fs.history[k], parent, name)
    ensures r.Ok? ==> StagedOk(fs.st, s, plan, place, if fs.faulty then None else Some(content))
    ensures r.Ok? ==> OwnedBySide(fs.st, s, plan, place, uid)
    ensures r.Err? && fs.faults == old(fs.faults) ==> r.error == Failure(DestinationStage)
    ensures fs.faults == old(fs.faults) ==> r.Ok?
  {
    hide ValidFs, Built, Touch, FileAt, FileMeta, Copied, HeadsDistinct, AddedUnder, Create, StagedOk,
        OwnedBySide, MarkerAt, Unchanged;
    ghost var c := fs.st;
    UnderCreated(a, c, parent, name, DIR_MODE);
    forall b: Fs | Built(c, b, s)
      ensures AddedUnder(a, b, parent, name) && Bound(b, parent, name) == Some(s) && IsDir(b, s)
    {
      UnderBuilt(a, c, b, parent, name, DIR_MODE);
    }
    UnderKeeps(a, c, parent, name);
    r := FillSide(fs, s, plan, place, content, uid);
    if r.Err? { return; }
    BuiltMeta(c, fs.st, s);
    r := OwnSide(fs, a, parent, name, s, plan, place, if fs.faulty then None else Some(content), uid);
  }

  /** The filled directory becomes the account's. */
  method OwnSide(fs: FileSystem, ghost a: Fs, ghost parent: Ino, ghost name: Name, s: Ino, ghost plan: seq<Planned>,
                 ghost place: Place, ghost marker: Option<Bytes>, uid: nat)
    returns (r: Result<(), Failure>)
    requires fs.Valid() && ValidFs(a) && AddedUnder(a, fs.st, parent, name) && Bound(fs.st, parent, name) == Some(s)
    requires s !in a.nodes && IsDir(fs.st, s) && fs.st.nodes[s].meta == Meta(ROOT_UID, DIR_MODE)
    requires StagedOk(fs.st, s, plan, place, marker)
    requires forall k :: 0 <= k < |plan| && plan[k].place == place ==> FileMeta(fs.st, s, plan[k].rel, uid)
    requires place == Data ==> FileMeta(fs.st, s, [MIGRATED_FROM_FILE], uid)
    modifies fs
    ensures fs.Ran() && AddedUnder(a, fs.st, parent, name) && Bound(fs.st, parent, name) == Some(s) && IsDir(fs.st, s)
    ensures forall k :: old(|fs.history|) <= k < |fs.history| ==> AddedUnder(a, fs.history[k], parent, name)
    ensures r.Ok? ==> StagedOk(fs.st, s, plan, place, marker) && OwnedBySide(fs.st, s, plan, place, uid)
    ensures r.Err? ==> r.error == Failure(DestinationStage)
    ensures r.Ok? ==> fs.faults == old(fs.faults)
    ensures fs.faults == old(fs.faults) ==> r.Ok?
  {
    hide ValidFs, Touch, FileAt, FileMeta, AddedUnder, StagedOk, OwnedBySide;
    ghost var b := fs.st;
    var own := fs.Chown(s, uid);
    if own.Err? { return Err(Failure(DestinationStage)); }
    OwnedStaged(b, s, plan, place, marker, uid, DIR_MODE);
    UnderOwned(a, b, parent, name, s, uid);
    MetaStep(b, s, b.nodes[s].meta.(uid := uid));
    var sync := fs.Attempt();
    if sync.Err? { return Err(Failure(DestinationStage)); }
    r := Ok(());
  }

  lemma BuiltMeta(a: Fs, b: Fs, s: Ino)
    requires Built(a, b, s)
    ensures forall i: Ino :: i in a.nodes ==> i in b.nodes && b.nodes[i].meta == a.nodes[i].meta
  {
  }

  lemma UnderKeeps(a: Fs, b: Fs, parent: Ino, name: Name)
    requires AddedUnder(a, b, parent, name)
    ensures forall p: Planned :: Unchanged(a, p) ==> Unchanged(b, p)
    ensures forall i: Ino :: IsDir(a, i) ==> IsDir(b, i)
  {
  }

  /** The copies of one side and, on the data side, the marker. */
  method FillSide(fs: FileSystem, s: Ino, plan: seq<Planned>, place: Place, content: Bytes, uid: nat)
    returns (r: Result<(), Failure>)
    requires fs.Valid() && IsDir(fs.st, s) && (forall n: Name :: Bound(fs.st, s, n) == None)
    requires HeadsDistinct(plan) && forall k :: 0 <= k < |plan| ==> Unchanged(fs.st, plan[k])
    modifies fs
    ensures fs.Ran() && Built(old(fs.st), fs.st, s)
    ensures forall k :: old(|fs.history|) <= k < |fs.history| ==> Built(old(fs.st), fs.history[k], s)
    ensures r.Ok? ==> StagedOk(fs.st, s, plan, place, if fs.faulty then None else Some(content))
    ensures r.Ok? ==> forall k :: 0 <= k < |plan| && plan[k].place == place ==> FileMeta(fs.st, s, plan[k].rel, uid)
    ensures r.Ok? && place == Data ==> FileMeta(fs.st, s, [MIGRATED_FROM_FILE], uid)
    ensures r.Err? && fs.faults == old(fs.faults) ==> r.error == Failure(DestinationStage)
    ensures fs.faults == old(fs.faults) ==> r.Ok?
  {
    hide ValidFs, Built, Touch, FileAt, FileMeta, OnlyLeads, Copied, HeadsDistinct, StagedOk, MarkerAt;
    ghost var a := fs.st;
    r := CopyAll(fs, s, plan, place, uid);
    if r.Err? { return; }
    ghost var b := fs.st;
    BuiltRefl(b, s);
    BuiltKeeps(a, b, s);
    if place == Data {
      StillVacant(b, s, plan, |plan|, place, uid);
      r := WriteMarker(fs, s, content, uid);
      forall c: Fs | Built(b, c, s) ensures Built(a, c, s) { BuiltTrans(a, b, c, s); }
    }
    if r.Ok? { SideDone(b, fs.st, s, plan, place, if fs.faulty then None else Some(content), uid); }
  }

  // ------------------------------------------------------------------ both sides

  /** `b` differs from `a` by new inodes under the staging name of the two directories. */
  ghost predicate StagedInto(a: Fs, b: Fs, data: Ino, cache: Ino, name: Name) {
    ValidFs(b) && Added(a, b) && Touch(a, b, {data, cache}) && OnlyHead(a, b, data, name) && OnlyHead(a, b, cache, name)
  }

  /** The staging name is as before or names a new directory. */
  ghost predicate StagingSlot(a: Fs, b: Fs, dir: Ino, name: Name) {
    Bound(b, dir, name) == Bound(a, dir, name) ||
    (Bound(a, dir, name) == None && Bound(b, dir, name).Some?
     && Bound(b, dir, name).value !in a.nodes && IsDir(b, Bound(b, dir, name).value))
  }

  lemma StagedFirst(a: Fs, b: Fs, data: Ino, cache: Ino, name: Name)
    requires AddedUnder(a, b, data, name) && IsDir(a, cache) && data != cache
    ensures StagedInto(a, b, data, cache, name) && Bound(b, cache, name) == Bound(a, cache, name)
  {
    TouchWider(a, b, {data}, {data, cache});
    EntriesKept(a, b, cache, {data});
  }

  lemma StagedSecond(a: Fs, b: Fs, c: Fs, data: Ino, cache: Ino, name: Name)
    requires StagedInto(a, b, data, cache, name) && AddedUnder(b, c, cache, name) && IsDir(a, data) && data != cache
    ensures StagedInto(a, c, data, cache, name) && Bound(c, data, name) == Bound(b, data, name)
  {
    AddedTrans(a, b, c);
    TouchTrans(a, b, c, {data, cache}, {cache});
    EntriesKept(b, c, data, {cache});
  }

  lemma OwnedAdded(a: Fs, b: Fs, i: Ino, plan: seq<Planned>, place: Place, uid: nat)
    requires Added(a, b) && OwnedBySide(a, i, plan, place, uid)
    ensures OwnedBySide(b, i, plan, place, uid)
  {
    forall k | 0 <= k < |plan| && plan[k].place == place
      ensures FileMeta(b, i, plan[k].rel, uid)
    {
      FileMetaAdded(a, b, i, plan[k].rel, uid);
    }
    if place == Data { FileMetaAdded(a, b, i, [MIGRATED_FROM_FILE], uid); }
  }

  lemma UnderSlot(a: Fs, b: Fs, dir: Ino, name: Name)
    requires ValidFs(a) && AddedUnder(a, b, dir, name)
    requires b == a || (Bound(b, dir, name) == Some(a.next) && IsDir(b, a.next))
    ensures StagingSlot(a, b, dir, name)
    ensures a.next !in a.nodes
  {
    assert Bound(a, dir, name).Some? ==> Bound(b, dir, name) == Bound(a, dir, name);
  }

  lemma SlotLater(a: Fs, b: Fs, c: Fs, dir: Ino, name: Name)
    requires StagingSlot(a, b, dir, name) && Bound(c, dir, name) == Bound(b, dir, name) && Added(b, c)
    ensures StagingSlot(a, c, dir, name)
  {
  }

  /** Both staging directories, data first. */
  method StageBoth(fs: FileSystem, data: Ino, cache: Ino, name: Name, plan: seq<Planned>, content: Bytes, uid: nat)
    returns (r: Result<(), Failure>)
    requires fs.Valid() && IsDir(fs.st, data) && IsDir(fs.st, cache) && data != cache
    requires HeadsDistinct(plan) && forall k :: 0 <= k < |plan| ==> Unchanged(fs.st, plan[k])
    modifies fs
    ensures fs.Ran() && StagedInto(old(fs.st), fs.st, data, cache, name)
    ensures forall k :: old(|fs.history|) <= k < |fs.history| ==>
      StagedInto(old(fs.st), fs.history[k], data, cache, name)
    ensures StagingSlot(old(fs.st), fs.st, data, name) && StagingSlot(old(fs.st), fs.st, cache, name)
    ensures r.Ok? ==> Bound(old(fs.st), data, name) == None && Bound(old(fs.st), cache, name) == None
    ensures r.Ok? ==> Bound(fs.st, data, name).Some? && Bound(fs.st, cache, name).Some?
    ensures r.Ok? ==>
      StagedOk(fs.st, Bound(fs.st, data, name).value, plan, Data, if fs.faulty then None else Some(content))
    ensures r.Ok? ==>
      StagedOk(fs.st, Bound(fs.st, cache, name).value, plan, Cache, if fs.faulty then None else Some(content))
    ensures r.Ok? ==> OwnedBySide(fs.st, Bound(fs.st, data, name).value, plan, Data, uid)
    ensures r.Ok? ==> OwnedBySide(fs.st, Bound(fs.st, cache, name).value, plan, Cache, uid)
    ensures r.Err? && fs.faults == old(fs.faults) ==> r.error == Failure(DestinationStage)
    ensures fs.faults == old(fs.faults) ==>
      (r.Ok? <==> Bound(old(fs.st), data, name) == None && Bound(old(fs.st), cache, name) == None)
  {
    hide ValidFs, AddedUnder, StagedInto, HeadsDistinct, StagedOk, OwnedBySide, StagingSlot, Added, Reach;
    ghost var a, marker := fs.st, if fs.faulty then None else Some(content);
    r := StagePlace(fs, data, name, plan, Data, content, uid);
    ghost var b := fs.st;
    forall c: Fs | AddedUnder(a, c, data, name)
      ensures StagedInto(a, c, data, cache, name) && Bound(c, cache, name) == Bound(a, cache, name)
    {
      StagedFirst(a, c, data, cache, name);
    }
    UnderSlot(a, b, data, name);
    SlotSame(a, b, cache, name);
    if r.Err? { return; }
    UnderKeeps(a, b, data, name);
    r := StagePlace(fs, cache, name, plan, Cache, content, uid);
    forall c: Fs | AddedUnder(b, c, cache, name)
      ensures StagedInto(a, c, data, cache, name) && Bound(c, data, name) == Bound(b, data, name)
    {
      StagedSecond(a, b, c, data, cache, name);
    }
    UnderAdded(a, b, data, name);
    UnderAdded(b, fs.st, cache, name);
    SlotLater(a, b, fs.st, data, name);
    UnderSlot(b, fs.st, cache, name);
    SlotEarlier(a, b, fs.st, cache, name);
    SecondApart(a, b, fs.st, data, cache, name, a.next);
    StagedFrame(b, fs.st, {cache}, a.next, plan, Data, marker);
    OwnedAdded(b, fs.st, a.next, plan, Data, uid);
  }

  /** The first staging directory does not lead to where the second is made. */
  lemma SecondApart(a: Fs, b: Fs, c: Fs, data: Ino, cache: Ino, name: Name, s: Ino)
    requires ValidFs(a) && IsDir(a, cache) && AddedUnder(a, b, data, name) && AddedUnder(b, c, cache, name)
    requires s == a.next && s in b.nodes
    ensures !Reach(b, s, cache) && Touch(b, c, {cache}) && ValidFs(b)
  {
    if Reach(b, s, cache) {
      var p :| Lookup(b, s, p) == Some(cache);
      FreshBelow(a, b, s, p);
    }
  }

  lemma UnderAdded(a: Fs, b: Fs, parent: Ino, name: Name)
    requires AddedUnder(a, b, parent, name)
    ensures Added(a, b)
  {
  }

  lemma SlotSame(a: Fs, b: Fs, dir: Ino, name: Name)
    requires Bound(b, dir, name) == Bound(a, dir, name)
    ensures StagingSlot(a, b, dir, name)
  {
  }

  lemma SlotEarlier(a: Fs, b: Fs, c: Fs, dir: Ino, name: Name)
    requires Added(a, b)
    requires Bound(b, dir, name) == Bound(a, dir, name) && StagingSlot(b, c, dir, name)
    ensures StagingSlot(a, c, dir, name)
  {
  }
}
