/** A user's two `networks/` directories: making them, and the renames and removals in them with what each undoes. */
module Networks {
  import opened Kernel
  import opened Trees
  import opened Steps
  import opened Growth
  import opened FileSystems
  import opened Names
  import opened Layout
  import opened Nofollow
  import opened TreeWalks
  import opened Identity

  datatype NetDirs = NetDirs(data: Ino, cache: Ino)
  datatype Move = Move(from: Path, to: Path)

  function Side(d: NetDirs, place: Place): Ino {
    if place.Data? then d.data else d.cache
  }

  /** The handles are the directories their paths resolve to. */
  ghost predicate Placed(fs: Fs, home: Ino, l: UserLayout, d: NetDirs) {
    && ValidFs(fs) && IsDir(fs, home) && IsDir(fs, d.data) && IsDir(fs, d.cache)
    && Lookup(fs, home, Nets(l, Data)) == Some(d.data) && Lookup(fs, home, Nets(l, Cache)) == Some(d.cache)
  }

  // ------------------------------------------------------------------ creating the chain

  ghost predicate Unblocked(fs: Fs, home: Ino, l: UserLayout) {
    WalkDir(fs, home, Nets(l, Data)).Ok? && WalkDir(fs, home, Nets(l, Cache)).Ok?
  }

  lemma UnblockedGrown(a: Fs, b: Fs, home: Ino, l: UserLayout, made: set<Path>)
    requires ValidFs(a) && IsDir(a, home) && IsDir(b, home) && Grown(a, b, home, made)
    ensures Unblocked(a, home, l) <==> Unblocked(b, home, l)
  {
    WalkGrown(a, b, home, made, Nets(l, Data));
    WalkGrown(a, b, home, made, Nets(l, Cache));
  }

  lemma PrefixUnblocked(fs: Fs, home: Ino, p: Path, q: Path)
    requires IsDir(fs, home) && p <= q && WalkDir(fs, home, q).Ok?
    ensures WalkDir(fs, home, p).Ok?
  {
    WalkBlocked(fs, home, p);
    WalkBlocked(fs, home, q);
    assert forall k: nat :: k <= |p| ==> q[..k] == p[..k];
  }

  /** What is asked for, in order, and with which mode: the parents, then both directories. */
  function Asked(l: UserLayout): seq<(Path, nat)> {
    l.parents + [(Nets(l, Data), DIR_MODE), (Nets(l, Cache), DIR_MODE)]
  }

  /** The mode a path gets when it is created: that of the first thing asked for that it leads to. */
  function ModeAt(asked: seq<(Path, nat)>, q: Path): nat {
    if asked == [] then DIR_MODE else if q <= asked[0].0 then asked[0].1 else ModeAt(asked[1..], q)
  }

  predicate Covered(asked: seq<(Path, nat)>, q: Path) {
    exists k :: 0 <= k < |asked| && q <= asked[k].0
  }

  lemma {:induction false} FirstToCover(asked: seq<(Path, nat)>, n: nat, q: Path)
    requires n < |asked| && !Covered(asked[..n], q) && q <= asked[n].0
    ensures ModeAt(asked, q) == asked[n].1
  {
    if n > 0 {
      assert asked[..n][0] == asked[0];
      var before, rest := asked[..n], asked[1..][..n - 1];
      forall k | 0 <= k < |rest| ensures !(q <= rest[k].0) { assert before[k + 1] == rest[k]; }
      FirstToCover(asked[1..], n - 1, q);
    }
  }

  /** Whatever leads to a side below the shared directories is private, 0o700; those are open to be passed through,
      0o755, but for `Library`. */
  lemma ChainModes()
    ensures forall place: Place ::
      && ModeAt(Asked(MAC), if place.Data? then MAC.data else MAC.cache) == 448
      && ModeAt(Asked(MAC), Nets(MAC, place)) == 448
      && ModeAt(Asked(LINUX), if place.Data? then LINUX.data else LINUX.cache) == 448
      && ModeAt(Asked(LINUX), Nets(LINUX, place)) == 448
    ensures ModeAt(Asked(MAC), ["Library"]) == 448
    ensures ModeAt(Asked(MAC), ["Library", "Application Support"]) == 493
    ensures ModeAt(Asked(MAC), ["Library", "Caches"]) == 493
    ensures ModeAt(Asked(LINUX), [".local"]) == 493 && ModeAt(Asked(LINUX), [".local", "share"]) == 493
    ensures ModeAt(Asked(LINUX), [".cache"]) == 493
  {
    hide ModeAt;
    assert "Caches"[0] != "Application Support"[0] && ".cache"[1] != ".local"[1];
    assert Nets(MAC, Data)[1] != "Caches" && Nets(LINUX, Data)[0] != ".cache";
    forall place: Place
      ensures ModeAt(Asked(MAC), if place.Data? then MAC.data else MAC.cache) == 448
      ensures ModeAt(Asked(MAC), Nets(MAC, place)) == 448
    {
      var n := if place.Data? then 3 else 4;
      ModeOf(Asked(MAC), n, if place.Data? then MAC.data else MAC.cache);
      ModeOf(Asked(MAC), n, Nets(MAC, place));
    }
    forall place: Place
      ensures ModeAt(Asked(LINUX), if place.Data? then LINUX.data else LINUX.cache) == 448
      ensures ModeAt(Asked(LINUX), Nets(LINUX, place)) == 448
    {
      var n := if place.Data? then 3 else 4;
      ModeOf(Asked(LINUX), n, if place.Data? then LINUX.data else LINUX.cache);
      ModeOf(Asked(LINUX), n, Nets(LINUX, place));
    }
    ModeOf(Asked(MAC), 0, ["Library"]);
    ModeOf(Asked(MAC), 1, ["Library", "Application Support"]);
    ModeOf(Asked(MAC), 2, ["Library", "Caches"]);
    ModeOf(Asked(LINUX), 0, [".local"]);
    ModeOf(Asked(LINUX), 1, [".local", "share"]);
    ModeOf(Asked(LINUX), 2, [".cache"]);
  }

  lemma ModeOf(asked: seq<(Path, nat)>, n: nat, q: Path)
    requires n < |asked| && q <= asked[n].0 && forall k :: 0 <= k < n ==> !(q <= asked[k].0)
    ensures ModeAt(asked, q) == asked[n].1
  {
    FirstToCover(asked, n, q);
  }

  /** Of the paths that were missing, those that lead to one of the first `n` things asked for are directories of the
      account's with the mode of the first such, the others still missing. */
  ghost predicate Outfitted(a: Fs, b: Fs, home: Ino, asked: seq<(Path, nat)>, n: nat, uid: nat)
    requires n <= |asked|
  {
    forall q: Path ::
      if Covered(asked[..n], q) then MadeWith(a, b, home, q, Meta(uid, ModeAt(asked, q)))
      else StillMissing(a, b, home, q)
  }

  ghost predicate StillMissing(a: Fs, b: Fs, home: Ino, q: Path) {
    Lookup(a, home, q) == None ==> Lookup(b, home, q) == None
  }

  lemma OutfittedNone(a: Fs, home: Ino, asked: seq<(Path, nat)>, uid: nat)
    ensures Outfitted(a, a, home, asked, 0, uid)
  {
    hide Lookup;
  }

  /** One more thing made. */
  lemma OutfittedMore(a: Fs, b: Fs, c: Fs, home: Ino, asked: seq<(Path, nat)>, n: nat, uid: nat)
    requires n < |asked| && Outfitted(a, b, home, asked, n, uid) && Grown(b, c, home, Prefixes(asked[n].0))
    requires home in a.nodes
    requires forall k: nat :: k <= |asked[n].0| ==> MadeWith(b, c, home, asked[n].0[..k], Meta(uid, asked[n].1))
    ensures Outfitted(a, c, home, asked, n + 1, uid)
  {
    hide Lookup, MadeWith, StillMissing, Grown, ModeAt;
    var rel := asked[n].0;
    forall q: Path
      ensures
        if Covered(asked[..n + 1], q) then MadeWith(a, c, home, q, Meta(uid, ModeAt(asked, q)))
        else StillMissing(a, c, home, q)
    {
      var before, now := asked[..n], asked[..n + 1];
      assert now == before + [asked[n]];
      if Covered(before, q) {
        var k :| 0 <= k < n && q <= before[k].0;
        assert now[k] == before[k];
        MadeStays(a, b, c, home, Prefixes(rel), q, Meta(uid, ModeAt(asked, q)));
      } else if q <= rel {
        assert now[n] == asked[n] && rel[..|q|] == q;
        FirstToCover(asked, n, q);
        NowMade(a, b, c, home, q, Meta(uid, asked[n].1));
      } else {
        forall k | 0 <= k < n + 1 ensures !(q <= now[k].0) { if k < n { assert before[k] == now[k]; } }
        MissingStays(a, b, c, home, Prefixes(rel), q);
      }
    }
  }

  lemma MadeStays(a: Fs, b: Fs, c: Fs, home: Ino, made: set<Path>, q: Path, meta: Meta)
    requires MadeWith(a, b, home, q, meta) && Grown(b, c, home, made)
    ensures MadeWith(a, c, home, q, meta)
  {
    hide Lookup, Touch;
    assert Lookup(c, home, q) == Lookup(b, home, q) || MadeDir(b, c, home, made, q);
    if Lookup(a, home, q) == None { OldMeta(b, c, home, made, Lookup(b, home, q).value); }
  }

  lemma NowMade(a: Fs, b: Fs, c: Fs, home: Ino, q: Path, meta: Meta)
    requires StillMissing(a, b, home, q) && MadeWith(b, c, home, q, meta)
    ensures MadeWith(a, c, home, q, meta)
  {
    hide Lookup;
  }

  lemma MissingStays(a: Fs, b: Fs, c: Fs, home: Ino, made: set<Path>, q: Path)
    requires StillMissing(a, b, home, q) && Grown(b, c, home, made) && q !in made
    ensures StillMissing(a, c, home, q)
  {
    hide Lookup, Touch, Added;
    assert Lookup(c, home, q) == Lookup(b, home, q) || MadeDir(b, c, home, made, q);
  }

  lemma AllAsked(a: Fs, b: Fs, home: Ino, l: UserLayout, uid: nat)
    requires Outfitted(a, b, home, Asked(l), |Asked(l)|, uid)
    ensures forall q: Path :: q in Chain(l) ==> MadeWith(a, b, home, q, Meta(uid, ModeAt(Asked(l), q)))
  {
    hide MadeWith, StillMissing, ModeAt;
    var asked := Asked(l);
    assert asked[..|asked|] == asked && asked[|asked| - 2].0 == Nets(l, Data) && asked[|asked| - 1].0 == Nets(l, Cache);
    forall q: Path | q in Chain(l) ensures Covered(asked[..|asked|], q) {
      assert q <= Nets(l, Data) || q <= Nets(l, Cache);
    }
  }

  /** `ensure_dir` for a path of the chain, seen as growth of the whole chain since `a`. */
  method EnsureInChain(fs: FileSystem, ghost a: Fs, home: Ino, l: UserLayout, rel: Path, mode: nat, uid: nat)
    returns (r: Result<Ino, Errno>)
    requires fs.Valid() && ValidFs(a) && IsDir(fs.st, home) && IsDir(a, home) && Grown(a, fs.st, home, Chain(l))
    requires rel <= Nets(l, Data) || rel <= Nets(l, Cache)
    modifies fs
    ensures fs.Ran() && IsDir(fs.st, home) && Grown(a, fs.st, home, Chain(l))
    ensures forall k :: old(|fs.history|) <= k < |fs.history| ==> Grown(a, fs.history[k], home, Chain(l))
    ensures r.Ok? ==> Lookup(fs.st, home, rel) == Some(r.value) && IsDir(fs.st, r.value)
    ensures r.Ok? ==> Grown(old(fs.st), fs.st, home, Chain(l)) && Grown(old(fs.st), fs.st, home, Prefixes(rel))
    ensures r.Ok? ==> forall k: nat :: k <= |rel| ==> MadeWith(old(fs.st), fs.st, home, rel[..k], Meta(uid, mode))
    ensures r.Ok? ==> WalkDir(a, home, rel).Ok?
    ensures r.Ok? ==> fs.faults == old(fs.faults)
    ensures fs.faults == old(fs.faults) ==> Unblocked(a, home, l) ==> r.Ok?
  {
    hide ValidFs, Grown, WalkDir, MadeWith;
    ghost var b := fs.st;
    ParentsInChain(l, rel);
    UnblockedGrown(a, b, home, l, Chain(l));
    WalkGrown(a, b, home, Chain(l), rel);
    if Unblocked(b, home, l) {
      PrefixUnblocked(b, home, rel, if rel <= Nets(l, Data) then Nets(l, Data) else Nets(l, Cache));
    }
    r := EnsureDir(fs, home, rel, mode, uid);
    forall c: Fs | Grown(b, c, home, Prefixes(rel)) ensures Grown(a, c, home, Chain(l)) && Grown(b, c, home, Chain(l)) {
      GrownWider(b, c, home, Prefixes(rel), Chain(l));
      GrownTrans(a, b, c, home, Chain(l));
    }
  }

  /** The first part of what is asked for. */
  method CreateParents(fs: FileSystem, home: Ino, l: UserLayout, uid: nat) returns (r: Result<(), Errno>)
    requires fs.Valid() && IsDir(fs.st, home) && WellLaid(l)
    modifies fs
    ensures fs.Ran() && IsDir(fs.st, home) && Grown(old(fs.st), fs.st, home, Chain(l))
    ensures forall k :: old(|fs.history|) <= k < |fs.history| ==> Grown(old(fs.st), fs.history[k], home, Chain(l))
    ensures r.Ok? ==> Outfitted(old(fs.st), fs.st, home, Asked(l), |l.parents|, uid)
    ensures r.Ok? ==> fs.faults == old(fs.faults)
    ensures fs.faults == old(fs.faults) ==> Unblocked(old(fs.st), home, l) ==> r.Ok?
  {
    hide ValidFs, Grown, WalkDir, Unblocked, Chain, Outfitted, MadeWith, Lookup;
    ghost var a := fs.st;
    GrownRefl(a, home, Chain(l));
    OutfittedNone(a, home, Asked(l), uid);
    var k := 0;
    while k < |l.parents|
      invariant k <= |l.parents| && fs.Ran() && IsDir(fs.st, home) && Grown(a, fs.st, home, Chain(l))
      invariant forall j :: old(|fs.history|) <= j < |fs.history| ==> Grown(a, fs.history[j], home, Chain(l))
      invariant Outfitted(a, fs.st, home, Asked(l), k, uid) && fs.faults == old(fs.faults)
    {
      ghost var b := fs.st;
      var parent := EnsureInChain(fs, a, home, l, l.parents[k].0, l.parents[k].1, uid);
      if parent.Err? { return Err(parent.error); }
      assert Asked(l)[k] == l.parents[k];
      OutfittedMore(a, b, fs.st, home, Asked(l), k, uid);
      k := k + 1;
    }
    r := Ok(());
  }

  /** Opens or creates both directories and what leads to them. Whatever was missing is the account's afterwards, with
      the mode of the first thing asked for that it leads to; nothing that was there changes. */
  method CreateNetworks(fs: FileSystem, home: Ino, l: UserLayout, uid: nat) returns (r: Result<NetDirs, Failure>)
    requires fs.Valid() && WellLaid(l)
    modifies fs
    ensures fs.Ran() && Grown(old(fs.st), fs.st, home, Chain(l))
    ensures forall k :: old(|fs.history|) <= k < |fs.history| ==> Grown(old(fs.st), fs.history[k], home, Chain(l))
    ensures r.Ok? ==> Placed(fs.st, home, l, r.value) && Unblocked(old(fs.st), home, l)
    ensures r.Ok? ==>
      forall q: Path :: q in Chain(l) ==> MadeWith(old(fs.st), fs.st, home, q, Meta(uid, ModeAt(Asked(l), q)))
    ensures r.Err? ==> r.error == Failure(DestinationStage)
    ensures r.Ok? ==> fs.faults == old(fs.faults)
    ensures fs.faults == old(fs.faults) ==> (r.Ok? <==> IsDir(old(fs.st), home) && Unblocked(old(fs.st), home, l))
  {
    hide ValidFs, Grown, WalkDir, Chain, Lookup, Outfitted, MadeWith, ModeAt, Added;
    ghost var a := fs.st;
    var failed := Err(Failure(DestinationStage));
    GrownRefl(a, home, Chain(l));
    var root := OpenHome(fs, Some(home));
    if root.Err? { return failed; }
    var parents := CreateParents(fs, home, l, uid);
    assert fs.Ran();
    if parents.Err? { return failed; }
    ghost var first := fs.st;
    var data := EnsureInChain(fs, a, home, l, Nets(l, Data), DIR_MODE, uid);
    assert fs.Ran();
    if data.Err? { return failed; }
    ghost var b := fs.st;
    OutfittedMore(a, first, b, home, Asked(l), |l.parents|, uid);
    var cache := EnsureInChain(fs, a, home, l, Nets(l, Cache), DIR_MODE, uid);
    assert fs.Ran();
    if cache.Err? { return failed; }
    OutfittedMore(a, b, fs.st, home, Asked(l), |l.parents| + 1, uid);
    AllAsked(a, fs.st, home, l, uid);
    LookupGrown(b, fs.st, home, Chain(l), Nets(l, Data));
    r := Ok(NetDirs(data.value, cache.value));
  }

  lemma LookupGrown(a: Fs, b: Fs, root: Ino, made: set<Path>, q: Path)
    requires ValidFs(a) && root in a.nodes && Grown(a, b, root, made) && Lookup(a, root, q).Some?
    ensures Lookup(b, root, q) == Lookup(a, root, q)
    ensures IsDir(a, Lookup(a, root, q).value) ==> IsDir(b, Lookup(a, root, q).value)
  {
    assert Lookup(b, root, q) == Lookup(a, root, q) || MadeDir(a, b, root, made, q);
    LookupInNodes(a, root, q);
    KindKept(a, b, root, made, Lookup(a, root, q).value);
  }

  // ------------------------------------------------------------------ renames inside one directory

  /** The same inodes with their owners, modes and kinds. */
  ghost predicate SameMeta(a: Fs, b: Fs) {
    && b.next == a.next && b.nodes.Keys == a.nodes.Keys
    && forall i: Ino :: i in a.nodes ==> b.nodes[i].meta == a.nodes[i].meta && SameKind(a.nodes[i], b.nodes[i])
  }

  /** The inode `x` now goes by `to`, a name that was free, instead of `from`. */
  ghost predicate Swing(a: Fs, b: Fs, dir: Ino, from: Name, to: Name, x: Ino) {
    && ValidFs(b) && Touch(a, b, {dir}) && SameMeta(a, b)
    && Bound(a, dir, from) == Some(x) && Bound(a, dir, to) == None && Renamed(a, b, dir, from, dir, to, x)
  }

  /** `x` took over the name `to` from `y`, which the kernel let go: an empty directory or a leaf of the same kind, or
      `x` itself. */
  ghost predicate Ousted(a: Fs, b: Fs, dir: Ino, from: Name, to: Name, x: Ino, y: Ino) {
    && ValidFs(b) && Touch(a, b, {dir}) && SameMeta(a, b)
    && Bound(a, dir, from) == Some(x) && Bound(a, dir, to) == Some(y)
    && (y == x ==> b == a)
    && (y != x ==>
      && Renamed(a, b, dir, from, dir, to, x) && (IsDir(a, x) <==> IsDir(a, y))
      && (IsDir(a, y) ==> forall n: Name :: Bound(a, y, n) == None))
  }

  lemma InDirRename(a: Fs, dir: Ino, from: Name, to: Name, b: Fs)
    requires ValidFs(a) && Rename(a, dir, from, dir, to, false) == Ok(b)
    ensures Bound(a, dir, from).Some?
    ensures Bound(a, dir, to) == None ==> Swing(a, b, dir, from, to, Bound(a, dir, from).value)
    ensures Bound(a, dir, to).Some? ==> Ousted(a, b, dir, from, to, Bound(a, dir, from).value, Bound(a, dir, to).value)
  {
    var x := Bound(a, dir, from).value;
    if Bound(a, dir, to) != Some(x) {
      RenameInStep(a, dir, from, to, x);
      MovedBindings(a, dir, from, dir, to, x);
    } else {
      TouchRefl(a, {dir});
    }
  }

  lemma NeverIntoSelf(a: Fs, dir: Ino, from: Name)
    requires ValidFs(a) && Bound(a, dir, from).Some?
    ensures !Reach(a, Bound(a, dir, from).value, dir)
  {
    if Reach(a, Bound(a, dir, from).value, dir) {
      var p :| Lookup(a, Bound(a, dir, from).value, p) == Some(dir);
      LookupLast(a, dir, [], from);
      assert [] + [from] == [from];
      LookupAppend(a, dir, [from], p);
      UniquePath(a, dir, [from] + p, []);
    }
  }

  method RenameIn(fs: FileSystem, dir: Ino, from: Name, to: Name) returns (r: Result<(), Errno>)
    requires fs.Valid() && IsDir(fs.st, dir)
    modifies fs
    ensures r.Err? ==> fs.Looked()
    ensures r.Ok? ==> fs.Stepped() && Bound(old(fs.st), dir, from).Some?
    ensures r.Ok? && Bound(old(fs.st), dir, to) == None ==>
      Swing(old(fs.st), fs.st, dir, from, to, Bound(old(fs.st), dir, from).value)
    ensures r.Ok? && Bound(old(fs.st), dir, to).Some? ==>
      Ousted(old(fs.st), fs.st, dir, from, to, Bound(old(fs.st), dir, from).value, Bound(old(fs.st), dir, to).value)
    ensures r.Ok? ==> fs.faults == old(fs.faults)
    ensures fs.faults == old(fs.faults) && Bound(old(fs.st), dir, from).Some? && Bound(old(fs.st), dir, to) == None ==>
      r.Ok?
  {
    ghost var a := fs.st;
    if Bound(a, dir, from).Some? { NeverIntoSelf(a, dir, from); }
    r := fs.RenameAt(dir, from, dir, to);
    if r.Ok? { InDirRename(a, dir, from, to, fs.st); }
  }

  // ------------------------------------------------------------------ moving aside

  /** Side `dir` of `b` is side `dir` of `a` with the entry `net` under the aside name, if one is given. */
  ghost predicate SideAside(a: Fs, b: Fs, dir: Ino, net: Name, reason: string, aside: Option<Name>) {
    match aside
    case None => forall n: Name :: Bound(b, dir, n) == Bound(a, dir, n)
    case Some(name) =>
      && IsAside(net, reason, name) && name != net && Bound(a, dir, net).Some? && Bound(a, dir, name) == None
      && forall n: Name ::
        Bound(b, dir, n) == if n == name then Bound(a, dir, net) else if n == net then None else Bound(a, dir, n)
  }

  /** Both sides, and nothing else. */
  ghost predicate BothAside(a: Fs, b: Fs, d: NetDirs, net: Name, reason: string, data: Option<Name>,
                            cache: Option<Name>) {
    && ValidFs(b) && SameMeta(a, b) && Touch(a, b, {d.data, d.cache})
    && SideAside(a, b, d.data, net, reason, data) && SideAside(a, b, d.cache, net, reason, cache)
  }

  function AsideMove(l: UserLayout, place: Place, net: Name, aside: Name): Move {
    Move(Nets(l, place) + [net], Nets(l, place) + [aside])
  }

  function Entry(l: UserLayout, place: Place, net: Name, aside: Option<Name>): seq<(Place, Move)> {
    match aside case None => [] case Some(name) => [(place, AsideMove(l, place, net, name))]
  }

  ghost predicate SomeAside(a: Fs, b: Fs, d: NetDirs, net: Name, reason: string) {
    exists x, y :: BothAside(a, b, d, net, reason, x, y)
  }

  lemma SomeAsideBy(a: Fs, b: Fs, d: NetDirs, net: Name, reason: string, x: Option<Name>, y: Option<Name>)
    requires BothAside(a, b, d, net, reason, x, y)
    ensures SomeAside(a, b, d, net, reason)
  {
  }

  lemma AsideRefl(a: Fs, d: NetDirs, net: Name, reason: string)
    requires ValidFs(a)
    ensures BothAside(a, a, d, net, reason, None, None)
  {
  }

  predicate GoodReason(reason: string) {
    reason == REPLACED || reason == RESET
  }

  lemma AsideNameFresh(fs: Fs, dir: Ino, net: Name, reason: string, ts: string, name: Name)
    requires ValidNetwork(net) && GoodReason(reason) && LeastFree(fs, dir, AsideName(net, reason, ts), name)
    ensures IsAside(net, reason, name) && name != net && Bound(fs, dir, name) == None
  {
    AsideIsAside(fs, dir, net, reason, ts, name);
    RunNames(net, ts, reason, name);
  }

  /** `None` when there is nothing to move. */
  method MoveAsideIn(fs: FileSystem, dir: Ino, net: Name, reason: string, ts: string)
    returns (r: Result<Option<Name>, Failure>)
    requires fs.Valid() && IsDir(fs.st, dir) && ValidNetwork(net) && GoodReason(reason)
    modifies fs
    ensures r.Err? ==> fs.Looked() && r.error == Failure(DestinationStage)
    ensures r == Ok(None) ==> fs.Looked() && Bound(fs.st, dir, net) == None
    ensures r.Ok? && r.value.Some? ==>
      && fs.Stepped() && LeastFree(old(fs.st), dir, AsideName(net, reason, ts), r.value.value)
      && Stamped(AsideName(net, reason, ts), r.value.value)
    ensures r.Ok? && r.value.Some? ==>
      IsAside(net, reason, r.value.value) && r.value.value != net && Bound(old(fs.st), dir, net).Some?
    ensures r.Ok? && r.value.Some? ==>
      Swing(old(fs.st), fs.st, dir, net, r.value.value, Bound(old(fs.st), dir, net).value)
    ensures r.Ok? ==> fs.faults == old(fs.faults)
    ensures fs.faults == old(fs.faults) ==> r.Ok?
  {
    hide ValidFs, Touch, Swing, Ousted, LeastFree, Stamped;
    var failed := Err(Failure(DestinationStage));
    var here := fs.Exists(dir, net);
    if here.Err? { return failed; }
    if !here.value { return Ok(None); }
    var aside := UniqueName(fs, dir, AsideName(net, reason, ts));
    if aside.Err? { return failed; }
    AsideNameFresh(fs.st, dir, net, reason, ts, aside.value);
    FreeStamped(fs.st, dir, AsideName(net, reason, ts), aside.value);
    var moved := RenameIn(fs, dir, net, aside.value);
    if moved.Err? { return failed; }
    r := Ok(Some(aside.value));
  }

  /** One more side aside: the sides are different directories. */
  lemma AsideMore(a: Fs, b: Fs, c: Fs, d: NetDirs, net: Name, reason: string, data: Option<Name>, cache: Option<Name>,
                  place: Place, name: Name)
    requires BothAside(a, b, d, net, reason, data, cache) && d.data != d.cache && IsAside(net, reason, name)
    requires name != net
    requires (if place.Data? then data else cache) == None
    requires Bound(b, Side(d, place), net).Some?
    requires Swing(b, c, Side(d, place), net, name, Bound(b, Side(d, place), net).value)
    ensures BothAside(a, c, d, net, reason, if place.Data? then Some(name) else data,
                      if place.Data? then cache else Some(name))
  {
    TouchTrans(a, b, c, {d.data, d.cache}, {Side(d, place)});
  }

  // ------------------------------------------------------------------ and back

  /** What the kernel lets a rename replace: nothing that holds anything. */
  ghost predicate Yields(fs: Fs, y: Ino) {
    IsDir(fs, y) ==> forall n: Name :: Bound(fs, y, n) == None
  }

  /** Whether the aside entry of this side was renamed back onto the network name. */
  ghost predicate SideBack(c: Fs, b: Fs, dir: Ino, net: Name, aside: Option<Name>, back: bool) {
    if back then
      && aside.Some? && Bound(c, dir, aside.value).Some?
      && (Bound(c, dir, net).Some? ==> Yields(c, Bound(c, dir, net).value))
      && forall n: Name ::
        Bound(b, dir, n) ==
          if n == net then Bound(c, dir, aside.value) else if n == aside.value then None else Bound(c, dir, n)
    else forall n: Name :: Bound(b, dir, n) == Bound(c, dir, n)
  }

  ghost predicate BothBack(c: Fs, b: Fs, d: NetDirs, net: Name, data: Option<Name>, cache: Option<Name>, dataBack: bool,
                           cacheBack: bool) {
    && ValidFs(b) && SameMeta(c, b) && Touch(c, b, {d.data, d.cache})
    && SideBack(c, b, d.data, net, data, dataBack) && SideBack(c, b, d.cache, net, cache, cacheBack)
  }

  ghost predicate SomeBack(c: Fs, b: Fs, d: NetDirs, net: Name, data: Option<Name>, cache: Option<Name>) {
    exists x, y :: BothBack(c, b, d, net, data, cache, x, y)
  }

  lemma SomeBackBy(c: Fs, b: Fs, d: NetDirs, net: Name, data: Option<Name>, cache: Option<Name>, x: bool, y: bool)
    requires BothBack(c, b, d, net, data, cache, x, y)
    ensures SomeBack(c, b, d, net, data, cache)
  {
  }

  lemma BackRefl(c: Fs, d: NetDirs, net: Name, data: Option<Name>, cache: Option<Name>)
    requires ValidFs(c)
    ensures BothBack(c, c, d, net, data, cache, false, false)
  {
  }

  lemma BackMore(c: Fs, b: Fs, e: Fs, d: NetDirs, net: Name, data: Option<Name>, cache: Option<Name>, dataBack: bool,
                 cacheBack: bool, place: Place, name: Name)
    requires BothBack(c, b, d, net, data, cache, dataBack, cacheBack) && d.data != d.cache && name != net
    requires !(if place.Data? then dataBack else cacheBack) && (if place.Data? then data else cache) == Some(name)
    requires Bound(b, Side(d, place), name).Some? && ValidFs(e) && Touch(b, e, {Side(d, place)}) && SameMeta(b, e)
    requires Renamed(b, e, Side(d, place), name, Side(d, place), net, Bound(b, Side(d, place), name).value)
    requires Bound(b, Side(d, place), net).Some? ==> Yields(b, Bound(b, Side(d, place), net).value)
    ensures BothBack(c, e, d, net, data, cache, dataBack || place.Data?, cacheBack || place.Cache?)
  {
    hide Yields, Touch, ValidFs, NoNewLinks, BoundIn, Bound, SameKind;
    if Bound(b, Side(d, place), net).Some? { YieldsEarlier(c, b, d, net, data, cache, dataBack, cacheBack, place); }
    TouchTrans(c, b, e, {d.data, d.cache}, {Side(d, place)});
  }

  /** What yields after the other side came back already did before. */
  lemma YieldsEarlier(c: Fs, b: Fs, d: NetDirs, net: Name, data: Option<Name>, cache: Option<Name>, dataBack: bool,
                      cacheBack: bool, place: Place)
    requires BothBack(c, b, d, net, data, cache, dataBack, cacheBack) && !(if place.Data? then dataBack else cacheBack)
    requires Bound(b, Side(d, place), net).Some? && Yields(b, Bound(b, Side(d, place), net).value)
    ensures Bound(c, Side(d, place), net).Some? && Yields(c, Bound(c, Side(d, place), net).value)
  {
    hide ValidFs, Touch, Yields;
    OtherHolds(c, b, d, net, data, cache, dataBack, cacheBack, place);
    if place.Data? {
      YieldsBefore(c, b, d.data, d.cache, Bound(b, d.data, net).value);
    } else {
      assert {d.cache, d.data} == {d.data, d.cache};
      YieldsBefore(c, b, d.cache, d.data, Bound(b, d.cache, net).value);
    }
  }

  lemma YieldsBefore(c: Fs, b: Fs, here: Ino, other: Ino, y: Ino)
    requires Touch(c, b, {here, other}) && SameMeta(c, b) && Yields(b, y)
    requires forall n: Name :: Bound(b, here, n) == Bound(c, here, n)
    requires (forall n: Name :: Bound(b, other, n) == None) ==> forall n: Name :: Bound(c, other, n) == None
    ensures Yields(c, y)
  {
    hide ValidFs;
    if IsDir(c, y) {
      assert IsDir(b, y) && forall n: Name :: Bound(b, y, n) == None;
      if y == here {
        assert forall n: Name :: Bound(c, y, n) == Bound(b, y, n);
      } else if y == other {
        assert forall n: Name :: Bound(b, other, n) == None;
      } else {
        assert SameBody(c.nodes[y], b.nodes[y]);
        assert forall n: Name :: Bound(c, y, n) == Bound(b, y, n);
      }
    }
  }

  /** A side that is empty never had anything put back. */
  lemma OtherHolds(c: Fs, b: Fs, d: NetDirs, net: Name, data: Option<Name>, cache: Option<Name>, dataBack: bool,
                   cacheBack: bool, place: Place)
    requires BothBack(c, b, d, net, data, cache, dataBack, cacheBack)
    ensures var other := if place.Data? then d.cache else d.data;
      (forall n: Name :: Bound(b, other, n) == None) ==> forall n: Name :: Bound(c, other, n) == None
  {
    hide ValidFs, Touch, SameMeta, Yields;
    var other := if place.Data? then d.cache else d.data;
    assert (if place.Data? then cacheBack else dataBack) ==> Bound(b, other, net).Some?;
  }

  /** What `restore` leaves of a completed move aside. */
  lemma AsideBack(a: Fs, c: Fs, b: Fs, d: NetDirs, net: Name, reason: string, data: Option<Name>, cache: Option<Name>,
                  dataBack: bool, cacheBack: bool)
    requires BothAside(a, c, d, net, reason, data, cache) && BothBack(c, b, d, net, data, cache, dataBack, cacheBack)
    ensures BothAside(a, b, d, net, reason, if dataBack then None else data, if cacheBack then None else cache)
  {
    TouchTrans(a, c, b, {d.data, d.cache}, {d.data, d.cache});
  }

  lemma SomeAsideBack(a: Fs, c: Fs, b: Fs, d: NetDirs, net: Name, reason: string, data: Option<Name>,
                      cache: Option<Name>)
    requires BothAside(a, c, d, net, reason, data, cache) && SomeBack(c, b, d, net, data, cache)
    ensures SomeAside(a, b, d, net, reason)
  {
    var x, y :| BothBack(c, b, d, net, data, cache, x, y);
    AsideBack(a, c, b, d, net, reason, data, cache, x, y);
  }

  lemma BackKeeps(c: Fs, b: Fs, d: NetDirs, net: Name, data: Option<Name>, cache: Option<Name>, x: bool, y: bool)
    requires BothBack(c, b, d, net, data, cache, x, y)
    ensures !x ==> forall n: Name :: Bound(b, d.data, n) == Bound(c, d.data, n)
    ensures !y ==> forall n: Name :: Bound(b, d.cache, n) == Bound(c, d.cache, n)
    ensures IsDir(c, d.data) ==> IsDir(b, d.data)
    ensures IsDir(c, d.cache) ==> IsDir(b, d.cache)
  {
  }

  predicate SoundEntry(net: Name, aside: Option<Name>) {
    aside.Some? ==> aside.value != net
  }

  /** One side of `Restore`, and whether it took effect. */
  method RestoreSide(fs: FileSystem, d: NetDirs, place: Place, m: Move, ghost net: Name, ghost name: Name)
    returns (ghost back: bool)
    requires fs.Valid() && IsDir(fs.st, Side(d, place)) && name != net
    requires m.from != [] && m.to != [] && m.from[|m.from| - 1] == net && m.to[|m.to| - 1] == name
    modifies fs
    ensures back ==> fs.Stepped() && Touch(old(fs.st), fs.st, {Side(d, place)}) && SameMeta(old(fs.st), fs.st)
    ensures back ==> Bound(old(fs.st), Side(d, place), name).Some?
    ensures back ==>
      Renamed(old(fs.st), fs.st, Side(d, place), name, Side(d, place), net,
              Bound(old(fs.st), Side(d, place), name).value)
    ensures back && Bound(old(fs.st), Side(d, place), net).Some? ==>
      Yields(old(fs.st), Bound(old(fs.st), Side(d, place), net).value)
    ensures !back ==>
      fs.Ran() && fs.st == old(fs.st) && forall k :: old(|fs.history|) <= k < |fs.history| ==> fs.history[k] == fs.st
    ensures fs.faults == old(fs.faults) && Bound(old(fs.st), Side(d, place), name).Some? ==>
      Bound(old(fs.st), Side(d, place), net) == None ==> back
  {
    hide ValidFs, Touch;
    ghost var c := fs.st;
    var undo := RenameIn(fs, Side(d, place), m.to[|m.to| - 1], m.from[|m.from| - 1]);
    back := undo.Ok? && Bound(c, Side(d, place), net) != Bound(c, Side(d, place), name);
  }

  /** Tries both sides whatever becomes of the other. Without faults an entry is back under the network name if that
      name was free; what it replaces is never a directory with names in it. */
  method Restore(fs: FileSystem, ghost l: UserLayout, d: NetDirs, moved: seq<(Place, Move)>, ghost net: Name,
                 ghost data: Option<Name>, ghost cache: Option<Name>)
    returns (ghost dataBack: bool, ghost cacheBack: bool)
    requires fs.Valid() && IsDir(fs.st, d.data) && IsDir(fs.st, d.cache) && d.data != d.cache
    requires moved == Entry(l, Data, net, data) + Entry(l, Cache, net, cache) && SoundEntry(net, data)
    requires SoundEntry(net, cache)
    modifies fs
    ensures fs.Ran() && BothBack(old(fs.st), fs.st, d, net, data, cache, dataBack, cacheBack)
    ensures forall k :: old(|fs.history|) <= k < |fs.history| ==>
      SomeBack(old(fs.st), fs.history[k], d, net, data, cache)
    ensures fs.faults == old(fs.faults) && data.Some? && Bound(old(fs.st), d.data, data.value).Some? ==>
      Bound(old(fs.st), d.data, net) == None ==> dataBack
    ensures fs.faults == old(fs.faults) && cache.Some? && Bound(old(fs.st), d.cache, cache.value).Some? ==>
      Bound(old(fs.st), d.cache, net) == None ==> cacheBack
  {
    hide ValidFs, Touch, SomeBack, BothBack, Renamed, SameMeta, Yields, SideBack, IsDir;
    ghost var c := fs.st;
    dataBack, cacheBack := false, false;
    BackRefl(c, d, net, data, cache);
    var k := 0;
    while k < |moved|
      invariant k <= |moved| && fs.Ran() && BothBack(c, fs.st, d, net, data, cache, dataBack, cacheBack)
      invariant dataBack ==> k >= |Entry(l, Data, net, data)|
      invariant cacheBack ==> k >= |moved|
      invariant forall j :: old(|fs.history|) <= j < |fs.history| ==> SomeBack(c, fs.history[j], d, net, data, cache)
      invariant fs.faults == old(fs.faults) && data.Some? && Bound(c, d.data, data.value).Some? ==>
        Bound(c, d.data, net) == None && k >= 1 ==> dataBack
      invariant fs.faults == old(fs.faults) && cache.Some? && Bound(c, d.cache, cache.value).Some? ==>
        Bound(c, d.cache, net) == None && k >= |moved| ==> cacheBack
    {
      ghost var b, name := fs.st, moved[k].1.to[|moved[k].1.to| - 1];
      ghost var isData := k < |Entry(l, Data, net, data)|;
      BackKeeps(c, b, d, net, data, cache, dataBack, cacheBack);
      assert moved[k] ==
        (if isData then (Data, AsideMove(l, Data, net, data.value))
         else (Cache, AsideMove(l, Cache, net, cache.value)));
      var back := RestoreSide(fs, d, moved[k].0, moved[k].1, net, name);
      if back {
        BackMore(c, b, fs.st, d, net, data, cache, dataBack, cacheBack, moved[k].0, name);
        dataBack, cacheBack := dataBack || isData, cacheBack || !isData;
        SomeBackBy(c, fs.st, d, net, data, cache, dataBack, cacheBack);
      } else {
        SomeBackBy(c, fs.st, d, net, data, cache, dataBack, cacheBack);
      }
      k := k + 1;
    }
  }

  /** The cache side could not go: the data side is taken back. */
  method DataBack(fs: FileSystem, ghost a: Fs, ghost l: UserLayout, d: NetDirs, moved: seq<(Place, Move)>,
                  ghost net: Name, ghost reason: string, ghost data: Option<Name>)
    returns (ghost still: Option<Name>)
    requires fs.Valid() && IsDir(fs.st, d.data) && IsDir(fs.st, d.cache) && d.data != d.cache
    requires moved == Entry(l, Data, net, data) && SoundEntry(net, data)
    requires BothAside(a, fs.st, d, net, reason, data, None)
    modifies fs
    ensures fs.Went() && BothAside(a, fs.st, d, net, reason, still, None)
    ensures forall k :: old(|fs.history|) <= k < |fs.history| ==> SomeAside(a, fs.history[k], d, net, reason)
    ensures fs.undoFaults == old(fs.undoFaults) ==> still == None
    ensures old(fs.undoFaults) < fs.undoFaults ==> old(fs.faults) < fs.faults
  {
    hide ValidFs, Touch, BothAside, BothBack, SameMeta, SomeBack, SomeAside, Bound, IsDir;
    ghost var b, faults := fs.st, fs.faults;
    AsideGone(a, b, d, net, reason, data, None);
    ghost var dataBack, cacheBack;
    dataBack, cacheBack := Restore(fs, l, d, moved, net, data, None);
    AsideBack(a, b, fs.st, d, net, reason, data, None, dataBack, cacheBack);
    forall c: Fs | SomeBack(b, c, d, net, data, None) ensures SomeAside(a, c, d, net, reason) {
      SomeAsideBack(a, b, c, d, net, reason, data, None);
    }
    fs.NoteUndo(faults);
    still := if dataBack then None else data;
  }

  /** Both sides go by fresh aside names or neither does, unless an undo call met a fault, which takes a second one. */
  method MoveAside(fs: FileSystem, l: UserLayout, d: NetDirs, net: Name, reason: string, ts: string)
    returns (r: Result<seq<(Place, Move)>, Failure>, ghost data: Option<Name>, ghost cache: Option<Name>)
    requires fs.Valid() && IsDir(fs.st, d.data) && IsDir(fs.st, d.cache) && d.data != d.cache && ValidNetwork(net)
    requires GoodReason(reason)
    modifies fs
    ensures fs.Went() && BothAside(old(fs.st), fs.st, d, net, reason, data, cache)
    ensures r.Ok? ==> fs.undoFaults == old(fs.undoFaults)
    ensures forall k :: old(|fs.history|) <= k < |fs.history| ==> SomeAside(old(fs.st), fs.history[k], d, net, reason)
    ensures r.Ok? ==> r.value == Entry(l, Data, net, data) + Entry(l, Cache, net, cache)
    ensures r.Ok? && data.Some? ==> Stamped(AsideName(net, reason, ts), data.value)
    ensures r.Ok? && cache.Some? ==> Stamped(AsideName(net, reason, ts), cache.value)
    ensures r.Ok? ==> Bound(fs.st, d.data, net) == None && Bound(fs.st, d.cache, net) == None
    ensures r.Err? && fs.undoFaults == old(fs.undoFaults) ==> data == None && cache == None
    ensures old(fs.undoFaults) < fs.undoFaults ==> old(fs.faults) + 2 <= fs.faults
    ensures r.Err? ==> r.error == Failure(DestinationStage)
    ensures r.Ok? ==> fs.faults == old(fs.faults)
    ensures fs.faults == old(fs.faults) ==> r.Ok?
  {
    hide ValidFs, Touch, BothAside, BothBack, SameMeta, Swing, LeastFree, SomeBack, SomeAside, IsAside, AsideName,
      Bound, IsDir, GoodReason, ValidNetwork, Nets, SideAside, SideBack, BoundIn, Tree, Stamped;
    ghost var a := fs.st;
    data, cache := None, None;
    AsideRefl(a, d, net, reason);
    var first := MoveAsideIn(fs, d.data, net, reason, ts);
    if first.Err? { return Err(first.error), None, None; }
    var moved: seq<(Place, Move)> := [];
    if first.value.Some? {
      moved := [(Data, AsideMove(l, Data, net, first.value.value))];
      AsideMore(a, a, fs.st, d, net, reason, None, None, Data, first.value.value);
      SomeAsideBy(a, fs.st, d, net, reason, first.value, None);
    }
    data := first.value;
    ghost var b := fs.st;
    SomeAsideBy(a, b, d, net, reason, data, None);
    AsideGone(a, b, d, net, reason, data, None);
    var second := MoveAsideIn(fs, d.cache, net, reason, ts);
    if second.Err? {
      data := DataBack(fs, a, l, d, moved, net, reason, data);
      return Err(second.error), data, None;
    }
    if second.value.Some? {
      moved := moved + [(Cache, AsideMove(l, Cache, net, second.value.value))];
      AsideMore(a, b, fs.st, d, net, reason, data, None, Cache, second.value.value);
      SomeAsideBy(a, fs.st, d, net, reason, data, second.value);
    }
    cache := second.value;
    AsideGone(a, fs.st, d, net, reason, data, cache);
    r := Ok(moved);
  }

  /** An entry moved aside is no longer under the network name but under the aside one. */
  lemma AsideGone(a: Fs, b: Fs, d: NetDirs, net: Name, reason: string, data: Option<Name>, cache: Option<Name>)
    requires BothAside(a, b, d, net, reason, data, cache)
    ensures data.Some? || Bound(a, d.data, net) == None ==> Bound(b, d.data, net) == None
    ensures cache.Some? || Bound(a, d.cache, net) == None ==> Bound(b, d.cache, net) == None
    ensures data.Some? ==>
      Bound(b, d.data, data.value) == Bound(a, d.data, net) && Bound(a, d.data, net).Some? && data.value != net
    ensures cache.Some? ==>
      Bound(b, d.cache, cache.value) == Bound(a, d.cache, net) && Bound(a, d.cache, net).Some? && cache.value != net
    ensures data.None? ==> Bound(b, d.data, net) == Bound(a, d.data, net)
    ensures cache.None? ==> Bound(b, d.cache, net) == Bound(a, d.cache, net)
    ensures IsDir(a, d.data) ==> IsDir(b, d.data)
    ensures IsDir(a, d.cache) ==> IsDir(b, d.cache)
  {
  }

  // ------------------------------------------------------------------ dropping staging directories

  /** Only entries of the two staging trees are gone; everything else in the directories is untouched, and so is a
      staging name that leads to no directory. */
  ghost predicate Dropped(c: Fs, b: Fs, d: NetDirs, staging: Name) {
    && ValidFs(b) && OnlyEntries(c, b)
    && Touch(c, b, {d.data, d.cache} + TreeOf(c, d.data, staging) + TreeOf(c, d.cache, staging))
    && (forall x: Ino, n: Name :: Bound(b, x, n) == Bound(c, x, n) || Bound(b, x, n) == None)
    && (forall n: Name :: n != staging ==> Bound(b, d.data, n) == Bound(c, d.data, n))
    && (forall n: Name :: n != staging ==> Bound(b, d.cache, n) == Bound(c, d.cache, n))
    && (OpenDir(c, d.data, staging).Err? ==> Bound(b, d.data, staging) == Bound(c, d.data, staging))
    && (OpenDir(c, d.cache, staging).Err? ==> Bound(b, d.cache, staging) == Bound(c, d.cache, staging))
  }

  /** Neither `networks/` directory lies inside anything named in one of them. */
  lemma NetsApart(c: Fs, home: Ino, l: UserLayout, d: NetDirs, place: Place, name: Name)
    requires Placed(c, home, l, d) && WellLaid(l) && Bound(c, Side(d, place), name).Some?
    ensures !Reach(c, Bound(c, Side(d, place), name).value, d.data)
    ensures !Reach(c, Bound(c, Side(d, place), name).value, d.cache)
    ensures d.data != d.cache
  {
    hide ValidFs, Reach;
    var i, here := Bound(c, Side(d, place), name).value, Nets(l, place) + [name];
    LookupLast(c, home, Nets(l, place), name);
    assert !(here <= Nets(l, place));
    if here <= Nets(l, if place.Data? then Cache else Data) {
      assert Nets(l, place) <= here;
    }
    NotUnder(c, home, here, i, Nets(l, Data), d.data);
    NotUnder(c, home, here, i, Nets(l, Cache), d.cache);
    SidesDiffer(c, home, l, d);
  }

  lemma SidesDiffer(c: Fs, home: Ino, l: UserLayout, d: NetDirs)
    requires Placed(c, home, l, d) && WellLaid(l)
    ensures d.data != d.cache
  {
    if d.data == d.cache { UniquePath(c, home, Nets(l, Data), Nets(l, Cache)); }
  }

  lemma DropRefl(c: Fs, d: NetDirs, staging: Name)
    requires ValidFs(c)
    ensures Dropped(c, c, d, staging)
  {
  }

  lemma ReachShrunk(c: Fs, b: Fs, x: Ino, y: Ino)
    requires Reach(b, x, y) && forall z: Ino, n: Name :: Bound(b, z, n) == Bound(c, z, n) || Bound(b, z, n) == None
    ensures Reach(c, x, y)
  {
    var p :| Lookup(b, x, p) == Some(y);
    LookupShrunk(c, b, x, p);
  }

  lemma DropTouch(c: Fs, b: Fs, e: Fs, d: NetDirs, staging: Name, place: Place)
    requires Dropped(c, b, d, staging) && Pruned(b, e, Side(d, place), staging)
    ensures Touch(c, e, {d.data, d.cache} + TreeOf(c, d.data, staging) + TreeOf(c, d.cache, staging))
  {
    hide Touch, ValidFs, Reach, InTree;
    var dir := Side(d, place);
    PrunedTouch(b, e, dir, staging);
    var all := {d.data, d.cache} + TreeOf(c, d.data, staging) + TreeOf(c, d.cache, staging);
    var more := {dir} + TreeOf(b, dir, staging);
    forall x: Ino | x in more && x in c.nodes ensures x in all {
      if x != dir {
        var i := Bound(b, dir, staging).value;
        assert Bound(c, dir, staging) == Some(i);
        ReachShrunk(c, b, i, x);
        assert x in Subtree(c, i) && IsDir(c, x);
      }
    }
    TouchTrans(c, b, e, all, more);
  }

  lemma PrunedNames(b: Fs, e: Fs, dir: Ino, name: Name, side: Ino)
    requires Pruned(b, e, dir, name) && (Bound(b, dir, name).Some? ==> !Reach(b, Bound(b, dir, name).value, side))
    ensures forall n: Name :: n != name ==> Bound(e, side, n) == Bound(b, side, n)
    ensures side != dir ==> Bound(e, side, name) == Bound(b, side, name)
  {
    hide Reach, OnlyEntries;
  }

  lemma StillDir(c: Fs, b: Fs, d: NetDirs, staging: Name, place: Place)
    requires Dropped(c, b, d, staging) && OpenDir(b, Side(d, place), staging).Ok?
    ensures OpenDir(c, Side(d, place), staging).Ok?
  {
    hide Touch, ValidFs;
  }

  ghost predicate Fewer(c: Fs, b: Fs) {
    OnlyEntries(c, b) && forall x: Ino, n: Name :: Bound(b, x, n) == Bound(c, x, n) || Bound(b, x, n) == None
  }

  lemma FewerTrans(c: Fs, b: Fs, e: Fs)
    requires Fewer(c, b) && Fewer(b, e)
    ensures Fewer(c, e)
  {
  }

  lemma DropMore(c: Fs, b: Fs, e: Fs, home: Ino, l: UserLayout, d: NetDirs, staging: Name, place: Place)
    requires Placed(c, home, l, d) && WellLaid(l) && Dropped(c, b, d, staging) && Pruned(b, e, Side(d, place), staging)
    requires ValidFs(e)
    requires OpenDir(c, Side(d, place), staging).Ok?
    ensures Dropped(c, e, d, staging)
  {
    hide Touch, OnlyEntries, WellLaid, Tree, Placed, Lookup, OpenDir, InTree, TreeOf, Bound, Nets, Side, IsDir;
    DropTouch(c, b, e, d, staging, place);
    var dir := Side(d, place);
    assert Fewer(c, b) && Fewer(b, e) by { hide Touch, ValidFs, Reach; }
    FewerTrans(c, b, e);
    if Bound(b, dir, staging).Some? {
      var i := Bound(b, dir, staging).value;
      assert Bound(c, dir, staging) == Some(i);
      NetsApart(c, home, l, d, place, staging);
      if Reach(b, i, d.data) { ReachShrunk(c, b, i, d.data); }
      if Reach(b, i, d.cache) { ReachShrunk(c, b, i, d.cache); }
    }
    SidesDiffer(c, home, l, d);
    PrunedNames(b, e, dir, staging, d.data);
    PrunedNames(b, e, dir, staging, d.cache);
  }

  /** Each side on its own: a directory that goes by the name is removed with its subtree; anything else, and nothing,
      is left. */
  method Remove(fs: FileSystem, ghost home: Ino, ghost l: UserLayout, d: NetDirs, staging: Name)
    requires fs.Valid() && Placed(fs.st, home, l, d) && WellLaid(l)
    modifies fs
    ensures fs.Ran() && Dropped(old(fs.st), fs.st, d, staging)
    ensures forall k :: old(|fs.history|) <= k < |fs.history| ==> Dropped(old(fs.st), fs.history[k], d, staging)
    ensures fs.faults == old(fs.faults) ==>
      OpenDir(fs.st, d.data, staging).Err? && OpenDir(fs.st, d.cache, staging).Err?
  {
    hide ValidFs, Touch, Dropped, Pruned, Removed, Placed;
    ghost var c := fs.st;
    DropRefl(c, d, staging);
    var dirs, k := [d.data, d.cache], 0;
    while k < 2
      invariant k <= 2 && fs.Ran() && Dropped(c, fs.st, d, staging) && dirs == [d.data, d.cache]
      invariant forall j :: old(|fs.history|) <= j < |fs.history| ==> Dropped(c, fs.history[j], d, staging)
      invariant fs.faults == old(fs.faults) && k >= 1 ==> OpenDir(fs.st, d.data, staging).Err?
      invariant fs.faults == old(fs.faults) && k >= 2 ==> OpenDir(fs.st, d.cache, staging).Err?
    {
      ghost var b, place := fs.st, if k == 0 then Data else Cache;
      var gone := RemoveTree(fs, dirs[k], staging);
      if OpenDir(b, dirs[k], staging).Ok? {
        StillDir(c, b, d, staging, place);
        forall e: Fs | ValidFs(e) && Pruned(b, e, Side(d, place), staging) ensures Dropped(c, e, d, staging) {
          DropMore(c, b, e, home, l, d, staging, place);
        }
      }
      if gone.Ok? { RemovedGone(b, fs.st, dirs[k], staging); }
      if k == 1 && OpenDir(b, d.data, staging).Err? { StaysGone(b, fs.st, d.cache, staging, d.data); }
      k := k + 1;
    }
  }

  lemma RemovedGone(b: Fs, e: Fs, dir: Ino, staging: Name)
    requires Removed(b, e, dir, staging)
    ensures OpenDir(e, dir, staging).Err?
  {
  }

  lemma StaysGone(b: Fs, e: Fs, dir: Ino, staging: Name, other: Ino)
    requires Pruned(b, e, dir, staging) && OpenDir(b, other, staging).Err?
    ensures OpenDir(e, other, staging).Err?
  {
  }

  // ------------------------------------------------------------------ publishing

  /** Side `dir` of `b` has its staging entry under the network name, or is as it was. */
  ghost predicate SidePublished(c: Fs, b: Fs, dir: Ino, staging: Name, net: Name, live: bool) {
    forall n: Name :: Bound(b, dir, n) ==
      if live && n == net then Bound(c, dir, staging) else if live && n == staging then None else Bound(c, dir, n)
  }

  ghost predicate BothPublished(c: Fs, b: Fs, d: NetDirs, staging: Name, net: Name, data: bool, cache: bool) {
    && ValidFs(b) && SameMeta(c, b) && Touch(c, b, {d.data, d.cache})
    && SidePublished(c, b, d.data, staging, net, data) && SidePublished(c, b, d.cache, staging, net, cache)
  }

  /** Some stage of publishing: nothing, the data side only, or both sides. */
  ghost predicate Publishing(c: Fs, b: Fs, d: NetDirs, staging: Name, net: Name) {
    || BothPublished(c, b, d, staging, net, false, false)
    || BothPublished(c, b, d, staging, net, true, false)
    || BothPublished(c, b, d, staging, net, true, true)
  }

  /** The cache side is not published. */
  ghost predicate Unpublished(c: Fs, b: Fs, d: NetDirs, staging: Name, net: Name) {
    BothPublished(c, b, d, staging, net, false, false) || BothPublished(c, b, d, staging, net, true, false)
  }

  lemma PublishRefl(c: Fs, d: NetDirs, staging: Name, net: Name)
    requires ValidFs(c)
    ensures BothPublished(c, c, d, staging, net, false, false)
  {
  }

  lemma PublishMore(c: Fs, b: Fs, e: Fs, d: NetDirs, staging: Name, net: Name, data: bool, cache: bool, place: Place)
    requires BothPublished(c, b, d, staging, net, data, cache) && d.data != d.cache && staging != net
    requires !(if place.Data? then data else cache) && Bound(b, Side(d, place), staging).Some?
    requires Swing(b, e, Side(d, place), staging, net, Bound(b, Side(d, place), staging).value)
    ensures BothPublished(c, e, d, staging, net, data || place.Data?, cache || place.Cache?)
  {
    TouchTrans(c, b, e, {d.data, d.cache}, {Side(d, place)});
  }

  lemma PublishTakenBack(c: Fs, b: Fs, e: Fs, d: NetDirs, staging: Name, net: Name)
    requires BothPublished(c, b, d, staging, net, true, false) && d.data != d.cache && staging != net
    requires Bound(c, d.data, net) == None && Bound(c, d.data, staging).Some?
    requires Swing(b, e, d.data, net, staging, Bound(b, d.data, net).value)
    ensures BothPublished(c, e, d, staging, net, false, false)
  {
    TouchTrans(c, b, e, {d.data, d.cache}, {d.data});
  }

  lemma PublishedNames(c: Fs, b: Fs, d: NetDirs, staging: Name, net: Name, data: bool, cache: bool)
    requires BothPublished(c, b, d, staging, net, data, cache) && staging != net
    requires Bound(c, d.data, net) == None && Bound(c, d.cache, net) == None
    ensures Bound(b, d.data, net) == (if data then Bound(c, d.data, staging) else None)
    ensures Bound(b, d.data, staging) == (if data then None else Bound(c, d.data, staging))
    ensures Bound(b, d.cache, net) == (if cache then Bound(c, d.cache, staging) else None)
    ensures Bound(b, d.cache, staging) == (if cache then None else Bound(c, d.cache, staging))
    ensures IsDir(c, d.data) ==> IsDir(b, d.data)
    ensures IsDir(c, d.cache) ==> IsDir(b, d.cache)
  {
  }

  /** Whether a state since `from` had only the data side published, and whether one had both. */
  ghost predicate PassedHalf(c: Fs, h: seq<Fs>, from: nat, d: NetDirs, staging: Name, net: Name) {
    exists k :: from <= k < |h| && BothPublished(c, h[k], d, staging, net, true, false)
  }

  ghost predicate PassedBoth(c: Fs, h: seq<Fs>, from: nat, d: NetDirs, staging: Name, net: Name) {
    exists k :: from <= k < |h| && BothPublished(c, h[k], d, staging, net, true, true)
  }

  lemma PassedBy(c: Fs, h: seq<Fs>, from: nat, d: NetDirs, staging: Name, net: Name, half: nat, both: nat)
    requires from <= half < |h| && BothPublished(c, h[half], d, staging, net, true, false)
    requires from <= both < |h| && BothPublished(c, h[both], d, staging, net, true, true)
    ensures PassedHalf(c, h, from, d, staging, net) && PassedBoth(c, h, from, d, staging, net)
  {
    hide BothPublished;
  }

  lemma StageOf(c: Fs, b: Fs, d: NetDirs, staging: Name, net: Name, data: bool, cache: bool)
    requires BothPublished(c, b, d, staging, net, data, cache) && (cache ==> data)
    ensures Publishing(c, b, d, staging, net) && (!cache ==> Unpublished(c, b, d, staging, net))
  {
    hide BothPublished;
  }

  /** Renames a published data directory back to its staging name. */
  method TakeBack(fs: FileSystem, ghost c: Fs, d: NetDirs, staging: Name, net: Name)
    requires fs.Valid() && IsDir(fs.st, d.data) && d.data != d.cache && staging != net
    requires BothPublished(c, fs.st, d, staging, net, true, false)
    requires Bound(c, d.data, net) == None && Bound(c, d.data, staging).Some?
    requires Bound(fs.st, d.data, net).Some? && Bound(fs.st, d.data, staging) == None
    modifies fs
    ensures fs.Went() && Unpublished(c, fs.st, d, staging, net) && Publishing(c, fs.st, d, staging, net)
    ensures forall k :: old(|fs.history|) <= k < |fs.history| ==>
      Unpublished(c, fs.history[k], d, staging, net) && Publishing(c, fs.history[k], d, staging, net)
    ensures fs.undoFaults == old(fs.undoFaults) ==> BothPublished(c, fs.st, d, staging, net, false, false)
    ensures old(fs.undoFaults) < fs.undoFaults ==> old(fs.faults) < fs.faults
  {
    hide ValidFs, Touch, Swing, Ousted, BothPublished, Rename, Links, Publishing, Unpublished;
    ghost var b, faults := fs.st, fs.faults;
    StageOf(c, b, d, staging, net, true, false);
    var undo := RenameIn(fs, d.data, net, staging);
    if undo.Ok? {
      PublishTakenBack(c, b, fs.st, d, staging, net);
      StageOf(c, fs.st, d, staging, net, false, false);
    }
    fs.NoteUndo(faults);
  }

  /** Data before cache. Unless both are in place, an undo that meets no fault leaves neither, so every state has
      nothing, the data side only or both. `committed` says that both renames went through. */
  method Publish(fs: FileSystem, d: NetDirs, staging: Name, net: Name)
    returns (r: Result<(), Failure>, ghost committed: bool)
    requires fs.Valid() && IsDir(fs.st, d.data) && IsDir(fs.st, d.cache) && d.data != d.cache && staging != net
    requires Bound(fs.st, d.data, staging).Some? && Bound(fs.st, d.cache, staging).Some?
    requires Bound(fs.st, d.data, net) == None && Bound(fs.st, d.cache, net) == None
    modifies fs
    ensures fs.Went() && Publishing(old(fs.st), fs.st, d, staging, net)
    ensures r.Ok? ==> fs.undoFaults == old(fs.undoFaults)
    ensures forall k :: old(|fs.history|) <= k < |fs.history| ==> Publishing(old(fs.st), fs.history[k], d, staging, net)
    ensures r.Ok? ==> committed
    ensures committed ==> BothPublished(old(fs.st), fs.st, d, staging, net, true, true)
    ensures committed ==> PassedHalf(old(fs.st), fs.history, old(|fs.history|), d, staging, net)
    ensures committed ==> PassedBoth(old(fs.st), fs.history, old(|fs.history|), d, staging, net)
    ensures !committed ==>
      forall k :: old(|fs.history|) <= k < |fs.history| ==> Unpublished(old(fs.st), fs.history[k], d, staging, net)
    ensures !committed ==> Unpublished(old(fs.st), fs.st, d, staging, net)
    ensures !committed && fs.undoFaults == old(fs.undoFaults) ==>
      BothPublished(old(fs.st), fs.st, d, staging, net, false, false)
    ensures old(fs.undoFaults) < fs.undoFaults ==> old(fs.faults) + 2 <= fs.faults
    ensures r.Err? ==> r.error == Failure(DestinationStage)
    ensures r.Ok? ==> fs.faults == old(fs.faults)
    ensures fs.faults == old(fs.faults) ==> r.Ok?
  {
    hide ValidFs, Touch, Swing, Ousted, BothPublished, Bound, Rename, Links, PassedHalf, PassedBoth, Publishing,
      Unpublished, Closed, SameMeta, IsDir, SidePublished, Tree;
    ghost var c := fs.st;
    var failed := Err(Failure(DestinationStage));
    committed := false;
    PublishRefl(c, d, staging, net);
    StageOf(c, c, d, staging, net, false, false);
    var data := RenameIn(fs, d.data, staging, net);
    if data.Err? { return failed, false; }
    ghost var b, half := fs.st, |fs.history| - 1;
    PublishMore(c, c, b, d, staging, net, false, false, Data);
    PublishedNames(c, b, d, staging, net, true, false);
    StageOf(c, b, d, staging, net, true, false);
    var cache := RenameIn(fs, d.cache, staging, net);
    if cache.Err? {
      TakeBack(fs, c, d, staging, net);
      return failed, false;
    }
    PublishMore(c, b, fs.st, d, staging, net, true, false, Cache);
    committed := true;
    ghost var both := |fs.history| - 1;
    StageOf(c, fs.st, d, staging, net, true, true);
    assert fs.history[half] == b;
    PassedBy(c, fs.history, old(|fs.history|), d, staging, net, half, both);
    var syncData := fs.Attempt();
    if syncData.Err? { return failed, true; }
    var syncCache := fs.Attempt();
    if syncCache.Err? { return failed, true; }
    r := Ok(());
  }
}
