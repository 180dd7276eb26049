/** The steps of a relocation: the paths each is about, the states it passes through, and what its result tells. */
module Relocate {
  import opened Kernel
  import opened Trees
  import opened Steps
  import opened Growth
  import opened FileSystems
  import opened Nofollow
  import opened Layout
  import opened TreeWalks
  import opened Staging
  import opened Networks
  import opened Safety
  import opened Rollback
  import opened Regions

  datatype Step =
    | MoveStep(from: Path, to: Path, parents: seq<(Path, nat)>)
    | RemoveTreeStep(path: Path)
    | RemoveEmptyDirStep(path: Path)

  datatype Done = Nothing | MovedTo(to: Path) | RemovedIt

  datatype Report = Report(moved: seq<Move>, removed: seq<Path>, failed: seq<Path>)

  // ------------------------------------------------------------------ two more calls on handles

  /** Unbinds a leaf, or a directory with its whole subtree. */
  method Remove(fs: FileSystem, parent: Ino, name: Name) returns (r: Result<(), Errno>)
    requires fs.Valid()
    modifies fs
    ensures fs.Ran() && Pruned(old(fs.st), fs.st, parent, name)
    ensures forall k :: old(|fs.history|) <= k < |fs.history| ==> Pruned(old(fs.st), fs.history[k], parent, name)
    ensures r.Ok? ==> Removed(old(fs.st), fs.st, parent, name) && Bound(old(fs.st), parent, name).Some?
    ensures r.Ok? ==> fs.faults == old(fs.faults)
    ensures fs.faults == old(fs.faults) ==> (r.Ok? <==> Bound(old(fs.st), parent, name).Some?)
  {
    hide ValidFs, Pruned, Removed, Reach, InTree;
    ghost var c := fs.st;
    PrunedRefl(c, parent, name);
    var stat := fs.Stat(parent, name);
    if stat.Err? { return Err(stat.error); }
    if IsDir(fs.st, stat.value) {
      r := RemoveTree(fs, parent, name);
    } else {
      r := fs.UnlinkAt(parent, name);
      if r.Ok? { LeafGone(c, fs.st, parent, name); }
    }
  }

  lemma LeafGone(c: Fs, b: Fs, parent: Ino, name: Name)
    requires ValidFs(c) && Unlink(c, parent, name) == Ok(b)
    ensures Removed(c, b, parent, name) && Pruned(c, b, parent, name)
  {
    hide Removed, Pruned;
    var s :| Shaped(c, s);
    CutLeaf(c, b, parent, name, s);
  }

  /** Tells a removal from there being nothing to remove; only an empty directory loses its name. */
  method RemoveEmptyDir(fs: FileSystem, parent: Ino, name: Name) returns (r: Result<bool, Errno>)
    requires fs.Valid()
    modifies fs
    ensures r == Ok(true) ==> fs.Stepped() && Rmdir(old(fs.st), parent, name) == Ok(fs.st)
    ensures r != Ok(true) ==> fs.Looked()
    ensures r.Ok? ==> fs.faults == old(fs.faults)
    ensures fs.faults == old(fs.faults) ==>
      && (r == Ok(true) <==> Rmdir(old(fs.st), parent, name).Ok?)
      && (r.Err? <==> Rmdir(old(fs.st), parent, name) == Err(NotDir))
  {
    var gone := fs.RmdirAt(parent, name);
    match gone {
      case Ok(_) => r := Ok(true);
      case Err(NoEnt) => r := Ok(false);
      case Err(NotEmpty) => r := Ok(false);
      case Err(Exist) => r := Ok(false);
      case Err(e) => r := Err(e);
    }
  }

  // ------------------------------------------------------------------ what a step is about

  /** The path a step takes entries away from. */
  function Key(step: Step): Path {
    if step.MoveStep? then step.from else step.path
  }

  ghost function MadeBy(parents: seq<(Path, nat)>): set<Path> {
    set k, q | 0 <= k < |parents| && q in Prefixes(parents[k].0) :: q
  }

  ghost function RegionOf(step: Step): Region {
    match step
    case MoveStep(from, to, parents) => Region({from}, {to}, MadeBy(parents))
    case RemoveTreeStep(path) => Region({path}, {}, {})
    case RemoveEmptyDirStep(path) => Region({path}, {}, {})
  }

  /** A move whose last parent is where it moves to, whose ends are not inside each other, and which makes nothing at
      or below either end. */
  ghost predicate WellFormed(step: Step) {
    && Key(step) != []
    && (step.MoveStep? ==>
      && step.to != [] && Unrelated(step.from, step.to)
      && |step.parents| > 0 && step.parents[|step.parents| - 1].0 == ParentOf(step.to)
      && (forall m :: m in MadeBy(step.parents) ==> !(step.from <= m) && !(step.to <= m)))
  }

  /** What any move may have done, well-formed or not: made parents; then cut the source, something being at the
      destination by then, or renamed it onto a free destination. */
  ghost predicate Passing(a: Fs, h: Fs, root: Ino, from: Path, to: Path, made: set<Path>) {
    && ValidFs(h) && IsDir(h, root)
    && (Grown(a, h, root, made) || SourceCut(a, h, root, from, to, made) || SourceMoved(a, h, root, from, to, made))
  }

  /** The source as it is in `g`, once parents were made. */
  ghost predicate Ready(a: Fs, g: Fs, root: Ino, from: Path, made: set<Path>, d1: Ino) {
    && from != [] && ValidFs(g) && IsDir(g, root) && Grown(a, g, root, made)
    && Lookup(g, root, ParentOf(from)) == Some(d1) && IsDir(g, d1) && Bound(g, d1, NameOf(from)).Some?
  }

  ghost predicate CutFrom(a: Fs, g: Fs, h: Fs, root: Ino, from: Path, to: Path, made: set<Path>, d1: Ino) {
    Ready(a, g, root, from, made, d1) && Lookup(g, root, to).Some? && Pruned(g, h, d1, NameOf(from))
  }

  ghost predicate SourceCut(a: Fs, h: Fs, root: Ino, from: Path, to: Path, made: set<Path>) {
    exists g: Fs, d1: Ino :: CutFrom(a, g, h, root, from, to, made, d1)
  }

  ghost predicate RenamedFrom(a: Fs, g: Fs, h: Fs, root: Ino, from: Path, to: Path, made: set<Path>, d1: Ino, d2: Ino) {
    && Ready(a, g, root, from, made, d1) && to != [] && Lookup(g, root, ParentOf(to)) == Some(d2) && IsDir(g, d2)
    && Bound(g, d2, NameOf(to)) == None
    && RenameOk(g, d1, NameOf(from), d2, NameOf(to)) && Rename(g, d1, NameOf(from), d2, NameOf(to), false) == Ok(h)
  }

  ghost predicate SourceMoved(a: Fs, h: Fs, root: Ino, from: Path, to: Path, made: set<Path>) {
    exists g: Fs, d1: Ino, d2: Ino :: RenamedFrom(a, g, h, root, from, to, made, d1, d2)
  }

  /** The source can be dealt with: its destination has a parent, and is taken or not inside the source. */
  ghost predicate Lands(g: Fs, root: Ino, from: Path, to: Path) {
    && to != [] && Lookup(g, root, ParentOf(to)).Some? && IsDir(g, Lookup(g, root, ParentOf(to)).value)
    && (Lookup(g, root, to).Some?
        || (Lookup(g, root, from).Some?
            && !Reach(g, Lookup(g, root, from).value, Lookup(g, root, ParentOf(to)).value)))
  }

  /** The states of a well-formed move: parents appear; then the stale source goes, the destination having been there
      all along, or the source is whole at a destination that was free. */
  ghost predicate MoveState(a: Fs, h: Fs, root: Ino, from: Path, to: Path, made: set<Path>) {
    && ValidFs(h) && IsDir(h, root)
    && (Grown(a, h, root, made) || Stale(a, h, root, from, to, made) || Arrived(a, h, root, from, to, made))
  }

  ghost predicate Stale(a: Fs, h: Fs, root: Ino, from: Path, to: Path, made: set<Path>) {
    && Effect(a, h, root, Region({from}, {}, made))
    && Lookup(a, root, from).Some? && Lookup(a, root, to).Some?
  }

  ghost predicate Arrived(a: Fs, h: Fs, root: Ino, from: Path, to: Path, made: set<Path>) {
    && Effect(a, h, root, Region({from}, {to}, made))
    && Lookup(a, root, from).Some? && Lookup(a, root, to) == None
    && Lookup(h, root, to) == Lookup(a, root, from) && Lookup(h, root, from) == None
    && SameTree(a, h, Lookup(a, root, from).value)
  }

  lemma MoveGrown(a: Fs, g: Fs, root: Ino, step: Step)
    requires step.MoveStep? && WellFormed(step) && Grown(a, g, root, MadeBy(step.parents))
    ensures Lookup(g, root, step.from) == Lookup(a, root, step.from)
    ensures Lookup(g, root, step.to) == Lookup(a, root, step.to)
    ensures Lookup(a, root, step.from).Some? ==> SameTree(a, g, Lookup(a, root, step.from).value)
    ensures Effect(a, g, root, Region({}, {}, MadeBy(step.parents)))
  {
    hide Grown, MadeBy, Effect, SameTree;
    var g0 := Region({}, {}, MadeBy(step.parents));
    GrownEffect(a, g, root, MadeBy(step.parents));
    forall p: Path | p == step.from || p == step.to ensures Lookup(g, root, p) == Lookup(a, root, p) {
      if Lookup(a, root, p).Some? { KeptAt(a, g, root, g0, p); } else { AbsentAt(a, g, root, g0, p); }
    }
    if Lookup(a, root, step.from).Some? { KeptAt(a, g, root, g0, step.from); }
  }

  // ------------------------------------------------------------------ the three steps

  /** A fault-free run of the step would move and remove nothing. */
  ghost predicate Idle(a: Fs, root: Ino, step: Step) {
    match step
    case MoveStep(from, to, parents) =>
      Lookup(a, root, from) == None || exists k :: 0 <= k < |parents| && WalkDir(a, root, parents[k].0).Err?
    case RemoveTreeStep(path) =>
      Lookup(a, root, path).Some? ==> !IsDir(a, Lookup(a, root, path).value)
    case RemoveEmptyDirStep(path) =>
      Lookup(a, root, path).Some? ==>
        !IsDir(a, Lookup(a, root, path).value) || exists n: Name :: Bound(a, Lookup(a, root, path).value, n).Some?
  }

  lemma PathSplit(fs: Fs, root: Ino, p: Path)
    requires p != []
    ensures p == ParentOf(p) + [NameOf(p)]
    ensures Lookup(fs, root, p) ==
      match Lookup(fs, root, ParentOf(p)) { case None => None case Some(d) => Bound(fs, d, NameOf(p)) }
  {
    assert p == ParentOf(p) + [NameOf(p)];
    LookupLast(fs, root, ParentOf(p), NameOf(p));
  }

  /** The stale source goes. */
  lemma MovePruned(a: Fs, g: Fs, h: Fs, root: Ino, step: Step, dir: Ino)
    requires step.MoveStep? && WellFormed(step) && ValidFs(g) && Grown(a, g, root, MadeBy(step.parents))
    requires IsDir(g, root)
    requires Lookup(g, root, ParentOf(step.from)) == Some(dir) && Lookup(g, root, step.from).Some?
    requires Lookup(g, root, step.to).Some?
    requires ValidFs(h) && Pruned(g, h, dir, NameOf(step.from))
    ensures MoveState(a, h, root, step.from, step.to, MadeBy(step.parents))
    ensures Stale(a, h, root, step.from, step.to, MadeBy(step.parents))
  {
    var made := MadeBy(step.parents);
    WellFormedMove(step);
    hide *;
    MoveGrown(a, g, root, step);
    PathSplit(g, root, step.from);
    PrunedEffect(g, h, root, ParentOf(step.from), dir, NameOf(step.from));
    EffectTrans(a, g, h, root, Region({}, {}, made), Region({step.from}, {}, {}));
    Joined(step.from, {}, made);
    EffectKinds(g, h, root, Region({step.from}, {}, {}));
    StaleBy(a, h, root, step.from, step.to, made);
  }

  lemma WellFormedMove(step: Step)
    requires step.MoveStep? && WellFormed(step)
    ensures step.from != [] && step.to != [] && Unrelated(step.from, step.to)
    ensures |step.parents| > 0 && step.parents[|step.parents| - 1].0 == ParentOf(step.to)
  {
  }

  lemma Joined(cut: Path, put: set<Path>, made: set<Path>)
    ensures Join(Region({}, {}, made), Region({cut}, put, {})) == Region({cut}, put, made)
  {
  }

  lemma StaleBy(a: Fs, h: Fs, root: Ino, from: Path, to: Path, made: set<Path>)
    requires ValidFs(h) && IsDir(h, root) && Effect(a, h, root, Region({from}, {}, made)) && Lookup(a, root, from).Some?
    requires Lookup(a, root, to).Some?
    ensures MoveState(a, h, root, from, to, made) && Stale(a, h, root, from, to, made)
  {
    hide ValidFs, Effect, Lookup, Grown;
  }

  lemma ArrivedBy(a: Fs, h: Fs, root: Ino, from: Path, to: Path, made: set<Path>)
    requires ValidFs(h) && IsDir(h, root) && Effect(a, h, root, Region({from}, {to}, made))
    requires Lookup(a, root, from).Some? && Lookup(a, root, to) == None
    requires Lookup(h, root, to) == Lookup(a, root, from) && Lookup(h, root, from) == None
    requires SameTree(a, h, Lookup(a, root, from).value)
    ensures MoveState(a, h, root, from, to, made) && Arrived(a, h, root, from, to, made)
  {
    hide ValidFs, Effect, Lookup, Grown, SameTree;
  }

  lemma EffectKinds(a: Fs, b: Fs, root: Ino, g: Region)
    requires Effect(a, b, root, g)
    ensures forall i: Ino :: IsDir(a, i) ==> IsDir(b, i)
  {
  }

  lemma RenamedEffect(g: Fs, h: Fs, root: Ino, from: Path, to: Path, d1: Ino, d2: Ino)
    requires ValidFs(g) && from != [] && to != [] && Unrelated(from, to)
    requires Lookup(g, root, ParentOf(from)) == Some(d1) && Lookup(g, root, ParentOf(to)) == Some(d2)
    requires Bound(g, d2, NameOf(to)) == None && IsDir(g, d2)
    requires RenameOk(g, d1, NameOf(from), d2, NameOf(to))
    requires Rename(g, d1, NameOf(from), d2, NameOf(to), false) == Ok(h)
    ensures Effect(g, h, root, Region({from}, {to}, {})) && Lookup(g, root, from).Some?
    ensures Lookup(h, root, to) == Lookup(g, root, from) && Lookup(h, root, from) == None
    ensures SameTree(g, h, Lookup(g, root, from).value)
  {
    hide Touch, Reach, Tree, Lookup, NewDir;
    PathSplit(g, root, from);
    PathSplit(h, root, from);
    PathSplit(h, root, to);
    var x := Bound(g, d1, NameOf(from)).value;
    MovedBindings(g, d1, NameOf(from), d2, NameOf(to), x);
    RenameAcrossStep(g, d1, NameOf(from), d2, NameOf(to), x);
    MovedNodes(g, h, d1, NameOf(from), d2, NameOf(to), x);
    forall q: Path
      ensures Lookup(h, root, q) == Lookup(g, root, q) || (from <= q && Lookup(h, root, q) == None) || to <= q
    {
      MovedPath(g, h, root, ParentOf(from), d1, NameOf(from), ParentOf(to), d2, NameOf(to), x, q);
    }
    forall q: Path ensures PathEffect(g, h, root, Region({from}, {to}, {}), q) {
      UnderOne(from, q);
      UnderOne(to, q);
    }
    PrefixesCompare(ParentOf(to), to, to);
    PrefixesCompare(ParentOf(from), from, from);
    RenamedEnds(g, h, d1, NameOf(from), d2, NameOf(to), x);
    NeverIntoSelf(g, d1, NameOf(from));
    TreeFrame(g, h, {d1, d2}, x);
  }

  lemma RenamedEnds(g: Fs, h: Fs, d1: Ino, from: Name, d2: Ino, to: Name, x: Ino)
    requires Renamed(g, h, d1, from, d2, to, x) && Bound(g, d1, from).Some? && Bound(g, d2, to) == None
    ensures Bound(h, d2, to) == Some(x) && Bound(h, d1, from) == None
  {
  }

  lemma MovedNodes(g: Fs, h: Fs, d1: Ino, from: Name, d2: Ino, to: Name, x: Ino)
    requires IsDir(g, d1) && IsDir(g, d2) && Bound(g, d1, from) == Some(x) && Bound(g, d2, to) == None
    requires Rename(g, d1, from, d2, to, false) == Ok(h)
    ensures NodesKept(g, h) && h == Moved(g, d1, from, d2, to, x)
  {
  }

  /** The source is renamed whole. */
  lemma MoveArrived(a: Fs, g: Fs, h: Fs, root: Ino, step: Step, d1: Ino, d2: Ino)
    requires step.MoveStep? && WellFormed(step) && ValidFs(g) && Grown(a, g, root, MadeBy(step.parents))
    requires IsDir(g, root) && ValidFs(h)
    requires Lookup(g, root, ParentOf(step.from)) == Some(d1) && Lookup(g, root, ParentOf(step.to)) == Some(d2)
    requires Bound(g, d2, NameOf(step.to)) == None && IsDir(g, d2)
    requires RenameOk(g, d1, NameOf(step.from), d2, NameOf(step.to))
    requires Rename(g, d1, NameOf(step.from), d2, NameOf(step.to), false) == Ok(h)
    ensures MoveState(a, h, root, step.from, step.to, MadeBy(step.parents))
    ensures Arrived(a, h, root, step.from, step.to, MadeBy(step.parents))
  {
    var made := MadeBy(step.parents);
    WellFormedMove(step);
    hide *;
    MoveGrown(a, g, root, step);
    PathSplit(g, root, step.to);
    RenamedEffect(g, h, root, step.from, step.to, d1, d2);
    EffectTrans(a, g, h, root, Region({}, {}, made), Region({step.from}, {step.to}, {}));
    Joined(step.from, {step.to}, made);
    EffectKinds(g, h, root, Region({step.from}, {step.to}, {}));
    SameTreeTrans(a, g, h, Lookup(a, root, step.from).value);
    ArrivedBy(a, h, root, step.from, step.to, made);
  }

  /** A well-formed move cuts its source only when it was stale, and otherwise delivers it whole. */
  lemma PassingWell(a: Fs, h: Fs, root: Ino, step: Step)
    requires step.MoveStep? && WellFormed(step) && Passing(a, h, root, step.from, step.to, MadeBy(step.parents))
    ensures MoveState(a, h, root, step.from, step.to, MadeBy(step.parents))
    ensures SourceCut(a, h, root, step.from, step.to, MadeBy(step.parents)) ==>
      Stale(a, h, root, step.from, step.to, MadeBy(step.parents))
    ensures SourceMoved(a, h, root, step.from, step.to, MadeBy(step.parents)) ==>
      Arrived(a, h, root, step.from, step.to, MadeBy(step.parents))
  {
    hide ValidFs, Grown, Pruned, WellFormed, Stale, Arrived, RenameOk, Rename, Lookup, MadeBy;
    var from, to, made := step.from, step.to, MadeBy(step.parents);
    if SourceCut(a, h, root, from, to, made) {
      var g, d1 :| CutFrom(a, g, h, root, from, to, made, d1);
      PathSplit(g, root, from);
      MovePruned(a, g, h, root, step, d1);
    }
    if SourceMoved(a, h, root, from, to, made) {
      var g, d1, d2 :| RenamedFrom(a, g, h, root, from, to, made, d1, d2);
      MoveArrived(a, g, h, root, step, d1, d2);
    }
  }

  /** Makes one path after the other; without faults a blocked one is the only way to fail. */
  method EnsureParents(fs: FileSystem, root: Ino, parents: seq<(Path, nat)>, uid: nat) returns (r: Result<(), Errno>)
    requires fs.Valid() && IsDir(fs.st, root)
    modifies fs
    ensures fs.Ran() && IsDir(fs.st, root) && Grown(old(fs.st), fs.st, root, MadeBy(parents))
    ensures forall k :: old(|fs.history|) <= k < |fs.history| ==>
      Grown(old(fs.st), fs.history[k], root, MadeBy(parents))
    ensures r.Ok? && |parents| > 0 ==>
      && Lookup(fs.st, root, parents[|parents| - 1].0).Some?
      && IsDir(fs.st, Lookup(fs.st, root, parents[|parents| - 1].0).value)
    ensures r.Ok? ==> Outfitted(old(fs.st), fs.st, root, parents, |parents|, uid)
    ensures r.Ok? ==> fs.faults == old(fs.faults)
    ensures fs.faults == old(fs.faults) ==>
      (r.Ok? <==> forall k :: 0 <= k < |parents| ==> WalkDir(old(fs.st), root, parents[k].0).Ok?)
  {
    hide ValidFs, Grown, WalkDir, Outfitted, MadeWith;
    ghost var a, made := fs.st, MadeBy(parents);
    GrownRefl(a, root, made);
    OutfittedNone(a, root, parents, uid);
    var k := 0;
    while k < |parents|
      invariant k <= |parents| && fs.Ran() && IsDir(fs.st, root) && Grown(a, fs.st, root, made)
      invariant forall j :: old(|fs.history|) <= j < |fs.history| ==> Grown(a, fs.history[j], root, made)
      invariant k > 0 ==>
        Lookup(fs.st, root, parents[k - 1].0).Some? && IsDir(fs.st, Lookup(fs.st, root, parents[k - 1].0).value)
      invariant Outfitted(a, fs.st, root, parents, k, uid) && fs.faults == old(fs.faults)
      invariant fs.faults == old(fs.faults) ==> forall j :: 0 <= j < k ==> WalkDir(a, root, parents[j].0).Ok?
    {
      ghost var b := fs.st;
      WalkGrown(a, b, root, made, parents[k].0);
      var dir := EnsureDir(fs, root, parents[k].0, parents[k].1, uid);
      forall c: Fs | Grown(b, c, root, Prefixes(parents[k].0)) ensures Grown(a, c, root, made) {
        GrownWider(b, c, root, Prefixes(parents[k].0), made);
        GrownTrans(a, b, c, root, made);
      }
      if dir.Err? {
        assert fs.faults == old(fs.faults) ==> WalkDir(a, root, parents[k].0).Err?;
        return Err(dir.error);
      }
      OutfittedMore(a, b, fs.st, root, parents, k, uid);
      k := k + 1;
    }
    r := Ok(());
  }

  /** The last part of a move, once its parents are made. */
  method PutThere(fs: FileSystem, ghost a: Fs, root: Ino, from: Path, to: Path, ghost made: set<Path>, d1: Ino)
    returns (r: Result<Done, Errno>)
    requires fs.Valid() && Ready(a, fs.st, root, from, made, d1) && Passing(a, fs.st, root, from, to, made)
    modifies fs
    ensures fs.Ran() && Passing(a, fs.st, root, from, to, made)
    ensures forall k :: old(|fs.history|) <= k < |fs.history| ==> Passing(a, fs.history[k], root, from, to, made)
    ensures Effect(old(fs.st), fs.st, root, Region({from}, {to}, {}))
    ensures r != Ok(Nothing)
    ensures r.Ok? && r.value.MovedTo? ==> r.value.to == to && SourceMoved(a, fs.st, root, from, to, made)
    ensures r == Ok(RemovedIt) ==> SourceCut(a, fs.st, root, from, to, made)
    ensures r.Ok? ==> Lookup(fs.st, root, from) == None
    ensures r.Ok? ==> fs.faults == old(fs.faults)
    ensures fs.faults == old(fs.faults) ==> (r.Ok? <==> Lands(old(fs.st), root, from, to)) && (r.Err? ==> fs.Looked())
  {
    hide ValidFs, Grown, WalkDir, Pruned, Removed, RenameOk, Rename, Lookup, Reach, Passing, SourceCut, SourceMoved,
      Tree, IsDir, NameOf, Effect;
    ghost var g := fs.st;
    EffectRefl(g, root, Region({from}, {to}, {}));
    PathSplit(g, root, from);
    if to == [] { return Err(Inval); }
    WalkFinds(g, root, ParentOf(to));
    var toDir := FindDir(fs, root, ParentOf(to));
    if toDir.Err? { return Err(toDir.error); }
    if toDir.value.None? { return Err(NoEnt); }
    var d2 := toDir.value.value;
    PathSplit(g, root, to);
    var there := fs.Exists(d2, NameOf(to));
    if there.Err? { return Err(there.error); }
    if there.value {
      var gone := Remove(fs, d1, NameOf(from));
      forall h: Fs | ValidFs(h) && Pruned(g, h, d1, NameOf(from))
        ensures Passing(a, h, root, from, to, made) && SourceCut(a, h, root, from, to, made)
        ensures Effect(g, h, root, Region({from}, {to}, {}))
      {
        CutPasses(a, g, h, root, from, to, made, d1);
      }
      if gone.Err? { return Err(gone.error); }
      PrunedGone(g, fs.st, root, from, d1);
      return Ok(RemovedIt);
    }
    RenameLands(g, root, from, to, d1, d2);
    var moved := fs.RenameAt(d1, NameOf(from), d2, NameOf(to));
    if moved.Err? { return Err(moved.error); }
    MovePasses(a, g, fs.st, root, from, to, made, d1, d2);
    var syncTo := fs.Attempt();
    if syncTo.Err? { return Err(syncTo.error); }
    var syncFrom := fs.Attempt();
    if syncFrom.Err? { return Err(syncFrom.error); }
    r := Ok(MovedTo(to));
  }

  lemma CutPasses(a: Fs, g: Fs, h: Fs, root: Ino, from: Path, to: Path, made: set<Path>, d1: Ino)
    requires ValidFs(h) && CutFrom(a, g, h, root, from, to, made, d1)
    ensures Passing(a, h, root, from, to, made) && SourceCut(a, h, root, from, to, made)
    ensures Effect(g, h, root, Region({from}, {to}, {}))
  {
    hide ValidFs, Grown, Lookup, SourceMoved, Pruned, Effect;
    PathSplit(g, root, from);
    PrunedEffect(g, h, root, ParentOf(from), d1, NameOf(from));
    EffectWider(g, h, root, Region({from}, {}, {}), Region({from}, {to}, {}));
    EffectKinds(g, h, root, Region({ParentOf(from) + [NameOf(from)]}, {}, {}));
  }

  /** The source's name is free then. Its destination was not, and lay not inside it, so the way to it is as it was. */
  lemma MovePasses(a: Fs, g: Fs, h: Fs, root: Ino, from: Path, to: Path, made: set<Path>, d1: Ino, d2: Ino)
    requires ValidFs(h) && RenamedFrom(a, g, h, root, from, to, made, d1, d2)
    ensures Passing(a, h, root, from, to, made) && SourceMoved(a, h, root, from, to, made)
    ensures Lookup(h, root, from) == None && Effect(g, h, root, Region({from}, {to}, {}))
  {
    hide ValidFs, Grown, Lookup, SourceCut, Reach, Rename, Effect, SameTree;
    EndsPart(g, root, from, to, d1, d2);
    RenamedEffect(g, h, root, from, to, d1, d2);
    EffectKinds(g, h, root, Region({from}, {to}, {}));
  }

  lemma EndsPart(g: Fs, root: Ino, from: Path, to: Path, d1: Ino, d2: Ino)
    requires from != [] && to != [] && Lookup(g, root, ParentOf(from)) == Some(d1)
    requires Lookup(g, root, ParentOf(to)) == Some(d2) && Bound(g, d2, NameOf(to)) == None
    requires RenameOk(g, d1, NameOf(from), d2, NameOf(to))
    ensures Unrelated(from, to)
  {
    hide Rename;
    PathSplit(g, root, from);
    PathSplit(g, root, to);
    if to <= from {
      assert from == to + from[|to|..];
      LookupAppend(g, root, to, from[|to|..]);
    } else if from <= to {
      var t := ParentOf(to)[|from|..];
      assert ParentOf(to) == from + t;
      LookupAppend(g, root, from, t);
      ReachBy(g, Bound(g, d1, NameOf(from)).value, t, d2);
    }
  }

  lemma RenameLands(g: Fs, root: Ino, from: Path, to: Path, d1: Ino, d2: Ino)
    requires ValidFs(g) && from != [] && to != [] && Lookup(g, root, ParentOf(from)) == Some(d1)
    requires Lookup(g, root, ParentOf(to)) == Some(d2) && IsDir(g, d1) && IsDir(g, d2)
    requires Bound(g, d1, NameOf(from)).Some? && Bound(g, d2, NameOf(to)) == None
    ensures RenameOk(g, d1, NameOf(from), d2, NameOf(to)) <==> Lands(g, root, from, to)
  {
    hide Reach, ValidFs;
    PathSplit(g, root, from);
    PathSplit(g, root, to);
  }

  /** One move. A path that does not split, a missing or blocked parent of the destination, and a destination inside
      the source are errors; a source that is missing is none. */
  method RunMove(fs: FileSystem, root: Ino, from: Path, to: Path, parents: seq<(Path, nat)>, uid: nat)
    returns (r: Result<Done, Errno>)
    requires fs.Valid() && IsDir(fs.st, root)
    modifies fs
    ensures fs.Ran() && Passing(old(fs.st), fs.st, root, from, to, MadeBy(parents))
    ensures forall k :: old(|fs.history|) <= k < |fs.history| ==>
      Passing(old(fs.st), fs.history[k], root, from, to, MadeBy(parents))
    ensures r == Ok(Nothing) ==> fs.Looked() && Lookup(fs.st, root, from) == None && from != []
    ensures r == Ok(Nothing) ==> WalkDir(fs.st, root, ParentOf(from)).Ok?
    ensures r.Ok? && r.value.MovedTo? ==>
      r.value.to == to && SourceMoved(old(fs.st), fs.st, root, from, to, MadeBy(parents))
    ensures r == Ok(RemovedIt) ==> SourceCut(old(fs.st), fs.st, root, from, to, MadeBy(parents))
    ensures r.Ok? ==> Lookup(fs.st, root, from) == None
    ensures r.Ok? && r != Ok(Nothing) ==> Lookup(old(fs.st), root, from).Some?
    ensures from == [] ==> r.Err? && fs.Looked()
    ensures r.Ok? && r != Ok(Nothing) && WellFormed(MoveStep(from, to, parents)) ==>
      Furnished(old(fs.st), fs.st, root, parents, uid)
    ensures r.Ok? ==> fs.faults == old(fs.faults)
    ensures fs.faults == old(fs.faults) && from != [] && Lookup(old(fs.st), root, from) == None ==>
      WalkDir(old(fs.st), root, ParentOf(from)).Ok? ==> r == Ok(Nothing)
    ensures fs.faults == old(fs.faults) && Idle(old(fs.st), root, MoveStep(from, to, parents)) ==>
      (r.Err? || r == Ok(Nothing)) && Grown(old(fs.st), fs.st, root, MadeBy(parents))
    ensures fs.faults == old(fs.faults) && !Idle(old(fs.st), root, MoveStep(from, to, parents)) && from != [] ==>
      r != Ok(Nothing) && (r.Err? ==> Grown(old(fs.st), fs.st, root, MadeBy(parents)) && !Lands(fs.st, root, from, to))
    ensures fs.faults == old(fs.faults) && !Idle(old(fs.st), root, MoveStep(from, to, parents)) ==>
      WellFormed(MoveStep(from, to, parents)) ==> r.Ok?
  {
    hide ValidFs, Grown, WalkDir, SameTree, MadeBy, WellFormed, Lookup, Reach, Passing, SourceCut, SourceMoved,
      Lands, Closed, MadeDir, Bound, Unrelated, Furnished, Outfitted, Effect;
    ghost var a, step, made := fs.st, MoveStep(from, to, parents), MadeBy(parents);
    GrownRefl(a, root, made);
    StartsGrown(a, root, from, to, made);
    if WellFormed(step) { WellFormedMove(step); }
    if from == [] { return Err(Inval); }
    PathSplit(a, root, from);
    WalkFinds(a, root, ParentOf(from));
    WalkBlockedNone(a, root, from);
    var fromDir := FindDir(fs, root, ParentOf(from));
    if fromDir.Err? { return Err(fromDir.error); }
    if fromDir.value.None? { return Ok(Nothing); }
    var d1 := fromDir.value.value;
    var here := fs.Exists(d1, NameOf(from));
    if here.Err? { return Err(here.error); }
    if !here.value { return Ok(Nothing); }
    var ensured := EnsureParents(fs, root, parents, uid);
    ghost var g := fs.st;
    forall h: Fs | ValidFs(h) && Grown(a, h, root, made)
      ensures Passing(a, h, root, from, to, made)
    {
      GrownState(a, h, root, from, to, made);
    }
    if ensured.Err? { return Err(ensured.error); }
    SourceReady(a, g, root, from, made, d1);
    if WellFormed(step) { ParentThere(a, g, root, step, d1); }
    r := PutThere(fs, a, root, from, to, made, d1);
    if WellFormed(step) { FurnishedBy(a, g, fs.st, root, step, uid); }
  }

  /** Whatever leads to the parents and was missing is a directory of the account's, with the mode of the first of them
      that it leads to. */
  ghost predicate Furnished(a: Fs, h: Fs, root: Ino, parents: seq<(Path, nat)>, uid: nat) {
    forall q: Path :: Covered(parents, q) ==> MadeWith(a, h, root, q, Meta(uid, ModeAt(parents, q)))
  }

  /** Dealing with the source leaves the parents as they were made. */
  lemma FurnishedBy(a: Fs, g: Fs, h: Fs, root: Ino, step: Step, uid: nat)
    requires step.MoveStep? && WellFormed(step) && Effect(g, h, root, Region({step.from}, {step.to}, {}))
    requires Outfitted(a, g, root, step.parents, |step.parents|, uid)
    ensures Furnished(a, h, root, step.parents, uid)
  {
    hide Lookup, ModeAt, StillMissing;
    var parents := step.parents;
    assert parents[..|parents|] == parents;
    forall q: Path | Covered(parents, q) ensures MadeWith(a, h, root, q, Meta(uid, ModeAt(parents, q))) {
      if q == [] {
        assert Lookup(a, root, q).Some? by { LookupNil(a, root); }
      } else {
        CoveredMade(parents, q);
        UnderOne(step.from, q);
        UnderOne(step.to, q);
        assert PathEffect(g, h, root, Region({step.from}, {step.to}, {}), q);
      }
    }
  }

  lemma LookupNil(a: Fs, root: Ino)
    ensures Lookup(a, root, []) == Some(root)
  {
  }

  lemma CoveredMade(parents: seq<(Path, nat)>, q: Path)
    requires q != []
    ensures Covered(parents, q) <==> q in MadeBy(parents)
  {
    if Covered(parents, q) {
      var k :| 0 <= k < |parents| && q <= parents[k].0;
      assert parents[k].0[..|q|] == q && q in Prefixes(parents[k].0);
    }
  }

  /** Making parents leaves the source where it was. */
  lemma SourceReady(a: Fs, g: Fs, root: Ino, from: Path, made: set<Path>, d1: Ino)
    requires ValidFs(a) && root in a.nodes && ValidFs(g) && IsDir(g, root) && Grown(a, g, root, made) && from != []
    requires Lookup(a, root, ParentOf(from)) == Some(d1) && IsDir(a, d1) && Bound(a, d1, NameOf(from)).Some?
    ensures Ready(a, g, root, from, made, d1)
  {
    SourceStays(a, g, root, made, ParentOf(from), d1);
  }

  /** With its parents made a well-formed move can go on. */
  lemma ParentThere(a: Fs, g: Fs, root: Ino, step: Step, d1: Ino)
    requires step.MoveStep? && WellFormed(step) && Ready(a, g, root, step.from, MadeBy(step.parents), d1)
    requires Lookup(g, root, step.parents[|step.parents| - 1].0).Some?
    requires IsDir(g, Lookup(g, root, step.parents[|step.parents| - 1].0).value)
    ensures Lands(g, root, step.from, step.to)
  {
    hide Grown, MadeBy, WellFormed, ValidFs, Reach;
    WellFormedMove(step);
    PathSplit(g, root, step.from);
    PathSplit(g, root, step.to);
    var d2 := Lookup(g, root, ParentOf(step.to)).value;
    PrefixesCompare(ParentOf(step.to), step.to, step.to);
    NotUnder(g, root, step.from, Lookup(g, root, step.from).value, ParentOf(step.to), d2);
  }

  lemma StartsGrown(a: Fs, root: Ino, from: Path, to: Path, made: set<Path>)
    requires ValidFs(a) && IsDir(a, root)
    ensures Passing(a, a, root, from, to, made)
  {
    GrownRefl(a, root, made);
  }

  lemma GrownState(a: Fs, h: Fs, root: Ino, from: Path, to: Path, made: set<Path>)
    requires ValidFs(h) && Grown(a, h, root, made) && IsDir(a, root)
    ensures Passing(a, h, root, from, to, made)
  {
    hide ValidFs, SourceCut, SourceMoved;
    assert root in a.nodes && root in h.nodes && IsDir(h, root);
  }

  /** Behind something that is not a directory there is nothing. */
  lemma WalkBlockedNone(a: Fs, root: Ino, p: Path)
    requires IsDir(a, root) && p != []
    ensures !WalkDir(a, root, ParentOf(p)).Ok? ==> Lookup(a, root, p) == None
  {
    PathSplit(a, root, p);
    WalkFinds(a, root, ParentOf(p));
    WalkBlocked(a, root, ParentOf(p));
  }

  lemma SourceStays(a: Fs, g: Fs, root: Ino, made: set<Path>, p: Path, d: Ino)
    requires ValidFs(a) && root in a.nodes && Grown(a, g, root, made) && Lookup(a, root, p) == Some(d) && IsDir(a, d)
    ensures Lookup(g, root, p) == Some(d) && IsDir(g, d)
  {
    LookupGrown(a, g, root, made, p);
  }

  lemma PrunedGone(g: Fs, h: Fs, root: Ino, p: Path, dir: Ino)
    requires ValidFs(g) && p != [] && Lookup(g, root, ParentOf(p)) == Some(dir) && Removed(g, h, dir, NameOf(p))
    requires Pruned(g, h, dir, NameOf(p))
    ensures Lookup(h, root, p) == None
  {
    PathSplit(h, root, p);
    PrunedPath(g, h, root, ParentOf(p), dir, NameOf(p), ParentOf(p));
  }

  /** The states a tree removal passes through, and the one an empty directory's removal ends in. */
  ghost predicate CutState(a: Fs, h: Fs, root: Ino, path: Path) {
    ValidFs(h) && IsDir(h, root) && Effect(a, h, root, Region({path}, {}, {}))
  }

  ghost predicate EmptyGone(a: Fs, h: Fs, root: Ino, path: Path) {
    && CutState(a, h, root, path) && Lookup(a, root, path).Some? && Lookup(h, root, path) == None
    && IsDir(a, Lookup(a, root, path).value) && forall n: Name :: Bound(a, Lookup(a, root, path).value, n) == None
  }

  lemma CutRefl(a: Fs, root: Ino, path: Path)
    requires ValidFs(a) && IsDir(a, root)
    ensures CutState(a, a, root, path)
  {
    EffectRefl(a, root, Region({path}, {}, {}));
  }

  lemma PrunedCut(a: Fs, h: Fs, root: Ino, path: Path, dir: Ino)
    requires ValidFs(a) && ValidFs(h) && IsDir(a, root) && path != [] && Lookup(a, root, ParentOf(path)) == Some(dir)
    requires Pruned(a, h, dir, NameOf(path))
    ensures CutState(a, h, root, path)
  {
    hide Pruned, ValidFs, Effect;
    PathSplit(a, root, path);
    PrunedEffect(a, h, root, ParentOf(path), dir, NameOf(path));
    EffectKinds(a, h, root, Region({path}, {}, {}));
  }

  method RunRemoveTree(fs: FileSystem, root: Ino, path: Path) returns (r: Result<Done, Errno>)
    requires fs.Valid() && IsDir(fs.st, root)
    modifies fs
    ensures fs.Ran() && CutState(old(fs.st), fs.st, root, path)
    ensures forall k :: old(|fs.history|) <= k < |fs.history| ==> CutState(old(fs.st), fs.history[k], root, path)
    ensures r == Ok(Nothing) ==> fs.Looked() && Lookup(fs.st, root, path) == None && path != []
    ensures r == Ok(Nothing) ==> WalkDir(fs.st, root, ParentOf(path)).Ok?
    ensures r.Ok? ==> fs.faults == old(fs.faults)
    ensures fs.faults == old(fs.faults) && path != [] && Lookup(old(fs.st), root, path) == None ==>
      WalkDir(old(fs.st), root, ParentOf(path)).Ok? ==> r == Ok(Nothing)
    ensures r.Ok? ==> !r.value.MovedTo?
    ensures r == Ok(RemovedIt) ==> Lookup(old(fs.st), root, path).Some? && Lookup(fs.st, root, path) == None
    ensures path == [] ==> r.Err? && fs.Looked()
    ensures fs.faults == old(fs.faults) && Idle(old(fs.st), root, RemoveTreeStep(path)) ==>
      fs.st == old(fs.st) && r != Ok(RemovedIt)
    ensures fs.faults == old(fs.faults) && !Idle(old(fs.st), root, RemoveTreeStep(path)) && path != [] ==>
      r == Ok(RemovedIt)
  {
    hide ValidFs, WalkDir, Pruned, Removed, Reach, CutState, Lookup;
    ghost var a := fs.st;
    CutRefl(a, root, path);
    if path == [] { return Err(Inval); }
    PathSplit(a, root, path);
    WalkFinds(a, root, ParentOf(path));
    WalkBlockedNone(a, root, path);
    var dir := FindDir(fs, root, ParentOf(path));
    if dir.Err? { return Err(dir.error); }
    if dir.value.None? { return Ok(Nothing); }
    var d := dir.value.value;
    var here := fs.Exists(d, NameOf(path));
    if here.Err? { return Err(here.error); }
    if !here.value { return Ok(Nothing); }
    var gone := RemoveTree(fs, d, NameOf(path));
    forall h: Fs | ValidFs(h) && Pruned(a, h, d, NameOf(path))
      ensures CutState(a, h, root, path)
    {
      PrunedCut(a, h, root, path, d);
    }
    if gone.Err? { return Err(gone.error); }
    PrunedGone(a, fs.st, root, path, d);
    r := Ok(RemovedIt);
  }

  /** An empty directory is a tree of its own. */
  lemma RmdirCuts(a: Fs, h: Fs, root: Ino, path: Path, dir: Ino)
    requires ValidFs(a) && IsDir(a, root) && path != [] && Lookup(a, root, ParentOf(path)) == Some(dir)
    requires Rmdir(a, dir, NameOf(path)) == Ok(h)
    ensures EmptyGone(a, h, root, path)
  {
    hide Pruned, ValidFs;
    PathSplit(a, root, path);
    CutStep(a, dir, NameOf(path));
    var x := Bound(a, dir, NameOf(path)).value;
    RmdirPrunes(a, h, dir, NameOf(path), x);
    PrunedCut(a, h, root, path, dir);
    PrunedPath(a, h, root, ParentOf(path), dir, NameOf(path), ParentOf(path));
    PathSplit(h, root, path);
  }

  lemma RmdirPrunes(a: Fs, h: Fs, dir: Ino, name: Name, x: Ino)
    requires ValidFs(a) && Rmdir(a, dir, name) == Ok(h) && Bound(a, dir, name) == Some(x)
    ensures Pruned(a, h, dir, name) && Bound(h, dir, name) == None && forall n: Name :: Bound(a, x, n) == None
  {
    CutStep(a, dir, name);
  }

  method RunRemoveEmptyDir(fs: FileSystem, root: Ino, path: Path) returns (r: Result<Done, Errno>)
    requires fs.Valid() && IsDir(fs.st, root)
    modifies fs
    ensures r == Ok(RemovedIt) ==> fs.Stepped() && EmptyGone(old(fs.st), fs.st, root, path)
    ensures r != Ok(RemovedIt) ==> fs.Looked()
    ensures r.Ok? ==> !r.value.MovedTo?
    ensures path == [] ==> r.Err?
    ensures r.Ok? ==> fs.faults == old(fs.faults)
    ensures fs.faults == old(fs.faults) && path != [] ==>
      (r == Ok(RemovedIt) <==> !Idle(old(fs.st), root, RemoveEmptyDirStep(path)))
    ensures fs.faults == old(fs.faults) && path != [] ==>
      (r.Err? <==> WalkDir(old(fs.st), root, path).Err?)
  {
    hide ValidFs, WalkDir, EmptyGone, Lookup;
    ghost var a := fs.st;
    if path == [] { return Err(Inval); }
    PathSplit(a, root, path);
    WalkFinds(a, root, ParentOf(path));
    WalkBlockedNone(a, root, path);
    WalkLast(a, root, path);
    var dir := FindDir(fs, root, ParentOf(path));
    if dir.Err? { return Err(dir.error); }
    if dir.value.None? { return Ok(Nothing); }
    var d := dir.value.value;
    if Bound(a, d, NameOf(path)).Some? && IsDir(a, Bound(a, d, NameOf(path)).value) {
      NoNames(a, Bound(a, d, NameOf(path)).value);
    }
    var gone := RemoveEmptyDir(fs, d, NameOf(path));
    if gone.Err? { return Err(gone.error); }
    if gone.value { RmdirCuts(a, fs.st, root, path, d); }
    r := if gone.value then Ok(RemovedIt) else Ok(Nothing);
  }

  /** A walk is blocked on the way to the last component or by it. */
  lemma WalkLast(a: Fs, root: Ino, path: Path)
    requires IsDir(a, root) && path != []
    ensures WalkDir(a, root, path).Err? <==>
            || WalkDir(a, root, ParentOf(path)).Err?
            || (Lookup(a, root, path).Some? && !IsDir(a, Lookup(a, root, path).value))
  {
    hide WalkDir, Lookup;
    WalkBlocked(a, root, path);
    WalkBlocked(a, root, ParentOf(path));
    assert path[..|path|] == path;
    forall k: nat | k < |path| ensures path[..k] == ParentOf(path)[..k] {}
  }

  // ------------------------------------------------------------------ one step, whichever it is

  ghost predicate StepState(a: Fs, h: Fs, root: Ino, step: Step) {
    match step
    case MoveStep(from, to, parents) => Passing(a, h, root, from, to, MadeBy(parents))
    case RemoveTreeStep(path) => CutState(a, h, root, path)
    case RemoveEmptyDirStep(path) => h == a || EmptyGone(a, h, root, path)
  }

  /** What a fault-free idle step may still do: create parents. */
  ghost predicate OnlyParents(a: Fs, h: Fs, root: Ino, step: Step) {
    if step.MoveStep? then Grown(a, h, root, MadeBy(step.parents)) else h == a
  }

  /** What a result tells about the step it is the result of. */
  ghost predicate Told(a: Fs, h: Fs, root: Ino, step: Step, r: Result<Done, Errno>) {
    && StepState(a, h, root, step)
    && (r == Ok(Nothing) ==> h == a)
    && (r.Ok? && r.value.MovedTo? ==>
      && step.MoveStep? && r.value.to == step.to
      && SourceMoved(a, h, root, step.from, step.to, MadeBy(step.parents)))
    && (r.Ok? && r != Ok(Nothing) ==> Lookup(a, root, Key(step)).Some? && Lookup(h, root, Key(step)) == None)
    && (r == Ok(RemovedIt) && step.MoveStep? ==> SourceCut(a, h, root, step.from, step.to, MadeBy(step.parents)))
    && (Key(step) == [] ==> r.Err? && h == a)
  }

  /** What a fault-free step answers: a move whose way is open delivers its source, or drops it where its destination
      is taken, with the parents as asked for; a step is silent only if it looked and found nothing to do. */
  ghost predicate Prompt(a: Fs, h: Fs, root: Ino, step: Step, r: Result<Done, Errno>, uid: nat) {
    match step
    case MoveStep(from, to, parents) =>
      && (r == Ok(Nothing) <==> from != [] && Lookup(a, root, from) == None && WalkDir(a, root, ParentOf(from)).Ok?)
      && (WellFormed(step) && !Idle(a, root, step) ==>
        && Furnished(a, h, root, parents, uid)
        && r == if Lookup(a, root, to).Some? then Ok(RemovedIt) else Ok(MovedTo(to)))
    case RemoveTreeStep(path) =>
      && (r == Ok(Nothing) <==> path != [] && Lookup(a, root, path) == None && WalkDir(a, root, ParentOf(path)).Ok?)
      && (r == Ok(RemovedIt) <==> path != [] && !Idle(a, root, step))
    case RemoveEmptyDirStep(path) =>
      && (r.Err? <==> path == [] || WalkDir(a, root, path).Err?)
      && (r == Ok(RemovedIt) <==> path != [] && !Idle(a, root, step))
  }

  /** A well-formed move ends one way or the other by what was at its destination. */
  lemma PromptMove(a: Fs, h: Fs, root: Ino, step: Step, r: Result<Done, Errno>)
    requires step.MoveStep? && WellFormed(step) && r.Ok? && r != Ok(Nothing)
    requires Passing(a, h, root, step.from, step.to, MadeBy(step.parents))
    requires r.value.MovedTo? ==>
      r.value.to == step.to && SourceMoved(a, h, root, step.from, step.to, MadeBy(step.parents))
    requires r == Ok(RemovedIt) ==> SourceCut(a, h, root, step.from, step.to, MadeBy(step.parents))
    ensures r == if Lookup(a, root, step.to).Some? then Ok(RemovedIt) else Ok(MovedTo(step.to))
  {
    hide WellFormed, Passing, SourceMoved, SourceCut, MoveState, Effect, Lookup, SameTree, MadeBy;
    PassingWell(a, h, root, step);
    match r.value
    case MovedTo(_) => assert Arrived(a, h, root, step.from, step.to, MadeBy(step.parents));
    case RemovedIt => assert Stale(a, h, root, step.from, step.to, MadeBy(step.parents));
  }

  method RunStep(fs: FileSystem, root: Ino, step: Step, uid: nat) returns (r: Result<Done, Errno>)
    requires fs.Valid() && IsDir(fs.st, root)
    modifies fs
    ensures fs.Ran() && IsDir(fs.st, root) && Told(old(fs.st), fs.st, root, step, r)
    ensures forall k :: old(|fs.history|) <= k < |fs.history| ==> StepState(old(fs.st), fs.history[k], root, step)
    ensures r.Ok? ==> fs.faults == old(fs.faults)
    ensures fs.faults == old(fs.faults) && Idle(old(fs.st), root, step) ==>
      (r.Err? || r == Ok(Nothing)) && OnlyParents(old(fs.st), fs.st, root, step)
    ensures fs.faults == old(fs.faults) && !Idle(old(fs.st), root, step) && WellFormed(step) ==>
      r.Ok? && r != Ok(Nothing)
    ensures fs.faults == old(fs.faults) ==> Prompt(old(fs.st), fs.st, root, step, r, uid)
  {
    hide ValidFs, WalkDir, Effect, Grown, Lookup, SameTree, MadeBy, SourceCut, SourceMoved, Lands, Furnished;
    match step
    case MoveStep(from, to, parents) =>
      r := RunMove(fs, root, from, to, parents, uid);
      if WellFormed(step) && r.Ok? && r != Ok(Nothing) { PromptMove(old(fs.st), fs.st, root, step, r); }
    case RemoveTreeStep(path) => r := RunRemoveTree(fs, root, path);
    case RemoveEmptyDirStep(path) => r := RunRemoveEmptyDir(fs, root, path);
  }
}
