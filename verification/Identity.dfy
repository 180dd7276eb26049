/** The read-only half of a migration: which legacy files there are, what they contain, and whether the
    target already holds them. */
module Identity {
  import opened Kernel
  import opened Growth
  import opened FileSystems
  import opened Layout
  import opened Nofollow

  datatype Stage = LegacyStage | DestinationStage
  datatype Failure = Failure(stage: Stage)

  datatype Source = Source(inConfig: bool, name: Name, place: Place, rel: Path)

  /** A legacy file to copy: the open source, its digest, and where below the network directory it goes. */
  datatype Planned = Planned(from: Path, source: Ino, place: Place, rel: Path, sha256: Digest)

  datatype Legacy = Legacy(home: Ino, config: Ino, ownerUid: nat, hasRedb: bool, sources: seq<Source>)

  const ID_SOURCE := Source(true, LEGACY_IDENTITY_FILE, Data, [IDENTITY_FILE])
  const PASS_SOURCE := Source(true, LEGACY_PASSWORD_FILE, Data, [PASSWORD_FILE])
  const SAFE_SOURCE := Source(true, LEGACY_SAFE_FILE, Cache, [SAFE_FILE])
  const REDB_SOURCE := Source(false, PIX_DB_FILE, Data, [PIX_DIR, PIX_DB_FILE])

  // ------------------------------------------------------------------ what there is to migrate

  function Optional(present: bool, s: Source): seq<Source> {
    if present then [s] else []
  }

  function SourcesOf(fs: Fs, home: Ino, config: Ino): seq<Source> {
    [ID_SOURCE]
    + Optional(Bound(fs, config, LEGACY_PASSWORD_FILE).Some?, PASS_SOURCE)
    + Optional(Bound(fs, config, LEGACY_SAFE_FILE).Some?, SAFE_SOURCE)
    + Optional(Bound(fs, home, PIX_DB_FILE).Some?, REDB_SOURCE)
  }

  /** The legacy identity, if `.config` is a directory holding the identity file. */
  function FindLegacy(fs: Fs, home: Option<Ino>): Result<Option<Legacy>, ()> {
    match home
    case None => Ok(None)
    case Some(h) =>
      if !IsDir(fs, h) then Err(())
      else
        match OpenDir(fs, h, LEGACY_CONFIG_DIR)
        case Err(NoEnt) => Ok(None)
        case Err(_) => Err(())
        case Ok(c) =>
          if Bound(fs, c, LEGACY_IDENTITY_FILE).None? then Ok(None)
          else Ok(Some(Legacy(h, c, fs.nodes[c].meta.uid, Bound(fs, h, PIX_DB_FILE).Some?, SourcesOf(fs, h, c))))
  }

  method Find(fs: FileSystem, homePath: Option<Ino>) returns (r: Result<Option<Legacy>, Failure>)
    requires fs.Valid()
    modifies fs`faults
    ensures fs.Looked()
    ensures r.Ok? ==> FindLegacy(fs.st, homePath) == Ok(r.value)
    ensures r.Err? ==> r.error == Failure(LegacyStage)
    ensures r.Ok? ==> fs.faults == old(fs.faults)
    ensures fs.faults == old(fs.faults) ==> (r.Ok? <==> FindLegacy(fs.st, homePath).Ok?)
  {
    hide ValidFs, WalkDir;
    var failed := Err(Failure(LegacyStage));
    var root := OpenHome(fs, homePath);
    if root == Err(NoEnt) { return Ok(None); }
    if root.Err? { return failed; }
    var home := root.value;
    var found := FindDir(fs, home, [LEGACY_CONFIG_DIR]);
    OneStep(fs.st, home, LEGACY_CONFIG_DIR);
    if found.Err? { return failed; }
    if found.value == None { return Ok(None); }
    var config := found.value.value;
    var stat := fs.Attempt();
    if stat.Err? { return failed; }
    var id := fs.Exists(config, LEGACY_IDENTITY_FILE);
    if id.Err? { return failed; }
    if !id.value { return Ok(None); }
    var sources := ListSources(fs, home, config);
    if sources.Err? { return failed; }
    r := Ok(Some(Legacy(home, config, fs.st.nodes[config].meta.uid, sources.value.1, sources.value.0)));
  }

  /** The identity file and whatever else of it is there; and whether the PIX db is. */
  method ListSources(fs: FileSystem, home: Ino, config: Ino) returns (r: Result<(seq<Source>, bool), Errno>)
    requires fs.Valid()
    modifies fs`faults
    ensures fs.Looked()
    ensures r.Ok? ==> r.value == (SourcesOf(fs.st, home, config), Bound(fs.st, home, PIX_DB_FILE).Some?)
    ensures r.Ok? ==> fs.faults == old(fs.faults)
    ensures fs.faults == old(fs.faults) ==> r.Ok?
  {
    hide ValidFs, Bound;
    var pass := fs.Exists(config, LEGACY_PASSWORD_FILE);
    if pass.Err? { return Err(Io); }
    var safe := fs.Exists(config, LEGACY_SAFE_FILE);
    if safe.Err? { return Err(Io); }
    var redb := fs.Exists(home, PIX_DB_FILE);
    if redb.Err? { return Err(Io); }
    var sources := [ID_SOURCE];
    if pass.value { sources := sources + [PASS_SOURCE]; }
    assert sources == [ID_SOURCE] + Optional(pass.value, PASS_SOURCE);
    if safe.value { sources := sources + [SAFE_SOURCE]; }
    assert sources == [ID_SOURCE] + Optional(pass.value, PASS_SOURCE) + Optional(safe.value, SAFE_SOURCE);
    if redb.value { sources := sources + [REDB_SOURCE]; }
    assert sources == SourcesOf(fs.st, home, config);
    r := Ok((sources, redb.value));
  }

  lemma OneStep(fs: Fs, root: Ino, name: Name)
    ensures WalkDir(fs, root, [name]) ==
      match OpenDir(fs, root, name) { case Err(NoEnt) => Ok(None) case Err(e) => Err(e) case Ok(c) => Ok(Some(c)) }
  {
    assert [name][1..] == [];
  }

  // ------------------------------------------------------------------ the plan

  function SourceDir(legacy: Legacy, s: Source): Ino {
    if s.inConfig then legacy.config else legacy.home
  }

  function SourcePath(s: Source): Path {
    if s.inConfig then [LEGACY_CONFIG_DIR, s.name] else [s.name]
  }

  predicate Readable(fs: Fs, legacy: Legacy) {
    forall k :: 0 <= k < |legacy.sources| ==>
      OpenRegular(fs, SourceDir(legacy, legacy.sources[k]), legacy.sources[k].name).Ok?
  }

  function PlannedOf(fs: Fs, legacy: Legacy, s: Source): Planned
    requires OpenRegular(fs, SourceDir(legacy, s), s.name).Ok?
  {
    var i := OpenRegular(fs, SourceDir(legacy, s), s.name).value;
    Planned(SourcePath(s), i, s.place, s.rel, Sha256(fs.nodes[i].data))
  }

  function PlanOf(fs: Fs, legacy: Legacy): seq<Planned>
    requires Readable(fs, legacy)
  {
    seq(|legacy.sources|, k requires 0 <= k < |legacy.sources| => PlannedOf(fs, legacy, legacy.sources[k]))
  }

  /** Opens and reads every source: without faults there is a plan exactly if all of them are readable, and nothing
      has changed. */
  method Plan(fs: FileSystem, legacy: Legacy) returns (r: Result<seq<Planned>, Failure>)
    requires fs.Valid()
    modifies fs`faults
    ensures fs.Looked()
    ensures r.Ok? ==> Readable(fs.st, legacy) && r.value == PlanOf(fs.st, legacy)
    ensures r.Err? ==> r.error == Failure(LegacyStage)
    ensures r.Ok? ==> fs.faults == old(fs.faults)
    ensures fs.faults == old(fs.faults) ==> (r.Ok? <==> Readable(fs.st, legacy))
  {
    var plan: seq<Planned> := [];
    while |plan| < |legacy.sources|
      invariant |plan| <= |legacy.sources| && fs.Looked() && fs.faults == old(fs.faults)
      invariant forall k :: 0 <= k < |plan| ==>
        && OpenRegular(fs.st, SourceDir(legacy, legacy.sources[k]), legacy.sources[k].name).Ok?
        && plan[k] == PlannedOf(fs.st, legacy, legacy.sources[k])
      decreases |legacy.sources| - |plan|
    {
      var s := legacy.sources[|plan|];
      var source := fs.OpenRegularAt(SourceDir(legacy, s), s.name);
      if source.Err? { return Err(Failure(LegacyStage)); }
      var bytes := fs.ReadAll(source.value);
      if bytes.Err? { return Err(Failure(LegacyStage)); }
      plan := plan + [Planned(SourcePath(s), source.value, s.place, s.rel, Sha256(bytes.value))];
    }
    r := Ok(plan);
  }

  // ------------------------------------------------------------------ the target

  datatype Difference = Missing | Differs
  datatype Mismatch = Mismatch(legacy: Path, target: Path, difference: Difference)

  function TargetPath(l: UserLayout, net: Name, p: Planned): Path {
    NetworkDir(l, p.place, net) + p.rel
  }

  /** The regular single-link file at a path, reached through directories only. */
  function TargetFile(fs: Fs, home: Ino, path: Path): Option<Ino>
    requires path != []
  {
    match WalkDir(fs, home, path[..|path| - 1])
    case Ok(Some(d)) =>
      (match OpenRegular(fs, d, path[|path| - 1])
       case Ok(i) => Some(i)
       case Err(_) => None)
    case _ => None
  }

  /** How the target of one planned file differs from its source, if it does. */
  function Verdict(fs: Fs, home: Ino, l: UserLayout, net: Name, p: Planned): Option<Difference> {
    match TargetFile(fs, home, TargetPath(l, net, p))
    case None => Some(Missing)
    case Some(i) =>
      if i in fs.nodes && fs.nodes[i].File? && Sha256(fs.nodes[i].data) == p.sha256 then None else Some(Differs)
  }

  function MismatchesOf(fs: Fs, home: Ino, l: UserLayout, net: Name, plan: seq<Planned>): seq<Mismatch> {
    if plan == [] then []
    else
      var p := plan[|plan| - 1];
      MismatchesOf(fs, home, l, net, plan[..|plan| - 1]) +
      match Verdict(fs, home, l, net, p) {
        case None => []
        case Some(d) => [Mismatch(p.from, TargetPath(l, net, p), d)]
      }
  }

  /** Every planned file is at its target, byte for byte. */
  ghost predicate AllAtTarget(fs: Fs, home: Ino, l: UserLayout, net: Name, plan: seq<Planned>) {
    forall k :: 0 <= k < |plan| ==> Verdict(fs, home, l, net, plan[k]) == None
  }

  lemma {:induction false} NoMismatches(fs: Fs, home: Ino, l: UserLayout, net: Name, plan: seq<Planned>)
    ensures MismatchesOf(fs, home, l, net, plan) == [] <==> AllAtTarget(fs, home, l, net, plan)
    decreases |plan|
  {
    if plan != [] {
      NoMismatches(fs, home, l, net, plan[..|plan| - 1]);
    }
  }

  /** Whether anything, even a dangling symlink, is at `networks/<net>` on either side. */
  function TargetExists(fs: Fs, home: Ino, l: UserLayout, net: Name): Result<bool, ()> {
    match WalkDir(fs, home, Nets(l, Data))
    case Err(_) => Err(())
    case Ok(data) =>
      if data.Some? && Bound(fs, data.value, net).Some? then Ok(true)
      else
        match WalkDir(fs, home, Nets(l, Cache))
        case Err(_) => Err(())
        case Ok(cache) => Ok(cache.Some? && Bound(fs, cache.value, net).Some?)
  }

  predicate FreeAt(fs: Fs, home: Ino, dir: Path, net: Name) {
    && WalkDir(fs, home, dir).Ok?
    && (WalkDir(fs, home, dir).value.Some? ==> Bound(fs, WalkDir(fs, home, dir).value.value, net) == None)
  }

  method Exists(fs: FileSystem, home: Ino, l: UserLayout, net: Name) returns (r: Result<bool, Failure>)
    requires fs.Valid()
    modifies fs`faults
    ensures fs.Looked()
    ensures r.Ok? ==> IsDir(fs.st, home) && TargetExists(fs.st, home, l, net) == Ok(r.value)
    ensures r.Err? ==> r.error == Failure(DestinationStage)
    ensures r.Ok? ==> fs.faults == old(fs.faults)
    ensures fs.faults == old(fs.faults) ==> (r.Ok? <==> IsDir(fs.st, home) && TargetExists(fs.st, home, l, net).Ok?)
  {
    var failed := Err(Failure(DestinationStage));
    var root := OpenHome(fs, Some(home));
    if root.Err? { return failed; }
    var places := [Data, Cache];
    var k := 0;
    while k < 2
      invariant k <= 2 && fs.Looked() && places == [Data, Cache] && fs.faults == old(fs.faults)
      invariant k >= 1 ==> FreeAt(fs.st, home, Nets(l, Data), net)
      invariant k >= 2 ==> FreeAt(fs.st, home, Nets(l, Cache), net)
    {
      var dir := FindDir(fs, home, Nets(l, places[k]));
      if dir.Err? { return failed; }
      if dir.value.Some? {
        var here := fs.Exists(dir.value.value, net);
        if here.Err? { return failed; }
        if here.value { return Ok(true); }
      }
      k := k + 1;
    }
    r := Ok(false);
  }

  /** The regular file at `path` if it is reached through directories only and has one name; otherwise, or if a call
      fails, `None`. */
  method OpenTarget(fs: FileSystem, home: Ino, path: Path) returns (r: Option<Ino>)
    requires fs.Valid() && IsDir(fs.st, home) && path != []
    modifies fs`faults
    ensures fs.Looked()
    ensures r.Some? ==> r == TargetFile(fs.st, home, path) && r.value in fs.st.nodes && fs.st.nodes[r.value].File?
    ensures fs.faults == old(fs.faults) ==> r == TargetFile(fs.st, home, path)
  {
    WalkFinds(fs.st, home, path[..|path| - 1]);
    var dir := FindDir(fs, home, path[..|path| - 1]);
    if dir.Err? || dir.value.None? { return None; }
    var file := fs.OpenRegularAt(dir.value.value, path[|path| - 1]);
    r := if file.Ok? then Some(file.value) else None;
  }

  /** Faults may add mismatches but never hide one: an empty answer is always the truth. */
  method Compare(fs: FileSystem, home: Ino, l: UserLayout, net: Name, plan: seq<Planned>)
    returns (r: Result<seq<Mismatch>, Failure>)
    requires fs.Valid()
    modifies fs`faults
    ensures fs.Looked()
    ensures r.Ok? ==> IsDir(fs.st, home)
    ensures r == Ok([]) ==> AllAtTarget(fs.st, home, l, net, plan)
    ensures r.Err? ==> r.error == Failure(DestinationStage)
    ensures fs.faults == old(fs.faults) && IsDir(fs.st, home) ==> r == Ok(MismatchesOf(fs.st, home, l, net, plan))
  {
    hide ValidFs, WalkDir, OpenRegular, AllAtTarget;
    var root := OpenHome(fs, Some(home));
    if root.Err? { return Err(Failure(DestinationStage)); }
    var mismatches: seq<Mismatch> := [];
    var k := 0;
    while k < |plan|
      invariant k <= |plan| && fs.Looked()
      invariant mismatches == [] ==> MismatchesOf(fs.st, home, l, net, plan[..k]) == []
      invariant fs.faults == old(fs.faults) ==> mismatches == MismatchesOf(fs.st, home, l, net, plan[..k])
    {
      assert plan[..k + 1][..k] == plan[..k];
      var target := TargetPath(l, net, plan[k]);
      var file := OpenTarget(fs, home, target);
      match file {
        case None => mismatches := mismatches + [Mismatch(plan[k].from, target, Missing)];
        case Some(i) =>
          var bytes := fs.ReadAll(i);
          if bytes.Err? { return Err(Failure(DestinationStage)); }
          if Sha256(bytes.value) != plan[k].sha256 {
            mismatches := mismatches + [Mismatch(plan[k].from, target, Differs)];
          }
      }
      k := k + 1;
    }
    assert plan[..k] == plan;
    NoMismatches(fs.st, home, l, net, plan);
    r := Ok(mismatches);
  }
}
