/** Concrete worlds, for any bytes, network and timestamp, in which the runs proved about do happen. */
module Worlds {
  import opened Kernel
  import opened Trees
  import opened Growth
  import opened FileSystems
  import opened Names
  import opened Layout
  import opened Identity
  import opened Staging
  import opened Networks
  import opened LegacyHome
  import opened Safety
  import opened Install
  import opened Migrate
  import opened Reset
  import opened Runs

  const TOP := ".local"
  const KEEP := "keep"

  // ------------------------------------------------------------------ the worlds

  /** An empty home (0) and a legacy home (1) whose directory (2) holds an identity file and perhaps a safe file. With
      `foreign`, the home's data networks directory (8) has a directory of that name (9) with one file in it (10). */
  function World(bytes: Bytes, safe: Option<Bytes>, config: Meta, foreign: Option<Name>): Fs {
    Fs(map i: Ino | i < 11 :: NodeAt(bytes, safe, config, foreign, i), 11)
  }

  function NodeAt(bytes: Bytes, safe: Option<Bytes>, config: Meta, foreign: Option<Name>, i: Ino): Node {
    var m := Meta(ROOT_UID, DIR_MODE);
    match i
    case 2 => Dir(config, Listing(safe.Some?, foreign, 2))
    case 3 => File(m, bytes)
    case 4 => File(m, if safe.Some? then safe.value else [])
    case 10 => File(m, bytes)
    case _ => Dir(m, Listing(safe.Some?, foreign, i))
  }

  function Listing(safe: bool, foreign: Option<Name>, d: Ino): map<Name, Ino> {
    match d
    case 0 => if foreign.Some? then map[TOP := 5] else map[]
    case 1 => map[LEGACY_CONFIG_DIR := 2]
    case 2 => if safe then map[LEGACY_IDENTITY_FILE := 3, LEGACY_SAFE_FILE := 4] else map[LEGACY_IDENTITY_FILE := 3]
    case 5 => map["share" := 6]
    case 6 => map["gnosisvpn" := 7]
    case 7 => map[NETWORKS_DIR := 8]
    case 8 => if foreign.Some? then map[foreign.value := 9] else map[]
    case 9 => map[KEEP := 10]
    case _ => map[]
  }

  function Ask(net: Name, ts: string): Request {
    Request(0, 1000, LINUX, net, Some(1), false, false, ts, [])
  }

  /** Every name in the world. */
  function NameIn(safe: bool, foreign: Option<Name>, d: Ino, n: Name): Option<Ino> {
    match d
    case 0 => if n == TOP && foreign.Some? then Some(5) else None
    case 1 => if n == LEGACY_CONFIG_DIR then Some(2) else None
    case 2 => if n == LEGACY_IDENTITY_FILE then Some(3) else if n == LEGACY_SAFE_FILE && safe then Some(4) else None
    case 5 => if n == "share" then Some(6) else None
    case 6 => if n == "gnosisvpn" then Some(7) else None
    case 7 => if n == NETWORKS_DIR then Some(8) else None
    case 8 => if foreign == Some(n) then Some(9) else None
    case 9 => if n == KEEP then Some(10) else None
    case _ => None
  }

  ghost predicate InWorld(w: Fs, safe: bool, foreign: Option<Name>) {
    && w.next == 11 && (forall i: Ino :: i in w.nodes <==> i < 11)
    && (forall i: Ino :: i < 11 ==> if i == 3 || i == 4 || i == 10 then w.nodes[i].File? else w.nodes[i].Dir?)
    && (forall d: Ino, n: Name :: Bound(w, d, n) == NameIn(safe, foreign, d, n))
  }

  lemma WorldNames(bytes: Bytes, safe: Option<Bytes>, config: Meta, foreign: Option<Name>)
    ensures var w := World(bytes, safe, config, foreign);
      && InWorld(w, safe.Some?, foreign) && w.nodes[2].meta == config && w.nodes[3].data == bytes
      && w.nodes[10].data == bytes
  {
    var w := World(bytes, safe, config, foreign);
    forall d: Ino, n: Name
      ensures Bound(w, d, n) == NameIn(safe.Some?, foreign, d, n)
    {
      WorldName(bytes, safe, config, foreign, d, n);
    }
  }

  lemma ListingName(safe: bool, foreign: Option<Name>, d: Ino, n: Name)
    ensures NameIn(safe, foreign, d, n) ==
      if n in Listing(safe, foreign, d) then Some(Listing(safe, foreign, d)[n]) else None
    ensures d == 3 || d == 4 || d >= 10 ==> NameIn(safe, foreign, d, n) == None
  {
  }

  lemma WorldName(bytes: Bytes, safe: Option<Bytes>, config: Meta, foreign: Option<Name>, d: Ino, n: Name)
    ensures Bound(World(bytes, safe, config, foreign), d, n) == NameIn(safe.Some?, foreign, d, n)
  {
    hide Listing, NameIn;
    ListingName(safe.Some?, foreign, d, n);
  }

  ghost function ParentIn(foreign: Option<Name>, i: Ino): (Ino, Name) {
    match i
    case 2 => (1, LEGACY_CONFIG_DIR)
    case 5 => (0, TOP)
    case 6 => (5, "share")
    case 7 => (6, "gnosisvpn")
    case 8 => (7, NETWORKS_DIR)
    case _ => (8, if foreign.Some? then foreign.value else "")
  }

  lemma WorldValid(w: Fs, safe: bool, foreign: Option<Name>)
    requires InWorld(w, safe, foreign)
    ensures ValidFs(w)
  {
    ghost var height: Ino -> nat := (i: Ino) => if i < 20 then 20 - i else 0;
    ghost var parent: Ino -> (Ino, Name) := (i: Ino) => ParentIn(foreign, i);
    forall d: Ino, n: Name | Bound(w, d, n).Some?
      ensures Bound(w, d, n).value in w.nodes && height(Bound(w, d, n).value) < height(d)
      ensures IsDir(w, Bound(w, d, n).value) ==> parent(Bound(w, d, n).value) == (d, n)
    {
      NameAt(safe, foreign, d, n);
    }
    assert Shaped(w, Shape(height, parent));
  }

  lemma NameAt(safe: bool, foreign: Option<Name>, d: Ino, n: Name)
    requires NameIn(safe, foreign, d, n).Some?
    ensures var i := NameIn(safe, foreign, d, n).value;
      d < i < 11 && d < 11 && i != 1 && (i == 3 || i == 4 || i == 10 || ParentIn(foreign, i) == (d, n))
  {
  }

  /** No entry leads to either home. */
  lemma WorldApart(w: Fs, safe: bool, foreign: Option<Name>)
    requires InWorld(w, safe, foreign)
    ensures Apart(w, 0, 1)
  {
    forall x: Ino, y: Ino, p: Path | (x == 0 && y == 1) || (x == 1 && y == 0) ensures Lookup(w, x, p) != Some(y) {
      if p != [] {
        var p0, n := p[..|p| - 1], p[|p| - 1];
        assert p == p0 + [n];
        LookupLast(w, x, p0, n);
        if d: Ino :| Lookup(w, x, p0) == Some(d) && NameIn(safe, foreign, d, n).Some? { NameAt(safe, foreign, d, n); }
      }
    }
  }

  lemma OneLink(w: Fs, safe: bool, foreign: Option<Name>)
    requires InWorld(w, safe, foreign)
    ensures Links(w, 3) == {(2, LEGACY_IDENTITY_FILE)} && (safe ==> Links(w, 4) == {(2, LEGACY_SAFE_FILE)})
    ensures Links(w, 10) == {(9, KEEP)}
  {
    forall d: Ino, n: Name
      ensures (d, n) in Links(w, 3) <==> (d, n) == (2, LEGACY_IDENTITY_FILE)
      ensures safe ==> ((d, n) in Links(w, 4) <==> (d, n) == (2, LEGACY_SAFE_FILE))
      ensures (d, n) in Links(w, 10) <==> (d, n) == (9, KEEP)
    {
      LinksMember(w, 3, d, n);
      LinksMember(w, 4, d, n);
      LinksMember(w, 10, d, n);
      Files(safe, foreign, d, n);
    }
    hide InWorld, Links;
  }

  lemma Files(safe: bool, foreign: Option<Name>, d: Ino, n: Name)
    ensures NameIn(safe, foreign, d, n) == Some(3) <==> (d, n) == (2, LEGACY_IDENTITY_FILE)
    ensures safe ==> (NameIn(safe, foreign, d, n) == Some(4) <==> (d, n) == (2, LEGACY_SAFE_FILE))
    ensures NameIn(safe, foreign, d, n) == Some(10) <==> (d, n) == (9, KEEP)
  {
  }

  /** The legacy identity is found and readable; its identity file is planned first, and its safe file if it has one. */
  lemma WorldJob(w: Fs, safe: bool, foreign: Option<Name>, net: Name, ts: string)
    requires InWorld(w, safe, foreign)
    ensures HasJob(w, Ask(net, ts)) && PlansIdentity(JobOf(w, Ask(net, ts), false), w.nodes[3].data, net)
  {
    hide NameIn, StagingName, SourcesOf, Bound;
    OneLink(w, safe, foreign);
    SourcesIn(w, safe, foreign);
    assert Bound(w, 1, LEGACY_CONFIG_DIR) == Some(2) && Bound(w, 2, LEGACY_IDENTITY_FILE) == Some(3) by {
      SomeNames(safe, foreign);
    }
    assert safe ==> Bound(w, 2, LEGACY_SAFE_FILE) == Some(4) by { SomeNames(safe, foreign); }
  }

  lemma SomeNames(safe: bool, foreign: Option<Name>)
    ensures NameIn(safe, foreign, 1, LEGACY_CONFIG_DIR) == Some(2)
    ensures NameIn(safe, foreign, 2, LEGACY_IDENTITY_FILE) == Some(3)
    ensures safe ==> NameIn(safe, foreign, 2, LEGACY_SAFE_FILE) == Some(4)
  {
  }

  lemma SafeIn(w: Fs, safe: bool, foreign: Option<Name>)
    requires InWorld(w, safe, foreign)
    ensures Bound(w, 2, LEGACY_SAFE_FILE).Some? <==> safe
  {
  }

  lemma SourcesIn(w: Fs, safe: bool, foreign: Option<Name>)
    requires InWorld(w, safe, foreign)
    ensures SourcesOf(w, 1, 2) == [ID_SOURCE] + Optional(safe, SAFE_SOURCE)
  {
  }

  predicate PlansIdentity(job: Job, bytes: Bytes, net: Name) {
    && job.home == 0 && job.l == LINUX && job.net == net && job.legacy.home == 1 && job.legacy.config == 2
    && |job.plan| > 0 && job.plan[0].place == Data && job.plan[0].rel == [IDENTITY_FILE]
    && job.plan[0].sha256 == Sha256(bytes)
  }

  /** What `networks/<n>` is. */
  lemma WorldEntries(w: Fs, safe: bool, foreign: Option<Name>, n: Name)
    requires InWorld(w, safe, foreign)
    ensures WalkDir(w, 0, Nets(LINUX, Data)) == Ok(if foreign.Some? then Some(8) else None)
    ensures WalkDir(w, 0, Nets(LINUX, Cache)) == Ok(None)
    ensures Lookup(w, 0, NetworkDir(LINUX, Data, n)) == if foreign == Some(n) then Some(9) else None
    ensures Lookup(w, 0, NetworkDir(LINUX, Cache, n)) == None
  {
    var p, q := Nets(LINUX, Data), Nets(LINUX, Cache);
    assert p == [TOP, "share", "gnosisvpn", NETWORKS_DIR] && q == [".cache", "gnosisvpn", NETWORKS_DIR];
    assert p[1..] == ["share", "gnosisvpn", NETWORKS_DIR] && p[1..][1..] == ["gnosisvpn", NETWORKS_DIR]
      && p[1..][1..][1..] == [NETWORKS_DIR]
           && p[1..][1..][1..][1..] == [];
    if foreign.Some? {
      assert WalkDir(w, 5, p[1..]) == Ok(Some(8)) by {
        assert WalkDir(w, 7, [NETWORKS_DIR]) == WalkDir(w, 8, []);
        assert WalkDir(w, 6, p[1..][1..]) == WalkDir(w, 7, [NETWORKS_DIR]);
      }
    }
    WalkFinds(w, 0, p);
    WalkFinds(w, 0, q);
    LookupLast(w, 0, p, n);
    LookupLast(w, 0, q, n);
  }

  /** Every precondition of a migration is met, and nothing is at its target yet. The staging name is free unless it
      is the foreign directory's. */
  lemma WorldReady(w: Fs, safe: bool, foreign: Option<Name>, net: Name, ts: string)
    requires InWorld(w, safe, foreign) && ValidNetwork(net) && foreign != Some(net)
    ensures var req := Ask(net, ts);
      && ValidFs(w) && GoodRequest(w, req) && HasJob(w, req) && Unblocked(w, req.home, req.l)
      && TargetExists(w, req.home, req.l, req.net) == Ok(false)
      && (StagingFree(w, req) <==> foreign != Some(StagingName(net, ts)))
      && var job := JobOf(w, req, false); GoodJob(w, job) && !AllAtTarget(w, req.home, req.l, req.net, job.plan)
  {
    hide InWorld, ValidFs, WellLaid, FindLegacy, PlanOf, Verdict, StagingName;
    var req := Ask(net, ts);
    WorldValid(w, safe, foreign);
    WorldApart(w, safe, foreign);
    WorldJob(w, safe, foreign, net, ts);
    BothLayoutsWellLaid();
    WorldEntries(w, safe, foreign, net);
    WorldEntries(w, safe, foreign, StagingName(net, ts));
    assert IsDir(w, 0);
    WalkFinds(w, 0, Nets(LINUX, Data));
    LookupLast(w, 0, Nets(LINUX, Data), net);
    JobIsGood(w, req, false);
    BothSidesFree(w, req);
    NothingYet(w, JobOf(w, req, false));
  }

  /** Without a target directory the first planned file is not at its target. */
  lemma NothingYet(w: Fs, job: Job)
    requires ValidFs(w) && IsDir(w, job.home) && |job.plan| > 0 && job.plan[0].place == Data
    requires job.plan[0].rel == [IDENTITY_FILE]
    requires Lookup(w, job.home, NetworkDir(job.l, Data, job.net)) == None
    ensures !AllAtTarget(w, job.home, job.l, job.net, job.plan)
  {
    hide ValidFs, Verdict;
    VerdictIsFile(w, job.home, job.l, job.net, job.plan[0]);
    assert ParentOf(TargetPath(job.l, job.net, job.plan[0])) == NetworkDir(job.l, Data, job.net);
  }

  // ------------------------------------------------------------------ a whole migration

  /** Without faults it ends migrated: the bytes are at the user's target and no legacy directory is left. */
  method FirstMigration(bytes: Bytes, safe: Option<Bytes>, net: Name, ts: string)
    returns (fs: FileSystem, r: Result<Outcome, Failure>)
    requires ValidNetwork(net)
    ensures fresh(fs) && fs.Valid() && r.Ok? && r.value.Migrated?
    ensures FileAt(fs.st, 0, NetworkDir(LINUX, Data, net) + [IDENTITY_FILE], bytes)
    ensures Bound(fs.st, 1, LEGACY_CONFIG_DIR) == None
  {
    hide ValidFs, GoodRequest, HasJob, Unblocked, StagingFree, TargetExists, Safe, AllAtTarget, Live, Locked,
        HomeSecured, FindLegacy, Readable, PlanOf, FileAt, World, InWorld, PassedAll, WentLive, FailureUndone, GoodJob;
    var w, req := World(bytes, safe, Meta(ROOT_UID, DIR_MODE), None), Ask(net, ts);
    WorldNames(bytes, safe, Meta(ROOT_UID, DIR_MODE), None);
    WorldReady(w, safe.Some?, None, net, ts);
    WorldJob(w, safe.Some?, None, net, ts);
    fs := new FileSystem(w, false);
    r := MigrateIdentity(fs, req);
    SafeParts(w, fs.st, JobOf(w, req, false));
    FirstAtTarget(fs.st, JobOf(w, req, false), bytes);
  }

  lemma FirstAtTarget(s: Fs, job: Job, bytes: Bytes)
    requires ValidFs(s) && IsDir(s, job.home) && AllAtTarget(s, job.home, job.l, job.net, job.plan)
    requires |job.plan| > 0 && job.plan[0].place == Data && job.plan[0].rel == [IDENTITY_FILE]
    requires job.plan[0].sha256 == Sha256(bytes)
    ensures FileAt(s, job.home, NetworkDir(job.l, Data, job.net) + [IDENTITY_FILE], bytes)
  {
    hide FileAt, Verdict, ValidFs;
    VerdictIsFile(s, job.home, job.l, job.net, job.plan[0]);
  }

  // ------------------------------------------------------------------ a directory that goes by the staging name

  /** Somebody's directory has the name this run stages under. The run fails without a fault, and the file in it is
      gone. */
  method LosesForeignDirectory(bytes: Bytes, net: Name, ts: string)
    returns (fs: FileSystem, r: Result<Outcome, Failure>)
    requires ValidNetwork(net)
    ensures fresh(fs) && fs.Valid() && fs.faults == 0 && r.Err?
    ensures var kept := NetworkDir(LINUX, Data, StagingName(net, ts)) + [KEEP];
      FileAt(fs.history[0], 0, kept, bytes) && Lookup(fs.st, 0, kept) == None
    ensures HasJob(fs.history[0], Ask(net, ts)) && var job := JobOf(fs.history[0], Ask(net, ts), false);
      !(EveryEntryKept(fs.history[0], fs.st, job, Data) && EveryEntryKept(fs.history[0], fs.st, job, Cache))
  {
    hide ValidFs, GoodRequest, HasJob, Unblocked, StagingFree, NoStagingDir, TargetExists, AllAtTarget, EveryEntryKept,
        FileAt, World, InWorld, StagingName, NetworkDir, Nets, Bound, Lookup, IsDir, JobOf, GoodJob;
    var foreign := Some(StagingName(net, ts));
    var w, req := World(bytes, None, Meta(ROOT_UID, DIR_MODE), foreign), Ask(net, ts);
    NotStaging(net, ts);
    WorldNames(bytes, None, Meta(ROOT_UID, DIR_MODE), foreign);
    WorldReady(w, false, foreign, net, ts);
    KeptAtFirst(w, net, ts);
    fs := new FileSystem(w, false);
    r := InstallKeepsAll(fs, req);
    Emptied(fs.st, req);
  }

  lemma NotStaging(net: Name, ts: string)
    requires ValidNetwork(net)
    ensures StagingName(net, ts) != net
  {
    assert |StagingName(net, ts)| > |net|;
  }

  lemma KeptAtFirst(w: Fs, net: Name, ts: string)
    requires InWorld(w, false, Some(StagingName(net, ts)))
    ensures FileAt(w, 0, NetworkDir(LINUX, Data, StagingName(net, ts)) + [KEEP], w.nodes[10].data)
    ensures !NoStagingDir(w, Ask(net, ts))
  {
    var foreign := Some(StagingName(net, ts));
    WorldEntries(w, false, foreign, StagingName(net, ts));
    var path := NetworkDir(LINUX, Data, StagingName(net, ts)) + [KEEP];
    assert ParentOf(path) == NetworkDir(LINUX, Data, StagingName(net, ts)) && NameOf(path) == KEEP;
    OneLink(w, false, foreign);
    assert IsDir(w, 9) && Bound(w, 9, KEEP) == Some(10);
    assert Lookup(w, 0, Nets(LINUX, Data) + [StagingName(net, ts)]) == Some(9);
  }

  lemma Emptied(s: Fs, req: Request)
    requires NoStagingDir(s, req)
    ensures Lookup(s, req.home, NetworkDir(req.l, Data, StagingName(req.net, req.ts)) + [KEEP]) == None
  {
    hide StagingName;
    LookupLast(s, req.home, NetworkDir(req.l, Data, StagingName(req.net, req.ts)), KEEP);
  }

  // ------------------------------------------------------------------ crashes

  predicate Halved(s: Fs, net: Name) {
    && Lookup(s, 0, NetworkDir(LINUX, Data, net)).Some? && Lookup(s, 0, NetworkDir(LINUX, Cache, net)) == None
    && Bound(s, 1, LEGACY_CONFIG_DIR).Some?
  }

  /** In a world without a target, being halved is what a crash between the renames leaves. */
  lemma HalvedIsHalfWay(s0: Fs, s: Fs, job: Job, req: Request)
    requires GoodJob(s0, job) && Safe(s0, s, job) && SameRequest(req, job) && job.home == 0 && job.l == LINUX
    requires job.legacy.home == 1
    requires TargetEntry(s0, job, Data) == None
    ensures Halved(s, job.net) <==> HalfWay(s, job) && Found(s, job)
  {
    hide GoodJob, StagedOk, Found, TargetKept, OthersKept, Rooted, ConfigKept, RedbKept, LegacyLast;
    FoundOrGone(s0, s, job, req);
  }

  /** A fault-free run is killed between its two renames, and asked again without `replace`: it reports a conflict
      exactly if there was a safe file to cache. */
  method CrashBetweenRenames(bytes: Bytes, safe: Option<Bytes>, net: Name, ts: string, again: string)
    returns (first: FileSystem, k: nat, second: FileSystem, r: Result<Outcome, Failure>)
    requires ValidNetwork(net)
    ensures fresh(first) && first.Valid() && first.faults == 0 && 0 < k < |first.history|
    ensures fresh(second) && second.Valid() && second.faults == 0 && second.history[0] == first.history[k]
    ensures Halved(first.history[k], net)
    ensures r.Ok? && (if safe.Some? then r.value.Conflict? else r.value.AlreadyMigrated?)
  {
    hide ValidFs, GoodRequest, HasJob, Unblocked, StagingFree, TargetExists, Safe, AllAtTarget, Live, Locked,
        HomeSecured, FindLegacy, Readable, PlanOf, World, InWorld, PassedAll, WentLive, FailureUndone, GoodJob, Halved,
        HalfWay, Found, StagingName, Delivered, Decided, Answer, AsideName;
    var w, req := World(bytes, safe, Meta(ROOT_UID, DIR_MODE), None), Ask(net, ts);
    WorldNames(bytes, safe, Meta(ROOT_UID, DIR_MODE), None);
    WorldReady(w, safe.Some?, None, net, ts);
    WorldJob(w, safe.Some?, None, net, ts);
    SafeIn(w, safe.Some?, None);
    ghost var job := JobOf(w, req, false);
    VacantAt(w, job);
    first := new FileSystem(w, false);
    var done := MigrateIdentity(first, req);
    WillMigrate(w, req, done);
    forall i | 0 < i < |first.history|
      ensures Halved(first.history[i], net) <==> HalfWay(first.history[i], job) && Found(first.history[i], job)
    {
      HalvedIsHalfWay(w, first.history[i], job, req);
    }
    PassedHalfWay(w, first.history, 1, job);
    k :| 0 < k < |first.history| && Halved(first.history[k], net);
    second := new FileSystem(first.history[k], false);
    r := RerunHalfWay(second, w, job, Ask(net, again));
  }

  /** A fault-free answer where nothing is in the way. */
  lemma WillMigrate(w: Fs, req: Request, r: Result<Outcome, Failure>)
    requires HasJob(w, req) && Decided(w, req, r) && !req.dryRun && Unblocked(w, req.home, req.l)
    requires TargetExists(w, req.home, req.l, req.net) == Ok(false) && StagingFree(w, req)
    ensures r.Ok? && r.value.Migrated?
  {
    hide FindLegacy, Readable, PlanOf, Unblocked, TargetExists, StagingFree, AllAtTarget;
  }

  lemma VacantAt(w: Fs, job: Job)
    requires ValidFs(w) && IsDir(w, job.home) && TargetExists(w, job.home, job.l, job.net) == Ok(false)
    ensures TargetEntry(w, job, Data) == None
  {
    hide ValidFs;
    WalkFinds(w, job.home, Nets(job.l, Data));
    LookupLast(w, job.home, Nets(job.l, Data), job.net);
  }

  lemma PassedHalfWay(s0: Fs, h: seq<Fs>, from: nat, job: Job)
    requires PassedAll(s0, h, from, job)
    ensures exists k :: from <= k < |h| && HalfWay(h[k], job) && Found(h[k], job)
  {
    hide HalfWay, Found, WentLive;
  }

  predicate LeftOpen(s: Fs, config: Meta) {
    IsDir(s, 1) && Bound(s, 1, LEGACY_CONFIG_DIR) == None && 2 in s.nodes && s.nodes[2].meta == config
  }

  /** A fault-free run is killed after the legacy directory has left its name and before it is locked down. The
      identity is safe at its target, so the next run finds nothing to do, and the old key stays as readable as it
      was. */
  method UnlockedCrash(bytes: Bytes, safe: Option<Bytes>, config: Meta, net: Name, ts: string, again: string)
    returns (first: FileSystem, k: nat, second: FileSystem, r: Result<Outcome, Failure>)
    requires ValidNetwork(net) && config != Meta(ROOT_UID, DIR_MODE)
    ensures fresh(first) && first.Valid() && first.faults == 0 && 0 < k < |first.history|
    ensures LeftOpen(first.history[k], config)
    ensures fresh(second) && second.Valid() && second.faults == 0 && second.history[0] == first.history[k]
    ensures r == Ok(NothingToMigrate) && second.st == first.history[k] && !Locked(second.st, 2)
    ensures FileAt(second.st, 0, NetworkDir(LINUX, Data, net) + [IDENTITY_FILE], bytes)
  {
    hide ValidFs, GoodRequest, HasJob, Unblocked, StagingFree, TargetExists, Safe, AllAtTarget, Live, Locked,
        HomeSecured, FindLegacy, Readable, PlanOf, World, InWorld, PassedAll, WentLive, FailureUndone, GoodJob, Bound,
        FileAt, StagingName;
    var w, req := World(bytes, safe, config, None), Ask(net, ts);
    WorldNames(bytes, safe, config, None);
    WorldReady(w, safe.Some?, None, net, ts);
    WorldJob(w, safe.Some?, None, net, ts);
    ghost var job := JobOf(w, req, false);
    assert w.nodes[2].meta == config;
    first := new FileSystem(w, false);
    var done := MigrateIdentity(first, req);
    PassedOpenly(w, first.history, 1, job);
    k :| 0 < k < |first.history| && LeftOpen(first.history[k], config);
    second := new FileSystem(first.history[k], false);
    OpenNotLocked(second.st, config);
    r := Recover(second, w, job, Ask(net, again).(replace := true));
    SafeParts(w, second.st, job);
    FirstAtTarget(second.st, job, bytes);
  }

  lemma PassedOpenly(s0: Fs, h: seq<Fs>, from: nat, job: Job)
    requires PassedAll(s0, h, from, job) && job.legacy.home == 1 && job.legacy.config == 2
    ensures exists k :: from <= k < |h| && OpenAside(s0, h[k], 1, 2)
  {
    hide OpenAside, WentLive, WentHalfWay;
  }

  lemma OpenNotLocked(s: Fs, config: Meta)
    requires LeftOpen(s, config) && config != Meta(ROOT_UID, DIR_MODE)
    ensures !Locked(s, 2)
  {
  }

  /** The same for a reset: killed between the rename and the lock-down it leaves a backup as readable as the
      directory was, and the next reset has nothing to do. */
  method UnlockedReset(bytes: Bytes, config: Meta, ts: string, again: string)
    returns (first: FileSystem, k: nat, second: FileSystem, r: Result<Outcome, Failure>)
    requires config != Meta(ROOT_UID, DIR_MODE)
    ensures fresh(first) && first.Valid() && first.faults == 0 && 0 < k < |first.history|
    ensures LeftOpen(first.history[k], config)
    ensures fresh(second) && second.Valid() && second.faults == 0 && second.history[0] == first.history[k]
    ensures r == Ok(NothingToDo) && second.st == first.history[k] && !Locked(second.st, 2)
  {
    hide ValidFs, World, InWorld, NothingLost, SomeBacked, Locked, LockedBy, PassedOpen, Bound;
    var w, clean := World(bytes, None, config, None), Clean(Some(1), None, ts);
    WorldNames(bytes, None, config, None);
    WorldValid(w, false, None);
    WorldClear(w, clean);
    first := new FileSystem(w, false);
    ghost var name, data, cache;
    var done;
    done, name, data, cache := StartClean(first, clean);
    PassedReset(w, first.history, 1);
    k :| 0 < k < |first.history| && LeftOpen(first.history[k], config);
    second := new FileSystem(first.history[k], false);
    OpenNotLocked(second.st, config);
    NothingThere(second.st, config, clean.(ts := again));
    r, name, data, cache := StartClean(second, clean.(ts := again));
  }

  lemma WorldClear(w: Fs, clean: Clean)
    requires InWorld(w, false, None) && clean.legacyHome == Some(1) && clean.user == None
    ensures ConfigDir(w, clean.legacyHome) == Ok(Some(2)) && Clear(w, clean) && GoodClean(w, clean)
    ensures !NothingLeft(w, clean)
  {
  }

  lemma PassedReset(s0: Fs, h: seq<Fs>, from: nat)
    requires PassedOpen(s0, h, from, 1, 2)
    ensures exists k :: from <= k < |h| && OpenAside(s0, h[k], 1, 2)
  {
    hide OpenAside;
  }

  lemma NothingThere(s: Fs, config: Meta, clean: Clean)
    requires LeftOpen(s, config) && clean.legacyHome == Some(1) && clean.user == None
    ensures NothingLeft(s, clean) && Clear(s, clean) && GoodClean(s, clean)
  {
  }
}
