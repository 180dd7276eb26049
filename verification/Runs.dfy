/** Several runs in a row: what a crash leaves behind, what the next run makes of it, and both ways out of a conflict.
    */
module Runs {
  import opened Kernel
  import opened Trees
  import opened Growth
  import opened FileSystems
  import opened Names
  import opened Layout
  import opened Identity
  import opened Staging
  import opened Networks
  import opened LegacyHome
  import opened Safety
  import opened Install
  import opened Arrival
  import opened Migrate
  import opened Reset

  // ------------------------------------------------------------------ what a later run finds

  /** A request about the same homes and network. */
  ghost predicate SameRequest(req: Request, job: Job) {
    req.home == job.home && req.l == job.l && req.net == job.net && req.legacyHome == Some(job.legacy.home)
  }

  ghost predicate SameJob(job: Job, other: Job) {
    other.home == job.home && other.l == job.l && other.net == job.net && other.plan == job.plan
    && other.legacy.home == job.legacy.home && other.legacy.config == job.legacy.config
  }

  lemma SafeParts(s0: Fs, s: Fs, job: Job)
    requires GoodJob(s0, job) && Safe(s0, s, job)
    ensures Rooted(s0, s, job) && LegacyLast(s, job) && WellLaid(job.l) && ValidNetwork(job.net)
  {
    hide SideSafe, Rooted, LegacyLast, ConfigKept, RedbKept;
  }

  lemma RerunGood(s0: Fs, s: Fs, job: Job, req: Request)
    requires GoodJob(s0, job) && Safe(s0, s, job) && SameRequest(req, job)
    ensures GoodRequest(s, req)
    ensures Unblocked(s0, job.home, job.l) ==> Unblocked(s, job.home, job.l)
  {
    hide Safe, Unblocked, LegacyLast;
    SafeParts(s0, s, job);
  }

  /** While the files are still found, a rerun plans exactly the same copies. */
  lemma RerunPlan(s: Fs, job: Job, req: Request, faulty: bool)
    requires Found(s, job) && SameRequest(req, job) && IsDir(s, job.home)
    ensures HasJob(s, req) && SameJob(job, JobOf(s, req, faulty))
  {
    hide OpenRegular, SourcesOf;
    var again := FindLegacy(s, req.legacyHome).value.value;
    assert again == job.legacy.(ownerUid := again.ownerUid);
    forall k | 0 <= k < |job.legacy.sources|
      ensures SourceDir(again, again.sources[k]) == SourceDir(job.legacy, job.legacy.sources[k])
    {
    }
    assert PlanOf(s, again) == PlanOf(s, job.legacy);
  }

  /** Once the legacy directory is gone, nothing is found. */
  lemma RerunNothing(s: Fs, job: Job, req: Request)
    requires IsDir(s, job.legacy.home) && Bound(s, job.legacy.home, LEGACY_CONFIG_DIR) == None && SameRequest(req, job)
    ensures FindLegacy(s, req.legacyHome) == Ok(None)
  {
  }

  lemma FoundBound(s: Fs, job: Job)
    ensures Found(s, job) ==> Bound(s, job.legacy.home, LEGACY_CONFIG_DIR).Some?
  {
  }

  lemma FoundOrGone(s0: Fs, s: Fs, job: Job, req: Request)
    requires GoodJob(s0, job) && Safe(s0, s, job) && SameRequest(req, job)
    ensures
      Found(s, job) || (FindLegacy(s, req.legacyHome) == Ok(None) && AllAtTarget(s, job.home, job.l, job.net, job.plan))
    ensures Found(s, job) <==> Bound(s, job.legacy.home, LEGACY_CONFIG_DIR).Some?
  {
    hide Safe, Found, AllAtTarget;
    SafeParts(s0, s, job);
    FoundBound(s, job);
    if !Found(s, job) { RerunNothing(s, job, req); }
  }

  // ------------------------------------------------------------------ after a crash

  /** From every state a run can be stopped in, a fault-free rerun that may replace puts every originally planned file
      at its target. If there is still a legacy directory to migrate, this asks for a chain that is not blocked and
      for a timestamp whose staging name is free. The legacy directory ends locked exactly if it was still in place or
      locked already: once it has left its name, no later run finds it. */
  method Recover(fs: FileSystem, ghost s0: Fs, ghost job: Job, req: Request) returns (r: Result<Outcome, Failure>)
    requires fs.Valid() && !fs.faulty && GoodJob(s0, job) && Safe(s0, fs.st, job) && SameRequest(req, job)
    requires req.replace && !req.dryRun
    requires Bound(fs.st, job.legacy.home, LEGACY_CONFIG_DIR).Some? ==>
      Unblocked(s0, job.home, job.l) && StagingFree(fs.st, req)
    modifies fs
    ensures fs.Went() && r.Ok? && (r.value.Migrated? || r.value.AlreadyMigrated? || r.value.NothingToMigrate?)
    ensures AllAtTarget(fs.st, job.home, job.l, job.net, job.plan)
    ensures Arrived(s0, fs.st, job.legacy.home, job.home, job.l, job.net)
    ensures FindLegacy(fs.st, req.legacyHome) == Ok(None)
    ensures r.value.NothingToMigrate? <==> Bound(old(fs.st), job.legacy.home, LEGACY_CONFIG_DIR) == None
    ensures r.value.NothingToMigrate? ==> fs.Looked()
    ensures Locked(fs.st, job.legacy.config) <==>
            Bound(old(fs.st), job.legacy.home, LEGACY_CONFIG_DIR).Some? || Locked(old(fs.st), job.legacy.config)
  {
    hide ValidFs, Safe, GoodJob, Found, AllAtTarget, Unblocked, StagingFree, NoStagingDir, Live, Locked, HomeSecured,
        FindLegacy, Readable, PlanOf, TargetExists, GoodRequest, PassedAll, WentLive, FailureUndone, Arrived, Delivered;
    ghost var s := fs.st;
    SafeParts(s0, s, job);
    RerunGood(s0, s, job, req);
    FoundOrGone(s0, s, job, req);
    if Found(s, job) {
      RerunPlan(s, job, req, fs.faulty);
      JobIsGood(s, req, fs.faulty);
      UnblockedExists(s, req);
    }
    r := MigrateIdentity(fs, req);
    if Found(s, job) {
      ghost var again := JobOf(s, req, fs.faulty);
      SafeParts(s, fs.st, again);
      RerunNothing(fs.st, again, req);
    }
    ArrivedBy(s0, fs.st, job);
  }

  // ------------------------------------------------------------------ a crash between the two publishing renames

  /** Everything planned for a complete side is at its target, and nothing planned for an absent one. */
  lemma HalfVerdict(s: Fs, job: Job, k: nat)
    requires ValidFs(s) && IsDir(s, job.home) && HalfWay(s, job) && k < |job.plan| && job.plan[k].rel != []
    ensures Verdict(s, job.home, job.l, job.net, job.plan[k]) == None <==> job.plan[k].place == Data
  {
    hide ValidFs, Verdict, StagedOk;
    var p := job.plan[k];
    var path, base := TargetPath(job.l, job.net, p), NetworkDir(job.l, p.place, job.net);
    VerdictIsFile(s, job.home, job.l, job.net, p);
    assert ParentOf(path) == base + ParentOf(p.rel) && NameOf(path) == NameOf(p.rel);
    LookupAppend(s, job.home, base, ParentOf(p.rel));
    if p.place == Data {
      StagedFile(s, job, k, TargetEntry(s, job, Data).value);
    }
  }

  lemma StagedFile(s: Fs, job: Job, k: nat, dir: Ino)
    requires k < |job.plan| && job.plan[k].place == Data && StagedOk(s, dir, job.plan, Data, job.marker)
    ensures FileAt(s, dir, job.plan[k].rel, job.plan[k].sha256.of)
  {
  }

  lemma HalfAtTarget(s0: Fs, s: Fs, job: Job)
    requires GoodJob(s0, job) && ValidFs(s) && IsDir(s, job.home) && HalfWay(s, job)
    ensures AllAtTarget(s, job.home, job.l, job.net, job.plan) <==>
      Bound(s0, job.legacy.config, LEGACY_SAFE_FILE) == None
  {
    hide GoodJob, ValidFs, HalfWay, Verdict, Unchanged, HeadsDistinct, Describes;
    JobFacts(s0, job);
    SafePlanned(s0, job);
    forall k | 0 <= k < |job.plan|
      ensures Verdict(s, job.home, job.l, job.net, job.plan[k]) == None <==> job.plan[k].place == Data
    {
      HalfVerdict(s, job, k);
    }
  }

  lemma HalfExists(s: Fs, job: Job)
    requires ValidFs(s) && IsDir(s, job.home) && HalfWay(s, job)
    ensures TargetExists(s, job.home, job.l, job.net) == Ok(true)
  {
    hide StagedOk, ValidFs;
    LookupLast(s, job.home, Nets(job.l, Data), job.net);
    WalkFinds(s, job.home, Nets(job.l, Data));
  }

  /** Without `replace`, the next run reports a conflict exactly when there is a safe file to cache; otherwise all of
      the plan is live already and it finishes the job. */
  method RerunHalfWay(fs: FileSystem, ghost s0: Fs, ghost job: Job, req: Request) returns (r: Result<Outcome, Failure>)
    requires fs.Valid() && !fs.faulty && GoodJob(s0, job) && Safe(s0, fs.st, job) && SameRequest(req, job)
    requires HalfWay(fs.st, job) && Found(fs.st, job)
    requires !req.replace && !req.dryRun
    modifies fs
    ensures fs.Ran() && r.Ok? && (r.value.Conflict? || r.value.AlreadyMigrated?)
    ensures r.value.Conflict? <==> Bound(s0, job.legacy.config, LEGACY_SAFE_FILE).Some?
    ensures r.value.Conflict? ==> fs.Looked()
  {
    hide ValidFs, Safe, GoodJob, Found, AllAtTarget, Unblocked, StagingFree, Live, Locked, HomeSecured, Grown,
        FindLegacy, Readable, PlanOf, TargetExists, GoodRequest, HalfWay;
    ghost var s := fs.st;
    SafeParts(s0, s, job);
    RerunGood(s0, s, job, req);
    RerunPlan(s, job, req, fs.faulty);
    HalfExists(s, job);
    HalfAtTarget(s0, s, job);
    r := MigrateIdentity(fs, req);
  }

  // ------------------------------------------------------------------ ways out of a conflict, and repeats

  /** Asking again with `replace` installs the legacy identity and keeps the user's previous one under a replaced
      name. */
  method ReplaceAfterConflict(fs: FileSystem, req: Request, ts: string)
    returns (r: Result<Outcome, Failure>, again: Result<Outcome, Failure>)
    requires fs.Valid() && !fs.faulty && GoodRequest(fs.st, req) && HasJob(fs.st, req) && !req.replace && !req.dryRun
    requires Unblocked(fs.st, req.home, req.l) && StagingFree(fs.st, req.(replace := true, ts := ts))
    modifies fs
    ensures r.Ok? && r.value.Conflict? ==> again.Ok? && again.value.Migrated?
    ensures r.Ok? && r.value.Conflict? ==>
      Live(old(fs.st), fs.st, JobOf(old(fs.st), req.(replace := true, ts := ts), fs.faulty))
    ensures r.Ok? && r.value.Conflict? ==> FindLegacy(fs.st, req.legacyHome) == Ok(None)
    ensures !(r.Ok? && r.value.Conflict?) ==> again == r
  {
    hide ValidFs, Safe, GoodJob, Found, AllAtTarget, Unblocked, StagingFree, Live, Locked, HomeSecured, Grown,
        FindLegacy, Readable, PlanOf, TargetExists, GoodRequest;
    ghost var s := fs.st;
    r := MigrateIdentity(fs, req);
    again := r;
    if r.Ok? && r.value.Conflict? {
      var req' := req.(replace := true, ts := ts);
      SameAsk(s, req, req', fs.faulty);
      again := MigrateIdentity(fs, req');
      ghost var job := JobOf(s, req', fs.faulty);
      JobIsGood(s, req', fs.faulty);
      SafeParts(s, fs.st, job);
      AsksFor(s, req', fs.faulty);
      RerunNothing(fs.st, job, req');
    }
  }

  lemma SameAsk(s: Fs, req: Request, other: Request, faulty: bool)
    requires other == req.(replace := other.replace, ts := other.ts)
    ensures HasJob(s, other) <==> HasJob(s, req)
    ensures HasJob(s, req) ==>
      JobOf(s, req, faulty) ==
      JobOf(s, other, faulty).(staging := StagingName(req.net, req.ts), aside := AsideName(req.net, REPLACED, req.ts))
    ensures GoodRequest(s, other) <==> GoodRequest(s, req)
  {
  }

  lemma AsksFor(s: Fs, req: Request, faulty: bool)
    requires HasJob(s, req)
    ensures SameRequest(req, JobOf(s, req, faulty))
  {
  }

  /** Starting clean without a user keeps the user's identity untouched, and the next run finds nothing to migrate. */
  method CleanAfterConflict(fs: FileSystem, req: Request, ts: string)
    returns (cleaned: Result<Outcome, Failure>, again: Result<Outcome, Failure>)
    requires fs.Valid() && !fs.faulty && GoodRequest(fs.st, req) && HasJob(fs.st, req)
    modifies fs
    ensures cleaned.Ok? && cleaned.value.StartedClean?
    ensures again == Ok(NothingToMigrate)
    ensures SameTree(old(fs.st), fs.st, req.home)
  {
    hide ValidFs, Safe, Found, AllAtTarget, Unblocked, StagingFree, Live, Locked, HomeSecured, Grown, Readable, PlanOf,
        TargetExists, NothingLost, WellLaid, ValidNetwork, Apart, SomeBacked, SameTree;
    ghost var s := fs.st;
    var clean := Clean(req.legacyHome, None, ts);
    ghost var h := req.legacyHome.value;
    HasConfig(s, req, clean);
    ghost var name, data, cache;
    cleaned, name, data, cache := StartClean(fs, clean);
    LegacyOnly(s, fs.st, req);
    again := MigrateIdentity(fs, req);
  }

  lemma HasConfig(s: Fs, req: Request, clean: Clean)
    requires HasJob(s, req) && clean == Clean(req.legacyHome, None, clean.ts)
    ensures req.legacyHome.Some? && IsDir(s, req.legacyHome.value) && ConfigDir(s, req.legacyHome).Ok?
    ensures ConfigDir(s, req.legacyHome).value.Some?
  {
  }

  /** What happens in the legacy home alone. */
  lemma LegacyOnly(s: Fs, b: Fs, req: Request)
    requires ValidFs(s) && IsDir(s, req.home) && GoodRequest(s, req) && req.legacyHome.Some?
    requires IsDir(s, req.legacyHome.value)
    requires b == s || SomeBacked(s, b, req.legacyHome.value)
    ensures SameTree(s, b, req.home) && GoodRequest(b, req) && IsDir(b, req.home)
  {
    hide Touch, ValidFs, SameTree, WellLaid, ValidNetwork, SecuredMeta, BackedNames, Reach;
    var h := req.legacyHome.value;
    if b == s {
      SameTreeRefl(s, req.home);
    } else {
      var name :| Backed(s, b, h, name);
      BackedApart(s, b, h, name, req.home);
      ReachSelf(s, h);
      ApartKept(s, b, {h}, h, req.home);
      TouchKinds(s, b, {h});
    }
  }

  /** A repeated reset has nothing to do. */
  method CleanTwice(fs: FileSystem, clean: Clean, ts: string)
    returns (first: Result<Outcome, Failure>, second: Result<Outcome, Failure>)
    requires fs.Valid() && !fs.faulty && GoodClean(fs.st, clean)
    modifies fs
    ensures first.Ok? <==> Clear(old(fs.st), clean)
    ensures first.Ok? ==> second == Ok(NothingToDo)
  {
    hide ValidFs, NothingLost, WellLaid, ValidNetwork, Apart, SomeBacked, ConfigDir, SideFree, SideOpen;
    ghost var name, data, cache;
    first, name, data, cache := StartClean(fs, clean);
    second := first;
    if first.Ok? {
      LeftIsClear(fs.st, clean, clean.(ts := ts));
      second, name, data, cache := StartClean(fs, clean.(ts := ts));
    }
  }

  lemma LeftIsClear(fs: Fs, clean: Clean, other: Clean)
    requires NothingLeft(fs, clean) && other == clean.(ts := other.ts)
    requires clean.user.Some? ==> IsDir(fs, clean.user.value.home)
    ensures Clear(fs, other) && NothingLeft(fs, other) && (GoodClean(fs, clean) ==> GoodClean(fs, other))
  {
  }

  /** Migrating again after a migration finds nothing and changes nothing. */
  method MigrateTwice(fs: FileSystem, req: Request)
    returns (first: Result<Outcome, Failure>, second: Result<Outcome, Failure>)
    requires fs.Valid() && !fs.faulty && GoodRequest(fs.st, req) && HasJob(fs.st, req) && !req.dryRun
    modifies fs
    ensures first.Ok? && !first.value.Conflict? ==> second == Ok(NothingToMigrate)
    ensures first.Ok? && !first.value.Conflict? ==>
      AllAtTarget(fs.st, req.home, req.l, req.net, JobOf(old(fs.st), req, fs.faulty).plan)
  {
    hide ValidFs, Safe, GoodJob, Found, AllAtTarget, Unblocked, StagingFree, Live, Locked, HomeSecured, Grown,
        FindLegacy, Readable, PlanOf, TargetExists, GoodRequest;
    ghost var s := fs.st;
    first := MigrateIdentity(fs, req);
    second := first;
    if first.Ok? && !first.value.Conflict? {
      ghost var job := JobOf(s, req, fs.faulty);
      JobIsGood(s, req, fs.faulty);
      AsksFor(s, req, fs.faulty);
      SafeParts(s, fs.st, job);
      RerunGood(s, fs.st, job, req);
      RerunNothing(fs.st, job, req);
      second := MigrateIdentity(fs, req);
    }
  }

  // ------------------------------------------------------------------ whether anything is ever deleted

  /** Every entry a networks directory had at the start is still in it, its tree unchanged: under its own name, or,
      for the network itself, perhaps under a replaced one. */
  ghost predicate EveryEntryKept(s0: Fs, s: Fs, job: Job, place: Place) {
    forall n: Name :: EntryNamed(s0, job, place, n).Some? ==>
      EntryKept(s0, s, job, place, n, EntryNamed(s0, job, place, n).value)
  }

  ghost predicate EntryKept(s0: Fs, s: Fs, job: Job, place: Place, n: Name, x: Ino) {
    && SameTree(s0, s, x)
    && exists m: Name ::
      (m == n || (n == job.net && IsAside(job.net, REPLACED, m))) && EntryNamed(s, job, place, m) == Some(x)
  }

  /** Whatever fails, and at every point: nothing is lost while no directory goes by the staging name. */
  lemma SafeKeeps(s0: Fs, s: Fs, req: Request, job: Job, place: Place)
    requires Safe(s0, s, job) && NoStagingDir(s0, req) && req.home == job.home && req.l == job.l
    requires job.staging == StagingName(req.net, req.ts)
    ensures EveryEntryKept(s0, s, job, place)
  {
    hide SameTree, IsAside, StagingName, Rooted, ConfigKept, RedbKept, LegacyLast, WholeOrOld;
    assert SideSafe(s0, s, job, place) by { if place.Data? { } else { } }
    forall n: Name | EntryNamed(s0, job, place, n).Some?
      ensures EntryKept(s0, s, job, place, n, EntryNamed(s0, job, place, n).value)
    {
      var x := EntryNamed(s0, job, place, n).value;
      if n == job.net {
        var m :| KeptName(job.net, m) && Lookup(s, job.home, Nets(job.l, place) + [m]) == Some(x);
        assert EntryNamed(s, job, place, m) == Some(x);
      } else {
        assert Bystander(s0, job, n, x);
        assert EntryNamed(s, job, place, n) == Some(x);
      }
    }
  }

  /** A directory that went by the staging name and does not any more was not kept. */
  lemma StagingLost(s0: Fs, s: Fs, req: Request, job: Job)
    requires ValidFs(s0) && IsDir(s0, job.home) && !NoStagingDir(s0, req) && NoStagingDir(s, req)
    requires job.staging != job.net
    requires req.home == job.home && req.l == job.l && job.staging == StagingName(req.net, req.ts)
    ensures !(EveryEntryKept(s0, s, job, Data) && EveryEntryKept(s0, s, job, Cache))
  {
    hide IsAside, StagingName, ValidFs;
    var place: Place :|
      var e := Lookup(s0, req.home, Nets(req.l, place) + [StagingName(req.net, req.ts)]);
      e.Some? && IsDir(s0, e.value);
    var n := job.staging;
    var x := EntryNamed(s0, job, place, n).value;
    LookupInNodes(s0, job.home, NetworkDir(job.l, place, n));
    if EveryEntryKept(s0, s, job, place) {
      assert EntryKept(s0, s, job, place, n, x);
      TreeKind(s0, s, x);
    }
    assert !EveryEntryKept(s0, s, job, place);
    if place.Data? { } else { }
  }

  lemma TreeKind(a: Fs, b: Fs, x: Ino)
    requires SameTree(a, b, x) && IsDir(a, x)
    ensures IsDir(b, x)
  {
    assert Lookup(a, x, []) == Some(x);
    assert SameBody(a.nodes[x], b.nodes[x]);
  }

  /** That nothing is ever deleted is true of a fault-free installing run exactly if no directory goes by its staging
      name. With one there, staging fails and the cleanup removes it, whoever made it; anything else by that name
      makes staging fail too, but survives. */
  method InstallKeepsAll(fs: FileSystem, req: Request) returns (r: Result<Outcome, Failure>)
    requires fs.Valid() && !fs.faulty && GoodRequest(fs.st, req) && HasJob(fs.st, req) && !req.dryRun
    requires Unblocked(fs.st, req.home, req.l)
    requires !AllAtTarget(fs.st, req.home, req.l, req.net, JobOf(fs.st, req, false).plan)
    requires req.replace || TargetExists(fs.st, req.home, req.l, req.net) == Ok(false)
    modifies fs
    ensures fs.Went() && (r.Err? <==> !StagingFree(old(fs.st), req))
    ensures var job := JobOf(old(fs.st), req, false);
      EveryEntryKept(old(fs.st), fs.st, job, Data) && EveryEntryKept(old(fs.st), fs.st, job, Cache) <==>
        NoStagingDir(old(fs.st), req)
    ensures r.Err? ==> NoStagingDir(fs.st, req)
  {
    hide ValidFs, Safe, GoodJob, AllAtTarget, Unblocked, StagingFree, NoStagingDir, Live, Locked, HomeSecured,
        TargetExists, GoodRequest, EveryEntryKept, PassedAll, WentLive, FailureUndone, IsDir;
    ghost var s := fs.st;
    ghost var job := JobOf(s, req, false);
    UnblockedExists(s, req);
    JobIsGood(s, req, false);
    StagingOf(s, job);
    HomeOf(s, req, job);
    r := MigrateIdentity(fs, req);
    if NoStagingDir(s, req) {
      SafeKeeps(s, fs.st, req, job, Data);
      SafeKeeps(s, fs.st, req, job, Cache);
    } else {
      if StagingFree(s, req) { FreeNoDir(s, req); }
      StagingLost(s, fs.st, req, job);
    }
  }

  lemma HomeOf(s: Fs, req: Request, job: Job)
    requires HasJob(s, req) && job == JobOf(s, req, false)
    ensures IsDir(s, job.home) && req.home == job.home && req.l == job.l && job.staging == StagingName(req.net, req.ts)
  {
  }

  lemma FreeNoDir(s: Fs, req: Request)
    requires StagingFree(s, req)
    ensures NoStagingDir(s, req)
  {
  }
}
