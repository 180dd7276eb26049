/** The commands: migrating a found identity for good, and starting clean. */
module Migrate {
  import opened Kernel
  import opened Trees
  import opened Growth
  import opened FileSystems
  import opened Names
  import opened Nofollow
  import opened Layout
  import opened TreeWalks
  import opened Identity
  import opened Staging
  import opened Networks
  import opened LegacyHome
  import opened Safety
  import opened Install
  import opened Arrival

  datatype Outcome =
    | Migrated(files: seq<Move>, legacy: seq<Move>)
    | WouldMigrate(files: seq<Move>)
    | AlreadyMigrated(legacy: seq<Move>)
    | NothingToMigrate
    | Conflict(mismatches: seq<Mismatch>)
    | StartedClean(moved: seq<Move>)
    | NothingToDo

  // ------------------------------------------------------------------ moving the legacy identity aside, last

  lemma SettledAtStart(s0: Fs, job: Job)
    requires GoodJob(s0, job) && AllAtTarget(s0, job.home, job.l, job.net, job.plan)
    ensures Settled(s0, s0, job) && Describes(s0, job.legacy)
  {
    hide SameTree, AllAtTarget, Safe, HeadsDistinct, Describes, FindLegacy, Readable, PlanOf, Unchanged;
    JobFacts(s0, job);
    SameTreeRefl(s0, job.legacy.home);
    JobSafeNow(s0, job);
  }

  /** The legacy name is gone and everything planned is still at its target. */
  lemma LegacyGone(s0: Fs, c: Fs, b: Fs, job: Job, config: Option<Name>, redb: Option<Name>)
    requires GoodJob(s0, job) && Settled(s0, c, job) && LegacyMoved(c, b, job.legacy.home, config, redb)
    ensures AllAtTarget(b, job.home, job.l, job.net, job.plan)
  {
    hide *;
    JobFacts(s0, job);
    MovedFrame(s0, c, b, job, config, redb);
    AtTargetFrame(c, b, {job.legacy.home}, job);
  }

  /** The published directories do not notice. */
  lemma LiveThroughLegacy(s0: Fs, c: Fs, b: Fs, job: Job, config: Option<Name>, redb: Option<Name>)
    requires Live(s0, c, job) && Settled(s0, c, job) && LegacyMoved(c, b, job.legacy.home, config, redb)
    ensures Live(s0, b, job)
  {
    hide *;
    MovedFrame(s0, c, b, job, config, redb);
    MovedMeta(s0, c, b, job, config, redb);
    forall place: Place ensures LiveSide(b, job, place) && OldAside(s0, b, job, place) {
      LiveAt(s0, c, job, place);
      LiveFrame(s0, c, b, job, place);
    }
    LiveIf(s0, b, job);
  }

  lemma LiveAt(s0: Fs, c: Fs, job: Job, place: Place)
    requires Live(s0, c, job)
    ensures LiveSide(c, job, place) && OldAside(s0, c, job, place)
  {
    hide LiveSide, OldAside;
    if place.Data? { } else { }
  }

  lemma LiveIf(s0: Fs, c: Fs, job: Job)
    requires forall place: Place :: LiveSide(c, job, place) && OldAside(s0, c, job, place)
    ensures Live(s0, c, job)
  {
    hide LiveSide, OldAside;
  }

  /** Outside the legacy home owners and modes stay as they are. */
  ghost predicate MetaOutside(c: Fs, b: Fs, home: Ino) {
    forall i: Ino :: i in c.nodes && !Reach(c, home, i) ==> i in b.nodes && b.nodes[i].meta == c.nodes[i].meta
  }

  lemma MovedMeta(s0: Fs, c: Fs, b: Fs, job: Job, config: Option<Name>, redb: Option<Name>)
    requires Settled(s0, c, job) && LegacyMoved(c, b, job.legacy.home, config, redb)
    ensures MetaOutside(c, b, job.legacy.home) && IsDir(c, job.legacy.home) && Apart(c, job.home, job.legacy.home)
  {
    hide ValidFs, Touch, SameTree, SideSafe, ConfigKept, RedbKept, LegacyLast, AllAtTarget, AsideNames, HomeName, Reach;
    forall i: Ino | i in c.nodes && !Reach(c, job.legacy.home, i)
      ensures i in b.nodes && b.nodes[i].meta == c.nodes[i].meta
    {
      assert SecuredMeta(c, job.legacy.home, i, b.nodes[i].meta);
    }
  }

  /** A file with one name, below one home, is not below the other. */
  lemma FileOutside(c: Fs, h: Ino, l: Ino, base: Path, x: Ino, p: Path, bytes: Bytes)
    requires ValidFs(c) && IsDir(c, l) && Apart(c, h, l) && Lookup(c, h, base) == Some(x) && FileAt(c, x, p, bytes)
    ensures Lookup(c, x, p).Some? && !Reach(c, l, Lookup(c, x, p).value)
  {
    hide ValidFs, Links;
    var d := Lookup(c, x, ParentOf(p)).value;
    var f := Bound(c, d, NameOf(p)).value;
    assert p == ParentOf(p) + [NameOf(p)];
    LookupLast(c, x, ParentOf(p), NameOf(p));
    LookupAppend(c, h, base, ParentOf(p));
    if Reach(c, l, f) {
      var t := PathTo(c, l, f);
      var t0, m := t[..|t| - 1], t[|t| - 1];
      assert t == t0 + [m];
      LookupLast(c, l, t0, m);
      LinksMember(c, f, Lookup(c, l, t0).value, m);
      MeetApart(c, h, base + ParentOf(p), l, t0);
    }
  }

  lemma DirOutside(c: Fs, h: Ino, l: Ino, base: Path, x: Ino)
    requires ValidFs(c) && Apart(c, h, l) && Lookup(c, h, base) == Some(x) && IsDir(c, x)
    ensures !Reach(c, l, x)
  {
    hide ValidFs;
    if Reach(c, l, x) {
      var t := PathTo(c, l, x);
      MeetApart(c, h, base, l, t);
    }
  }

  lemma LedOutside(c: Fs, h: Ino, l: Ino, base: Path, x: Ino, p: Path)
    requires ValidFs(c) && Apart(c, h, l) && Lookup(c, h, base) == Some(x)
    requires Lookup(c, x, p).Some? && IsDir(c, Lookup(c, x, p).value)
    ensures !Reach(c, l, Lookup(c, x, p).value)
  {
    LookupAppend(c, h, base, p);
    DirOutside(c, h, l, base + p, Lookup(c, x, p).value);
  }

  /** Nothing that makes up a side lies in the legacy home. */
  lemma PartsKept(c: Fs, b: Fs, job: Job, place: Place, x: Ino, p: Path)
    requires ValidFs(c) && IsDir(c, job.legacy.home) && Apart(c, job.home, job.legacy.home)
    requires MetaOutside(c, b, job.legacy.home) && Lookup(c, job.home, NetworkDir(job.l, place, job.net)) == Some(x)
    requires StagedOk(c, x, job.plan, place, job.marker) && Part(job.plan, place, p)
    ensures MetaKept(c, b, x, p)
  {
    hide ValidFs, Apart, Reach, FileAt, Lookup;
    var base := NetworkDir(job.l, place, job.net);
    if p == [] {
      DirOutside(c, job.home, job.legacy.home, base, x);
      SelfAt(c, x);
    } else if place == Data && p == [MIGRATED_FROM_FILE] {
      var bytes :| FileAt(c, x, p, bytes);
      FileOutside(c, job.home, job.legacy.home, base, x, p, bytes);
    } else {
      var k :| 0 <= k < |job.plan| && job.plan[k].place == place && p <= job.plan[k].rel;
      var rel, bytes := job.plan[k].rel, job.plan[k].sha256.of;
      FileOutside(c, job.home, job.legacy.home, base, x, rel, bytes);
      if p != rel {
        assert rel[..|p|] == p;
        PrefixIsDir(c, x, rel, |p|);
        LedOutside(c, job.home, job.legacy.home, base, x, p);
      }
    }
  }

  lemma SelfAt(c: Fs, x: Ino)
    ensures Lookup(c, x, []) == Some(x)
  {
  }

  lemma LiveFrame(s0: Fs, c: Fs, b: Fs, job: Job, place: Place)
    requires ValidFs(c) && Touch(c, b, {job.legacy.home}) && IsDir(c, job.home) && !Reach(c, job.home, job.legacy.home)
    requires MetaOutside(c, b, job.legacy.home) && IsDir(c, job.legacy.home) && Apart(c, job.home, job.legacy.home)
    requires LiveSide(c, job, place) && OldAside(s0, c, job, place)
    ensures LiveSide(b, job, place) && OldAside(s0, b, job, place)
  {
    hide ValidFs, Touch, StagedOk, OwnedBySide, IsAside, Reach, Apart, MetaOutside, MetaKept, Part, Stamped;
    var e, x := {job.legacy.home}, TargetEntry(c, job, place).value;
    LookupFrame(c, b, e, job.home, NetworkDir(job.l, place, job.net));
    Below(c, job, NetworkDir(job.l, place, job.net), x);
    StagedFrame(c, b, e, x, job.plan, place, job.marker);
    forall p: Path | Part(job.plan, place, p) ensures MetaKept(c, b, x, p) { PartsKept(c, b, job, place, x, p); }
    OwnedFrame(c, b, e, x, job.plan, place, job.uid);
    if TargetEntry(s0, job, place).Some? {
      var n :|
        && IsAside(job.net, REPLACED, n) && n != job.net && Stamped(job.aside, n)
        && Lookup(c, job.home, Nets(job.l, place) + [n]) == TargetEntry(s0, job, place);
      LookupFrame(c, b, e, job.home, Nets(job.l, place) + [n]);
    }
  }

  /** Nor do the directories on the way to them. */
  lemma ChainThroughLegacy(s0: Fs, c: Fs, b: Fs, job: Job, config: Option<Name>, redb: Option<Name>)
    requires ChainMade(s0, c, job) && Settled(s0, c, job) && LegacyMoved(c, b, job.legacy.home, config, redb)
    ensures ChainMade(s0, b, job)
  {
    MovedFrame(s0, c, b, job, config, redb);
    MovedMeta(s0, c, b, job, config, redb);
    hide Settled, LegacyMoved, ValidFs, Touch, Lookup, ModeAt, Chain, Reach, Apart, MetaOutside;
    forall q: Path | q in Chain(job.l)
      ensures MadeWith(s0, b, job.home, q, Meta(job.uid, ModeAt(Asked(job.l), q)))
    {
      assert MadeWith(s0, c, job.home, q, Meta(job.uid, ModeAt(Asked(job.l), q)));
      LookupFrame(c, b, {job.legacy.home}, job.home, q);
      if Lookup(s0, job.home, q) == None { DirStays(c, b, job, q); }
    }
  }

  lemma DirStays(c: Fs, b: Fs, job: Job, q: Path)
    requires ValidFs(c) && Touch(c, b, {job.legacy.home}) && MetaOutside(c, b, job.legacy.home)
    requires Apart(c, job.home, job.legacy.home)
    requires Lookup(c, job.home, q).Some? && IsDir(c, Lookup(c, job.home, q).value)
    ensures IsDir(b, Lookup(c, job.home, q).value)
    ensures b.nodes[Lookup(c, job.home, q).value].meta == c.nodes[Lookup(c, job.home, q).value].meta
  {
    hide ValidFs, Lookup, Reach, Apart;
    DirOutside(c, job.home, job.legacy.home, q, Lookup(c, job.home, q).value);
  }

  lemma SettledSafe(s0: Fs, c: Fs, job: Job)
    requires Settled(s0, c, job)
    ensures Safe(s0, c, job)
  {
  }

  /** The last step of a migration, started only from a settled state. */
  method Finish(fs: FileSystem, ghost s0: Fs, ghost job: Job, legacy: Legacy, ts: string)
    returns (r: Result<seq<Move>, Failure>, ghost config: Option<Name>, ghost redb: Option<Name>)
    requires fs.Valid() && GoodJob(s0, job) && Settled(s0, fs.st, job) && Describes(fs.st, legacy)
    requires legacy == job.legacy
    modifies fs
    ensures fs.Ran() && Safe(s0, fs.st, job) && LegacyMoved(old(fs.st), fs.st, legacy.home, config, redb)
    ensures forall k :: old(|fs.history|) <= k < |fs.history| ==> Safe(s0, fs.history[k], job)
    ensures AllAtTarget(fs.st, job.home, job.l, job.net, job.plan)
    ensures r.Ok? ==> MovedAside(s0, fs.st, legacy, ts, r.value)
    ensures r.Ok? ==> PassedOpen(old(fs.st), fs.history, old(|fs.history|), legacy.home, legacy.config)
    ensures fs.faults == old(fs.faults) ==>
      r.Ok? && Locked(fs.st, legacy.config) && HomeSecured(fs.st, legacy.home, legacy.ownerUid)
  {
    hide ValidFs, GoodJob, Safe, Settled, Describes, LegacyMoved, LegacyMoving, AllAtTarget, Locked, HomeSecured, Bound,
        PassedOpen, MovedAside, Stamped, LegacyMoves;
    ghost var c := fs.st;
    r, config, redb := MoveLegacyAside(fs, legacy, ts);
    forall b: Fs | LegacyMoving(c, b, legacy) ensures Safe(s0, b, job) { LegacySafe(s0, c, b, job); }
    SettledSafe(s0, c, job);
    assert |fs.history| == old(|fs.history|) ==> fs.st == c;
    LegacyGone(s0, c, fs.st, job, config, redb);
    if r.Ok? { MovedAsideBy(s0, c, fs.st, job, ts, config.value, redb); }
  }

  lemma MovedAsideBy(s0: Fs, c: Fs, b: Fs, job: Job, ts: string, config: Name, redb: Option<Name>)
    requires Settled(s0, c, job) && Describes(c, job.legacy) && LegacyMoved(c, b, job.legacy.home, Some(config), redb)
    requires redb.Some? <==> job.legacy.hasRedb
    requires Stamped(".config.migrated-" + ts, config)
    requires redb.Some? ==> Stamped("curvy-pix.redb.migrated-" + ts, redb.value)
    ensures MovedAside(s0, b, job.legacy, ts, LegacyMoves(config, redb))
  {
    hide Safe, AllAtTarget, Touch, ValidFs, Stamped, Apart, SameTree;
    MovedNames(c, b, job.legacy, Some(config), redb);
    AsideShapes(Some(config), redb);
    TreeBound(s0, c, job.legacy.home);
  }

  // ------------------------------------------------------------------ the command

  /** What a fault-free run answers, read off the state it starts in. */
  ghost predicate Decided(s0: Fs, req: Request, r: Result<Outcome, Failure>) {
    match FindLegacy(s0, req.legacyHome)
    case Err(_) => r == Err(Failure(LegacyStage))
    case Ok(None) => r == Ok(NothingToMigrate)
    case Ok(Some(legacy)) =>
      if !Readable(s0, legacy) then r == Err(Failure(LegacyStage))
      else if !IsDir(s0, req.home) then r == Err(Failure(DestinationStage))
      else DecidedFor(s0, req, PlanOf(s0, legacy), r)
  }

  ghost predicate DecidedFor(s0: Fs, req: Request, plan: seq<Planned>, r: Result<Outcome, Failure>) {
    var there := TargetExists(s0, req.home, req.l, req.net);
    if there.Err? then r == Err(Failure(DestinationStage))
    else if there.value && AllAtTarget(s0, req.home, req.l, req.net, plan) then r.Ok? && r.value.AlreadyMigrated?
    else if there.value && !req.replace then r == Ok(Conflict(MismatchesOf(s0, req.home, req.l, req.net, plan)))
    else if req.dryRun then r == Ok(WouldMigrate(FilesOf(req.l, req.net, plan)))
    else if Unblocked(s0, req.home, req.l) && StagingFree(s0, req) then r.Ok? && r.value.Migrated?
    else r == Err(Failure(DestinationStage))
  }

  ghost predicate Silent(o: Outcome) {
    o.NothingToMigrate? || o.Conflict? || o.WouldMigrate?
  }

  /** `.config` and the PIX database are gone from their names; they go by names that say when, and the report lists
      both. */
  ghost predicate MovedAside(s0: Fs, b: Fs, legacy: Legacy, ts: string, moves: seq<Move>) {
    Bound(b, legacy.home, ".config") == None && exists config: Name, redb: Option<Name> ::
      && Stamped(".config.migrated-" + ts, config) && Bound(b, legacy.home, config) == Some(legacy.config)
      && (redb.Some? <==> legacy.hasRedb) && (redb.Some? ==> RedbMoved(s0, b, legacy, ts, redb.value))
      && moves == [Move([".config"], [config])] + (if redb.Some? then [Move(["curvy-pix.redb"], [redb.value])] else [])
  }

  ghost predicate RedbMoved(s0: Fs, b: Fs, legacy: Legacy, ts: string, redb: Name) {
    && Stamped("curvy-pix.redb.migrated-" + ts, redb) && Bound(b, legacy.home, "curvy-pix.redb") == None
    && Bound(b, legacy.home, redb) == Bound(s0, legacy.home, "curvy-pix.redb")
  }

  /** What the answer promises about the state it leaves. */
  ghost predicate Answer(s0: Fs, s: Fs, req: Request, job: Job, o: Outcome) {
    match o
    case Migrated(files, legacy) =>
      && !req.dryRun && files == FilesOf(job.l, job.net, job.plan) && Live(s0, s, job)
      && AllAtTarget(s, job.home, job.l, job.net, job.plan) && MovedAside(s0, s, job.legacy, req.ts, legacy)
      && ChainMade(s0, s, job)
    case AlreadyMigrated(legacy) =>
      AllAtTarget(s0, job.home, job.l, job.net, job.plan) && AllAtTarget(s, job.home, job.l, job.net, job.plan)
      && (if req.dryRun then legacy == [] && s == s0 else MovedAside(s0, s, job.legacy, req.ts, legacy))
    case WouldMigrate(files) => req.dryRun && files == FilesOf(job.l, job.net, job.plan)
    case Conflict(_) => !req.replace
    case _ => false
  }

  /** The same without the plan: every legacy file is at its place with the bytes it had; and if this run put them
      there, nothing else is with them but the marker, all of it private, and the report lists them. */
  ghost predicate Delivered(s0: Fs, s: Fs, req: Request, o: Outcome) {
    o.Migrated? || o.AlreadyMigrated? ==>
      && req.legacyHome.Some? && Arrived(s0, s, req.legacyHome.value, req.home, req.l, req.net)
      && (o.Migrated? ==>
        && NothingElse(s0, s, req.legacyHome.value, req.home, req.l, req.net, req.uid)
        && o.files == ReportedFiles(s0, req.legacyHome.value, Bound(s0, req.legacyHome.value, ".config").value, req.l,
                                    req.net))
  }

  lemma AnswerDelivers(s0: Fs, s: Fs, req: Request, faulty: bool, o: Outcome)
    requires HasJob(s0, req) && GoodJob(s0, JobOf(s0, req, faulty)) && ValidFs(s) && IsDir(s, req.home)
    requires Answer(s0, s, req, JobOf(s0, req, faulty), o)
    ensures Delivered(s0, s, req, o)
  {
    var job := JobOf(s0, req, faulty);
    JobHome(s0, req);
    LegacyPlace(s0, job);
    hide HasJob, GoodJob, ValidFs, AllAtTarget, Live, MovedAside, Arrived, NothingElse, FilesOf, ReportedFiles, Bound;
    if o.Migrated? || o.AlreadyMigrated? { ArrivedBy(s0, s, job); }
    if o.Migrated? {
      NothingElseBy(s0, s, job);
      FilesReported(s0, job);
    }
  }

  lemma JobHome(s0: Fs, req: Request)
    requires HasJob(s0, req)
    ensures forall faulty: bool ::
      var job := JobOf(s0, req, faulty);
      && req.legacyHome == Some(job.legacy.home) && job.home == req.home && job.uid == req.uid && job.l == req.l
      && job.net == req.net
  {
    hide Readable, PlanOf, OpenDir;
  }

  lemma NothingDelivered(s0: Fs, req: Request)
    ensures forall s: Fs :: Delivered(s0, s, req, NothingToMigrate)
  {
  }

  lemma HomeDelivers(s0: Fs, s: Fs, req: Request, faulty: bool, o: Outcome)
    requires HasJob(s0, req) && GoodJob(s0, JobOf(s0, req, faulty)) && ValidFs(s)
    requires Safe(s0, s, JobOf(s0, req, faulty)) && Answer(s0, s, req, JobOf(s0, req, faulty), o)
    ensures Delivered(s0, s, req, o)
  {
    hide HasJob, GoodJob, ValidFs, Safe, Answer, Delivered;
    JobHome(s0, req);
    SafeHome(s0, s, JobOf(s0, req, faulty));
    AnswerDelivers(s0, s, req, faulty, o);
  }

  lemma SafeHome(s0: Fs, s: Fs, job: Job)
    requires Safe(s0, s, job)
    ensures IsDir(s, job.home)
  {
    hide SideSafe, ConfigKept, RedbKept, LegacyLast, Apart;
  }

  lemma JobSafeNow(s0: Fs, job: Job)
    requires GoodJob(s0, job)
    ensures Safe(s0, s0, job)
  {
    hide *;
    LegacyIsDir(s0, job);
    GrownRefl(s0, job.home, Chain(job.l));
    GrownSafe(s0, s0, job);
  }

  /** What a migrating run passes through: the data side live without the cache side, both sides live, the legacy
      directory aside but not yet locked. */
  ghost predicate PassedAll(s0: Fs, h: seq<Fs>, from: nat, job: Job) {
    && WentHalfWay(h, from, job) && WentLive(s0, h, from, job)
    && PassedOpen(s0, h, from, job.legacy.home, job.legacy.config)
  }

  lemma PassedAllBy(s0: Fs, c: Fs, h: seq<Fs>, more: seq<Fs>, from: nat, mid: nat, job: Job)
    requires WentHalfWay(h, from, job) && WentLive(s0, h, from, job) && h <= more && from <= mid
    requires SameOwner(s0, c, job.legacy.config) && PassedOpen(c, more, mid, job.legacy.home, job.legacy.config)
    ensures PassedAll(s0, more, from, job)
  {
    hide WentHalfWay, WentLive;
    WentHalfWayMore(h, more, from, from, job);
    WentLiveMore(s0, h, more, from, from, job);
    var k :| mid <= k < |more| && OpenAside(c, more[k], job.legacy.home, job.legacy.config);
    PassedOpenBy(s0, more, from, job.legacy.home, job.legacy.config, k);
  }

  /** A failed run that was never live: only parents were created, or everything was at its target from the start and
      is. */
  ghost predicate TakenBack(s0: Fs, s: Fs, job: Job) {
    || Grown(s0, s, job.home, Chain(job.l))
    || (AllAtTarget(s0, job.home, job.l, job.net, job.plan) && AllAtTarget(s, job.home, job.l, job.net, job.plan))
  }

  /** If the new identity was never live, no undo call met a fault and no directory went by the staging name, the
      failure left nothing but parents. */
  ghost predicate FailureUndone(s0: Fs, s: Fs, h: seq<Fs>, from: nat, req: Request, job: Job, undoMetNoFault: bool) {
    !WentLive(s0, h, from, job) && undoMetNoFault && NoStagingDir(s0, req) ==> TakenBack(s0, s, job)
  }

  /** From the plan to the end: the legacy directory leaves its name only in a state where everything planned is at
      its target. */
  method Proceed(fs: FileSystem, req: Request, ghost job: Job, legacy: Legacy, plan: seq<Planned>)
    returns (r: Result<Outcome, Failure>)
    requires fs.Valid() && GoodJob(fs.st, job) && JobFor(req, job, fs.faulty) && plan == job.plan
    requires legacy == job.legacy && !req.dryRun
    modifies fs
    ensures fs.Went() && Safe(old(fs.st), fs.st, job)
    ensures forall k :: old(|fs.history|) <= k < |fs.history| ==> Safe(old(fs.st), fs.history[k], job)
    ensures r.Ok? ==>
      && r.value.Migrated? && Answer(old(fs.st), fs.st, req, job, r.value)
      && PassedAll(old(fs.st), fs.history, old(|fs.history|), job)
    ensures WentLive(old(fs.st), fs.history, old(|fs.history|), job) ==>
      AllAtTarget(fs.st, job.home, job.l, job.net, job.plan)
    ensures r.Err? && !WentLive(old(fs.st), fs.history, old(|fs.history|), job) ==>
      fs.undoFaults == old(fs.undoFaults) && NoStagingDir(old(fs.st), req) ==>
      Grown(old(fs.st), fs.st, job.home, Chain(job.l))
    ensures r.Err? && !WentLive(old(fs.st), fs.history, old(|fs.history|), job) ==>
      old(fs.undoFaults) < fs.undoFaults && StagingFree(old(fs.st), req) ==>
      old(fs.faults) + 2 <= fs.faults
    ensures r.Err? && fs.faults == old(fs.faults) ==> r.error == Failure(DestinationStage)
    ensures fs.faults == old(fs.faults) ==>
      (r.Ok? <==> Unblocked(old(fs.st), req.home, req.l) && StagingFree(old(fs.st), req))
    ensures fs.faults == old(fs.faults) && r.Err? && Unblocked(old(fs.st), req.home, req.l) ==> NoStagingDir(fs.st, req)
    ensures fs.faults == old(fs.faults) && r.Ok? ==>
      Locked(fs.st, legacy.config) && HomeSecured(fs.st, legacy.home, legacy.ownerUid)
  {
    hide ValidFs, GoodJob, Safe, Settled, Describes, LegacyMoved, AllAtTarget, Locked, HomeSecured, Bound, Live, Grown,
        StagingFree, NoStagingDir, Unblocked, MovedAside, Chain, WellLaid, IsDir, WentLive, WentHalfWay, PassedOpen,
        PassedAll, SameOwner, ChainMade;
    ghost var s0 := fs.st;
    var installed := InstallIdentity(fs, req, job, plan);
    if installed.Err? { return Err(installed.error); }
    ghost var c, sofar := fs.st, fs.history;
    var moves;
    ghost var config, redb;
    moves, config, redb := Finish(fs, s0, job, legacy, req.ts);
    LiveThroughLegacy(s0, c, fs.st, job, config, redb);
    ChainThroughLegacy(s0, c, fs.st, job, config, redb);
    WentLiveMore(s0, sofar, fs.history, old(|fs.history|), old(|fs.history|), job);
    if moves.Err? { return Err(moves.error); }
    PassedAllBy(s0, c, sofar, fs.history, old(|fs.history|), |sofar|, job);
    r := Ok(Migrated(FilesOf(req.l, req.net, plan), moves.value));
  }

  /** Everything planned is at its target already: all that is left is retiring the legacy identity. */
  method Already(fs: FileSystem, req: Request, ghost job: Job, legacy: Legacy) returns (r: Result<Outcome, Failure>)
    requires fs.Valid() && GoodJob(fs.st, job) && legacy == job.legacy
    requires AllAtTarget(fs.st, job.home, job.l, job.net, job.plan)
    modifies fs
    ensures fs.Ran() && Safe(old(fs.st), fs.st, job)
    ensures forall k :: old(|fs.history|) <= k < |fs.history| ==> Safe(old(fs.st), fs.history[k], job)
    ensures r.Ok? ==> r.value.AlreadyMigrated? && Answer(old(fs.st), fs.st, req, job, r.value)
    ensures req.dryRun ==> fs.Looked()
    ensures AllAtTarget(fs.st, job.home, job.l, job.net, job.plan)
    ensures fs.faults == old(fs.faults) ==> r.Ok?
    ensures fs.faults == old(fs.faults) && !req.dryRun ==>
      Locked(fs.st, legacy.config) && HomeSecured(fs.st, legacy.home, legacy.ownerUid)
  {
    hide ValidFs, GoodJob, Safe, Settled, Describes, LegacyMoved, AllAtTarget, Locked, HomeSecured, Bound, MovedAside;
    ghost var s0 := fs.st;
    JobSafeNow(s0, job);
    if req.dryRun { return Ok(AlreadyMigrated([])); }
    SettledAtStart(s0, job);
    var moves;
    ghost var config, redb;
    moves, config, redb := Finish(fs, s0, job, legacy, req.ts);
    if moves.Err? { return Err(moves.error); }
    r := Ok(AlreadyMigrated(moves.value));
  }

  lemma UnblockedExists(s0: Fs, req: Request)
    requires Unblocked(s0, req.home, req.l)
    ensures TargetExists(s0, req.home, req.l, req.net).Ok?
  {
  }

  datatype Standing = Vacant | Holding | Differing(mismatches: seq<Mismatch>)

  /** What is at the target, compared with the plan. Only the truth is ever reported as holding it. */
  method Examine(fs: FileSystem, home: Ino, l: UserLayout, net: Name, plan: seq<Planned>)
    returns (r: Result<Standing, Failure>)
    requires fs.Valid()
    modifies fs`faults
    ensures fs.Looked()
    ensures r.Ok? ==> IsDir(fs.st, home) && (r.value.Vacant? <==> TargetExists(fs.st, home, l, net) == Ok(false))
    ensures r.Ok? && r.value.Holding? ==> AllAtTarget(fs.st, home, l, net, plan)
    ensures r.Err? ==> r.error == Failure(DestinationStage)
    ensures fs.faults == old(fs.faults) ==> (r.Ok? <==> IsDir(fs.st, home) && TargetExists(fs.st, home, l, net).Ok?)
    ensures fs.faults == old(fs.faults) && r.Ok? && !r.value.Vacant? ==> TargetExists(fs.st, home, l, net) == Ok(true)
    ensures fs.faults == old(fs.faults) && r.Ok? && r.value.Differing? ==>
      !AllAtTarget(fs.st, home, l, net, plan) && r.value.mismatches == MismatchesOf(fs.st, home, l, net, plan)
  {
    hide ValidFs, IsDir, TargetExists, AllAtTarget, MismatchesOf;
    NoMismatches(fs.st, home, l, net, plan);
    var there := Exists(fs, home, l, net);
    if there.Err? { return Err(there.error); }
    if !there.value { return Ok(Vacant); }
    var mismatches := Compare(fs, home, l, net, plan);
    if mismatches.Err? { return Err(mismatches.error); }
    r := Ok(if mismatches.value == [] then Holding else Differing(mismatches.value));
  }

  /** Everything after the plan is made. Without a home there is nowhere to go. */
  method Carry(fs: FileSystem, req: Request, ghost job: Job, legacy: Legacy, plan: seq<Planned>)
    returns (r: Result<Outcome, Failure>)
    requires fs.Valid() && (IsDir(fs.st, req.home) ==> GoodJob(fs.st, job)) && JobFor(req, job, fs.faulty)
    requires plan == job.plan && legacy == job.legacy
    modifies fs
    ensures !IsDir(old(fs.st), req.home) ==> fs.Looked() && r == Err(Failure(DestinationStage))
    ensures fs.Went() && (IsDir(old(fs.st), req.home) ==> Safe(old(fs.st), fs.st, job))
    ensures IsDir(old(fs.st), req.home) ==>
      forall k :: old(|fs.history|) <= k < |fs.history| ==> Safe(old(fs.st), fs.history[k], job)
    ensures r.Ok? ==> Answer(old(fs.st), fs.st, req, job, r.value) && !r.value.NothingToMigrate?
    ensures req.dryRun || (r.Ok? && Silent(r.value)) ==> fs.Looked()
    ensures r.Ok? && r.value.Migrated? ==> PassedAll(old(fs.st), fs.history, old(|fs.history|), job)
    ensures WentLive(old(fs.st), fs.history, old(|fs.history|), job) ==>
      AllAtTarget(fs.st, job.home, job.l, job.net, job.plan)
    ensures r.Err? ==>
      FailureUndone(old(fs.st), fs.st, fs.history, old(|fs.history|), req, job, fs.undoFaults == old(fs.undoFaults))
    ensures r.Err? && !WentLive(old(fs.st), fs.history, old(|fs.history|), job) ==>
      old(fs.undoFaults) < fs.undoFaults && StagingFree(old(fs.st), req) ==>
      old(fs.faults) + 2 <= fs.faults
    ensures fs.faults == old(fs.faults) && IsDir(old(fs.st), req.home) ==> DecidedFor(old(fs.st), req, plan, r)
    ensures fs.faults == old(fs.faults) && IsDir(old(fs.st), req.home) && r.Err? ==>
      Unblocked(old(fs.st), req.home, req.l) ==>
      !StagingFree(old(fs.st), req) && NoStagingDir(fs.st, req)
    ensures fs.faults == old(fs.faults) && r.Ok? && !Silent(r.value) && !req.dryRun ==>
      Locked(fs.st, legacy.config) && HomeSecured(fs.st, legacy.home, legacy.ownerUid)
  {
    hide ValidFs, GoodJob, Safe, Settled, Describes, LegacyMoved, AllAtTarget, Locked, HomeSecured, Bound, Live, Grown,
        StagingFree, NoStagingDir, Unblocked, MovedAside, TargetExists, Chain, WellLaid, IsDir, MismatchesOf, FilesOf,
        WentLive, PassedAll, TakenBack;
    ghost var s0 := fs.st;
    if IsDir(s0, req.home) {
      GoodJobHome(s0, job);
      JobSafeNow(s0, job);
    }
    TakenBackNow(s0, job);
    NeverLive(s0, fs.history, |fs.history|, job);
    if Unblocked(s0, req.home, req.l) { UnblockedExists(s0, req); }
    var standing := Examine(fs, req.home, req.l, req.net, plan);
    if standing.Err? { return Err(standing.error); }
    if standing.value.Holding? {
      r := Already(fs, req, job, legacy);
      TakenBackAlready(s0, fs.st, job);
      return;
    }
    if standing.value.Differing? && !req.replace { return Ok(Conflict(standing.value.mismatches)); }
    if req.dryRun { return Ok(WouldMigrate(FilesOf(req.l, req.net, plan))); }
    r := Proceed(fs, req, job, legacy, plan);
    if Grown(s0, fs.st, job.home, Chain(job.l)) { TakenBackGrown(s0, fs.st, job); }
  }

  lemma TakenBackNow(s0: Fs, job: Job)
    ensures TakenBack(s0, s0, job)
  {
    GrownRefl(s0, job.home, Chain(job.l));
  }

  lemma TakenBackGrown(s0: Fs, s: Fs, job: Job)
    requires Grown(s0, s, job.home, Chain(job.l))
    ensures TakenBack(s0, s, job)
  {
  }

  lemma TakenBackAlready(s0: Fs, s: Fs, job: Job)
    requires AllAtTarget(s0, job.home, job.l, job.net, job.plan) && AllAtTarget(s, job.home, job.l, job.net, job.plan)
    ensures TakenBack(s0, s, job)
  {
  }

  /** The job of a request for which that legacy identity was found. */
  ghost function FoundJob(fs: Fs, req: Request, legacy: Legacy, faulty: bool): Job
    requires Readable(fs, legacy)
  {
    Job(req.home, req.uid, req.l, req.net, legacy, PlanOf(fs, legacy), if faulty then None else Some(req.content),
        StagingName(req.net, req.ts), AsideName(req.net, REPLACED, req.ts))
  }

  lemma FoundIsJob(s0: Fs, req: Request, legacy: Legacy, faulty: bool)
    requires ValidFs(s0) && GoodRequest(s0, req) && FindLegacy(s0, req.legacyHome) == Ok(Some(legacy))
    requires Readable(s0, legacy)
    ensures IsDir(s0, req.home) ==>
      && HasJob(s0, req) && FoundJob(s0, req, legacy, faulty) == JobOf(s0, req, faulty)
      && GoodJob(s0, JobOf(s0, req, faulty))
    ensures !IsDir(s0, req.home) ==> !HasJob(s0, req)
  {
    hide FindLegacy, Readable, PlanOf;
    if IsDir(s0, req.home) { JobIsGood(s0, req, faulty); }
  }

  /** Migrates the legacy identity, if there is one, for good. Whatever fails and wherever it stops, every state on
      the way is safe; without a readable legacy identity nothing changes. A run whose history shows the new identity
      live leaves it at its target. Of a failed run that was never live, nothing but created parents is left, if no
      undo call met a fault and no directory went by the staging name; and an undo call can meet a fault only if
      something else did before. */
  method MigrateIdentity(fs: FileSystem, req: Request) returns (r: Result<Outcome, Failure>)
    requires fs.Valid() && GoodRequest(fs.st, req)
    modifies fs
    ensures fs.Went()
    ensures !HasJob(old(fs.st), req) ==> fs.Looked() && (r.Err? || r == Ok(NothingToMigrate))
    ensures r == Ok(NothingToMigrate) ==> fs.Looked() && FindLegacy(fs.st, req.legacyHome) == Ok(None)
    ensures HasJob(old(fs.st), req) ==>
      Carried(old(fs.st), fs.st, fs.history, old(|fs.history|), req, JobOf(old(fs.st), req, fs.faulty), r)
    ensures HasJob(old(fs.st), req) && r.Err? ==>
      FailureUndone(old(fs.st), fs.st, fs.history, old(|fs.history|), req, JobOf(old(fs.st), req, fs.faulty),
                    fs.undoFaults == old(fs.undoFaults))
    ensures HasJob(old(fs.st), req) && r.Err? && fs.faults <= old(fs.faults) + 1 && StagingFree(old(fs.st), req) ==>
      FailureUndone(old(fs.st), fs.st, fs.history, old(|fs.history|), req, JobOf(old(fs.st), req, fs.faulty), true)
    ensures r.Ok? ==> Delivered(old(fs.st), fs.st, req, r.value)
    ensures req.dryRun || (r.Ok? && Silent(r.value)) ==> fs.Looked()
    ensures fs.faults == old(fs.faults) ==> Decided(old(fs.st), req, r)
    ensures fs.faults == old(fs.faults) && HasJob(old(fs.st), req) && r.Err? ==>
      Unblocked(old(fs.st), req.home, req.l) ==>
      !StagingFree(old(fs.st), req) && NoStagingDir(fs.st, req)
    ensures fs.faults == old(fs.faults) && HasJob(old(fs.st), req) && r.Ok? && !Silent(r.value) && !req.dryRun ==>
      var legacy := JobOf(old(fs.st), req, fs.faulty).legacy;
      Locked(fs.st, legacy.config) && HomeSecured(fs.st, legacy.home, legacy.ownerUid)
  {
    hide ValidFs, Carried, TakenBack, WentLive, FailureUndone, Locked, HomeSecured, Bound, StagingFree, NoStagingDir,
      TargetExists, Unblocked, Chain, WellLaid, IsDir, DecidedFor, FindLegacy, Readable, PlanOf, Apart, GoodJob,
      Reach, Safe, PassedAll, OpenDir, StagingName, Delivered, Answer;
    ghost var s0 := fs.st;
    NothingDelivered(s0, req);
    if HasJob(s0, req) {
      JobIsGood(s0, req, fs.faulty);
      CarriedNow(s0, fs.history, req, JobOf(s0, req, fs.faulty));
      UndoneNow(s0, fs.history, req, JobOf(s0, req, fs.faulty));
    }
    var found := Find(fs, req.legacyHome);
    if found.Err? { return Err(found.error); }
    if found.value.None? { return Ok(NothingToMigrate); }
    var legacy := found.value.value;
    var plan := Plan(fs, legacy);
    if plan.Err? { return Err(plan.error); }
    FoundIsJob(s0, req, legacy, fs.faulty);
    r := Carry(fs, req, FoundJob(s0, req, legacy, fs.faulty), legacy, plan.value);
    if HasJob(s0, req) { OneFault(s0, fs.st, fs.history, old(|fs.history|), req, JobOf(s0, req, fs.faulty)); }
    if HasJob(s0, req) && r.Ok? { HomeDelivers(s0, fs.st, req, fs.faulty, r.value); }
    if HasJob(s0, req) { CarriedBy(s0, fs.st, fs.history, old(|fs.history|), req, JobOf(s0, req, fs.faulty), r); }
  }

  lemma UndoneNow(s0: Fs, h: seq<Fs>, req: Request, job: Job)
    ensures forall clean: bool :: FailureUndone(s0, s0, h, |h|, req, job, clean)
  {
    hide WentLive, TakenBack, NoStagingDir;
    TakenBackNow(s0, job);
  }

  /** With at most one fault, either no undo call met one or the identity was live. */
  lemma OneFault(s0: Fs, s: Fs, h: seq<Fs>, from: nat, req: Request, job: Job)
    ensures WentLive(s0, h, from, job) ==> FailureUndone(s0, s, h, from, req, job, true)
  {
    hide WentLive, TakenBack, NoStagingDir;
  }

  /** What a run with something to migrate keeps and passes through, whatever its answer. */
  ghost predicate Carried(s0: Fs, s: Fs, h: seq<Fs>, from: nat, req: Request, job: Job, r: Result<Outcome, Failure>) {
    && Safe(s0, s, job) && (forall k :: from <= k < |h| ==> Safe(s0, h[k], job))
    && (r.Ok? ==> Answer(s0, s, req, job, r.value))
    && (r.Ok? && r.value.Migrated? ==> PassedAll(s0, h, from, job))
    && (WentLive(s0, h, from, job) ==> AllAtTarget(s, job.home, job.l, job.net, job.plan))
  }

  lemma CarriedNow(s0: Fs, h: seq<Fs>, req: Request, job: Job)
    requires GoodJob(s0, job)
    ensures forall e: Failure :: Carried(s0, s0, h, |h|, req, job, Err(e))
  {
    hide Safe, GoodJob;
    JobSafeNow(s0, job);
    NeverLive(s0, h, |h|, job);
  }

  lemma CarriedBy(s0: Fs, s: Fs, h: seq<Fs>, from: nat, req: Request, job: Job, r: Result<Outcome, Failure>)
    requires Safe(s0, s, job) && (forall k :: from <= k < |h| ==> Safe(s0, h[k], job))
    requires r.Ok? ==> Answer(s0, s, req, job, r.value)
    requires r.Ok? && r.value.Migrated? ==> PassedAll(s0, h, from, job)
    requires WentLive(s0, h, from, job) ==> AllAtTarget(s, job.home, job.l, job.net, job.plan)
    ensures Carried(s0, s, h, from, req, job, r)
  {
    hide Safe, Answer, PassedAll, WentLive, AllAtTarget;
  }
}
