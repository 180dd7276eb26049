/** Installing a legacy identity: networks directories, the present identity aside, staging, publishing, and the undo.
    */
module Install {
  import opened Kernel
  import opened Trees
  import opened Steps
  import opened Growth
  import opened FileSystems
  import opened Names
  import opened Nofollow
  import opened Layout
  import opened TreeWalks
  import opened Identity
  import opened Staging
  import opened Networks
  import opened LegacyHome
  import opened Safety
  import opened Rollback

  datatype Request = Request(home: Ino, uid: nat, l: UserLayout, net: Name, legacyHome: Option<Ino>, dryRun: bool,
                             replace: bool, ts: string, content: Bytes)

  /** What the callers guarantee: a validated network name, and a legacy home that is a tree of its own. */
  ghost predicate GoodRequest(fs: Fs, req: Request) {
    && WellLaid(req.l) && ValidNetwork(req.net)
    && (req.legacyHome.Some? ==> Apart(fs, req.home, req.legacyHome.value))
  }

  /** A legacy identity was found and can be read, and there is a home to move it to. */
  ghost predicate HasJob(fs: Fs, req: Request) {
    && IsDir(fs, req.home) && FindLegacy(fs, req.legacyHome).Ok? && FindLegacy(fs, req.legacyHome).value.Some?
    && Readable(fs, FindLegacy(fs, req.legacyHome).value.value)
  }

  ghost function JobOf(fs: Fs, req: Request, faulty: bool): Job
    requires HasJob(fs, req)
  {
    var legacy := FindLegacy(fs, req.legacyHome).value.value;
    Job(req.home, req.uid, req.l, req.net, legacy, PlanOf(fs, legacy), if faulty then None else Some(req.content),
        StagingName(req.net, req.ts), AsideName(req.net, REPLACED, req.ts))
  }

  lemma JobIsGood(fs: Fs, req: Request, faulty: bool)
    requires ValidFs(fs) && GoodRequest(fs, req) && HasJob(fs, req)
    ensures GoodJob(fs, JobOf(fs, req, faulty))
  {
    StagingShape(req.net, req.ts);
  }

  /** The staging name is free on both sides. */
  ghost predicate StagingFree(fs: Fs, req: Request) {
    forall place: Place :: Lookup(fs, req.home, Nets(req.l, place) + [StagingName(req.net, req.ts)]) == None
  }

  /** No directory goes by the staging name. */
  ghost predicate NoStagingDir(fs: Fs, req: Request) {
    forall place: Place ::
      var e := Lookup(fs, req.home, Nets(req.l, place) + [StagingName(req.net, req.ts)]);
      e.Some? ==> !IsDir(fs, e.value)
  }

  // ------------------------------------------------------------------ installing

  /** The names a failed run still has to put back, seen from the state in which both directories had just been
      opened. */
  ghost predicate Held(s1: Fs, c: Fs, job: Job, d: NetDirs, data: Option<Name>, cache: Option<Name>) {
    AsideHolds(s1, c, job, d.data, data) && AsideHolds(s1, c, job, d.cache, cache)
  }

  lemma HeldThrough(s1: Fs, c: Fs, b: Fs, job: Job, d: NetDirs, data: Option<Name>, cache: Option<Name>, staging: Name)
    requires ValidNetwork(job.net) && job.net + ".migrating-" <= staging && staging == job.staging
    requires Held(s1, c, job, d, data, cache)
    requires forall n: Name :: n != staging && n != job.net ==>
      Bound(b, d.data, n) == Bound(c, d.data, n) && Bound(b, d.cache, n) == Bound(c, d.cache, n)
    ensures Held(s1, b, job, d, data, cache)
  {
    StagingDiffers(job.net, staging);
    assert data.Some? ==> KeptName(job.net, data.value);
    assert cache.Some? ==> KeptName(job.net, cache.value);
  }

  lemma HeldAfterAside(s1: Fs, c: Fs, job: Job, d: NetDirs, data: Option<Name>, cache: Option<Name>)
    requires BothAside(s1, c, d, job.net, REPLACED, data, cache)
    ensures Held(s1, c, job, d, data, cache) && SoundEntry(job.net, data) && SoundEntry(job.net, cache)
  {
  }

  // ------------------------------------------------------------------ what a run's history tells

  /** Both sides carry the network name on something that was not there at the start. */
  ghost predicate BothNew(s0: Fs, s: Fs, job: Job) {
    forall place: Place :: TargetEntry(s, job, place).Some? && TargetEntry(s, job, place).value !in s0.nodes
  }

  /** At some time since `from` the new identity was live on both sides: both publishing renames went through. */
  ghost predicate WentLive(s0: Fs, h: seq<Fs>, from: nat, job: Job) {
    exists k :: from <= k < |h| && BothNew(s0, h[k], job)
  }

  /** At some time since `from` the data side was live and the cache side was not there. */
  ghost predicate WentHalfWay(h: seq<Fs>, from: nat, job: Job) {
    exists k :: from <= k < |h| && HalfWay(h[k], job) && Found(h[k], job)
  }

  lemma WentHalfWayMore(h: seq<Fs>, more: seq<Fs>, from: nat, since: nat, job: Job)
    requires WentHalfWay(h, from, job) && h <= more && since <= from
    ensures WentHalfWay(more, since, job)
  {
    hide HalfWay, Found;
    var k :| from <= k < |h| && HalfWay(h[k], job) && Found(h[k], job);
    assert more[k] == h[k];
  }

  lemma WentLiveMore(s0: Fs, h: seq<Fs>, more: seq<Fs>, from: nat, since: nat, job: Job)
    requires WentLive(s0, h, from, job) && h <= more && since <= from
    ensures WentLive(s0, more, since, job)
  {
    hide BothNew;
    var k :| from <= k < |h| && BothNew(s0, h[k], job);
    assert more[k] == h[k];
  }

  lemma NeverLive(s0: Fs, h: seq<Fs>, from: nat, job: Job)
    requires forall k :: from <= k < |h| ==> !BothNew(s0, h[k], job)
    ensures !WentLive(s0, h, from, job)
  {
    hide BothNew;
  }

  /** The cache side's network name is free or leads where it led in `s1`. */
  ghost predicate CacheOld(s1: Fs, b: Fs, job: Job, d: NetDirs) {
    Bound(b, d.cache, job.net) == None || Bound(b, d.cache, job.net) == Bound(s1, d.cache, job.net)
  }

  lemma NotNew(s0: Fs, s1: Fs, b: Fs, job: Job, d: NetDirs)
    requires GoodJob(s0, job) && Grown(s0, s1, job.home, Chain(job.l)) && Placed(s1, job.home, job.l, d)
    requires Phase(s1, b, job, d) && CacheOld(s1, b, job, d)
    ensures !BothNew(s0, b, job)
  {
    hide GoodJob, Grown, SlotOk, Found, SameTree, Apart, SameOwner;
    LegacyIsDir(s0, job);
    TargetByName(b, job, Cache, d.cache, job.net);
    GrownSlot(s0, s1, job, d, Cache, job.net);
    assert TargetEntry(s0, job, Cache) == Bound(s1, d.cache, job.net);
    if TargetEntry(b, job, Cache).Some? { LookupInNodes(s0, job.home, NetworkDir(job.l, Cache, job.net)); }
  }

  lemma GrownNotNew(s0: Fs, b: Fs, job: Job)
    requires GoodJob(s0, job) && Grown(s0, b, job.home, Chain(job.l))
    ensures !BothNew(s0, b, job)
  {
    hide GoodJob, Grown, SameTree;
    GrownKeeps(s0, b, job);
    LegacyIsDir(s0, job);
    assert TargetEntry(b, job, Cache) == TargetEntry(s0, job, Cache);
    if TargetEntry(s0, job, Cache).Some? { LookupInNodes(s0, job.home, NetworkDir(job.l, Cache, job.net)); }
  }

  /** What was staged in this run is new. */
  lemma PublishedNew(s0: Fs, s1: Fs, c: Fs, staged: Fs, b: Fs, job: Job, d: NetDirs, staging: Name)
    requires s0.nodes.Keys <= c.nodes.Keys && Phase(s1, b, job, d) && staging != job.net
    requires Bound(c, d.data, staging) == None && Bound(c, d.cache, staging) == None
    requires StagingSlot(c, staged, d.data, staging) && StagingSlot(c, staged, d.cache, staging)
    requires ReadyToPublish(staged, job, d, staging) && BothPublished(staged, b, d, staging, job.net, true, true)
    ensures BothNew(s0, b, job)
  {
    hide StagedOk, SlotOk, Found, SameTree, Apart, SameOwner, Touch, ValidFs;
    PublishedNames(staged, b, d, staging, job.net, true, true);
    forall place: Place ensures TargetEntry(b, job, place).Some? && TargetEntry(b, job, place).value !in s0.nodes {
      TargetByName(b, job, place, Side(d, place), job.net);
    }
  }

  lemma PassedMilestones(s0: Fs, s1: Fs, c: Fs, staged: Fs, h: seq<Fs>, from: nat, since: nat, job: Job, d: NetDirs,
                         staging: Name)
    requires WellLaid(job.l) && ValidNetwork(job.net) && job.net + ".migrating-" <= staging && staging == job.staging
    requires staging != job.net && since <= from
    requires s0.nodes.Keys <= c.nodes.Keys && Phase(s1, staged, job, d)
    requires forall k :: from <= k < |h| ==> Phase(s1, h[k], job, d)
    requires Bound(c, d.data, staging) == None && Bound(c, d.cache, staging) == None
    requires StagingSlot(c, staged, d.data, staging) && StagingSlot(c, staged, d.cache, staging)
    requires ReadyToPublish(staged, job, d, staging)
    requires PassedHalf(staged, h, from, d, staging, job.net) && PassedBoth(staged, h, from, d, staging, job.net)
    ensures WentHalfWay(h, since, job) && WentLive(s0, h, since, job)
  {
    hide Phase, StagingSlot, ReadyToPublish, BothPublished, HalfWay, Found, BothNew, WellLaid, ValidNetwork, Bound;
    var k :| from <= k < |h| && BothPublished(staged, h[k], d, staging, job.net, true, false);
    BetweenRenames(s1, staged, h[k], job, d, staging);
    var m :| from <= m < |h| && BothPublished(staged, h[m], d, staging, job.net, true, true);
    PublishedNew(s0, s1, c, staged, h[m], job, d, staging);
  }

  lemma StagedCacheOld(s1: Fs, c: Fs, b: Fs, job: Job, d: NetDirs, staging: Name)
    requires ValidNetwork(job.net) && job.net + ".migrating-" <= staging && staging == job.staging
    requires StagedInto(c, b, d.data, d.cache, staging)
    requires Bound(c, d.cache, job.net) == None
    ensures CacheOld(s1, b, job, d)
  {
    StagedNet(c, b, job, d, staging);
  }

  lemma UnpublishedCacheOld(s1: Fs, staged: Fs, b: Fs, job: Job, d: NetDirs, staging: Name)
    requires Unpublished(staged, b, d, staging, job.net) && staging != job.net && Bound(staged, d.data, job.net) == None
    requires Bound(staged, d.cache, job.net) == None
    ensures CacheOld(s1, b, job, d)
  {
    hide ValidFs, Touch, SameMeta;
  }

  // ------------------------------------------------------------------ staging and publishing

  /** `stage` and then `publish`. */
  method StageAndPublish(fs: FileSystem, ghost s0: Fs, ghost s1: Fs, ghost job: Job, d: NetDirs, staging: Name,
                         net: Name, plan: seq<Planned>, content: Bytes, uid: nat)
    returns (r: Result<(), Failure>, ghost staged: Fs, ghost committed: bool)
    requires fs.Valid() && GoodJob(s0, job) && Grown(s0, s1, job.home, Chain(job.l)) && Placed(s1, job.home, job.l, d)
    requires Phase(s1, fs.st, job, d)
    requires job.net == net && job.plan == plan && job.uid == uid
    requires job.marker == (if fs.faulty then None else Some(content)) && staging == job.staging
    requires d.data != d.cache && Bound(fs.st, d.data, net) == None && Bound(fs.st, d.cache, net) == None
    requires s0.nodes.Keys <= fs.st.nodes.Keys
    requires forall k :: 0 <= k < |plan| ==> Unchanged(fs.st, plan[k])
    modifies fs
    ensures fs.Went() && Phase(s1, fs.st, job, d) && (r.Ok? ==> fs.undoFaults == old(fs.undoFaults))
    ensures forall k :: old(|fs.history|) <= k < |fs.history| ==> Phase(s1, fs.history[k], job, d)
    ensures StagedInto(old(fs.st), staged, d.data, d.cache, staging)
    ensures StagingSlot(old(fs.st), staged, d.data, staging) && StagingSlot(old(fs.st), staged, d.cache, staging)
    ensures r.Ok? ==> committed
    ensures committed ==>
      ReadyToPublish(staged, job, d, staging) && BothPublished(staged, fs.st, d, staging, net, true, true)
    ensures committed ==>
      WentHalfWay(fs.history, old(|fs.history|), job) && WentLive(s0, fs.history, old(|fs.history|), job)
    ensures !committed ==> Unpublished(staged, fs.st, d, staging, net) && CacheOld(s1, fs.st, job, d)
    ensures !committed ==> forall k :: old(|fs.history|) <= k < |fs.history| ==> CacheOld(s1, fs.history[k], job, d)
    ensures !committed && fs.undoFaults == old(fs.undoFaults) ==>
      BothPublished(staged, fs.st, d, staging, net, false, false)
    ensures old(fs.undoFaults) < fs.undoFaults ==> old(fs.faults) + 2 <= fs.faults
    ensures r.Err? && fs.faults == old(fs.faults) ==> r.error == Failure(DestinationStage)
    ensures fs.faults == old(fs.faults) ==>
      (r.Ok? <==> Bound(old(fs.st), d.data, staging) == None && Bound(old(fs.st), d.cache, staging) == None)
  {
    hide ValidFs, Touch, GoodJob, Grown, Placed, Phase, StagedInto, StagingSlot, StagedOk, OwnedBySide,
      BothPublished, HeadsDistinct, Unchanged, CacheOld, WentHalfWay, WentLive, PassedHalf, PassedBoth, Unpublished,
      WellLaid, ValidNetwork, FindLegacy, SameMeta, NoNewLinks, Publishing, Lookup, Bound, SameOwner, Nets, NameChar,
      Prefixes;
    ghost var c := fs.st;
    committed := false;
    StagingOf(s0, job);
    JobFacts(s0, job);
    JobBasics(s0, s1, c, job, d);
    r := StageBoth(fs, d.data, d.cache, staging, plan, content, uid);
    staged := fs.st;
    forall b: Fs | StagedInto(c, b, d.data, d.cache, staging) ensures Phase(s1, b, job, d) && CacheOld(s1, b, job, d) {
      StagedPhase(s1, c, b, job, d, staging);
      StagedCacheOld(s1, c, b, job, d, staging);
    }
    if r.Err? {
      StagedValid(c, staged, d, staging);
      PublishRefl(staged, d, staging, net);
      StageOf(staged, staged, d, staging, net, false, false);
      return;
    }
    JobBasics(s0, s1, staged, job, d);
    StagedNet(c, staged, job, d, staging);
    ghost var from := |fs.history|;
    r, committed := Publish(fs, d, staging, net);
    forall b: Fs | Publishing(staged, b, d, staging, net)
      ensures Phase(s1, b, job, d)
    {
      PublishPhase(s1, staged, b, job, d, staging);
    }
    if committed {
      PassedMilestones(s0, s1, c, staged, fs.history, from, old(|fs.history|), job, d, staging);
    } else {
      forall b: Fs | Unpublished(staged, b, d, staging, net)
        ensures CacheOld(s1, b, job, d)
      {
        UnpublishedCacheOld(s1, staged, b, job, d, staging);
      }
    }
  }

  lemma StagingOf(s0: Fs, job: Job)
    requires GoodJob(s0, job)
    ensures ValidNetwork(job.net) && job.net + ".migrating-" <= job.staging && job.staging != job.net
  {
    StagingDiffers(job.net, job.staging);
    assert KeptName(job.net, job.net);
  }

  lemma StagedValid(c: Fs, b: Fs, d: NetDirs, staging: Name)
    requires StagedInto(c, b, d.data, d.cache, staging)
    ensures ValidFs(b)
  {
  }

  lemma StagedNet(c: Fs, b: Fs, job: Job, d: NetDirs, staging: Name)
    requires ValidNetwork(job.net) && job.net + ".migrating-" <= staging && staging == job.staging
    requires StagedInto(c, b, d.data, d.cache, staging)
    ensures Bound(b, d.data, job.net) == Bound(c, d.data, job.net)
    ensures Bound(b, d.cache, job.net) == Bound(c, d.cache, job.net)
  {
    StagingDiffers(job.net, staging);
    assert KeptName(job.net, job.net);
  }

  lemma JobBasics(s0: Fs, s1: Fs, c: Fs, job: Job, d: NetDirs)
    requires GoodJob(s0, job) && Phase(s1, c, job, d)
    ensures WellLaid(job.l) && ValidNetwork(job.net) && Placed(c, job.home, job.l, d) && IsDir(c, d.data)
    ensures IsDir(c, d.cache) && d.data != d.cache
    ensures ValidFs(c)
  {
    SidesDiffer(c, job.home, job.l, d);
  }

  /** Drops the staging trees and puts the aside entries back where it can. A fault met here counts as an undo fault,
      and only a fault keeps a staging directory or an aside entry from going where it belongs. */
  method Undo(fs: FileSystem, ghost s0: Fs, ghost s1: Fs, ghost job: Job, d: NetDirs, staging: Name,
              moved: seq<(Place, Move)>, ghost data: Option<Name>, ghost cache: Option<Name>)
    returns (ghost dropped: Fs, ghost dataBack: bool, ghost cacheBack: bool)
    requires fs.Valid() && GoodJob(s0, job) && Phase(s1, fs.st, job, d) && Held(s1, fs.st, job, d, data, cache)
    requires staging == job.staging && moved == Entry(job.l, Data, job.net, data) + Entry(job.l, Cache, job.net, cache)
    requires SoundEntry(job.net, data) && SoundEntry(job.net, cache)
    modifies fs
    ensures fs.Went() && Phase(s1, fs.st, job, d)
    ensures fs.undoFaults - old(fs.undoFaults) == fs.faults - old(fs.faults)
    ensures forall k :: old(|fs.history|) <= k < |fs.history| ==> Phase(s1, fs.history[k], job, d)
    ensures CacheOld(s1, old(fs.st), job, d) ==>
      forall k :: old(|fs.history|) <= k < |fs.history| ==> CacheOld(s1, fs.history[k], job, d)
    ensures Dropped(old(fs.st), dropped, d, staging)
    ensures BothBack(dropped, fs.st, d, job.net, data, cache, dataBack, cacheBack)
    ensures fs.faults == old(fs.faults) ==>
      OpenDir(dropped, d.data, staging).Err? && OpenDir(dropped, d.cache, staging).Err?
    ensures fs.faults == old(fs.faults) && data.Some? && Bound(dropped, d.data, data.value).Some? ==>
      Bound(dropped, d.data, job.net) == None ==> dataBack
    ensures fs.faults == old(fs.faults) && cache.Some? && Bound(dropped, d.cache, cache.value).Some? ==>
      Bound(dropped, d.cache, job.net) == None ==> cacheBack
    ensures dataBack ==> data.Some?
    ensures cacheBack ==> cache.Some?
  {
    hide ValidFs, Touch, GoodJob, Placed, Phase, Held, Dropped, BothBack, SomeBack, CacheOld, WellLaid, ValidNetwork,
        SoundEntry, Entry, OpenDir;
    ghost var c, faults := fs.st, fs.faults;
    StagingOf(s0, job);
    JobBasics(s0, s1, c, job, d);
    Remove(fs, job.home, job.l, d, staging);
    dropped := fs.st;
    forall b: Fs | Dropped(c, b, d, staging)
      ensures Phase(s1, b, job, d) && (CacheOld(s1, c, job, d) ==> CacheOld(s1, b, job, d))
    {
      DropPhase(s1, c, b, job, d, staging);
      if CacheOld(s1, c, job, d) { DropCacheOld(s1, c, b, job, d, staging); }
    }
    JobBasics(s0, s1, dropped, job, d);
    HeldDropped(s1, c, dropped, job, d, data, cache, staging);
    dataBack, cacheBack := Restore(fs, job.l, d, moved, job.net, data, cache);
    forall b: Fs | SomeBack(dropped, b, d, job.net, data, cache)
      ensures Phase(s1, b, job, d) && (CacheOld(s1, dropped, job, d) ==> CacheOld(s1, b, job, d))
    {
      BackHeld(s1, dropped, b, job, d, staging, data, cache);
      if CacheOld(s1, dropped, job, d) { BackCacheOld(s1, dropped, b, job, d, data, cache); }
    }
    SomeBackBy(dropped, fs.st, d, job.net, data, cache, dataBack, cacheBack);
    BackHad(dropped, fs.st, d, job.net, data, cache, dataBack, cacheBack);
    fs.NoteUndo(faults);
  }

  lemma DropCacheOld(s1: Fs, c: Fs, b: Fs, job: Job, d: NetDirs, staging: Name)
    requires Dropped(c, b, d, staging) && staging != job.net && CacheOld(s1, c, job, d)
    ensures CacheOld(s1, b, job, d)
  {
    hide ValidFs, Touch;
  }

  lemma BackCacheOld(s1: Fs, c: Fs, b: Fs, job: Job, d: NetDirs, data: Option<Name>, cache: Option<Name>)
    requires SomeBack(c, b, d, job.net, data, cache) && Held(s1, c, job, d, data, cache) && CacheOld(s1, c, job, d)
    ensures CacheOld(s1, b, job, d)
  {
    hide ValidFs, Touch, SameMeta;
    var x, y :| BothBack(c, b, d, job.net, data, cache, x, y);
  }

  lemma AsideCacheOld(s1: Fs, b: Fs, job: Job, d: NetDirs)
    requires SomeAside(s1, b, d, job.net, REPLACED)
    ensures CacheOld(s1, b, job, d)
  {
    hide ValidFs, Touch, SameMeta, IsAside;
    var x, y :| BothAside(s1, b, d, job.net, REPLACED, x, y);
  }

  lemma BackHad(c: Fs, b: Fs, d: NetDirs, net: Name, data: Option<Name>, cache: Option<Name>, x: bool, y: bool)
    requires BothBack(c, b, d, net, data, cache, x, y)
    ensures (x ==> data.Some?) && (y ==> cache.Some?)
  {
  }

  lemma HeldDropped(s1: Fs, c: Fs, b: Fs, job: Job, d: NetDirs, data: Option<Name>, cache: Option<Name>, staging: Name)
    requires ValidNetwork(job.net) && job.net + ".migrating-" <= staging && staging == job.staging
    requires Held(s1, c, job, d, data, cache) && Dropped(c, b, d, staging)
    ensures Held(s1, b, job, d, data, cache)
  {
    HeldThrough(s1, c, b, job, d, data, cache, staging);
  }

  lemma BackHeld(s1: Fs, c: Fs, b: Fs, job: Job, d: NetDirs, staging: Name, data: Option<Name>, cache: Option<Name>)
    requires WellLaid(job.l) && ValidNetwork(job.net) && job.net + ".migrating-" <= staging && staging == job.staging
    requires Phase(s1, c, job, d) && Held(s1, c, job, d, data, cache) && SomeBack(c, b, d, job.net, data, cache)
    ensures Phase(s1, b, job, d)
  {
    hide Phase;
    BackPhase(s1, c, b, job, d, staging, data, cache);
  }

  // ------------------------------------------------------------------ what a failed run leaves

  /** Creating the parents neither takes nor frees a name inside a networks directory. */
  lemma GrownSlot(s0: Fs, s1: Fs, job: Job, d: NetDirs, place: Place, n: Name)
    requires WellLaid(job.l) && Grown(s0, s1, job.home, Chain(job.l)) && Placed(s1, job.home, job.l, d)
    ensures Lookup(s0, job.home, Nets(job.l, place) + [n]) == Bound(s1, Side(d, place), n)
  {
    hide ValidFs, Touch, Added, WellLaid, Chain;
    var q := Nets(job.l, place) + [n];
    NetworkDirNotInChain(job.l, place, n, []);
    assert q + [] == q;
    assert Lookup(s1, job.home, q) == Lookup(s0, job.home, q) || MadeDir(s0, s1, job.home, Chain(job.l), q);
    LookupLast(s1, job.home, Nets(job.l, place), n);
  }

  /** Moving an old identity aside does not touch the staging name. */
  lemma AsideSlotFree(s1: Fs, s2: Fs, d: NetDirs, net: Name, staging: Name, data: Option<Name>, cache: Option<Name>)
    requires ValidNetwork(net) && net + ".migrating-" <= staging && BothAside(s1, s2, d, net, REPLACED, data, cache)
    ensures Bound(s2, d.data, staging) == Bound(s1, d.data, staging)
    ensures Bound(s2, d.cache, staging) == Bound(s1, d.cache, staging)
    ensures staging != net && data != Some(staging) && cache != Some(staging)
  {
    hide ValidFs, Touch, IsAside;
    StagingDiffers(net, staging);
    assert KeptName(net, net);
    assert data.Some? ==> KeptName(net, data.value);
    assert cache.Some? ==> KeptName(net, cache.value);
  }

  /** A free staging name stays visible as such when the directories are opened and an old identity is moved aside. */
  lemma StagingStillFree(s0: Fs, s1: Fs, s2: Fs, req: Request, job: Job, d: NetDirs, data: Option<Name>,
                         cache: Option<Name>)
    requires GoodJob(s0, job) && Grown(s0, s1, job.home, Chain(job.l)) && Placed(s1, job.home, job.l, d)
    requires BothAside(s1, s2, d, job.net, REPLACED, data, cache)
    requires req.home == job.home && req.l == job.l && req.net == job.net
    ensures var staging := StagingName(req.net, req.ts);
      && (StagingFree(s0, req) <==> Bound(s2, d.data, staging) == None && Bound(s2, d.cache, staging) == None)
      && Bound(s2, d.data, staging) == Bound(s1, d.data, staging)
      && Bound(s2, d.cache, staging) == Bound(s1, d.cache, staging)
      && staging != job.net && data != Some(staging) && cache != Some(staging) && job.net + ".migrating-" <= staging
  {
    var staging := StagingName(req.net, req.ts);
    assert WellLaid(job.l) && ValidNetwork(job.net);
    StagingShape(job.net, req.ts);
    hide *;
    AsideSlotFree(s1, s2, d, job.net, staging, data, cache);
    GrownSlot(s0, s1, job, d, Data, staging);
    GrownSlot(s0, s1, job, d, Cache, staging);
    BothSidesFree(s0, req);
    SideIs(d);
  }

  lemma NoDirsStill(s0: Fs, s1: Fs, req: Request, job: Job, d: NetDirs)
    requires GoodJob(s0, job) && Grown(s0, s1, job.home, Chain(job.l)) && Placed(s1, job.home, job.l, d)
    requires NoStagingDir(s0, req)
    requires req.home == job.home && req.l == job.l && req.net == job.net
    ensures OpenDir(s1, d.data, StagingName(req.net, req.ts)).Err?
    ensures OpenDir(s1, d.cache, StagingName(req.net, req.ts)).Err?
  {
    hide *;
    NoDirStill(s0, s1, req, job, d, Data);
    NoDirStill(s0, s1, req, job, d, Cache);
    SideIs(d);
  }

  lemma NoDirStill(s0: Fs, s1: Fs, req: Request, job: Job, d: NetDirs, place: Place)
    requires GoodJob(s0, job) && Grown(s0, s1, job.home, Chain(job.l)) && Placed(s1, job.home, job.l, d)
    requires NoStagingDir(s0, req)
    requires req.home == job.home && req.l == job.l && req.net == job.net
    ensures OpenDir(s1, Side(d, place), StagingName(req.net, req.ts)).Err?
  {
    hide GoodJob, Grown, Placed, StagingName, Chain;
    var staging := StagingName(req.net, req.ts);
    LegacyIsDir(s0, job);
    GrownSlot(s0, s1, job, d, place, staging);
    var e := Lookup(s0, job.home, Nets(job.l, place) + [staging]);
    if e.Some? {
      LookupInNodes(s0, job.home, Nets(job.l, place) + [staging]);
      KindKept(s0, s1, job.home, Chain(job.l), e.value);
    }
  }

  lemma SideIs(d: NetDirs)
    ensures Side(d, Data) == d.data && Side(d, Cache) == d.cache
  {
  }

  lemma StagingShape(net: Name, ts: string)
    ensures net + ".migrating-" <= StagingName(net, ts)
  {
  }

  lemma BothSidesFree(s0: Fs, req: Request)
    ensures StagingFree(s0, req) <==>
            Lookup(s0, req.home, Nets(req.l, Data) + [StagingName(req.net, req.ts)]) == None
            && Lookup(s0, req.home, Nets(req.l, Cache) + [StagingName(req.net, req.ts)]) == None
  {
    hide Nets, StagingName, Lookup;
    var n := StagingName(req.net, req.ts);
    if Lookup(s0, req.home, Nets(req.l, Data) + [n]) == None && Lookup(s0, req.home, Nets(req.l, Cache) + [n]) == None {
      forall place: Place ensures Lookup(s0, req.home, Nets(req.l, place) + [n]) == None {
        if place.Data? { } else { }
      }
    }
  }

  /** After a removal that met no fault the staging name is what it was, if that was no directory. */
  lemma StagingCleared(s2: Fs, s3: Fs, s4: Fs, s5: Fs, dir: Ino, net: Name, staging: Name)
    requires ValidFs(s2) && Added(s2, s3) && StagingSlot(s2, s3, dir, staging) && OpenDir(s2, dir, staging).Err?
    requires SidePublished(s3, s4, dir, staging, net, false) && SameMeta(s3, s4)
    requires OnlyEntries(s4, s5)
    requires Bound(s5, dir, staging) == Bound(s4, dir, staging) || Bound(s5, dir, staging) == None
    requires OpenDir(s4, dir, staging).Err? ==> Bound(s5, dir, staging) == Bound(s4, dir, staging)
    requires OpenDir(s5, dir, staging).Err?
    ensures Bound(s5, dir, staging) == Bound(s2, dir, staging)
  {
    if Bound(s2, dir, staging).Some? {
      var y := Bound(s2, dir, staging).value;
      LeafStaysLeaf(s2, s3, s4, y);
    }
  }

  lemma ClearedBoth(s2: Fs, s3: Fs, s4: Fs, s5: Fs, d: NetDirs, net: Name, staging: Name)
    requires ValidFs(s2) && StagedInto(s2, s3, d.data, d.cache, staging)
    requires StagingSlot(s2, s3, d.data, staging) && StagingSlot(s2, s3, d.cache, staging)
    requires OpenDir(s2, d.data, staging).Err? && OpenDir(s2, d.cache, staging).Err?
    requires BothPublished(s3, s4, d, staging, net, false, false) && Dropped(s4, s5, d, staging)
    requires OpenDir(s5, d.data, staging).Err? && OpenDir(s5, d.cache, staging).Err?
    ensures Bound(s5, d.data, staging) == Bound(s2, d.data, staging)
    ensures Bound(s5, d.cache, staging) == Bound(s2, d.cache, staging)
  {
    hide ValidFs, Touch, Added;
    StagingCleared(s2, s3, s4, s5, d.data, net, staging);
    StagingCleared(s2, s3, s4, s5, d.cache, net, staging);
  }

  /** The network name stays free and the aside names stay put until `restore` runs. */
  lemma UntilRestore(s1: Fs, s2: Fs, s3: Fs, s4: Fs, job: Job, d: NetDirs, staging: Name, data: Option<Name>,
                     cache: Option<Name>, live: bool, liveCache: bool)
    requires ValidNetwork(job.net) && job.net + ".migrating-" <= staging && staging == job.staging
    requires Held(s1, s2, job, d, data, cache)
    requires StagedInto(s2, s3, d.data, d.cache, staging) && BothPublished(s3, s4, d, staging, job.net, live, liveCache)
    ensures Held(s1, s4, job, d, data, cache)
    ensures !live ==> Bound(s4, d.data, job.net) == Bound(s2, d.data, job.net)
    ensures !liveCache ==> Bound(s4, d.cache, job.net) == Bound(s2, d.cache, job.net)
  {
    hide ValidFs, Touch, Added, Held;
    HeldThrough(s1, s2, s3, job, d, data, cache, staging);
    HeldThrough(s1, s3, s4, job, d, data, cache, staging);
    StagedNet(s2, s3, job, d, staging);
  }

  lemma DropKeeps(s1: Fs, s4: Fs, s5: Fs, job: Job, d: NetDirs, staging: Name, data: Option<Name>, cache: Option<Name>)
    requires ValidNetwork(job.net) && job.net + ".migrating-" <= staging && staging == job.staging
    requires Held(s1, s4, job, d, data, cache) && Dropped(s4, s5, d, staging)
    ensures data.Some? ==> Bound(s5, d.data, data.value).Some?
    ensures cache.Some? ==> Bound(s5, d.cache, cache.value).Some?
    ensures Bound(s5, d.data, job.net) == Bound(s4, d.data, job.net)
    ensures Bound(s5, d.cache, job.net) == Bound(s4, d.cache, job.net)
  {
    StagingDiffers(job.net, staging);
    assert KeptName(job.net, job.net);
    HeldDropped(s1, s4, s5, job, d, data, cache, staging);
  }

  /** The whole failed run is undone: it only left parents behind. */
  lemma FailedRunUndone(s0: Fs, s1: Fs, s2: Fs, s3: Fs, s4: Fs, s5: Fs, s6: Fs, req: Request, job: Job, d: NetDirs,
                        data: Option<Name>, cache: Option<Name>, dataBack: bool, cacheBack: bool)
    requires GoodJob(s0, job) && Grown(s0, s1, job.home, Chain(job.l)) && Phase(s1, s1, job, d)
    requires req.home == job.home && req.l == job.l && req.net == job.net && job.staging == StagingName(req.net, req.ts)
    requires NoStagingDir(s0, req)
    requires var staging := StagingName(req.net, req.ts);
      && BothAside(s1, s2, d, job.net, REPLACED, data, cache) && StagedInto(s2, s3, d.data, d.cache, staging)
      && StagingSlot(s2, s3, d.data, staging) && StagingSlot(s2, s3, d.cache, staging)
      && BothPublished(s3, s4, d, staging, job.net, false, false) && Dropped(s4, s5, d, staging)
      && BothBack(s5, s6, d, job.net, data, cache, dataBack, cacheBack)
      && OpenDir(s5, d.data, staging).Err? && OpenDir(s5, d.cache, staging).Err?
    requires (dataBack <==> data.Some?) && (cacheBack <==> cache.Some?)
    ensures Grown(s0, s6, job.home, Chain(job.l))
  {
    var staging := StagingName(req.net, req.ts);
    StagingStillFree(s0, s1, s2, req, job, d, data, cache);
    JobBasics(s0, s1, s1, job, d);
    hide *;
    NoDirsStill(s0, s1, req, job, d);
    AsideNoDir(s1, s2, d, job.net, staging, data, cache);
    ClearedBoth(s2, s3, s4, s5, d, job.net, staging);
    RunUndone(s1, s2, s3, s4, s5, s6, d, job.net, staging, data, cache);
    GoodJobValid(s0, job);
    PlacedHome(s1, job, d);
    UndisturbedGrown(s0, s1, s6, job.home, Chain(job.l));
  }

  lemma GoodJobValid(s0: Fs, job: Job)
    requires GoodJob(s0, job)
    ensures ValidFs(s0)
  {
  }

  lemma PlacedHome(s1: Fs, job: Job, d: NetDirs)
    requires Placed(s1, job.home, job.l, d)
    ensures job.home in s1.nodes && ValidFs(s1)
  {
  }

  // ------------------------------------------------------------------ what a finished run has

  /** The job a request describes. */
  ghost predicate JobFor(req: Request, job: Job, faulty: bool) {
    && req.home == job.home && req.uid == job.uid && req.l == job.l && req.net == job.net
    && job.staging == StagingName(req.net, req.ts) && job.aside == AsideName(req.net, REPLACED, req.ts)
    && job.marker == (if faulty then None else Some(req.content))
  }

  /** The identity found at the start is now under a replaced name with the run's timestamp. */
  ghost predicate OldAside(s0: Fs, s: Fs, job: Job, place: Place) {
    var e := TargetEntry(s0, job, place);
    e.Some? ==>
      exists n ::
        && IsAside(job.net, REPLACED, n) && n != job.net && Stamped(job.aside, n)
        && Lookup(s, job.home, Nets(job.l, place) + [n]) == e
  }

  /** The network name leads to a complete directory, the account's and private to it, file by file. */
  ghost predicate LiveSide(s: Fs, job: Job, place: Place) {
    && TargetEntry(s, job, place).Some?
    && StagedOk(s, TargetEntry(s, job, place).value, job.plan, place, job.marker)
    && OwnedBySide(s, TargetEntry(s, job, place).value, job.plan, place, job.uid)
  }

  /** Both sides are, and what was there is under a replaced name. */
  ghost predicate Live(s0: Fs, s: Fs, job: Job) {
    && (forall place: Place :: LiveSide(s, job, place))
    && OldAside(s0, s, job, Data) && OldAside(s0, s, job, Cache)
  }

  lemma SideLive(s0: Fs, s1: Fs, c: Fs, b: Fs, job: Job, d: NetDirs, staging: Name, place: Place, aside: Option<Name>)
    requires GoodJob(s0, job) && Grown(s0, s1, job.home, Chain(job.l)) && Placed(s1, job.home, job.l, d)
    requires Placed(c, job.home, job.l, d) && Placed(b, job.home, job.l, d)
    requires ReadyToPublish(c, job, d, staging) && BothPublished(c, b, d, staging, job.net, true, true)
    requires AsideHolds(s1, b, job, Side(d, place), aside) && (aside.Some? ==> Stamped(job.aside, aside.value))
    requires aside.Some? <==> Bound(s1, Side(d, place), job.net).Some?
    ensures LiveSide(b, job, place) && TargetEntry(b, job, place) == Bound(b, Side(d, place), job.net)
    ensures OldAside(s0, b, job, place)
  {
    hide Grown, StagedOk, OwnedBySide, IsAside, Touch, ValidFs, SameMeta, Stamped;
    assert WellLaid(job.l);
    var dir := Side(d, place);
    StagedThrough(c, b, job, d, staging, place);
    OwnedThrough(c, b, job, d, staging, place);
    TargetByName(b, job, place, dir, job.net);
    GrownSlot(s0, s1, job, d, place, job.net);
    if aside.Some? { TargetByName(b, job, place, dir, aside.value); }
  }

  lemma BothLive(s0: Fs, s1: Fs, c: Fs, b: Fs, job: Job, d: NetDirs, staging: Name, data: Option<Name>,
                 cache: Option<Name>)
    requires GoodJob(s0, job) && Grown(s0, s1, job.home, Chain(job.l)) && Placed(s1, job.home, job.l, d)
    requires Placed(c, job.home, job.l, d) && Placed(b, job.home, job.l, d)
    requires ReadyToPublish(c, job, d, staging) && BothPublished(c, b, d, staging, job.net, true, true)
    requires Held(s1, b, job, d, data, cache)
    requires (data.Some? <==> Bound(s1, d.data, job.net).Some?) && (cache.Some? <==> Bound(s1, d.cache, job.net).Some?)
    requires (data.Some? ==> Stamped(job.aside, data.value)) && (cache.Some? ==> Stamped(job.aside, cache.value))
    ensures Live(s0, b, job) && AllAtTarget(b, job.home, job.l, job.net, job.plan)
  {
    JobFacts(s0, job);
    SidesHeld(s1, b, job, d, data, cache);
    SideLive(s0, s1, c, b, job, d, staging, Data, data);
    SideLive(s0, s1, c, b, job, d, staging, Cache, cache);
    LiveBy(s0, b, job, d);
    BothAtTarget(b, job, d);
  }

  lemma SidesHeld(s1: Fs, b: Fs, job: Job, d: NetDirs, data: Option<Name>, cache: Option<Name>)
    requires Held(s1, b, job, d, data, cache)
    ensures AsideHolds(s1, b, job, Side(d, Data), data) && AsideHolds(s1, b, job, Side(d, Cache), cache)
    ensures Side(d, Data) == d.data && Side(d, Cache) == d.cache
  {
  }

  lemma LiveBy(s0: Fs, b: Fs, job: Job, d: NetDirs)
    requires forall place: Place | place == Data || place == Cache ::
      && LiveSide(b, job, place) && TargetEntry(b, job, place) == Bound(b, Side(d, place), job.net)
      && OldAside(s0, b, job, place)
    ensures Live(s0, b, job)
    ensures forall place: Place ::
      && Bound(b, Side(d, place), job.net).Some?
      && StagedOk(b, Bound(b, Side(d, place), job.net).value, job.plan, place, job.marker)
  {
    hide StagedOk, OwnedBySide, TargetEntry, OldAside, Bound;
  }

  lemma DescribesKept(s0: Fs, s: Fs, job: Job)
    requires GoodJob(s0, job) && SameTree(s0, s, job.legacy.home)
    ensures Describes(s, job.legacy)
  {
    hide GoodJob, HeadsDistinct, Unchanged;
    JobFacts(s0, job);
    var legacy := job.legacy;
    assert Lookup(s0, legacy.home, []) == Some(legacy.home);
    OneName(s0, legacy.home, LEGACY_CONFIG_DIR);
    assert Lookup(s0, legacy.home, [LEGACY_CONFIG_DIR]) == Some(legacy.config);
    SameTreeBelow(s0, s, legacy.home, LEGACY_CONFIG_DIR, legacy.config);
    OneName(s0, legacy.home, PIX_DB_FILE);
    OneName(s, legacy.home, PIX_DB_FILE);
    assert Lookup(s, legacy.home, [PIX_DB_FILE]) == Lookup(s0, legacy.home, [PIX_DB_FILE]);
  }

  /** A published state is settled: safe, everything at its target, the legacy home as it was. */
  lemma PublishedSettled(s0: Fs, s1: Fs, b: Fs, job: Job, d: NetDirs)
    requires GoodJob(s0, job) && Grown(s0, s1, job.home, Chain(job.l)) && Placed(s1, job.home, job.l, d)
    requires Phase(s1, b, job, d)
    requires AllAtTarget(b, job.home, job.l, job.net, job.plan)
    ensures Settled(s0, b, job) && Describes(b, job.legacy)
  {
    hide GoodJob, Grown, SlotOk, AllAtTarget, Apart, SameTree, Safe, Describes;
    PhaseSafe(s0, s1, b, job, d);
    GrownKeeps(s0, s1, job);
    SameTreeTrans(s0, s1, b, job.legacy.home);
    DescribesKept(s0, b, job);
  }

  // ------------------------------------------------------------------ undoing what is already live

  /** A complete data directory does not yield to a rename, and an empty cache directory is complete only if no file
      is cached. */
  lemma LiveYields(b: Fs, i: Ino, job: Job, place: Place)
    requires IsDir(b, i) && StagedOk(b, i, job.plan, place, job.marker) && Yields(b, i)
    requires forall k :: 0 <= k < |job.plan| ==> job.plan[k].rel != []
    ensures place == Cache && forall k :: 0 <= k < |job.plan| ==> job.plan[k].place != Cache
  {
    if place == Data { MarkerEntry(b, i, job); }
    forall k | 0 <= k < |job.plan| && job.plan[k].place == place ensures Bound(b, i, job.plan[k].rel[0]).Some? {
      EmptyHolds(b, i, job.plan[k].rel, job.plan[k].sha256.of);
    }
  }

  lemma MarkerEntry(b: Fs, i: Ino, job: Job)
    requires StagedOk(b, i, job.plan, Data, job.marker)
    ensures Bound(b, i, MIGRATED_FROM_FILE).Some?
  {
    var t :| FileAt(b, i, [MIGRATED_FROM_FILE], t);
    EmptyHolds(b, i, [MIGRATED_FROM_FILE], t);
  }

  lemma EmptyHolds(b: Fs, i: Ino, path: Path, bytes: Bytes)
    requires FileAt(b, i, path, bytes)
    ensures Bound(b, i, path[0]).Some?
  {
    if |path| > 1 { assert ParentOf(path)[0] == path[0]; } else { assert ParentOf(path) == []; }
  }

  /** What was published stays at its target when the failing run still removes staging names and restores old
      entries. */
  lemma LiveUndone(s1: Fs, c: Fs, e: Fs, b: Fs, job: Job, d: NetDirs, staging: Name, data: Option<Name>,
                   cache: Option<Name>, dataBack: bool, cacheBack: bool)
    requires WellLaid(job.l) && ValidNetwork(job.net) && job.net + ".migrating-" <= staging && staging == job.staging
    requires forall k :: 0 <= k < |job.plan| ==> job.plan[k].rel != []
    requires Phase(s1, c, job, d) && Dropped(c, e, d, staging) && Phase(s1, e, job, d)
    requires BothBack(e, b, d, job.net, data, cache, dataBack, cacheBack) && Phase(s1, b, job, d)
    requires forall place: Place ::
      && Bound(c, Side(d, place), job.net).Some?
      && StagedOk(c, Bound(c, Side(d, place), job.net).value, job.plan, place, job.marker)
    ensures AllAtTarget(b, job.home, job.l, job.net, job.plan)
  {
    hide Touch, ValidFs, StagedOk, AllAtTarget, SlotOk, SameTree, Apart, Verdict, Found;
    SideStays(s1, c, e, b, job, d, staging, Data, data, dataBack);
    SideStays(s1, c, e, b, job, d, staging, Cache, cache, cacheBack);
    forall k | 0 <= k < |job.plan| ensures Verdict(b, job.home, job.l, job.net, job.plan[k]) == None {
      SideAtTarget(b, job, d, job.plan[k].place, k);
    }
    AllBy(b, job);
  }

  lemma AllBy(b: Fs, job: Job)
    requires forall k :: 0 <= k < |job.plan| ==> Verdict(b, job.home, job.l, job.net, job.plan[k]) == None
    ensures AllAtTarget(b, job.home, job.l, job.net, job.plan)
  {
  }

  lemma SideStays(s1: Fs, c: Fs, e: Fs, b: Fs, job: Job, d: NetDirs, staging: Name, place: Place, aside: Option<Name>,
                  back: bool)
    requires WellLaid(job.l) && ValidNetwork(job.net) && job.net + ".migrating-" <= staging && staging == job.staging
    requires forall k :: 0 <= k < |job.plan| ==> job.plan[k].rel != []
    requires Placed(c, job.home, job.l, d) && Placed(e, job.home, job.l, d)
    requires Touch(c, e, Inner(c, d, staging)) && Touch(e, b, {d.data, d.cache})
    requires SideBack(e, b, Side(d, place), job.net, aside, back)
    requires forall n: Name :: n != staging ==> Bound(e, Side(d, place), n) == Bound(c, Side(d, place), n)
    requires Bound(c, Side(d, place), job.net).Some?
    requires StagedOk(c, Bound(c, Side(d, place), job.net).value, job.plan, place, job.marker)
    ensures (exists k :: 0 <= k < |job.plan| && job.plan[k].place == place) ==>
      && Bound(b, Side(d, place), job.net).Some?
      && StagedOk(b, Bound(b, Side(d, place), job.net).value, job.plan, place, job.marker)
  {
    hide Touch, ValidFs, StagedOk, Inner, Reach;
    var dir := Side(d, place);
    var x := Bound(c, dir, job.net).value;
    StagingDiffers(job.net, staging);
    assert KeptName(job.net, job.net);
    EntryApart(c, job, d, staging, place, job.net);
    StagedFrame(c, e, Inner(c, d, staging), x, job.plan, place, job.marker);
    NetsApart(e, job.home, job.l, d, place, job.net);
    StagedFrame(e, b, {d.data, d.cache}, x, job.plan, place, job.marker);
    if back {
      StagedDir(e, x, job, place);
      LiveYields(e, x, job, place);
      assert place == Cache;
    }
  }

  lemma StagedDir(e: Fs, x: Ino, job: Job, place: Place)
    requires StagedOk(e, x, job.plan, place, job.marker)
    ensures IsDir(e, x)
  {
  }

  // ------------------------------------------------------------------ the whole installation

  lemma UnchangedKept(a: Fs, b: Fs, e: set<Ino>)
    requires Touch(a, b, e) && forall i: Ino :: i in e && i in a.nodes ==> IsDir(a, i)
    ensures forall p: Planned :: Unchanged(a, p) ==> Unchanged(b, p)
  {
    forall p: Planned | Unchanged(a, p) ensures Unchanged(b, p) {
      assert SameBody(a.nodes[p.source], b.nodes[p.source]);
    }
  }

  lemma SourcesUnchanged(s0: Fs, s1: Fs, s2: Fs, job: Job, d: NetDirs, data: Option<Name>, cache: Option<Name>)
    requires GoodJob(s0, job) && Grown(s0, s1, job.home, Chain(job.l)) && Placed(s1, job.home, job.l, d)
    requires BothAside(s1, s2, d, job.net, REPLACED, data, cache)
    ensures forall k :: 0 <= k < |job.plan| ==> Unchanged(s2, job.plan[k])
  {
    hide *;
    JobFacts(s0, job);
    GrownDirs(s0, s1, job);
    AsideTouch(s1, s2, job, d, data, cache);
    ChainAreDirs(s0, job);
    UnchangedKept(s0, s1, ChainDirs(s0, job));
    UnchangedKept(s1, s2, {d.data, d.cache});
  }

  lemma AsideTouch(s1: Fs, s2: Fs, job: Job, d: NetDirs, data: Option<Name>, cache: Option<Name>)
    requires Placed(s1, job.home, job.l, d) && BothAside(s1, s2, d, job.net, REPLACED, data, cache)
    ensures Touch(s1, s2, {d.data, d.cache}) && IsDir(s1, d.data) && IsDir(s1, d.cache)
  {
    hide Touch, ValidFs, SideAside;
  }

  lemma ChainAreDirs(s0: Fs, job: Job)
    ensures forall i: Ino :: i in ChainDirs(s0, job) ==> IsDir(s0, i)
  {
  }

  lemma AsideRolledBack(s0: Fs, s1: Fs, s2: Fs, job: Job, d: NetDirs)
    requires GoodJob(s0, job) && Grown(s0, s1, job.home, Chain(job.l)) && Placed(s1, job.home, job.l, d)
    requires BothAside(s1, s2, d, job.net, REPLACED, None, None)
    ensures Grown(s0, s2, job.home, Chain(job.l))
  {
    hide Grown, Touch, BothAside, Undisturbed;
    AsideUndone(s1, s2, d, job.net, REPLACED);
    GoodJobValid(s0, job);
    PlacedHome(s1, job, d);
    UndisturbedGrown(s0, s1, s2, job.home, Chain(job.l));
  }

  lemma Committed(s0: Fs, s1: Fs, s2: Fs, s3: Fs, s4: Fs, job: Job, d: NetDirs, staging: Name, data: Option<Name>,
                  cache: Option<Name>)
    requires GoodJob(s0, job) && Grown(s0, s1, job.home, Chain(job.l)) && Placed(s1, job.home, job.l, d)
    requires Phase(s1, s2, job, d) && Phase(s1, s4, job, d) && job.net + ".migrating-" <= staging
    requires staging == job.staging && Held(s1, s2, job, d, data, cache)
    requires StagedInto(s2, s3, d.data, d.cache, staging) && ReadyToPublish(s3, job, d, staging)
    requires BothPublished(s3, s4, d, staging, job.net, true, true)
    requires (data.Some? <==> Bound(s1, d.data, job.net).Some?) && (cache.Some? <==> Bound(s1, d.cache, job.net).Some?)
    requires (data.Some? ==> Stamped(job.aside, data.value)) && (cache.Some? ==> Stamped(job.aside, cache.value))
    ensures Live(s0, s4, job) && AllAtTarget(s4, job.home, job.l, job.net, job.plan)
  {
    JobBasics(s0, s1, s2, job, d);
    hide *;
    StagedPhase(s1, s2, s3, job, d, staging);
    JobBasics(s0, s1, s3, job, d);
    JobBasics(s0, s1, s4, job, d);
    UntilRestore(s1, s2, s3, s4, job, d, staging, data, cache, true, true);
    BothLive(s0, s1, s3, s4, job, d, staging, data, cache);
  }

  // ------------------------------------------------------------------ the directories on the way

  /** Whatever leads to the two networks directories and was missing is the account's, with the mode asked for. */
  ghost predicate ChainMade(s0: Fs, s: Fs, job: Job) {
    forall q: Path :: q in Chain(job.l) ==> MadeWith(s0, s, job.home, q, Meta(job.uid, ModeAt(Asked(job.l), q)))
  }

  /** Entries changed in the two networks directories only, and nothing changed owner, mode or kind. */
  ghost predicate InNets(a: Fs, b: Fs, d: NetDirs) {
    && Touch(a, b, {d.data, d.cache})
    && forall i: Ino :: i in a.nodes ==> i in b.nodes && b.nodes[i].meta == a.nodes[i].meta
  }

  lemma NetsOnly(s1: Fs, s2: Fs, s3: Fs, s4: Fs, job: Job, d: NetDirs, staging: Name, data: Option<Name>,
                 cache: Option<Name>)
    requires BothAside(s1, s2, d, job.net, REPLACED, data, cache) && StagedInto(s2, s3, d.data, d.cache, staging)
    requires BothPublished(s3, s4, d, staging, job.net, true, true)
    ensures InNets(s1, s4, d)
  {
    hide ValidFs, Touch, SideAside, SidePublished, OnlyHead;
    var e := {d.data, d.cache};
    TouchTrans(s1, s2, s3, e, e);
    TouchTrans(s1, s3, s4, e, e);
    forall i: Ino | i in s1.nodes ensures i in s4.nodes && s4.nodes[i].meta == s1.nodes[i].meta {
      assert i in s2.nodes && Preserved(s2.nodes[i], s3.nodes[i]);
    }
  }

  /** Those directories stay where they are and what they are. */
  lemma ChainThrough(s0: Fs, s1: Fs, b: Fs, job: Job, d: NetDirs)
    requires WellLaid(job.l) && Placed(s1, job.home, job.l, d) && InNets(s1, b, d) && ChainMade(s0, s1, job)
    ensures ChainMade(s0, b, job)
  {
    hide ValidFs, Touch, Lookup, ModeAt, Chain;
    forall q: Path | q in Chain(job.l)
      ensures MadeWith(s0, b, job.home, q, Meta(job.uid, ModeAt(Asked(job.l), q)))
    {
      assert MadeWith(s0, s1, job.home, q, Meta(job.uid, ModeAt(Asked(job.l), q)));
      ChainStays(s1, b, job, d, q);
      if Lookup(s0, job.home, q) == None { KindTouched(s1, b, d, Lookup(s1, job.home, q).value); }
    }
  }

  lemma KindTouched(a: Fs, b: Fs, d: NetDirs, i: Ino)
    requires InNets(a, b, d) && IsDir(a, i)
    ensures IsDir(b, i) && b.nodes[i].meta == a.nodes[i].meta
  {
  }

  /** A networks directory is never above one. */
  lemma ChainStays(a: Fs, b: Fs, job: Job, d: NetDirs, q: Path)
    requires WellLaid(job.l) && Placed(a, job.home, job.l, d) && Touch(a, b, {d.data, d.cache}) && q in Chain(job.l)
    ensures Lookup(b, job.home, q) == Lookup(a, job.home, q)
  {
    hide ValidFs, Touch;
    assert q <= Nets(job.l, Data) || q <= Nets(job.l, Cache);
    forall j: nat | j < |q| && Lookup(a, job.home, q[..j]).Some?
      ensures Lookup(a, job.home, q[..j]).value !in {d.data, d.cache}
    {
      if Lookup(a, job.home, q[..j]) == Some(d.data) { UniquePath(a, job.home, q[..j], Nets(job.l, Data)); }
      if Lookup(a, job.home, q[..j]) == Some(d.cache) { UniquePath(a, job.home, q[..j], Nets(job.l, Cache)); }
    }
    LookupAlong(a, b, {d.data, d.cache}, job.home, q);
  }

  lemma HeldUntilUndo(s1: Fs, s2: Fs, s3: Fs, s4: Fs, job: Job, d: NetDirs, staging: Name, data: Option<Name>,
                      cache: Option<Name>, committed: bool)
    requires ValidNetwork(job.net) && job.net + ".migrating-" <= staging && staging == job.staging
    requires Held(s1, s2, job, d, data, cache) && StagedInto(s2, s3, d.data, d.cache, staging)
    requires committed ==> BothPublished(s3, s4, d, staging, job.net, true, true)
    requires !committed ==> Unpublished(s3, s4, d, staging, job.net)
    ensures Held(s1, s4, job, d, data, cache)
  {
    hide BothPublished, Held, StagedInto, ValidNetwork;
    if committed {
      UntilRestore(s1, s2, s3, s4, job, d, staging, data, cache, true, true);
    } else if BothPublished(s3, s4, d, staging, job.net, false, false) {
      UntilRestore(s1, s2, s3, s4, job, d, staging, data, cache, false, false);
    } else {
      UntilRestore(s1, s2, s3, s4, job, d, staging, data, cache, true, false);
    }
  }

  lemma LiveSides(s0: Fs, c: Fs, job: Job, d: NetDirs)
    requires Live(s0, c, job) && Placed(c, job.home, job.l, d)
    ensures forall place: Place ::
      && Bound(c, Side(d, place), job.net).Some?
      && StagedOk(c, Bound(c, Side(d, place), job.net).value, job.plan, place, job.marker)
  {
    hide StagedOk, OwnedBySide, OldAside;
    forall place: Place
      ensures Bound(c, Side(d, place), job.net).Some?
      ensures StagedOk(c, Bound(c, Side(d, place), job.net).value, job.plan, place, job.marker)
    {
      assert LiveSide(c, job, place);
      TargetByName(c, job, place, Side(d, place), job.net);
    }
  }

  lemma CommittedUndone(s0: Fs, s1: Fs, c: Fs, e: Fs, b: Fs, job: Job, d: NetDirs, staging: Name, data: Option<Name>,
                        cache: Option<Name>, dataBack: bool, cacheBack: bool)
    requires GoodJob(s0, job) && Phase(s1, c, job, d) && Phase(s1, b, job, d) && job.net + ".migrating-" <= staging
    requires staging == job.staging && Live(s0, c, job)
    requires Dropped(c, e, d, staging) && BothBack(e, b, d, job.net, data, cache, dataBack, cacheBack)
    ensures AllAtTarget(b, job.home, job.l, job.net, job.plan)
  {
    JobFacts(s0, job);
    JobBasics(s0, s1, c, job, d);
    hide *;
    LiveSides(s0, c, job, d);
    DropPhase(s1, c, e, job, d, staging);
    LiveUndone(s1, c, e, b, job, d, staging, data, cache, dataBack, cacheBack);
  }

  lemma FailedClean(s0: Fs, s1: Fs, s2: Fs, s3: Fs, s4: Fs, s5: Fs, s6: Fs, req: Request, job: Job, d: NetDirs,
                    data: Option<Name>, cache: Option<Name>, dataBack: bool, cacheBack: bool)
    requires GoodJob(s0, job) && Grown(s0, s1, job.home, Chain(job.l)) && Phase(s1, s1, job, d)
    requires req.home == job.home && req.l == job.l && req.net == job.net && job.staging == StagingName(req.net, req.ts)
    requires NoStagingDir(s0, req)
    requires var staging := StagingName(req.net, req.ts);
      && BothAside(s1, s2, d, job.net, REPLACED, data, cache) && StagedInto(s2, s3, d.data, d.cache, staging)
      && StagingSlot(s2, s3, d.data, staging) && StagingSlot(s2, s3, d.cache, staging)
      && BothPublished(s3, s4, d, staging, job.net, false, false) && Dropped(s4, s5, d, staging)
      && BothBack(s5, s6, d, job.net, data, cache, dataBack, cacheBack)
      && OpenDir(s5, d.data, staging).Err? && OpenDir(s5, d.cache, staging).Err?
    requires Bound(s2, d.data, job.net) == None && Bound(s2, d.cache, job.net) == None
    requires Held(s1, s2, job, d, data, cache)
    requires data.Some? && Bound(s5, d.data, data.value).Some? && Bound(s5, d.data, job.net) == None ==> dataBack
    requires cache.Some? && Bound(s5, d.cache, cache.value).Some? && Bound(s5, d.cache, job.net) == None ==> cacheBack
    ensures Grown(s0, s6, job.home, Chain(job.l))
  {
    var staging := StagingName(req.net, req.ts);
    StagingShape(req.net, req.ts);
    JobBasics(s0, s1, s1, job, d);
    hide *;
    UntilRestore(s1, s2, s3, s4, job, d, staging, data, cache, false, false);
    DropKeeps(s1, s4, s5, job, d, staging, data, cache);
    BackHad(s5, s6, d, job.net, data, cache, dataBack, cacheBack);
    FailedRunUndone(s0, s1, s2, s3, s4, s5, s6, req, job, d, data, cache, dataBack, cacheBack);
  }

  /** `remove` takes whatever directory goes by the staging name, this run's or not. */
  lemma GoneAfterUndo(e: Fs, b: Fs, req: Request, job: Job, d: NetDirs, data: Option<Name>, cache: Option<Name>,
                      dataBack: bool, cacheBack: bool)
    requires Placed(b, job.home, job.l, d) && BothBack(e, b, d, job.net, data, cache, dataBack, cacheBack)
    requires req.home == job.home && req.l == job.l && req.net == job.net
    requires var staging := StagingName(req.net, req.ts);
      && OpenDir(e, d.data, staging).Err? && OpenDir(e, d.cache, staging).Err? && staging != job.net
      && data != Some(staging) && cache != Some(staging)
    ensures NoStagingDir(b, req)
  {
    hide Touch, ValidFs, Yields, StagingName;
    var staging := StagingName(req.net, req.ts);
    forall place: Place
      ensures Lookup(b, req.home, Nets(req.l, place) + [staging]) == Bound(b, Side(d, place), staging)
    {
      TargetByName(b, job, place, Side(d, place), staging);
    }
    SameKindsBack(e, b);
  }

  /** The whole undo after a run that was not committed or was. */
  lemma AfterUndo(s0: Fs, s1: Fs, e: Fs, b: Fs, req: Request, job: Job, d: NetDirs, data: Option<Name>,
                  cache: Option<Name>, dataBack: bool, cacheBack: bool)
    requires GoodJob(s0, job) && Phase(s1, b, job, d) && BothBack(e, b, d, job.net, data, cache, dataBack, cacheBack)
    requires req.home == job.home && req.l == job.l && req.net == job.net
    requires var staging := StagingName(req.net, req.ts);
      && OpenDir(e, d.data, staging).Err? && OpenDir(e, d.cache, staging).Err? && staging != job.net
      && data != Some(staging) && cache != Some(staging)
    ensures NoStagingDir(b, req)
  {
    hide *;
    JobBasics(s0, s1, b, job, d);
    GoneAfterUndo(e, b, req, job, d, data, cache, dataBack, cacheBack);
  }

  lemma SameKindsBack(e: Fs, b: Fs)
    requires SameMeta(e, b)
    ensures forall i: Ino :: IsDir(b, i) <==> IsDir(e, i)
  {
  }

  lemma KeysGrow(s0: Fs, s1: Fs, s2: Fs, job: Job, d: NetDirs, data: Option<Name>, cache: Option<Name>)
    requires Grown(s0, s1, job.home, Chain(job.l)) && BothAside(s1, s2, d, job.net, REPLACED, data, cache)
    ensures s0.nodes.Keys <= s2.nodes.Keys
  {
  }

  /** With the present identity aside, everything is as staging needs it. */
  lemma AsideDone(s0: Fs, s1: Fs, s2: Fs, req: Request, job: Job, d: NetDirs, data: Option<Name>, cache: Option<Name>)
    requires GoodJob(s0, job) && Grown(s0, s1, job.home, Chain(job.l)) && Placed(s1, job.home, job.l, d)
    requires BothAside(s1, s2, d, job.net, REPLACED, data, cache)
    requires req.home == job.home && req.l == job.l && req.net == job.net
    requires Bound(s2, d.data, job.net) == None && Bound(s2, d.cache, job.net) == None
    ensures (data.Some? <==> Bound(s1, d.data, job.net).Some?) && (cache.Some? <==> Bound(s1, d.cache, job.net).Some?)
    ensures Held(s1, s2, job, d, data, cache) && SoundEntry(job.net, data) && SoundEntry(job.net, cache)
    ensures s0.nodes.Keys <= s2.nodes.Keys && forall k :: 0 <= k < |job.plan| ==> Unchanged(s2, job.plan[k])
    ensures var staging := StagingName(req.net, req.ts);
      && (StagingFree(s0, req) <==> Bound(s2, d.data, staging) == None && Bound(s2, d.cache, staging) == None)
      && Bound(s2, d.data, staging) == Bound(s1, d.data, staging)
      && Bound(s2, d.cache, staging) == Bound(s1, d.cache, staging)
      && staging != job.net && data != Some(staging) && cache != Some(staging) && job.net + ".migrating-" <= staging
  {
    hide GoodJob, Grown, Placed, BothAside, Held, SoundEntry, Unchanged, StagingFree, Bound, Chain, StagingName;
    HeldAfterAside(s1, s2, job, d, data, cache);
    SourcesUnchanged(s0, s1, s2, job, d, data, cache);
    StagingStillFree(s0, s1, s2, req, job, d, data, cache);
    KeysGrow(s0, s1, s2, job, d, data, cache);
    AsideGone(s1, s2, d, job.net, REPLACED, data, cache);
  }

  /** Both networks directories are open as `d`; the state they were opened in is where this starts. `committed` is
      told by the history: whether the new identity was ever live on both sides. */
  method InstallAt(fs: FileSystem, ghost s0: Fs, req: Request, ghost job: Job, plan: seq<Planned>, d: NetDirs)
    returns (r: Result<(), Failure>, ghost committed: bool)
    requires fs.Valid() && GoodJob(s0, job) && JobFor(req, job, fs.faulty) && plan == job.plan
    requires Grown(s0, fs.st, job.home, Chain(job.l)) && Placed(fs.st, job.home, job.l, d)
    requires Phase(fs.st, fs.st, job, d)
    modifies fs
    ensures fs.Went() && Phase(old(fs.st), fs.st, job, d) && (r.Ok? ==> fs.undoFaults == old(fs.undoFaults))
    ensures forall k :: old(|fs.history|) <= k < |fs.history| ==> Phase(old(fs.st), fs.history[k], job, d)
    ensures r.Ok? ==> committed && Live(s0, fs.st, job) && InNets(old(fs.st), fs.st, d)
    ensures committed ==> AllAtTarget(fs.st, job.home, job.l, job.net, job.plan)
    ensures committed <==> WentLive(s0, fs.history, old(|fs.history|), job)
    ensures committed ==> WentHalfWay(fs.history, old(|fs.history|), job)
    ensures !committed && fs.undoFaults == old(fs.undoFaults) && NoStagingDir(s0, req) ==>
      Grown(s0, fs.st, job.home, Chain(job.l))
    ensures !committed && old(fs.undoFaults) < fs.undoFaults && StagingFree(s0, req) ==> old(fs.faults) + 2 <= fs.faults
    ensures r.Err? && fs.faults == old(fs.faults) ==> r.error == Failure(DestinationStage)
    ensures fs.faults == old(fs.faults) ==> (r.Ok? <==> StagingFree(s0, req))
    ensures fs.faults == old(fs.faults) && r.Err? ==> NoStagingDir(fs.st, req)
  {
    hide ValidFs, Touch, GoodJob, Grown, Placed, Phase, Held, StagedInto, StagingSlot, StagedOk, BothPublished,
      BothAside, SomeAside, BothBack, Dropped, HeadsDistinct, Unchanged, AllAtTarget, Live, ReadyToPublish,
      StagingFree, OpenDir, Describes, StagingName, SoundEntry, Entry, WellLaid, ValidNetwork, Bound, Chain, IsDir,
      Lookup, NoStagingDir, CacheOld, WentLive, WentHalfWay, Unpublished, BothNew, Added, AsideName, Stamped, InNets,
      SameTree, SameBody;
    ghost var s1 := fs.st;
    JobFacts(s0, job);
    JobBasics(s0, s1, s1, job, d);
    StagingOf(s0, job);
    var staging := StagingName(req.net, req.ts);
    committed := false;
    var moved;
    ghost var data, cache;
    moved, data, cache := MoveAside(fs, req.l, d, req.net, REPLACED, req.ts);
    ghost var s2 := fs.st;
    SomeAsideBy(s1, s2, d, req.net, REPLACED, data, cache);
    forall b: Fs | SomeAside(s1, b, d, req.net, REPLACED) ensures Phase(s1, b, job, d) && CacheOld(s1, b, job, d) {
      AsidePhase(s1, b, job, d, staging);
      AsideCacheOld(s1, b, job, d);
    }
    if moved.Err? {
      if fs.undoFaults == old(fs.undoFaults) { AsideRolledBack(s0, s1, s2, job, d); }
      NeverLiveSince(s0, s1, fs.history, old(|fs.history|), job, d);
      return Err(moved.error), false;
    }
    ghost var from := |fs.history|;
    AsideDone(s0, s1, s2, req, job, d, data, cache);
    ghost var staged;
    r, staged, committed := StageAndPublish(fs, s0, s1, job, d, staging, req.net, plan, req.content, req.uid);
    ghost var s4, sofar := fs.st, fs.history;
    if committed { Committed(s0, s1, s2, staged, s4, job, d, staging, data, cache); }
    if r.Ok? { NetsOnly(s1, s2, staged, s4, job, d, staging, data, cache); }
    if r.Ok? {
      Milestones(s0, sofar, fs.history, from, old(|fs.history|), job);
      return;
    }
    HeldUntilUndo(s1, s2, staged, s4, job, d, staging, data, cache, committed);
    CleanUp(fs, s0, s1, s2, staged, req, job, d, moved.value, data, cache, committed);
    if committed {
      Milestones(s0, sofar, fs.history, from, old(|fs.history|), job);
    } else {
      NeverLiveSince(s0, s1, fs.history, old(|fs.history|), job, d);
    }
  }

  /** The undo after a failed run, and what is left by it: what was published stays, what was not is gone. */
  method CleanUp(fs: FileSystem, ghost s0: Fs, ghost s1: Fs, ghost s2: Fs, ghost staged: Fs, req: Request,
                 ghost job: Job, d: NetDirs, moved: seq<(Place, Move)>, ghost data: Option<Name>,
                 ghost cache: Option<Name>, ghost committed: bool)
    requires fs.Valid() && GoodJob(s0, job) && JobFor(req, job, fs.faulty) && Grown(s0, s1, job.home, Chain(job.l))
    requires Placed(s1, job.home, job.l, d)
    requires Phase(s1, s1, job, d) && Phase(s1, fs.st, job, d) && Held(s1, s2, job, d, data, cache)
    requires Held(s1, fs.st, job, d, data, cache)
    requires moved == Entry(job.l, Data, job.net, data) + Entry(job.l, Cache, job.net, cache)
    requires SoundEntry(job.net, data) && SoundEntry(job.net, cache)
    requires BothAside(s1, s2, d, job.net, REPLACED, data, cache)
    requires StagedInto(s2, staged, d.data, d.cache, job.staging)
    requires StagingSlot(s2, staged, d.data, job.staging) && StagingSlot(s2, staged, d.cache, job.staging)
    requires Bound(s2, d.data, job.net) == None && Bound(s2, d.cache, job.net) == None
    requires committed ==> Live(s0, fs.st, job)
    requires !committed ==> CacheOld(s1, fs.st, job, d)
    modifies fs
    ensures fs.Went() && Phase(s1, fs.st, job, d) && fs.undoFaults - old(fs.undoFaults) == fs.faults - old(fs.faults)
    ensures forall k :: old(|fs.history|) <= k < |fs.history| ==> Phase(s1, fs.history[k], job, d)
    ensures !committed ==> forall k :: old(|fs.history|) <= k < |fs.history| ==> CacheOld(s1, fs.history[k], job, d)
    ensures committed ==> AllAtTarget(fs.st, job.home, job.l, job.net, job.plan)
    ensures !committed && BothPublished(staged, old(fs.st), d, job.staging, job.net, false, false) ==>
      fs.faults == old(fs.faults) && NoStagingDir(s0, req) ==>
      Grown(s0, fs.st, job.home, Chain(job.l))
    ensures fs.faults == old(fs.faults) ==> NoStagingDir(fs.st, req)
  {
    hide ValidFs, Touch, GoodJob, Grown, Placed, Phase, Held, StagedInto, StagingSlot, BothPublished, BothAside,
        BothBack, Dropped, AllAtTarget, Live, OpenDir, StagingName, SoundEntry, Entry, Bound, Chain, IsDir, Lookup,
        NoStagingDir, CacheOld;
    ghost var s4 := fs.st;
    StagingOf(s0, job);
    ghost var dropped, dataBack, cacheBack;
    dropped, dataBack, cacheBack := Undo(fs, s0, s1, job, d, StagingName(req.net, req.ts), moved, data, cache);
    if committed {
      CommittedUndone(s0, s1, s4, dropped, fs.st, job, d, job.staging, data, cache, dataBack, cacheBack);
    } else if
      fs.faults == old(fs.faults) && NoStagingDir(s0, req)
      && BothPublished(staged, s4, d, job.staging, job.net, false, false)
    {
      FailedClean(s0, s1, s2, staged, s4, dropped, fs.st, req, job, d, data, cache, dataBack, cacheBack);
    }
    if fs.faults == old(fs.faults) {
      AsidesDiffer(s1, s2, job, d, data, cache);
      AfterUndo(s0, s1, dropped, fs.st, req, job, d, data, cache, dataBack, cacheBack);
    }
  }

  lemma AsidesDiffer(s1: Fs, s2: Fs, job: Job, d: NetDirs, data: Option<Name>, cache: Option<Name>)
    requires ValidNetwork(job.net) && job.net + ".migrating-" <= job.staging
    requires BothAside(s1, s2, d, job.net, REPLACED, data, cache)
    ensures data != Some(job.staging) && cache != Some(job.staging)
  {
    hide *;
    AsideSlotFree(s1, s2, d, job.net, job.staging, data, cache);
  }

  lemma NeverLiveSince(s0: Fs, s1: Fs, h: seq<Fs>, from: nat, job: Job, d: NetDirs)
    requires GoodJob(s0, job) && Grown(s0, s1, job.home, Chain(job.l)) && Placed(s1, job.home, job.l, d)
    requires forall k :: from <= k < |h| ==> Phase(s1, h[k], job, d) && CacheOld(s1, h[k], job, d)
    ensures !WentLive(s0, h, from, job)
  {
    hide GoodJob, Grown, Placed, Phase, CacheOld, BothNew, Chain;
    forall k | from <= k < |h| ensures !BothNew(s0, h[k], job) { NotNew(s0, s1, h[k], job, d); }
  }

  lemma Milestones(s0: Fs, h: seq<Fs>, more: seq<Fs>, from: nat, since: nat, job: Job)
    requires WentHalfWay(h, from, job) && WentLive(s0, h, from, job) && h <= more && since <= from
    ensures WentHalfWay(more, since, job) && WentLive(s0, more, since, job)
  {
    hide WentHalfWay, WentLive;
    WentHalfWayMore(h, more, from, since, job);
    WentLiveMore(s0, h, more, from, since, job);
  }

  /** Everything between the decision to migrate and the durable new identity. If the history shows it live on both
      sides, it is at its target afterwards, failure or not. If not, and no undo call met a fault, and no directory
      went by the staging name at the start, then only parents were left behind. */
  method InstallIdentity(fs: FileSystem, req: Request, ghost job: Job, plan: seq<Planned>)
    returns (r: Result<(), Failure>)
    requires fs.Valid() && GoodJob(fs.st, job) && JobFor(req, job, fs.faulty) && plan == job.plan
    modifies fs
    ensures fs.Went() && Safe(old(fs.st), fs.st, job) && (r.Ok? ==> fs.undoFaults == old(fs.undoFaults))
    ensures forall k :: old(|fs.history|) <= k < |fs.history| ==> Safe(old(fs.st), fs.history[k], job)
    ensures r.Ok? ==> Live(old(fs.st), fs.st, job) && Settled(old(fs.st), fs.st, job) && Describes(fs.st, job.legacy)
    ensures r.Ok? ==> ChainMade(old(fs.st), fs.st, job)
    ensures r.Ok? ==>
      WentLive(old(fs.st), fs.history, old(|fs.history|), job) && SameOwner(old(fs.st), fs.st, job.legacy.config)
    ensures WentLive(old(fs.st), fs.history, old(|fs.history|), job) ==>
      AllAtTarget(fs.st, job.home, job.l, job.net, job.plan) && WentHalfWay(fs.history, old(|fs.history|), job)
    ensures !WentLive(old(fs.st), fs.history, old(|fs.history|), job) && fs.undoFaults == old(fs.undoFaults) ==>
      NoStagingDir(old(fs.st), req) ==>
      Grown(old(fs.st), fs.st, job.home, Chain(job.l))
    ensures !WentLive(old(fs.st), fs.history, old(|fs.history|), job) && old(fs.undoFaults) < fs.undoFaults ==>
      StagingFree(old(fs.st), req) ==>
      old(fs.faults) + 2 <= fs.faults
    ensures r.Err? && fs.faults == old(fs.faults) ==> r.error == Failure(DestinationStage)
    ensures fs.faults == old(fs.faults) ==>
      (r.Ok? <==> Unblocked(old(fs.st), req.home, req.l) && StagingFree(old(fs.st), req))
    ensures fs.faults == old(fs.faults) && r.Err? && Unblocked(old(fs.st), req.home, req.l) ==> NoStagingDir(fs.st, req)
  {
    hide ValidFs, Touch, GoodJob, Grown, Placed, Phase, Safe, AllAtTarget, Live, Settled, Describes, StagingFree,
        NoStagingDir, Unblocked, Chain, WellLaid, IsDir, WentLive, WentHalfWay, BothNew, SameOwner, InNets, MadeWith,
        ModeAt;
    ghost var s0 := fs.st;
    GoodJobHome(s0, job);
    GoodJobLaid(s0, job);
    var nets := CreateNetworks(fs, req.home, req.l, req.uid);
    ghost var s1, from := fs.st, |fs.history|;
    forall b: Fs | ValidFs(b) && Grown(s0, b, job.home, Chain(job.l)) ensures Safe(s0, b, job) && !BothNew(s0, b, job) {
      GrownSafe(s0, b, job);
      GrownNotNew(s0, b, job);
    }
    NeverLive(s0, fs.history, old(|fs.history|), job);
    if nets.Err? { return Err(nets.error); }
    var d := nets.value;
    PhaseStart(s0, s1, job, d);
    ghost var sofar := fs.history;
    ghost var committed;
    r, committed := InstallAt(fs, s0, req, job, plan, d);
    forall b: Fs | Phase(s1, b, job, d) ensures Safe(s0, b, job) { PhaseSafe(s0, s1, b, job, d); }
    if committed {
      Milestones(s0, fs.history, fs.history, from, old(|fs.history|), job);
    } else {
      StillNever(s0, sofar, fs.history, old(|fs.history|), job);
    }
    if r.Ok? {
      ChainThrough(s0, s1, fs.st, job, d);
      PublishedSettled(s0, s1, fs.st, job, d);
      OwnerKept(s0, s1, fs.st, job, d);
    }
  }

  lemma GoodJobLaid(s0: Fs, job: Job)
    requires GoodJob(s0, job)
    ensures WellLaid(job.l)
  {
  }

  lemma StillNever(s0: Fs, h: seq<Fs>, more: seq<Fs>, from: nat, job: Job)
    requires !WentLive(s0, h, from, job) && h <= more && !WentLive(s0, more, |h|, job)
    ensures !WentLive(s0, more, from, job)
  {
    hide BothNew;
    forall k | from <= k < |more| ensures !BothNew(s0, more[k], job) {
      if k < |h| { assert h[k] == more[k]; }
    }
  }

  lemma OwnerKept(s0: Fs, s1: Fs, s: Fs, job: Job, d: NetDirs)
    requires GoodJob(s0, job) && Grown(s0, s1, job.home, Chain(job.l)) && Phase(s1, s, job, d)
    ensures SameOwner(s0, s, job.legacy.config)
  {
    hide GoodJob, Grown, SlotOk, Found, SameTree, Apart;
    ConfigThere(s0, s1, job);
  }

  lemma GoodJobHome(s0: Fs, job: Job)
    requires GoodJob(s0, job)
    ensures IsDir(s0, job.home) && WellLaid(job.l)
  {
  }
}
