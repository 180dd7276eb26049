/** What must hold in every state a migration passes through, crash or no crash, and why each kind of step keeps it. */
module Safety {
  import opened Kernel
  import opened Trees
  import opened Steps
  import opened Growth
  import opened FileSystems
  import opened Names
  import opened Layout
  import opened TreeWalks
  import opened Identity
  import opened Staging
  import opened Networks
  import opened LegacyHome

  /** One migration: whose home, which network, what was found and planned, the name it stages under, and the one it
      gives to what it replaces. The marker text is known on a fault-free run. */
  datatype Job = Job(home: Ino, uid: nat, l: UserLayout, net: Name, legacy: Legacy, plan: seq<Planned>,
                     marker: Option<Bytes>, staging: Name, aside: Name)

  /** What `networks/<n>` is on one side. */
  function EntryNamed(fs: Fs, job: Job, place: Place, n: Name): Option<Ino> {
    Lookup(fs, job.home, NetworkDir(job.l, place, n))
  }

  function TargetEntry(fs: Fs, job: Job, place: Place): Option<Ino> {
    EntryNamed(fs, job, place, job.net)
  }

  /** The same files are found, readable and equal in content, as when the job was read off. */
  ghost predicate Found(s: Fs, job: Job) {
    var legacy := job.legacy;
    && IsDir(s, legacy.home) && OpenDir(s, legacy.home, LEGACY_CONFIG_DIR) == Ok(legacy.config)
    && Bound(s, legacy.config, LEGACY_IDENTITY_FILE).Some?
    && SourcesOf(s, legacy.home, legacy.config) == legacy.sources
    && (legacy.hasRedb <==> Bound(s, legacy.home, PIX_DB_FILE).Some?)
    && Readable(s, legacy) && job.plan == PlanOf(s, legacy)
  }

  /** The job was read off `s0`, and the user's home and the legacy home are separate trees. */
  ghost predicate GoodJob(s0: Fs, job: Job) {
    && ValidFs(s0) && IsDir(s0, job.home) && WellLaid(job.l) && ValidNetwork(job.net)
    && Apart(s0, job.home, job.legacy.home)
    && job.net + ".migrating-" <= job.staging
    && FindLegacy(s0, Some(job.legacy.home)) == Ok(Some(job.legacy)) && Readable(s0, job.legacy)
    && job.plan == PlanOf(s0, job.legacy)
  }

  // ------------------------------------------------------------------ the four promises

  predicate KeptName(net: Name, n: Name) {
    n == net || IsAside(net, REPLACED, n)
  }

  /** No half-written identity: nothing, the very entry found at the start, or a completely staged directory. */
  ghost predicate WholeOrOld(s0: Fs, s: Fs, job: Job, place: Place) {
    var e := TargetEntry(s, job, place);
    e == None || e == TargetEntry(s0, job, place) || StagedOk(s, e.value, job.plan, place, job.marker)
  }

  /** An entry found at the start is still there, its tree unchanged, under the network name or a replaced one. */
  ghost predicate TargetKept(s0: Fs, s: Fs, job: Job, place: Place) {
    var e := TargetEntry(s0, job, place);
    e.Some? ==>
      SameTree(s0, s, e.value) && exists n :: KeptName(job.net, n) && Lookup(s, job.home, Nets(job.l, place) + [n]) == e
  }

  ghost predicate ConfigKept(s0: Fs, s: Fs, legacy: Legacy) {
    && SameTree(s0, s, legacy.config)
    && exists n :: (n == LEGACY_CONFIG_DIR || ConfigAside(n)) && Bound(s, legacy.home, n) == Some(legacy.config)
  }

  ghost predicate RedbKept(s0: Fs, s: Fs, legacy: Legacy) {
    var redb := Bound(s0, legacy.home, PIX_DB_FILE);
    redb.Some? ==>
      SameTree(s0, s, redb.value) && exists n :: (n == PIX_DB_FILE || RedbAside(n)) && Bound(s, legacy.home, n) == redb
  }

  /** The legacy directory leaves its place only once everything planned is at its target; until then a rerun finds
      the same files. */
  ghost predicate LegacyLast(s: Fs, job: Job) {
    || Found(s, job)
    || (Bound(s, job.legacy.home, LEGACY_CONFIG_DIR) == None && AllAtTarget(s, job.home, job.l, job.net, job.plan))
  }

  /** Any entry of a `networks/` directory but the network itself and a directory that goes by this run's staging name:
      other networks, aside directories, what other runs staged. */
  ghost predicate Bystander(fs: Fs, job: Job, n: Name, x: Ino) {
    n != job.net && (n == job.staging ==> !IsDir(fs, x))
  }

  /** All of them are left alone. */
  ghost predicate OthersKept(s0: Fs, s: Fs, job: Job, place: Place) {
    forall n: Name ::
      EntryNamed(s0, job, place, n).Some? && Bystander(s0, job, n, EntryNamed(s0, job, place, n).value) ==>
      && EntryNamed(s, job, place, n) == EntryNamed(s0, job, place, n)
      && SameTree(s0, s, EntryNamed(s0, job, place, n).value)
  }

  /** The two homes are where and what they were, and a chain that could be walked still can. */
  ghost predicate Rooted(s0: Fs, s: Fs, job: Job) {
    && IsDir(s, job.home) && IsDir(s, job.legacy.home) && Apart(s, job.home, job.legacy.home)
    && (Unblocked(s0, job.home, job.l) ==> Unblocked(s, job.home, job.l))
  }

  ghost predicate SideSafe(s0: Fs, s: Fs, job: Job, place: Place) {
    WholeOrOld(s0, s, job, place) && TargetKept(s0, s, job, place) && OthersKept(s0, s, job, place)
  }

  ghost predicate Safe(s0: Fs, s: Fs, job: Job) {
    && Rooted(s0, s, job) && SideSafe(s0, s, job, Data) && SideSafe(s0, s, job, Cache)
    && ConfigKept(s0, s, job.legacy) && RedbKept(s0, s, job.legacy)
    && LegacyLast(s, job)
  }

  // ------------------------------------------------------------------ what a good job gives

  function AllSources(pass: bool, safe: bool, redb: bool): seq<Source> {
    [ID_SOURCE] + Optional(pass, PASS_SOURCE) + Optional(safe, SAFE_SOURCE) + Optional(redb, REDB_SOURCE)
  }

  /** No two sources of one side share a first name, and a source is cached exactly if `safe`. */
  ghost predicate Headed(q: seq<Source>, safe: bool) {
    && |q| > 0 && (forall k :: 0 <= k < |q| ==> q[k].rel != [] && q[k].rel[0] != MIGRATED_FROM_FILE)
    && (forall j, k :: 0 <= j < k < |q| && q[j].place == q[k].place ==> q[j].rel[0] != q[k].rel[0])
    && ((exists k :: 0 <= k < |q| && q[k].place == Cache) <==> safe)
  }

  /** Whatever optional files there are. */
  lemma SourceHeads(pass: bool, safe: bool, redb: bool)
    ensures Headed(AllSources(pass, safe, redb), safe)
  {
    var q := AllSources(pass, safe, redb);
    assert forall k :: 0 <= k < |q| ==>
      q[k] == ID_SOURCE || q[k] == PASS_SOURCE || q[k] == SAFE_SOURCE || q[k] == REDB_SOURCE;
    assert safe ==> q[1 + |Optional(pass, PASS_SOURCE)|] == SAFE_SOURCE;
    if pass { if safe { if redb { } } else { if redb { } } } else { if safe { if redb { } } else { if redb { } } }
  }

  ghost function HasSafe(s0: Fs, job: Job): bool {
    Bound(s0, job.legacy.config, LEGACY_SAFE_FILE).Some?
  }

  lemma JobSources(s0: Fs, job: Job)
    requires GoodJob(s0, job)
    ensures Describes(s0, job.legacy) && |job.plan| == |job.legacy.sources|
    ensures job.legacy.sources == AllSources(Bound(s0, job.legacy.config, LEGACY_PASSWORD_FILE).Some?, HasSafe(s0, job),
      Bound(s0, job.legacy.home, PIX_DB_FILE).Some?)
    ensures forall k :: 0 <= k < |job.plan| ==>
      job.plan[k].rel == job.legacy.sources[k].rel && job.plan[k].place == job.legacy.sources[k].place
    ensures forall k :: 0 <= k < |job.plan| ==> Unchanged(s0, job.plan[k])
  {
    hide ValidFs, Apart, WellLaid;
  }

  lemma SourcesHeaded(s0: Fs, job: Job)
    requires GoodJob(s0, job)
    ensures Headed(job.legacy.sources, HasSafe(s0, job)) && |job.plan| == |job.legacy.sources|
    ensures forall k :: 0 <= k < |job.plan| ==>
      job.plan[k].rel == job.legacy.sources[k].rel && job.plan[k].place == job.legacy.sources[k].place
  {
    hide *;
    JobSources(s0, job);
    SourceHeads(Bound(s0, job.legacy.config, LEGACY_PASSWORD_FILE).Some?, HasSafe(s0, job),
                Bound(s0, job.legacy.home, PIX_DB_FILE).Some?);
  }

  lemma JobFacts(s0: Fs, job: Job)
    requires GoodJob(s0, job)
    ensures Describes(s0, job.legacy) && HeadsDistinct(job.plan) && |job.plan| > 0
    ensures forall k :: 0 <= k < |job.plan| ==> Unchanged(s0, job.plan[k]) && job.plan[k].rel != []
  {
    hide *;
    JobSources(s0, job);
    SourcesHeaded(s0, job);
    PlanHeaded(job.plan, job.legacy.sources, HasSafe(s0, job));
  }

  lemma PlanHeaded(plan: seq<Planned>, sources: seq<Source>, safe: bool)
    requires |plan| == |sources| && Headed(sources, safe)
    requires forall k :: 0 <= k < |plan| ==> plan[k].rel == sources[k].rel && plan[k].place == sources[k].place
    ensures HeadsDistinct(plan) && |plan| > 0 && forall k :: 0 <= k < |plan| ==> plan[k].rel != []
  {
  }

  /** Whether the safe file is planned: the only source that belongs to the cache side. */
  lemma SafePlanned(s0: Fs, job: Job)
    requires GoodJob(s0, job)
    ensures (exists k :: 0 <= k < |job.plan| && job.plan[k].place == Cache) <==>
      Bound(s0, job.legacy.config, LEGACY_SAFE_FILE).Some?
  {
    hide GoodJob;
    SourcesHeaded(s0, job);
    var sources := job.legacy.sources;
    if k :| 0 <= k < |sources| && sources[k].place == Cache { assert job.plan[k].place == Cache; }
    if k :| 0 <= k < |job.plan| && job.plan[k].place == Cache { assert sources[k].place == Cache; }
  }

  lemma SameTreeRefl(a: Fs, x: Ino)
    ensures SameTree(a, a, x)
  {
    forall n: Node ensures SameBody(n, n) {}
  }

  lemma SameTreeTrans(a: Fs, b: Fs, c: Fs, x: Ino)
    requires SameTree(a, b, x) && SameTree(b, c, x)
    ensures SameTree(a, c, x)
  {
    forall p: Path
      ensures Lookup(c, x, p) == Lookup(a, x, p)
      ensures Lookup(a, x, p).Some? && Lookup(a, x, p).value in a.nodes ==>
        Lookup(a, x, p).value in c.nodes && SameBody(a.nodes[Lookup(a, x, p).value], c.nodes[Lookup(a, x, p).value])
    {
      assert Lookup(b, x, p) == Lookup(a, x, p) && Lookup(c, x, p) == Lookup(b, x, p);
    }
  }

  lemma SameTreeBelow(a: Fs, b: Fs, x: Ino, n: Name, y: Ino)
    requires SameTree(a, b, x) && Bound(a, x, n) == Some(y)
    ensures Bound(b, x, n) == Some(y) && SameTree(a, b, y)
  {
    OneName(a, x, n);
    OneName(b, x, n);
    assert Lookup(b, x, [n]) == Lookup(a, x, [n]);
    forall p: Path
      ensures Lookup(b, y, p) == Lookup(a, y, p)
      ensures Lookup(a, y, p).Some? && Lookup(a, y, p).value in a.nodes ==>
        Lookup(a, y, p).value in b.nodes && SameBody(a.nodes[Lookup(a, y, p).value], b.nodes[Lookup(a, y, p).value])
    {
      LookupAppend(a, x, [n], p);
      LookupAppend(b, x, [n], p);
      assert Lookup(b, x, [n] + p) == Lookup(a, x, [n] + p);
    }
  }

  // ------------------------------------------------------------------ creating the chain is safe

  lemma NetworkDirNotInChain(l: UserLayout, place: Place, net: Name, p: Path)
    requires WellLaid(l)
    ensures NetworkDir(l, place, net) + p !in Chain(l)
  {
    var q := NetworkDir(l, place, net) + p;
    assert Nets(l, place) <= q && |q| > |Nets(l, place)|;
    assert forall o: Place :: q in Prefixes(Nets(l, o)) ==> q <= Nets(l, o);
    assert forall o: Place :: q <= Nets(l, o) ==> Nets(l, place) <= Nets(l, o);
  }

  /** A directory the chain may extend, at the parent of chain path `q`, lies below the home, apart from the legacy
      home, and not inside a target. */
  lemma ChainParent(s0: Fs, job: Job, q: Path, i: Ino)
    requires GoodJob(s0, job) && q in Chain(job.l) && q != [] && Lookup(s0, job.home, ParentOf(q)) == Some(i)
    requires IsDir(s0, i)
    ensures Reach(s0, job.home, i) && !Reach(s0, job.legacy.home, i)
    ensures forall place: Place, n: Name :: EntryNamed(s0, job, place, n).Some? ==>
      !Reach(s0, EntryNamed(s0, job, place, n).value, i)
  {
    hide FindLegacy, Readable, PlanOf, WellLaid, Reach, Chain;
    var h := job.home;
    ReachBy(s0, h, ParentOf(q), i);
    if Reach(s0, job.legacy.home, i) {
      var t := PathTo(s0, job.legacy.home, i);
      MeetApart(s0, h, ParentOf(q), job.legacy.home, t);
    }
    forall place: Place, n: Name | EntryNamed(s0, job, place, n).Some?
      ensures !Reach(s0, EntryNamed(s0, job, place, n).value, i)
    {
      var target := NetworkDir(job.l, place, n);
      if Reach(s0, EntryNamed(s0, job, place, n).value, i) {
        var p := PathTo(s0, EntryNamed(s0, job, place, n).value, i);
        LookupAppend(s0, h, target, p);
        UniquePath(s0, h, target + p, ParentOf(q));
        assert q == target + (p + [NameOf(q)]);
        NetworkDirNotInChain(job.l, place, n, p + [NameOf(q)]);
      }
    }
  }

  lemma ReachBy(fs: Fs, a: Ino, p: Path, b: Ino)
    requires Lookup(fs, a, p) == Some(b)
    ensures Reach(fs, a, b)
  {
  }

  ghost function ChainDirs(s0: Fs, job: Job): set<Ino> {
    set i | i in Parents(s0, job.home, Chain(job.l)) && IsDir(s0, i)
  }

  lemma ChainParents(s0: Fs, job: Job)
    requires GoodJob(s0, job)
    ensures forall i: Ino :: i in ChainDirs(s0, job) ==> Reach(s0, job.home, i) && !Reach(s0, job.legacy.home, i)
    ensures forall place: Place, n: Name, i: Ino :: EntryNamed(s0, job, place, n).Some? && i in ChainDirs(s0, job) ==>
      !Reach(s0, EntryNamed(s0, job, place, n).value, i)
  {
    hide GoodJob, Reach, Chain;
    forall i: Ino | i in ChainDirs(s0, job)
      ensures Reach(s0, job.home, i) && !Reach(s0, job.legacy.home, i)
      ensures forall place: Place, n: Name :: EntryNamed(s0, job, place, n).Some? ==>
        !Reach(s0, EntryNamed(s0, job, place, n).value, i)
    {
      var q :| q in Chain(job.l) && q != [] && Lookup(s0, job.home, q[..|q| - 1]) == Some(i);
      ChainParent(s0, job, q, i);
    }
  }

  /** Growing the chain leaves everything in the networks directories and the legacy tree alone. */
  lemma GrownKeeps(s0: Fs, s: Fs, job: Job)
    requires GoodJob(s0, job) && Grown(s0, s, job.home, Chain(job.l))
    ensures forall place: Place, n: Name :: EntryNamed(s, job, place, n) == EntryNamed(s0, job, place, n)
    ensures forall place: Place, n: Name, x: Ino :: EntryNamed(s0, job, place, n) == Some(x) ==> SameTree(s0, s, x)
    ensures SameTree(s0, s, job.legacy.home) && Apart(s, job.home, job.legacy.home) && IsDir(s, job.home)
    ensures IsDir(s, job.legacy.home)
  {
    hide Touch, WellLaid, Chain;
    ChainParents(s0, job);
    forall place: Place, n: Name ensures EntryNamed(s, job, place, n) == EntryNamed(s0, job, place, n) {
      NetworkDirNotInChain(job.l, place, n, []);
      var q := NetworkDir(job.l, place, n);
      assert q + [] == q;
      assert Lookup(s, job.home, q) == Lookup(s0, job.home, q) || MadeDir(s0, s, job.home, Chain(job.l), q);
    }
    var dirs := ChainDirs(s0, job);
    GrownDirs(s0, s, job);
    LegacyIsDir(s0, job);
    KindKept(s0, s, job.home, Chain(job.l), job.home);
    KindKept(s0, s, job.home, Chain(job.l), job.legacy.home);
    TreeFrame(s0, s, dirs, job.legacy.home);
    ApartKept(s0, s, dirs, job.home, job.legacy.home);
    forall place: Place, n: Name, x: Ino | EntryNamed(s0, job, place, n) == Some(x) ensures SameTree(s0, s, x) {
      LookupInNodes(s0, job.home, NetworkDir(job.l, place, n));
      TreeFrame(s0, s, dirs, x);
    }
  }

  lemma LegacyIsDir(s0: Fs, job: Job)
    requires GoodJob(s0, job)
    ensures IsDir(s0, job.legacy.home) && IsDir(s0, job.home) && ValidFs(s0) && Apart(s0, job.home, job.legacy.home)
    ensures forall i: Ino :: i in ChainDirs(s0, job) ==> IsDir(s0, i)
    ensures WellLaid(job.l) && ValidNetwork(job.net) && Found(s0, job)
  {
  }

  /** Only directories grow. */
  lemma GrownDirs(s0: Fs, s: Fs, job: Job)
    requires Grown(s0, s, job.home, Chain(job.l))
    ensures Touch(s0, s, ChainDirs(s0, job))
  {
    TouchDirs(s0, s, Parents(s0, job.home, Chain(job.l)));
  }

  lemma TouchDirs(a: Fs, b: Fs, e: set<Ino>)
    requires Touch(a, b, e) && Added(a, b)
    ensures Touch(a, b, set i | i in e && IsDir(a, i))
  {
    var dirs := set i | i in e && IsDir(a, i);
    forall f: Ino | f in a.nodes && BoundIn(a, e, f) ensures BoundIn(a, dirs, f) {
      var d: Ino, n: Name :| d in e && Bound(a, d, n) == Some(f);
      assert d in dirs;
    }
    forall i: Ino | i in a.nodes && i !in dirs ensures SameBody(a.nodes[i], b.nodes[i]) {
      assert i in e ==> Preserved(a.nodes[i], b.nodes[i]);
    }
  }

  // ------------------------------------------------------------------ a rerun finds what this run found

  lemma TreeBound(a: Fs, b: Fs, x: Ino)
    requires SameTree(a, b, x)
    ensures forall n: Name :: Bound(b, x, n) == Bound(a, x, n)
  {
    forall n: Name ensures Bound(b, x, n) == Bound(a, x, n) {
      OneName(a, x, n);
      OneName(b, x, n);
      assert Lookup(b, x, [n]) == Lookup(a, x, [n]);
    }
  }

  /** A readable file in an untouched directory opens as the same inode with the same bytes and still one name. */
  lemma OpenFrame(c: Fs, b: Fs, e: set<Ino>, dir: Ino, name: Name)
    requires ValidFs(c) && Touch(c, b, e) && OpenRegular(c, dir, name).Ok? && dir !in e
    requires OpenRegular(c, dir, name).value !in e
    ensures OpenRegular(b, dir, name) == OpenRegular(c, dir, name)
    ensures b.nodes[OpenRegular(c, dir, name).value].data == c.nodes[OpenRegular(c, dir, name).value].data
  {
    var f := OpenRegular(c, dir, name).value;
    assert SameBody(c.nodes[dir], b.nodes[dir]) && SameBody(c.nodes[f], b.nodes[f]);
    OneLink(c, f, dir, name);
    LinksFrame(c, b, e, f, dir, name);
  }

  lemma FoundFrame(c: Fs, b: Fs, e: set<Ino>, job: Job)
    requires ValidFs(c) && Found(c, job) && Touch(c, b, e) && forall i: Ino :: i in e ==> !Reach(c, job.legacy.home, i)
    ensures Found(b, job)
  {
    hide Reach, SameTree, ValidFs, Touch, OpenRegular;
    var legacy := job.legacy;
    var h := legacy.home;
    TreeFrame(c, b, e, h);
    TreeBound(c, b, h);
    SameTreeBelow(c, b, h, LEGACY_CONFIG_DIR, legacy.config);
    TreeBound(c, b, legacy.config);
    ReachSelf(c, h);
    ReachStep(c, h, h, LEGACY_CONFIG_DIR);
    assert IsDir(b, h) && IsDir(b, legacy.config) by {
      TouchKeepsDir(c, b, e, h);
      TouchKeepsDir(c, b, e, legacy.config);
    }
    forall k | 0 <= k < |legacy.sources|
      ensures OpenRegular(b, SourceDir(legacy, legacy.sources[k]), legacy.sources[k].name).Ok?
      ensures PlannedOf(b, legacy, legacy.sources[k]) == PlannedOf(c, legacy, legacy.sources[k])
    {
      SourceKept(c, b, e, job, k);
    }
    assert PlanOf(b, legacy) == PlanOf(c, legacy);
  }

  lemma SourceKept(c: Fs, b: Fs, e: set<Ino>, job: Job, k: nat)
    requires ValidFs(c) && Found(c, job) && Touch(c, b, e) && forall i: Ino :: i in e ==> !Reach(c, job.legacy.home, i)
    requires k < |job.legacy.sources|
    ensures OpenRegular(b, SourceDir(job.legacy, job.legacy.sources[k]), job.legacy.sources[k].name).Ok?
    ensures PlannedOf(b, job.legacy, job.legacy.sources[k]) == PlannedOf(c, job.legacy, job.legacy.sources[k])
  {
    hide Touch, ValidFs, Reach, PlanOf;
    var s, h := job.legacy.sources[k], job.legacy.home;
    var dir := SourceDir(job.legacy, s);
    ReachSelf(c, h);
    ReachStep(c, h, h, LEGACY_CONFIG_DIR);
    ReachStep(c, h, dir, s.name);
    OpenFrame(c, b, e, dir, s.name);
  }

  lemma GrownFound(s0: Fs, s: Fs, job: Job)
    requires GoodJob(s0, job) && Grown(s0, s, job.home, Chain(job.l))
    ensures Found(s, job)
  {
    hide Touch, Grown, ChainDirs, Reach, Chain, GoodJob;
    LegacyIsDir(s0, job);
    ChainParents(s0, job);
    GrownDirs(s0, s, job);
    FoundFrame(s0, s, ChainDirs(s0, job), job);
  }

  /** While only the chain grew, every promise holds. */
  lemma GrownSafe(s0: Fs, s: Fs, job: Job)
    requires GoodJob(s0, job) && ValidFs(s) && Grown(s0, s, job.home, Chain(job.l))
    ensures Safe(s0, s, job)
  {
    hide SameTree, Grown, StagedOk, AllAtTarget, GoodJob, Found, Apart, Chain, Touch, ValidFs, Unblocked;
    GrownKeeps(s0, s, job);
    GrownFound(s0, s, job);
    LegacyIsDir(s0, job);
    UnblockedGrown(s0, s, job.home, job.l, Chain(job.l));
    LegacyUntouched(s0, s, job);
    forall place: Place ensures SideSafe(s0, s, job, place) {
      assert KeptName(job.net, job.net);
      assert EntryNamed(s, job, place, job.net) == TargetEntry(s, job, place);
      assert Lookup(s, job.home, Nets(job.l, place) + [job.net]) == TargetEntry(s, job, place);
    }
  }

  lemma TargetByName(fs: Fs, job: Job, place: Place, dir: Ino, n: Name)
    requires Lookup(fs, job.home, Nets(job.l, place)) == Some(dir)
    ensures Lookup(fs, job.home, Nets(job.l, place) + [n]) == Bound(fs, dir, n)
    ensures EntryNamed(fs, job, place, n) == Bound(fs, dir, n)
    ensures n == job.net ==> TargetEntry(fs, job, place) == Bound(fs, dir, n)
  {
    LookupLast(fs, job.home, Nets(job.l, place), n);
  }

  lemma LegacyUntouched(s0: Fs, s: Fs, job: Job)
    requires GoodJob(s0, job) && SameTree(s0, s, job.legacy.home)
    ensures ConfigKept(s0, s, job.legacy) && RedbKept(s0, s, job.legacy)
  {
    hide SameTree;
    JobFacts(s0, job);
    SameTreeBelow(s0, s, job.legacy.home, LEGACY_CONFIG_DIR, job.legacy.config);
    if Bound(s0, job.legacy.home, PIX_DB_FILE).Some? {
      SameTreeBelow(s0, s, job.legacy.home, PIX_DB_FILE, Bound(s0, job.legacy.home, PIX_DB_FILE).value);
    }
  }

  // ------------------------------------------------------------------ while the networks directories are worked on

  /** One side, compared with `s1`, when both directories had just been opened. */
  ghost predicate SlotOk(s1: Fs, s: Fs, job: Job, dir: Ino, place: Place) {
    var was, now := Bound(s1, dir, job.net), Bound(s, dir, job.net);
    && (was.Some? ==> SameTree(s1, s, was.value) && exists n :: KeptName(job.net, n) && Bound(s, dir, n) == was)
    && (now == None || now == was || StagedOk(s, now.value, job.plan, place, job.marker))
    && OthersOk(s1, s, job, dir)
  }

  ghost predicate OthersOk(s1: Fs, s: Fs, job: Job, dir: Ino) {
    forall n: Name :: Bound(s1, dir, n).Some? && Bystander(s1, job, n, Bound(s1, dir, n).value) ==>
      OtherOk(s1, s, dir, n, Bound(s1, dir, n).value)
  }

  ghost predicate OtherOk(s1: Fs, s: Fs, dir: Ino, n: Name, x: Ino) {
    Bound(s, dir, n) == Some(x) && SameTree(s1, s, x) && (IsDir(s, x) ==> IsDir(s1, x))
  }

  ghost predicate Phase(s1: Fs, s: Fs, job: Job, d: NetDirs) {
    && Placed(s, job.home, job.l, d) && IsDir(s, job.legacy.home) && Apart(s, job.home, job.legacy.home)
    && SameTree(s1, s, job.legacy.home)
    && Found(s, job) && SameOwner(s1, s, job.legacy.config) && SlotOk(s1, s, job, d.data, Data)
    && SlotOk(s1, s, job, d.cache, Cache)
  }

  lemma PhaseStart(s0: Fs, s1: Fs, job: Job, d: NetDirs)
    requires GoodJob(s0, job) && Grown(s0, s1, job.home, Chain(job.l)) && Placed(s1, job.home, job.l, d)
    ensures Phase(s1, s1, job, d)
  {
    hide SameTree, Grown, StagedOk, Found;
    GrownKeeps(s0, s1, job);
    GrownFound(s0, s1, job);
    ConfigThere(s0, s1, job);
    forall x: Ino ensures SameTree(s1, s1, x) { SameTreeRefl(s1, x); }
    assert KeptName(job.net, job.net);
  }

  lemma ConfigThere(s0: Fs, s1: Fs, job: Job)
    requires GoodJob(s0, job) && Grown(s0, s1, job.home, Chain(job.l))
    ensures SameOwner(s0, s1, job.legacy.config)
  {
    hide GoodJob, Touch, Chain, WellLaid;
    LegacyIsDir(s0, job);
    assert Preserved(s0.nodes[job.legacy.config], s1.nodes[job.legacy.config]);
  }

  /** From the two sides to the promises. */
  lemma PhaseSafe(s0: Fs, s1: Fs, s: Fs, job: Job, d: NetDirs)
    requires GoodJob(s0, job) && Grown(s0, s1, job.home, Chain(job.l)) && Placed(s1, job.home, job.l, d)
    requires Phase(s1, s, job, d)
    ensures Safe(s0, s, job)
  {
    hide SameTree, Grown, AllAtTarget, GoodJob, Apart, Found, SlotOk, SideSafe, ValidFs;
    GrownKeeps(s0, s1, job);
    SameTreeTrans(s0, s1, s, job.legacy.home);
    LegacyUntouched(s0, s, job);
    PlacedOpen(s, job, d);
    SlotSafe(s0, s1, s, job, d, Data);
    SlotSafe(s0, s1, s, job, d, Cache);
  }

  lemma PlacedOpen(s: Fs, job: Job, d: NetDirs)
    requires Placed(s, job.home, job.l, d)
    ensures Unblocked(s, job.home, job.l)
  {
    WalkFinds(s, job.home, Nets(job.l, Data));
    WalkFinds(s, job.home, Nets(job.l, Cache));
  }

  lemma SlotSafe(s0: Fs, s1: Fs, s: Fs, job: Job, d: NetDirs, place: Place)
    requires GoodJob(s0, job) && Grown(s0, s1, job.home, Chain(job.l)) && Placed(s1, job.home, job.l, d)
    requires Placed(s, job.home, job.l, d)
    requires SlotOk(s1, s, job, Side(d, place), place)
    ensures SideSafe(s0, s, job, place)
  {
    hide SameTree, Grown, StagedOk, GoodJob, ValidFs, IsAside, Chain, Added, WellLaid, ValidNetwork, Tree, Lookup,
      SameBody, PlanOf, Parents, Bound, Nets, NetworkDir, Apart, KeptName, IsDir;
    GrownKeeps(s0, s1, job);
    LegacyIsDir(s0, job);
    var dir := Side(d, place);
    TargetByName(s, job, place, dir, job.net);
    TargetByName(s1, job, place, dir, job.net);
    if TargetEntry(s0, job, place).Some? {
      var x := TargetEntry(s0, job, place).value;
      SameTreeTrans(s0, s1, s, x);
      var n :| KeptName(job.net, n) && Bound(s, dir, n) == Some(x);
      TargetByName(s, job, place, dir, n);
    }
    forall n: Name | EntryNamed(s0, job, place, n).Some? && Bystander(s0, job, n, EntryNamed(s0, job, place, n).value)
      ensures EntryNamed(s, job, place, n) == EntryNamed(s0, job, place, n)
      ensures SameTree(s0, s, EntryNamed(s0, job, place, n).value)
    {
      var x := EntryNamed(s0, job, place, n).value;
      TargetByName(s, job, place, dir, n);
      TargetByName(s1, job, place, dir, n);
      LookupInNodes(s0, job.home, NetworkDir(job.l, place, n));
      KindKept(s0, s1, job.home, Chain(job.l), x);
      SameTreeTrans(s0, s1, s, x);
    }
  }

  /** Everything an inner step may change: the two directories and what is under the staging name. */
  ghost function Inner(c: Fs, d: NetDirs, staging: Name): set<Ino> {
    {d.data, d.cache} + TreeOf(c, d.data, staging) + TreeOf(c, d.cache, staging)
  }

  lemma InnerPath(c: Fs, job: Job, d: NetDirs, staging: Name, i: Ino) returns (place: Place, q: Path)
    requires Placed(c, job.home, job.l, d) && i in Inner(c, d, staging)
    ensures IsDir(c, i) && Lookup(c, job.home, Nets(job.l, place) + q) == Some(i) && (q == [] || q[0] == staging)
  {
    hide ValidFs, Reach;
    place := if i == d.data || i in TreeOf(c, d.data, staging) then Data else Cache;
    if i == d.data || i == d.cache {
      place, q := if i == d.data then Data else Cache, [];
      assert Nets(job.l, place) + q == Nets(job.l, place);
    } else {
      var s := Bound(c, Side(d, place), staging).value;
      var p := PathTo(c, s, i);
      LookupLast(c, job.home, Nets(job.l, place), staging);
      LookupAppend(c, job.home, Nets(job.l, place) + [staging], p);
      q := [staging] + p;
      assert Nets(job.l, place) + q == Nets(job.l, place) + [staging] + p;
    }
  }

  /** Nothing named in a networks directory but the staging entry contains anything an inner step may change. */
  lemma EntryApart(c: Fs, job: Job, d: NetDirs, staging: Name, place: Place, m: Name)
    requires Placed(c, job.home, job.l, d) && WellLaid(job.l) && m != staging && Bound(c, Side(d, place), m).Some?
    ensures forall i: Ino :: i in Inner(c, d, staging) ==> !Reach(c, Bound(c, Side(d, place), m).value, i)
  {
    var l, x := job.l, Bound(c, Side(d, place), m).value;
    LookupLast(c, job.home, Nets(l, place), m);
    forall i: Ino | i in Inner(c, d, staging) ensures !Reach(c, x, i) {
      var o, q := InnerPath(c, job, d, staging, i);
      NotPrefix(l, place, m, o, q);
      NotUnder(c, job.home, Nets(l, place) + [m], x, Nets(l, o) + q, i);
    }
  }

  lemma NotPrefix(l: UserLayout, place: Place, m: Name, o: Place, q: Path)
    requires WellLaid(l) && (q == [] || q[0] != m)
    ensures !(Nets(l, place) + [m] <= Nets(l, o) + q)
  {
    var here, there := Nets(l, place) + [m], Nets(l, o) + q;
    assert here[|Nets(l, place)|] == m;
    assert q != [] ==> there[|Nets(l, o)|] == q[0];
    assert here <= there ==> Nets(l, place) <= there;
    PrefixesCompare(Nets(l, place), Nets(l, o), there);
  }

  lemma PrefixesCompare(p: Path, q: Path, r: Path)
    ensures p <= r && q <= r ==> p <= q || q <= p
  {
  }

  /** Nothing in the legacy home contains anything an inner step may change. */
  lemma LegacyApart(c: Fs, job: Job, d: NetDirs, staging: Name)
    requires Placed(c, job.home, job.l, d) && Apart(c, job.home, job.legacy.home)
    ensures forall i: Ino :: i in Inner(c, d, staging) ==>
      !Reach(c, job.legacy.home, i) && Reach(c, job.home, i) && IsDir(c, i)
  {
    hide Reach;
    forall i: Ino | i in Inner(c, d, staging)
      ensures !Reach(c, job.legacy.home, i) && Reach(c, job.home, i) && IsDir(c, i)
    {
      var o, q := InnerPath(c, job, d, staging, i);
      ReachBy(c, job.home, Nets(job.l, o) + q, i);
      if Reach(c, job.legacy.home, i) {
        var t := PathTo(c, job.legacy.home, i);
        MeetApart(c, job.home, Nets(job.l, o) + q, job.legacy.home, t);
      }
    }
  }

  /** Inner steps leave the chain, the legacy tree and every other entry of the two directories as they were. */
  lemma InnerStep(s1: Fs, c: Fs, b: Fs, job: Job, d: NetDirs, staging: Name)
    requires WellLaid(job.l) && Phase(s1, c, job, d) && ValidFs(b) && Touch(c, b, Inner(c, d, staging))
    ensures Placed(b, job.home, job.l, d) && IsDir(b, job.legacy.home) && Apart(b, job.home, job.legacy.home)
    ensures SameTree(s1, b, job.legacy.home)
    ensures Found(b, job)
  {
    hide Found;
    LegacyApart(c, job, d, staging);
    FoundFrame(c, b, Inner(c, d, staging), job);
    ApartKept(c, b, Inner(c, d, staging), job.home, job.legacy.home);
    TreeFrame(c, b, Inner(c, d, staging), job.legacy.home);
    SameTreeTrans(s1, c, b, job.legacy.home);
    PlacedKept(c, b, job, d, staging, Data);
    PlacedKept(c, b, job, d, staging, Cache);
  }

  lemma PlacedKept(c: Fs, b: Fs, job: Job, d: NetDirs, staging: Name, place: Place)
    requires WellLaid(job.l) && Placed(c, job.home, job.l, d) && Touch(c, b, Inner(c, d, staging))
    ensures Lookup(b, job.home, Nets(job.l, place)) == Some(Side(d, place)) && IsDir(b, Side(d, place))
    ensures IsDir(b, job.home)
  {
    hide ValidFs, Reach, Inner;
    var p := Nets(job.l, place);
    forall k: nat | k < |p| && Lookup(c, job.home, p[..k]).Some?
      ensures Lookup(c, job.home, p[..k]).value !in Inner(c, d, staging)
    {
      ChainOutside(c, job, d, staging, place, k);
    }
    LookupAlong(c, b, Inner(c, d, staging), job.home, p);
  }

  lemma ChainOutside(c: Fs, job: Job, d: NetDirs, staging: Name, place: Place, k: nat)
    requires WellLaid(job.l) && Placed(c, job.home, job.l, d) && k < |Nets(job.l, place)|
    requires Lookup(c, job.home, Nets(job.l, place)[..k]).Some?
    ensures Lookup(c, job.home, Nets(job.l, place)[..k]).value !in Inner(c, d, staging)
  {
    hide ValidFs, Reach, Inner;
    var p := Nets(job.l, place);
    var i := Lookup(c, job.home, p[..k]).value;
    if i in Inner(c, d, staging) {
      var o, q := InnerPath(c, job, d, staging, i);
      PrefixesCompare(Nets(job.l, o), p, p);
      NotAbove(job.l, place, k, o, q);
      UniquePath(c, job.home, p[..k], Nets(job.l, o) + q);
    }
  }

  lemma NotAbove(l: UserLayout, place: Place, k: nat, o: Place, q: Path)
    requires WellLaid(l) && k < |Nets(l, place)|
    ensures Nets(l, place)[..k] != Nets(l, o) + q
  {
    var short := Nets(l, place)[..k];
    assert short <= Nets(l, place);
    assert short == Nets(l, o) + q ==> Nets(l, o) <= short;
    assert short == Nets(l, o) + q ==> Nets(l, o) <= Nets(l, place);
  }

  lemma SmallTouch(c: Fs, b: Fs, d: NetDirs, staging: Name)
    requires Touch(c, b, {d.data, d.cache})
    ensures Touch(c, b, Inner(c, d, staging))
  {
    TouchWider(c, b, {d.data, d.cache}, Inner(c, d, staging));
  }

  /** What is no directory contains nothing that may change. */
  lemma LeafApart(c: Fs, job: Job, d: NetDirs, staging: Name, x: Ino)
    requires Placed(c, job.home, job.l, d) && !IsDir(c, x)
    ensures forall i: Ino :: i in Inner(c, d, staging) ==> !Reach(c, x, i)
  {
    forall i: Ino | i in Inner(c, d, staging) ensures !Reach(c, x, i) {
      var o, q := InnerPath(c, job, d, staging, i);
      if Reach(c, x, i) {
        var p := PathTo(c, x, i);
        LookupLeaf(c, x, p);
      }
    }
  }

  /** Whatever else is in a networks directory keeps its name and its tree through a step. */
  lemma OthersStep(s1: Fs, c: Fs, b: Fs, job: Job, d: NetDirs, staging: Name, place: Place)
    requires WellLaid(job.l) && staging == job.staging && Placed(c, job.home, job.l, d)
    requires Touch(c, b, Inner(c, d, staging))
    requires OthersOk(s1, c, job, Side(d, place))
    requires forall n: Name ::
      Bound(s1, Side(d, place), n).Some? && Bystander(s1, job, n, Bound(s1, Side(d, place), n).value) ==>
      Bound(b, Side(d, place), n) == Bound(c, Side(d, place), n)
    ensures OthersOk(s1, b, job, Side(d, place))
  {
    hide SameTree, Touch, ValidFs, Inner, Reach, WellLaid;
    var dir, e := Side(d, place), Inner(c, d, staging);
    forall n: Name | Bound(s1, dir, n).Some? && Bystander(s1, job, n, Bound(s1, dir, n).value)
      ensures OtherOk(s1, b, dir, n, Bound(s1, dir, n).value)
    {
      var x := Bound(s1, dir, n).value;
      assert OtherOk(s1, c, dir, n, x);
      if n == staging { LeafApart(c, job, d, staging, x); } else { EntryApart(c, job, d, staging, place, n); }
      PlacedValid(c, job, d);
      EntryInNodes(c, dir, n);
      TreeFrame(c, b, e, x);
      SameTreeTrans(s1, c, b, x);
      KindThrough(c, b, e, x);
    }
  }

  lemma KindThrough(c: Fs, b: Fs, e: set<Ino>, x: Ino)
    requires Touch(c, b, e) && x in c.nodes
    ensures IsDir(b, x) <==> IsDir(c, x)
  {
  }

  lemma PlacedValid(c: Fs, job: Job, d: NetDirs)
    requires Placed(c, job.home, job.l, d)
    ensures ValidFs(c)
  {
  }

  lemma OthersStart(s1: Fs, job: Job, dir: Ino)
    ensures OthersOk(s1, s1, job, dir)
  {
    forall x: Ino ensures SameTree(s1, s1, x) { SameTreeRefl(s1, x); }
  }

  /** A staging name that leads to no directory still leads there. */
  ghost predicate LeafStays(c: Fs, b: Fs, dir: Ino, staging: Name) {
    Bound(c, dir, staging).Some? && !IsDir(c, Bound(c, dir, staging).value) ==>
      Bound(b, dir, staging) == Bound(c, dir, staging)
  }

  /** A side none of whose names but the staging one changed. */
  lemma SlotSameNames(s1: Fs, c: Fs, b: Fs, job: Job, d: NetDirs, staging: Name, place: Place)
    requires WellLaid(job.l) && ValidNetwork(job.net) && job.net + ".migrating-" <= staging && staging == job.staging
    requires Placed(c, job.home, job.l, d) && ValidFs(b) && Touch(c, b, Inner(c, d, staging))
    requires SlotOk(s1, c, job, Side(d, place), place)
    requires forall n: Name :: n != staging ==> Bound(b, Side(d, place), n) == Bound(c, Side(d, place), n)
    requires LeafStays(c, b, Side(d, place), staging)
    ensures SlotOk(s1, b, job, Side(d, place), place)
  {
    hide SameTree, StagedOk, Touch, ValidFs;
    var dir, e := Side(d, place), Inner(c, d, staging);
    var was := Bound(s1, dir, job.net);
    StagingDiffers(job.net, staging);
    forall n: Name | Bound(s1, dir, n).Some? && Bystander(s1, job, n, Bound(s1, dir, n).value)
      ensures Bound(b, dir, n) == Bound(c, dir, n)
    {
      assert OtherOk(s1, c, dir, n, Bound(s1, dir, n).value);
    }
    hide OthersOk, OtherOk;
    OthersStep(s1, c, b, job, d, staging, place);
    if was.Some? {
      var n :| KeptName(job.net, n) && Bound(c, dir, n) == was;
      EntryApart(c, job, d, staging, place, n);
      EntryInNodes(c, dir, n);
      TreeFrame(c, b, e, was.value);
      SameTreeTrans(s1, c, b, was.value);
      assert Bound(b, dir, n) == was;
    }
    var now := Bound(c, dir, job.net);
    if now.Some? && StagedOk(c, now.value, job.plan, place, job.marker) {
      EntryApart(c, job, d, staging, place, job.net);
      StagedFrame(c, b, e, now.value, job.plan, place, job.marker);
    }
  }

  lemma EntryInNodes(c: Fs, dir: Ino, n: Name)
    requires ValidFs(c) && Bound(c, dir, n).Some?
    ensures Bound(c, dir, n).value in c.nodes
  {
  }

  lemma StagingDiffers(net: Name, staging: Name)
    requires ValidNetwork(net) && net + ".migrating-" <= staging
    ensures forall n: Name :: KeptName(net, n) ==> n != staging
  {
    var ts := staging[|net + ".migrating-"|..];
    assert staging == StagingName(net, ts);
    forall n: Name | KeptName(net, n) ensures n != staging {
      if n != net { RunNames(net, ts, REPLACED, n); } else { assert |staging| > |net|; }
    }
  }

  // ------------------------------------------------------------------ the steps of a run, one kind each

  lemma AsidePhase(s1: Fs, b: Fs, job: Job, d: NetDirs, staging: Name)
    requires WellLaid(job.l) && ValidNetwork(job.net) && job.net + ".migrating-" <= staging && staging == job.staging
    requires Phase(s1, s1, job, d) && SomeAside(s1, b, d, job.net, REPLACED)
    ensures Phase(s1, b, job, d)
  {
    hide Found, SameTree, StagedOk, Touch, ValidFs, IsAside;
    var data, cache :| BothAside(s1, b, d, job.net, REPLACED, data, cache);
    SmallTouch(s1, b, d, staging);
    OwnerThrough(s1, s1, b, job.legacy.config);
    InnerStep(s1, s1, b, job, d, staging);
    AsideSlot(s1, b, job, d, staging, Data, data);
    AsideSlot(s1, b, job, d, staging, Cache, cache);
  }

  lemma AsideSlot(s1: Fs, b: Fs, job: Job, d: NetDirs, staging: Name, place: Place, aside: Option<Name>)
    requires WellLaid(job.l) && ValidNetwork(job.net) && job.net + ".migrating-" <= staging && staging == job.staging
    requires Placed(s1, job.home, job.l, d) && Touch(s1, b, Inner(s1, d, staging))
    requires SideAside(s1, b, Side(d, place), job.net, REPLACED, aside)
    ensures SlotOk(s1, b, job, Side(d, place), place)
  {
    hide SameTree, StagedOk, Touch, ValidFs, IsAside, OthersOk;
    var dir := Side(d, place);
    var was := Bound(s1, dir, job.net);
    StagingDiffers(job.net, staging);
    assert KeptName(job.net, job.net);
    OthersStart(s1, job, dir);
    OthersStep(s1, s1, b, job, d, staging, place);
    if was.Some? {
      EntryApart(s1, job, d, staging, place, job.net);
      EntryInNodes(s1, dir, job.net);
      TreeFrame(s1, b, Inner(s1, d, staging), was.value);
      if aside.Some? { assert KeptName(job.net, aside.value) && Bound(b, dir, aside.value) == was; }
    }
  }

  lemma StagedPhase(s1: Fs, c: Fs, b: Fs, job: Job, d: NetDirs, staging: Name)
    requires WellLaid(job.l) && ValidNetwork(job.net) && job.net + ".migrating-" <= staging && staging == job.staging
    requires Phase(s1, c, job, d) && StagedInto(c, b, d.data, d.cache, staging)
    ensures Phase(s1, b, job, d)
  {
    hide Found, SameTree, StagedOk, Touch, ValidFs, SlotOk;
    SmallTouch(c, b, d, staging);
    OwnerThrough(s1, c, b, job.legacy.config);
    InnerStep(s1, c, b, job, d, staging);
    SlotSameNames(s1, c, b, job, d, staging, Data);
    SlotSameNames(s1, c, b, job, d, staging, Cache);
  }

  lemma DropPhase(s1: Fs, c: Fs, b: Fs, job: Job, d: NetDirs, staging: Name)
    requires WellLaid(job.l) && ValidNetwork(job.net) && job.net + ".migrating-" <= staging && staging == job.staging
    requires Phase(s1, c, job, d) && Dropped(c, b, d, staging)
    ensures Phase(s1, b, job, d)
  {
    hide Found, SameTree, StagedOk, Touch, ValidFs, SlotOk, OnlyEntries;
    OwnerThrough(s1, c, b, job.legacy.config);
    InnerStep(s1, c, b, job, d, staging);
    SlotSameNames(s1, c, b, job, d, staging, Data);
    SlotSameNames(s1, c, b, job, d, staging, Cache);
  }

  lemma OwnerThrough(s1: Fs, c: Fs, b: Fs, i: Ino)
    requires SameOwner(s1, c, i) && (SameMeta(c, b) || Added(c, b) || OnlyEntries(c, b))
    ensures SameOwner(s1, b, i)
  {
    hide Touch;
    if Added(c, b) { assert Preserved(c.nodes[i], b.nodes[i]); }
  }

  /** Both staging entries are complete and the network name is free: what `publish` starts from. */
  ghost predicate ReadyToPublish(c: Fs, job: Job, d: NetDirs, staging: Name) {
    && Bound(c, d.data, job.net) == None && Bound(c, d.cache, job.net) == None
    && Bound(c, d.data, staging).Some? && StagedOk(c, Bound(c, d.data, staging).value, job.plan, Data, job.marker)
    && Bound(c, d.cache, staging).Some? && StagedOk(c, Bound(c, d.cache, staging).value, job.plan, Cache, job.marker)
    && OwnedBySide(c, Bound(c, d.data, staging).value, job.plan, Data, job.uid)
    && OwnedBySide(c, Bound(c, d.cache, staging).value, job.plan, Cache, job.uid)
  }

  /** And its owners and modes. */
  lemma OwnedThrough(c: Fs, b: Fs, job: Job, d: NetDirs, staging: Name, place: Place)
    requires WellLaid(job.l) && Placed(c, job.home, job.l, d) && Touch(c, b, {d.data, d.cache}) && SameMeta(c, b)
    requires Bound(c, Side(d, place), staging).Some?
    requires OwnedBySide(c, Bound(c, Side(d, place), staging).value, job.plan, place, job.uid)
    ensures OwnedBySide(b, Bound(c, Side(d, place), staging).value, job.plan, place, job.uid)
  {
    hide OwnedBySide, Touch, ValidFs, Reach, Part, Lookup;
    var x := Bound(c, Side(d, place), staging).value;
    NetsApart(c, job.home, job.l, d, place, staging);
    forall p: Path ensures MetaKept(c, b, x, p) { }
    OwnedFrame(c, b, {d.data, d.cache}, x, job.plan, place, job.uid);
  }

  /** A staged directory keeps its contents while it is renamed. */
  lemma StagedThrough(c: Fs, b: Fs, job: Job, d: NetDirs, staging: Name, place: Place)
    requires WellLaid(job.l) && Placed(c, job.home, job.l, d) && Touch(c, b, {d.data, d.cache})
    requires Bound(c, Side(d, place), staging).Some?
    requires StagedOk(c, Bound(c, Side(d, place), staging).value, job.plan, place, job.marker)
    ensures StagedOk(b, Bound(c, Side(d, place), staging).value, job.plan, place, job.marker)
  {
    hide StagedOk, Touch, ValidFs, Reach;
    NetsApart(c, job.home, job.l, d, place, staging);
    StagedFrame(c, b, {d.data, d.cache}, Bound(c, Side(d, place), staging).value, job.plan, place, job.marker);
  }

  lemma StagedIsDir(c: Fs, job: Job, x: Ino, place: Place)
    requires StagedOk(c, x, job.plan, place, job.marker)
    ensures IsDir(c, x)
  {
  }

  lemma PublishSlot(s1: Fs, c: Fs, b: Fs, job: Job, d: NetDirs, staging: Name, place: Place, live: bool)
    requires WellLaid(job.l) && ValidNetwork(job.net) && job.net + ".migrating-" <= staging && staging == job.staging
    requires Placed(c, job.home, job.l, d) && SlotOk(s1, c, job, Side(d, place), place)
    requires Touch(c, b, {d.data, d.cache}) && ValidFs(b)
    requires Bound(c, Side(d, place), job.net) == None
    requires Bound(c, Side(d, place), staging).Some?
    requires StagedOk(c, Bound(c, Side(d, place), staging).value, job.plan, place, job.marker)
    requires SidePublished(c, b, Side(d, place), staging, job.net, live)
    ensures SlotOk(s1, b, job, Side(d, place), place)
  {
    hide SameTree, StagedOk, Touch, ValidFs, IsAside;
    var dir := Side(d, place);
    var was := Bound(s1, dir, job.net);
    SmallTouch(c, b, d, staging);
    StagingDiffers(job.net, staging);
    StagedIsDir(c, job, Bound(c, dir, staging).value, place);
    forall n: Name | Bound(s1, dir, n).Some? && Bystander(s1, job, n, Bound(s1, dir, n).value)
      ensures Bound(b, dir, n) == Bound(c, dir, n)
    {
      assert OtherOk(s1, c, dir, n, Bound(s1, dir, n).value);
    }
    hide OthersOk, OtherOk;
    OthersStep(s1, c, b, job, d, staging, place);
    StagedThrough(c, b, job, d, staging, place);
    if was.Some? {
      var n :| KeptName(job.net, n) && Bound(c, dir, n) == was;
      EntryApart(c, job, d, staging, place, n);
      EntryInNodes(c, dir, n);
      TreeFrame(c, b, Inner(c, d, staging), was.value);
      SameTreeTrans(s1, c, b, was.value);
      assert Bound(b, dir, n) == was;
    }
  }

  lemma PublishedPhase(s1: Fs, c: Fs, b: Fs, job: Job, d: NetDirs, staging: Name, data: bool, cache: bool)
    requires WellLaid(job.l) && ValidNetwork(job.net) && job.net + ".migrating-" <= staging && staging == job.staging
    requires Phase(s1, c, job, d) && ReadyToPublish(c, job, d, staging)
    requires BothPublished(c, b, d, staging, job.net, data, cache)
    ensures Phase(s1, b, job, d)
  {
    hide Found, SameTree, StagedOk, Touch, ValidFs, SlotOk, SidePublished;
    SmallTouch(c, b, d, staging);
    OwnerThrough(s1, c, b, job.legacy.config);
    InnerStep(s1, c, b, job, d, staging);
    PublishSlot(s1, c, b, job, d, staging, Data, data);
    PublishSlot(s1, c, b, job, d, staging, Cache, cache);
  }

  lemma PublishPhase(s1: Fs, c: Fs, b: Fs, job: Job, d: NetDirs, staging: Name)
    requires WellLaid(job.l) && ValidNetwork(job.net) && job.net + ".migrating-" <= staging && staging == job.staging
    requires Phase(s1, c, job, d) && ReadyToPublish(c, job, d, staging) && Publishing(c, b, d, staging, job.net)
    ensures Phase(s1, b, job, d)
  {
    hide Phase, ReadyToPublish, BothPublished;
    if BothPublished(c, b, d, staging, job.net, false, false) {
      PublishedPhase(s1, c, b, job, d, staging, false, false);
    } else if BothPublished(c, b, d, staging, job.net, true, false) {
      PublishedPhase(s1, c, b, job, d, staging, true, false);
    } else {
      PublishedPhase(s1, c, b, job, d, staging, true, true);
    }
  }

  /** The aside names lead to what was under the network name. */
  ghost predicate AsideHolds(s1: Fs, c: Fs, job: Job, dir: Ino, aside: Option<Name>) {
    aside.Some? ==>
      && IsAside(job.net, REPLACED, aside.value) && aside.value != job.net && Bound(s1, dir, aside.value) == None
      && Bound(s1, dir, job.net).Some? && Bound(c, dir, aside.value) == Bound(s1, dir, job.net)
  }

  lemma BackSlot(s1: Fs, c: Fs, b: Fs, job: Job, d: NetDirs, staging: Name, place: Place, aside: Option<Name>,
                 back: bool)
    requires WellLaid(job.l) && ValidNetwork(job.net) && job.net + ".migrating-" <= staging && staging == job.staging
    requires Placed(c, job.home, job.l, d) && SlotOk(s1, c, job, Side(d, place), place)
    requires Touch(c, b, {d.data, d.cache}) && ValidFs(b)
    requires AsideHolds(s1, c, job, Side(d, place), aside) && SideBack(c, b, Side(d, place), job.net, aside, back)
    ensures SlotOk(s1, b, job, Side(d, place), place)
  {
    hide SameTree, StagedOk, Touch, ValidFs, IsAside, OthersOk;
    var dir := Side(d, place);
    var was := Bound(s1, dir, job.net);
    SmallTouch(c, b, d, staging);
    StagingDiffers(job.net, staging);
    OthersStep(s1, c, b, job, d, staging, place);
    if back {
      assert KeptName(job.net, aside.value) && KeptName(job.net, job.net);
      EntryApart(c, job, d, staging, place, aside.value);
      EntryInNodes(c, dir, aside.value);
      TreeFrame(c, b, Inner(c, d, staging), was.value);
      SameTreeTrans(s1, c, b, was.value);
      assert Bound(b, dir, job.net) == was;
    } else {
      SlotSameNames(s1, c, b, job, d, staging, place);
    }
  }

  lemma BackPhase(s1: Fs, c: Fs, b: Fs, job: Job, d: NetDirs, staging: Name, data: Option<Name>, cache: Option<Name>)
    requires WellLaid(job.l) && ValidNetwork(job.net) && job.net + ".migrating-" <= staging && staging == job.staging
    requires Phase(s1, c, job, d) && AsideHolds(s1, c, job, d.data, data) && AsideHolds(s1, c, job, d.cache, cache)
    requires SomeBack(c, b, d, job.net, data, cache)
    ensures Phase(s1, b, job, d)
  {
    hide Found, SameTree, StagedOk, Touch, ValidFs, SlotOk, SideBack, AsideHolds;
    var x, y :| BothBack(c, b, d, job.net, data, cache, x, y);
    SmallTouch(c, b, d, staging);
    OwnerThrough(s1, c, b, job.legacy.config);
    InnerStep(s1, c, b, job, d, staging);
    BackSlot(s1, c, b, job, d, staging, Data, data, x);
    BackSlot(s1, c, b, job, d, staging, Cache, cache, y);
  }

  // ------------------------------------------------------------------ once published

  lemma OneLink(fs: Fs, f: Ino, d: Ino, n: Name)
    requires Bound(fs, d, n) == Some(f)
    ensures |Links(fs, f)| == 1 <==> Links(fs, f) == {(d, n)}
  {
    LinksMember(fs, f, d, n);
    assert Links(fs, f) == {(d, n)} + (Links(fs, f) - {(d, n)});
  }

  /** The comparison finds no difference exactly when the very bytes are in a single-named file at the target path. */
  lemma VerdictIsFile(fs: Fs, home: Ino, l: UserLayout, net: Name, p: Planned)
    requires ValidFs(fs) && IsDir(fs, home) && p.rel != []
    ensures Verdict(fs, home, l, net, p) == None <==> FileAt(fs, home, TargetPath(l, net, p), p.sha256.of)
  {
    hide ValidFs;
    var path := TargetPath(l, net, p);
    WalkFinds(fs, home, ParentOf(path));
    if Lookup(fs, home, ParentOf(path)).Some? {
      var d := Lookup(fs, home, ParentOf(path)).value;
      if Bound(fs, d, NameOf(path)).Some? { OneLink(fs, Bound(fs, d, NameOf(path)).value, d, NameOf(path)); }
    }
  }

  /** Missing means that no such file is there, differing that one with other bytes is. */
  lemma VerdictExact(fs: Fs, home: Ino, l: UserLayout, net: Name, p: Planned)
    requires ValidFs(fs) && IsDir(fs, home) && p.rel != []
    ensures Verdict(fs, home, l, net, p) == Some(Missing) <==>
      forall bytes :: !FileAt(fs, home, TargetPath(l, net, p), bytes)
    ensures Verdict(fs, home, l, net, p) == Some(Differs) <==>
      exists bytes :: bytes != p.sha256.of && FileAt(fs, home, TargetPath(l, net, p), bytes)
  {
    hide ValidFs, FileAt;
    forall bytes: Bytes
      ensures FileAt(fs, home, TargetPath(l, net, p), bytes) <==>
        Verdict(fs, home, l, net, p.(sha256 := Sha256(bytes))) == None
    {
      VerdictIsFile(fs, home, l, net, p.(sha256 := Sha256(bytes)));
    }
    match TargetFile(fs, home, TargetPath(l, net, p))
    case None =>
    case Some(i) =>
      TargetIsFile(fs, home, TargetPath(l, net, p));
      assert Verdict(fs, home, l, net, p.(sha256 := Sha256(fs.nodes[i].data))) == None;
  }

  lemma TargetIsFile(fs: Fs, home: Ino, path: Path)
    requires path != [] && TargetFile(fs, home, path).Some?
    ensures TargetFile(fs, home, path).value in fs.nodes && fs.nodes[TargetFile(fs, home, path).value].File?
  {
  }

  /** The list names exactly the planned files that are not at their targets, each with what is wrong with it. */
  lemma {:induction false} MismatchesSay(fs: Fs, home: Ino, l: UserLayout, net: Name, plan: seq<Planned>)
    ensures forall m :: m in MismatchesOf(fs, home, l, net, plan) <==>
      exists k ::
        && 0 <= k < |plan| && plan[k].from == m.legacy && TargetPath(l, net, plan[k]) == m.target
        && Verdict(fs, home, l, net, plan[k]) == Some(m.difference)
    decreases |plan|
  {
    hide Verdict, TargetPath;
    if plan != [] {
      var n := |plan| - 1;
      MismatchesSay(fs, home, l, net, plan[..n]);
      assert forall k :: 0 <= k < n ==> plan[..n][k] == plan[k];
      forall m
        ensures m in MismatchesOf(fs, home, l, net, plan) <==>
          exists k ::
            && 0 <= k < |plan| && plan[k].from == m.legacy && TargetPath(l, net, plan[k]) == m.target
            && Verdict(fs, home, l, net, plan[k]) == Some(m.difference)
      {
        if m in MismatchesOf(fs, home, l, net, plan[..n]) {
          var k :|
            && 0 <= k < n && plan[..n][k].from == m.legacy && TargetPath(l, net, plan[..n][k]) == m.target
            && Verdict(fs, home, l, net, plan[..n][k]) == Some(m.difference);
          assert plan[k].from == m.legacy;
        }
      }
    }
  }

  /** Whatever of the plan belongs to a side with a complete directory is at its target. */
  lemma SideAtTarget(s: Fs, job: Job, d: NetDirs, place: Place, k: nat)
    requires Placed(s, job.home, job.l, d) && k < |job.plan| && job.plan[k].place == place && job.plan[k].rel != []
    requires Bound(s, Side(d, place), job.net).Some?
    requires StagedOk(s, Bound(s, Side(d, place), job.net).value, job.plan, place, job.marker)
    ensures Verdict(s, job.home, job.l, job.net, job.plan[k]) == None
  {
    hide ValidFs, Verdict;
    var p, dir := job.plan[k], Bound(s, Side(d, place), job.net).value;
    var path := TargetPath(job.l, job.net, p);
    TargetByName(s, job, place, Side(d, place), job.net);
    LookupAppend(s, job.home, NetworkDir(job.l, place, job.net), ParentOf(p.rel));
    assert ParentOf(path) == NetworkDir(job.l, place, job.net) + ParentOf(p.rel) && NameOf(path) == NameOf(p.rel);
    assert FileAt(s, dir, p.rel, p.sha256.of);
    VerdictIsFile(s, job.home, job.l, job.net, p);
  }

  lemma BothAtTarget(s: Fs, job: Job, d: NetDirs)
    requires Placed(s, job.home, job.l, d) && (forall k :: 0 <= k < |job.plan| ==> job.plan[k].rel != [])
    requires forall place: Place ::
      && Bound(s, Side(d, place), job.net).Some?
      && StagedOk(s, Bound(s, Side(d, place), job.net).value, job.plan, place, job.marker)
    ensures AllAtTarget(s, job.home, job.l, job.net, job.plan)
  {
    hide StagedOk, Placed, Verdict;
    forall k | 0 <= k < |job.plan| ensures Verdict(s, job.home, job.l, job.net, job.plan[k]) == None {
      SideAtTarget(s, job, d, job.plan[k].place, k);
    }
  }

  /** A target file that is there stays there through steps outside the user's home. */
  lemma VerdictFrame(a: Fs, b: Fs, e: set<Ino>, home: Ino, l: UserLayout, net: Name, p: Planned)
    requires ValidFs(a) && ValidFs(b) && Touch(a, b, e) && IsDir(a, home) && IsDir(b, home)
    requires (forall i: Ino :: i in e ==> !Reach(a, home, i)) && p.rel != []
    requires Verdict(a, home, l, net, p) == None
    ensures Verdict(b, home, l, net, p) == None
  {
    hide ValidFs, Touch, Reach, Verdict, FileAt;
    VerdictIsFile(a, home, l, net, p);
    FileAtFrame(a, b, e, home, TargetPath(l, net, p), p.sha256.of);
    VerdictIsFile(b, home, l, net, p);
  }

  lemma AtTargetFrame(a: Fs, b: Fs, e: set<Ino>, job: Job)
    requires ValidFs(a) && ValidFs(b) && Touch(a, b, e) && IsDir(a, job.home) && IsDir(b, job.home)
    requires forall i: Ino :: i in e ==> !Reach(a, job.home, i)
    requires forall k :: 0 <= k < |job.plan| ==> job.plan[k].rel != []
    requires AllAtTarget(a, job.home, job.l, job.net, job.plan)
    ensures AllAtTarget(b, job.home, job.l, job.net, job.plan)
  {
    hide Touch, ValidFs, Reach, Verdict;
    forall k | 0 <= k < |job.plan| ensures Verdict(b, job.home, job.l, job.net, job.plan[k]) == None {
      VerdictFrame(a, b, e, job.home, job.l, job.net, job.plan[k]);
    }
  }

  /** What is known of a state from which the legacy identity is moved aside. */
  ghost predicate Settled(s0: Fs, c: Fs, job: Job) {
    && ValidFs(c) && IsDir(c, job.home) && Apart(c, job.home, job.legacy.home) && Safe(s0, c, job)
    && SameTree(s0, c, job.legacy.home)
    && AllAtTarget(c, job.home, job.l, job.net, job.plan)
  }

  lemma SideKept(s0: Fs, c: Fs, b: Fs, job: Job, place: Place)
    requires SideSafe(s0, c, job, place) && ValidFs(c) && IsDir(c, job.home)
    requires Touch(c, b, {job.legacy.home}) && !Reach(c, job.home, job.legacy.home)
    ensures SideSafe(s0, b, job, place)
  {
    hide ValidFs, Touch, SameTree, StagedOk, Bystander, IsAside;
    var e := {job.legacy.home};
    LookupFrame(c, b, e, job.home, NetworkDir(job.l, place, job.net));
    var now := TargetEntry(c, job, place);
    if now.Some? && StagedOk(c, now.value, job.plan, place, job.marker) {
      Below(c, job, NetworkDir(job.l, place, job.net), now.value);
      StagedFrame(c, b, e, now.value, job.plan, place, job.marker);
    }
    var was := TargetEntry(s0, job, place);
    if was.Some? {
      var n :| KeptName(job.net, n) && Lookup(c, job.home, Nets(job.l, place) + [n]) == was;
      LookupFrame(c, b, e, job.home, Nets(job.l, place) + [n]);
      Below(c, job, Nets(job.l, place) + [n], was.value);
      LookupInNodes(c, job.home, Nets(job.l, place) + [n]);
      TreeFrame(c, b, e, was.value);
      SameTreeTrans(s0, c, b, was.value);
    }
    forall n: Name | EntryNamed(s0, job, place, n).Some? && Bystander(s0, job, n, EntryNamed(s0, job, place, n).value)
      ensures EntryNamed(b, job, place, n) == EntryNamed(s0, job, place, n)
      ensures SameTree(s0, b, EntryNamed(s0, job, place, n).value)
    {
      var p, x := NetworkDir(job.l, place, n), EntryNamed(s0, job, place, n).value;
      LookupFrame(c, b, e, job.home, p);
      Below(c, job, p, x);
      LookupInNodes(c, job.home, p);
      TreeFrame(c, b, e, x);
      SameTreeTrans(s0, c, b, x);
    }
  }

  lemma Below(c: Fs, job: Job, p: Path, x: Ino)
    requires !Reach(c, job.home, job.legacy.home) && Lookup(c, job.home, p) == Some(x)
    ensures !Reach(c, x, job.legacy.home)
  {
    if Reach(c, x, job.legacy.home) { ReachTrans(c, job.home, p, x, job.legacy.home); }
  }

  /** The trees the home's own entries name do not contain the home. */
  lemma HomeEntryApart(c: Fs, home: Ino, n: Name)
    requires ValidFs(c) && Bound(c, home, n).Some?
    ensures !Reach(c, Bound(c, home, n).value, home)
  {
    NeverIntoSelf(c, home, n);
  }

  /** Moving the legacy identity aside keeps every promise, once everything is at its target. */
  lemma LegacySafe(s0: Fs, c: Fs, b: Fs, job: Job)
    requires GoodJob(s0, job) && Settled(s0, c, job) && Describes(c, job.legacy) && LegacyMoving(c, b, job.legacy)
    ensures Safe(s0, b, job)
  {
    hide LegacyMoved, Touch, FindLegacy, SameTree, WellLaid, ConfigKept, AllAtTarget, GoodJob, Describes, Safe,
      Rooted, SideSafe, Bound, IsDir, ValidFs;
    var config, redb :|
      && LegacyMoved(c, b, job.legacy.home, config, redb) && (redb.Some? ==> config.Some? && job.legacy.hasRedb)
      && (config.None? ==> b == c);
    SettledParts(s0, c, job);
    if config.None? { return; }
    JobFacts(s0, job);
    MovedFrame(s0, c, b, job, config, redb);
    SideKept(s0, c, b, job, Data);
    SideKept(s0, c, b, job, Cache);
    AtTargetFrame(c, b, {job.legacy.home}, job);
    ConfigUnbound(c, b, job.legacy.home, config, redb);
    ConfigMovedKept(s0, c, b, job, config, redb);
    RedbMovedKept(s0, c, b, job, config, redb);
    RootedKept(s0, c, b, job);
    SafeBy(s0, b, job);
  }

  lemma SettledParts(s0: Fs, c: Fs, job: Job)
    requires Settled(s0, c, job)
    ensures Safe(s0, c, job) && Rooted(s0, c, job) && SideSafe(s0, c, job, Data) && SideSafe(s0, c, job, Cache)
  {
    hide ValidFs, SideSafe, Rooted, LegacyLast, SameTree, AllAtTarget, Apart;
  }

  lemma MovedFrame(s0: Fs, c: Fs, b: Fs, job: Job, config: Option<Name>, redb: Option<Name>)
    requires Settled(s0, c, job) && LegacyMoved(c, b, job.legacy.home, config, redb)
    ensures ValidFs(c) && ValidFs(b) && Touch(c, b, {job.legacy.home}) && IsDir(c, job.home) && IsDir(b, job.home)
    ensures !Reach(c, job.home, job.legacy.home)
    ensures AllAtTarget(c, job.home, job.l, job.net, job.plan)
  {
    hide ValidFs, Touch, SameTree, Safe, AllAtTarget, SecuredMeta, AsideNames, HomeName, Reach;
    TouchKeepsDir(c, b, {job.legacy.home}, job.home);
  }

  lemma ConfigUnbound(c: Fs, b: Fs, home: Ino, config: Option<Name>, redb: Option<Name>)
    requires LegacyMoved(c, b, home, config, redb) && config.Some?
    ensures Bound(b, home, LEGACY_CONFIG_DIR) == None
  {
    hide ValidFs, Touch, SecuredMeta, ConfigAside, RedbAside;
    AsideShapes(config, redb);
  }

  /** Steps in the legacy home leave both homes where they are. */
  lemma RootedKept(s0: Fs, c: Fs, b: Fs, job: Job)
    requires Rooted(s0, c, job) && ValidFs(c) && Touch(c, b, {job.legacy.home})
    ensures Rooted(s0, b, job)
  {
    var h, e := job.legacy.home, {job.legacy.home};
    ReachSelf(c, h);
    ApartKept(c, b, e, h, job.home);
    TouchKeepsDir(c, b, e, job.home);
    TouchKeepsDir(c, b, e, h);
    WalkFrame(c, b, e, job.home, Nets(job.l, Data));
    WalkFrame(c, b, e, job.home, Nets(job.l, Cache));
  }

  lemma {:induction false} WalkFrame(c: Fs, b: Fs, e: set<Ino>, root: Ino, rel: Path)
    requires ValidFs(c) && Touch(c, b, e) && IsDir(c, root) && forall i: Ino :: i in e ==> !Reach(c, root, i)
    ensures WalkDir(c, root, rel).Ok? ==> WalkDir(b, root, rel) == WalkDir(c, root, rel)
    decreases |rel|
  {
    if rel != [] && OpenDir(c, root, rel[0]).Ok? {
      var child := OpenDir(c, root, rel[0]).value;
      forall i: Ino | i in e
        ensures !Reach(c, child, i)
      {
        if Reach(c, child, i) { OneName(c, root, rel[0]); ReachTrans(c, root, [rel[0]], child, i); }
      }
      WalkFrame(c, b, e, child, rel[1..]);
    }
    ReachSelf(c, root);
    assert SameBody(c.nodes[root], b.nodes[root]);
  }

  lemma TouchKeepsDir(a: Fs, b: Fs, e: set<Ino>, i: Ino)
    requires Touch(a, b, e) && IsDir(a, i)
    ensures IsDir(b, i)
  {
  }

  lemma SafeBy(s0: Fs, s: Fs, job: Job)
    requires Rooted(s0, s, job) && SideSafe(s0, s, job, Data) && SideSafe(s0, s, job, Cache)
    requires ConfigKept(s0, s, job.legacy) && RedbKept(s0, s, job.legacy)
    requires Bound(s, job.legacy.home, LEGACY_CONFIG_DIR) == None && AllAtTarget(s, job.home, job.l, job.net, job.plan)
    ensures Safe(s0, s, job)
  {
    hide Rooted, SideSafe, ConfigKept, RedbKept, AllAtTarget, Found;
  }

  lemma ConfigMovedKept(s0: Fs, c: Fs, b: Fs, job: Job, config: Option<Name>, redb: Option<Name>)
    requires Settled(s0, c, job) && Describes(s0, job.legacy) && Describes(c, job.legacy)
    requires LegacyMoved(c, b, job.legacy.home, config, redb)
    ensures ConfigKept(s0, b, job.legacy)
  {
    hide ValidFs, Touch, SameTree, Safe, AllAtTarget;
    var home := job.legacy.home;
    SameTreeBelow(s0, c, home, LEGACY_CONFIG_DIR, job.legacy.config);
    HomeEntryApart(c, home, LEGACY_CONFIG_DIR);
    TreeFrame(c, b, {home}, job.legacy.config);
    SameTreeTrans(s0, c, b, job.legacy.config);
    AsideShapes(config, redb);
    var n := if config.Some? then config.value else LEGACY_CONFIG_DIR;
    assert Bound(b, home, n) == Some(job.legacy.config);
  }

  lemma RedbMovedKept(s0: Fs, c: Fs, b: Fs, job: Job, config: Option<Name>, redb: Option<Name>)
    requires Settled(s0, c, job) && LegacyMoved(c, b, job.legacy.home, config, redb)
    ensures RedbKept(s0, b, job.legacy)
  {
    hide Safe, ValidFs, Closed, NoNewLinks, BoundIn, Verdict, Lookup, SecuredMeta, SameBody, Bound, SameKind, Apart,
      RedbAside, IsDir;
    var home := job.legacy.home;
    if Bound(s0, home, PIX_DB_FILE).Some? {
      var r := Bound(s0, home, PIX_DB_FILE).value;
      SameTreeBelow(s0, c, home, PIX_DB_FILE, r);
      HomeEntryApart(c, home, PIX_DB_FILE);
      EntryInNodes(c, home, PIX_DB_FILE);
      TreeFrame(c, b, {home}, r);
      SameTreeTrans(s0, c, b, r);
      AsideShapes(config, redb);
      var n := if redb.Some? then redb.value else PIX_DB_FILE;
      assert Bound(b, home, n) == Some(r);
    }
  }

  // ------------------------------------------------------------------ between the two publishing renames

  /** The data side is live and complete, the cache side is not there. */
  ghost predicate HalfWay(s: Fs, job: Job) {
    && TargetEntry(s, job, Data).Some? && StagedOk(s, TargetEntry(s, job, Data).value, job.plan, Data, job.marker)
    && TargetEntry(s, job, Cache) == None
  }

  /** That is what lies between the two renames of `publish`. */
  lemma BetweenRenames(s1: Fs, c: Fs, s: Fs, job: Job, d: NetDirs, staging: Name)
    requires WellLaid(job.l) && ValidNetwork(job.net) && job.net + ".migrating-" <= staging && staging == job.staging
    requires Phase(s1, c, job, d) && ReadyToPublish(c, job, d, staging)
    requires BothPublished(c, s, d, staging, job.net, true, false)
    ensures HalfWay(s, job) && Found(s, job)
  {
    hide StagedOk, Touch, ValidFs, Found, SlotOk, SameTree, Apart;
    PublishedPhase(s1, c, s, job, d, staging, true, false);
    StagedThrough(c, s, job, d, staging, Data);
    TargetByName(s, job, Data, d.data, job.net);
    TargetByName(s, job, Cache, d.cache, job.net);
  }
}
