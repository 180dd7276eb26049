/** What a migration amounts to, file by file: which legacy file ends up where, with its bytes, and that nothing else
    does. */
module Arrival {
  import opened Kernel
  import opened Trees
  import opened FileSystems
  import opened Layout
  import opened LegacyHome
  import opened Networks
  import opened Identity
  import opened Staging
  import opened Safety
  import opened Install

  /** The bytes of `name` in directory `d`, if it was there in `s0`, are those of a regular file at `target`. */
  ghost predicate Arrives(s0: Fs, d: Ino, name: Name, s: Fs, home: Ino, target: Path) {
    Bound(s0, d, name).Some? ==>
      var i := Bound(s0, d, name).value;
      i in s0.nodes && s0.nodes[i].File? && FileAt(s, home, target, s0.nodes[i].data)
  }

  /** Every legacy file is at its place in the user's home: the identity, its password and the PIX database on the data
      side, the safe file on the cache side. */
  ghost predicate Arrived(s0: Fs, s: Fs, legacyHome: Ino, home: Ino, l: UserLayout, net: Name) {
    var config := Bound(s0, legacyHome, ".config");
    && config.Some? && Bound(s0, config.value, "gnosisvpn-hopr.id").Some?
    && Arrives(s0, config.value, "gnosisvpn-hopr.id", s, home, l.data + ["networks", net, "hopr.id"])
    && Arrives(s0, config.value, "gnosisvpn-hopr.pass", s, home, l.data + ["networks", net, "hopr.pass"])
    && Arrives(s0, config.value, "gnosisvpn-hopr.safe", s, home, l.cache + ["networks", net, "hopr.safe"])
    && Arrives(s0, legacyHome, "curvy-pix.redb", s, home, l.data + ["networks", net, "pix", "curvy-pix.redb"])
  }

  /** What may be below the network's directory on the data side. */
  predicate OnDataSide(s0: Fs, legacyHome: Ino, config: Ino, p: Path) {
    || p == ["hopr.id"] || p == ["migrated-from"]
    || (p == ["hopr.pass"] && Bound(s0, config, "gnosisvpn-hopr.pass").Some?)
    || ((p == ["pix"] || p == ["pix", "curvy-pix.redb"]) && Bound(s0, legacyHome, "curvy-pix.redb").Some?)
  }

  predicate OnCacheSide(s0: Fs, config: Ino, p: Path) {
    p == ["hopr.safe"] && Bound(s0, config, "gnosisvpn-hopr.safe").Some?
  }

  /** The account's, and nobody else's to look at: 0o700 for directories, 0o600 for files. */
  ghost predicate Private(s: Fs, i: Ino, uid: nat) {
    i in s.nodes && s.nodes[i].meta == Meta(uid, if s.nodes[i].Dir? then 448 else 384)
  }

  /** The network's two directories, new, private throughout, and without anything but what arrived and the marker. */
  ghost predicate NothingElse(s0: Fs, s: Fs, legacyHome: Ino, home: Ino, l: UserLayout, net: Name, uid: nat) {
    var config := Bound(s0, legacyHome, ".config");
    var data, cache := Lookup(s, home, l.data + ["networks", net]), Lookup(s, home, l.cache + ["networks", net]);
    && config.Some? && data.Some? && cache.Some? && IsDir(s, data.value) && IsDir(s, cache.value)
    && (forall p: Path :: Lookup(s, data.value, p).Some? ==>
         (p == [] || OnDataSide(s0, legacyHome, config.value, p)) && Private(s, Lookup(s, data.value, p).value, uid))
    && (forall p: Path :: Lookup(s, cache.value, p).Some? ==>
         (p == [] || OnCacheSide(s0, config.value, p)) && Private(s, Lookup(s, cache.value, p).value, uid))
  }

  // ------------------------------------------------------------------ which file is planned for which place

  const ID := Source(true, "gnosisvpn-hopr.id", Data, ["hopr.id"])
  const PASS := Source(true, "gnosisvpn-hopr.pass", Data, ["hopr.pass"])
  const SAFE := Source(true, "gnosisvpn-hopr.safe", Cache, ["hopr.safe"])
  const REDB := Source(false, "curvy-pix.redb", Data, ["pix", "curvy-pix.redb"])

  /** The four sources, if they are there, and no others. */
  lemma FourSources(pass: bool, safe: bool, redb: bool)
    ensures ID in AllSources(pass, safe, redb)
    ensures (pass ==> PASS in AllSources(pass, safe, redb)) && (safe ==> SAFE in AllSources(pass, safe, redb))
    ensures redb ==> REDB in AllSources(pass, safe, redb)
    ensures forall s :: s in AllSources(pass, safe, redb) ==>
      s == ID || (pass && s == PASS) || (safe && s == SAFE) || (redb && s == REDB)
  {
  }

  /** A planned file is one of the four, and was there. */
  ghost predicate OneOfFour(s0: Fs, legacyHome: Ino, config: Ino, p: Planned) {
    || (p.place == Data && p.rel == ["hopr.id"])
    || (p.place == Data && p.rel == ["hopr.pass"] && Bound(s0, config, "gnosisvpn-hopr.pass").Some?)
    || (p.place == Cache && p.rel == ["hopr.safe"] && Bound(s0, config, "gnosisvpn-hopr.safe").Some?)
    || (p.place == Data && p.rel == ["pix", "curvy-pix.redb"] && Bound(s0, legacyHome, "curvy-pix.redb").Some?)
  }

  /** There is a plan for the file at `name`: its bytes go to `rel` on that side. */
  ghost predicate IsPlanned(s0: Fs, job: Job, d: Ino, name: Name, place: Place, rel: Path) {
    Bound(s0, d, name).Some? ==>
      exists k ::
        && 0 <= k < |job.plan| && job.plan[k].place == place && job.plan[k].rel == rel
        && Bound(s0, d, name).value in s0.nodes && s0.nodes[Bound(s0, d, name).value].File?
        && job.plan[k].sha256.of == s0.nodes[Bound(s0, d, name).value].data
  }

  lemma PlannedBy(s0: Fs, job: Job, s: Source)
    requires GoodJob(s0, job) && s in job.legacy.sources
    ensures IsPlanned(s0, job, SourceDir(job.legacy, s), s.name, s.place, s.rel)
  {
    hide ValidFs, Apart, WellLaid, FindLegacy, SourcesOf;
    var k :| 0 <= k < |job.legacy.sources| && job.legacy.sources[k] == s;
    assert job.plan[k] == PlannedOf(s0, job.legacy, s);
    assert OpenRegular(s0, SourceDir(job.legacy, s), s.name).Ok?;
  }

  lemma FourPlanned(s0: Fs, job: Job)
    requires GoodJob(s0, job)
    ensures var config, home := job.legacy.config, job.legacy.home;
      && IsPlanned(s0, job, config, "gnosisvpn-hopr.id", Data, ["hopr.id"])
      && IsPlanned(s0, job, config, "gnosisvpn-hopr.pass", Data, ["hopr.pass"])
      && IsPlanned(s0, job, config, "gnosisvpn-hopr.safe", Cache, ["hopr.safe"])
      && IsPlanned(s0, job, home, "curvy-pix.redb", Data, ["pix", "curvy-pix.redb"])
  {
    var legacy := job.legacy;
    var pass, safe := Bound(s0, legacy.config, "gnosisvpn-hopr.pass").Some?, HasSafe(s0, job);
    var redb := Bound(s0, legacy.home, "curvy-pix.redb").Some?;
    JobSources(s0, job);
    FourSources(pass, safe, redb);
    hide GoodJob, Describes, AllSources, IsPlanned, Bound;
    PlannedBy(s0, job, ID);
    if pass { PlannedBy(s0, job, PASS); } else { Unplanned(s0, job, legacy.config, PASS.name); }
    if safe { PlannedBy(s0, job, SAFE); } else { Unplanned(s0, job, legacy.config, SAFE.name); }
    if redb { PlannedBy(s0, job, REDB); } else { Unplanned(s0, job, legacy.home, REDB.name); }
  }

  lemma NoFifth(s0: Fs, job: Job, k: nat)
    requires GoodJob(s0, job) && k < |job.plan|
    ensures OneOfFour(s0, job.legacy.home, job.legacy.config, job.plan[k])
  {
    var legacy := job.legacy;
    JobSources(s0, job);
    FourSources(Bound(s0, legacy.config, "gnosisvpn-hopr.pass").Some?, HasSafe(s0, job),
                Bound(s0, legacy.home, "curvy-pix.redb").Some?);
    hide GoodJob, Describes, AllSources, Bound;
    assert legacy.sources[k] in legacy.sources;
  }

  lemma LegacyPlace(s0: Fs, job: Job)
    requires GoodJob(s0, job)
    ensures Bound(s0, job.legacy.home, ".config") == Some(job.legacy.config)
    ensures Bound(s0, job.legacy.config, "gnosisvpn-hopr.id").Some?
  {
    hide ValidFs, Apart, WellLaid, Readable, PlanOf;
  }

  lemma Unplanned(s0: Fs, job: Job, d: Ino, name: Name)
    requires Bound(s0, d, name) == None
    ensures forall place, rel :: IsPlanned(s0, job, d, name, place, rel)
  {
  }

  // ------------------------------------------------------------------ what that means for a run

  lemma ArrivesBy(s0: Fs, s: Fs, job: Job, d: Ino, name: Name, place: Place, rel: Path)
    requires ValidFs(s) && IsDir(s, job.home) && AllAtTarget(s, job.home, job.l, job.net, job.plan) && rel != []
    requires IsPlanned(s0, job, d, name, place, rel)
    ensures Arrives(s0, d, name, s, job.home, NetworkDir(job.l, place, job.net) + rel)
  {
    hide ValidFs, Verdict, FileAt, NetworkDir;
    if Bound(s0, d, name).Some? {
      var k :|
        && 0 <= k < |job.plan| && job.plan[k].place == place && job.plan[k].rel == rel
        && job.plan[k].sha256.of == s0.nodes[Bound(s0, d, name).value].data;
      VerdictIsFile(s, job.home, job.l, job.net, job.plan[k]);
    }
  }

  /** Everything planned at its target means every legacy file at its place. */
  lemma ArrivedBy(s0: Fs, s: Fs, job: Job)
    requires GoodJob(s0, job) && ValidFs(s) && IsDir(s, job.home)
    requires AllAtTarget(s, job.home, job.l, job.net, job.plan)
    ensures Arrived(s0, s, job.legacy.home, job.home, job.l, job.net)
  {
    FourPlanned(s0, job);
    LegacyPlace(s0, job);
    Targets(job.l, job.net);
    hide GoodJob, ValidFs, AllAtTarget, IsPlanned, Arrives, NetworkDir, Bound;
    var l, net := job.l, job.net;
    ArrivesBy(s0, s, job, job.legacy.config, "gnosisvpn-hopr.id", Data, ["hopr.id"]);
    ArrivesBy(s0, s, job, job.legacy.config, "gnosisvpn-hopr.pass", Data, ["hopr.pass"]);
    ArrivesBy(s0, s, job, job.legacy.config, "gnosisvpn-hopr.safe", Cache, ["hopr.safe"]);
    ArrivesBy(s0, s, job, job.legacy.home, "curvy-pix.redb", Data, ["pix", "curvy-pix.redb"]);
  }

  lemma Targets(l: UserLayout, net: Name)
    ensures NetworkDir(l, Data, net) == l.data + ["networks", net]
    ensures NetworkDir(l, Cache, net) == l.cache + ["networks", net]
    ensures NetworkDir(l, Data, net) + ["hopr.id"] == l.data + ["networks", net, "hopr.id"]
    ensures NetworkDir(l, Data, net) + ["hopr.pass"] == l.data + ["networks", net, "hopr.pass"]
    ensures NetworkDir(l, Cache, net) + ["hopr.safe"] == l.cache + ["networks", net, "hopr.safe"]
    ensures NetworkDir(l, Data, net) + ["pix", "curvy-pix.redb"] == l.data + ["networks", net, "pix", "curvy-pix.redb"]
  {
  }

  /** The directories of a network in the two layouts. */
  lemma PlacesSpelled(net: Name)
    ensures NetworkDir(LINUX, Data, net) == [".local", "share", "gnosisvpn", "networks", net]
    ensures NetworkDir(LINUX, Cache, net) == [".cache", "gnosisvpn", "networks", net]
    ensures NetworkDir(MAC, Data, net) == ["Library", "Application Support", "GnosisVPN", "networks", net]
    ensures NetworkDir(MAC, Cache, net) == ["Library", "Caches", "GnosisVPN", "networks", net]
  {
  }

  lemma LedTo(s0: Fs, legacyHome: Ino, config: Ino, planned: Planned, p: Path)
    requires OneOfFour(s0, legacyHome, config, planned) && p <= planned.rel && p != []
    ensures if planned.place == Data then OnDataSide(s0, legacyHome, config, p) else OnCacheSide(s0, config, p)
  {
    hide Bound;
    assert p == planned.rel[..|p|];
    if |p| < |planned.rel| { assert |p| == 1 && p[0] == "pix"; }
  }

  lemma SideContents(s0: Fs, s: Fs, job: Job, place: Place, x: Ino, p: Path)
    requires GoodJob(s0, job) && StagedOk(s, x, job.plan, place, job.marker) && p != [] && Lookup(s, x, p).Some?
    ensures place == Data ==> OnDataSide(s0, job.legacy.home, job.legacy.config, p)
    ensures place == Cache ==> OnCacheSide(s0, job.legacy.config, p)
  {
    hide GoodJob, FileAt, MarkerAt, Bound, Lookup, OneOfFour, OnCacheSide;
    if Leads(job.plan, place, p) {
      var k :| 0 <= k < |job.plan| && job.plan[k].place == place && p <= job.plan[k].rel;
      NoFifth(s0, job, k);
      LedTo(s0, job.legacy.home, job.legacy.config, job.plan[k], p);
    }
  }

  /** A file with its owner and mode, or a directory on the way to one. */
  lemma SidePrivate(s: Fs, job: Job, place: Place, x: Ino, p: Path)
    requires StagedOk(s, x, job.plan, place, job.marker) && OwnedBySide(s, x, job.plan, place, job.uid)
    requires Lookup(s, x, p).Some?
    ensures Private(s, Lookup(s, x, p).value, job.uid)
  {
    hide FileMeta, FileAt;
    if p != [] {
      if Leads(job.plan, place, p) {
        var k :| 0 <= k < |job.plan| && job.plan[k].place == place && p <= job.plan[k].rel;
        PartPrivate(s, x, job.plan[k].rel, job.plan[k].sha256.of, job.uid, p);
      } else {
        var t :| FileAt(s, x, [MIGRATED_FROM_FILE], t);
        PartPrivate(s, x, [MIGRATED_FROM_FILE], t, job.uid, p);
      }
    }
  }

  lemma PartPrivate(s: Fs, x: Ino, rel: Path, bytes: Bytes, uid: nat, p: Path)
    requires FileAt(s, x, rel, bytes) && FileMeta(s, x, rel, uid) && p <= rel && p != []
    ensures Lookup(s, x, p).Some? && Private(s, Lookup(s, x, p).value, uid)
  {
    hide Lookup, Links;
    if p == rel {
      assert rel == ParentOf(rel) + [NameOf(rel)];
      LookupLast(s, x, ParentOf(rel), NameOf(rel));
    } else {
      assert p == rel[..|p|];
      assert DirMeta(s, x, rel[..|p|], uid);
    }
  }

  /** A live identity is nothing but what arrived. */
  lemma NothingElseBy(s0: Fs, s: Fs, job: Job)
    requires GoodJob(s0, job) && Live(s0, s, job)
    ensures NothingElse(s0, s, job.legacy.home, job.home, job.l, job.net, job.uid)
  {
    LegacyPlace(s0, job);
    Targets(job.l, job.net);
    hide GoodJob, Lookup, OldAside, OnDataSide, OnCacheSide, Private, OwnedBySide, Bound;
    assert LiveSide(s, job, Data) && LiveSide(s, job, Cache);
    var data, cache := TargetEntry(s, job, Data).value, TargetEntry(s, job, Cache).value;
    forall p: Path | Lookup(s, data, p).Some?
      ensures p == [] || OnDataSide(s0, job.legacy.home, job.legacy.config, p)
      ensures Private(s, Lookup(s, data, p).value, job.uid)
    {
      if p != [] { SideContents(s0, s, job, Data, data, p); }
      SidePrivate(s, job, Data, data, p);
    }
    forall p: Path | Lookup(s, cache, p).Some?
      ensures p == [] || OnCacheSide(s0, job.legacy.config, p)
      ensures Private(s, Lookup(s, cache, p).value, job.uid)
    {
      if p != [] { SideContents(s0, s, job, Cache, cache, p); }
      SidePrivate(s, job, Cache, cache, p);
    }
  }

  // ------------------------------------------------------------------ what a run reports

  /** The files a report lists: from where below the legacy home to where below the user's home. */
  function ReportedFiles(s0: Fs, legacyHome: Ino, config: Ino, l: UserLayout, net: Name): seq<Move> {
    [Move([".config", "gnosisvpn-hopr.id"], l.data + ["networks", net, "hopr.id"])]
    + (if Bound(s0, config, "gnosisvpn-hopr.pass").Some?
       then [Move([".config", "gnosisvpn-hopr.pass"], l.data + ["networks", net, "hopr.pass"])] else [])
    + (if Bound(s0, config, "gnosisvpn-hopr.safe").Some?
       then [Move([".config", "gnosisvpn-hopr.safe"], l.cache + ["networks", net, "hopr.safe"])] else [])
    + (if Bound(s0, legacyHome, "curvy-pix.redb").Some?
       then [Move(["curvy-pix.redb"], l.data + ["networks", net, "pix", "curvy-pix.redb"])] else [])
  }

  function FilesOf(l: UserLayout, net: Name, plan: seq<Planned>): seq<Move> {
    seq(|plan|, k requires 0 <= k < |plan| => Move(plan[k].from, TargetPath(l, net, plan[k])))
  }

  function MoveOf(l: UserLayout, net: Name, s: Source): Move {
    Move(SourcePath(s), NetworkDir(l, s.place, net) + s.rel)
  }

  lemma MoveSpelled(l: UserLayout, net: Name)
    ensures MoveOf(l, net, ID) == Move([".config", "gnosisvpn-hopr.id"], l.data + ["networks", net, "hopr.id"])
    ensures MoveOf(l, net, PASS) == Move([".config", "gnosisvpn-hopr.pass"], l.data + ["networks", net, "hopr.pass"])
    ensures MoveOf(l, net, SAFE) == Move([".config", "gnosisvpn-hopr.safe"], l.cache + ["networks", net, "hopr.safe"])
    ensures MoveOf(l, net, REDB) == Move(["curvy-pix.redb"], l.data + ["networks", net, "pix", "curvy-pix.redb"])
  {
    Targets(l, net);
  }

  lemma SourceList(pass: bool, safe: bool, redb: bool)
    ensures AllSources(pass, safe, redb) ==
            [ID] + (if pass then [PASS] else []) + (if safe then [SAFE] else []) + (if redb then [REDB] else [])
  {
  }

  lemma MovesListed(moves: seq<Move>, l: UserLayout, net: Name, q: seq<Source>, a: Source, b: seq<Source>,
                    c: seq<Source>, d: seq<Source>)
    requires |b| <= 1 && |c| <= 1 && |d| <= 1 && q == [a] + b + c + d && |moves| == |q|
    requires forall k :: 0 <= k < |q| ==> moves[k] == MoveOf(l, net, q[k])
    ensures moves == [MoveOf(l, net, a)] + (if |b| == 1 then [MoveOf(l, net, b[0])] else [])
            + (if |c| == 1 then [MoveOf(l, net, c[0])] else []) + (if |d| == 1 then [MoveOf(l, net, d[0])] else [])
  {
    hide MoveOf;
  }

  lemma FilesReported(s0: Fs, job: Job)
    requires GoodJob(s0, job)
    ensures FilesOf(job.l, job.net, job.plan) ==
            ReportedFiles(s0, job.legacy.home, job.legacy.config, job.l, job.net)
  {
    var legacy := job.legacy;
    var pass, safe := Bound(s0, legacy.config, "gnosisvpn-hopr.pass").Some?, HasSafe(s0, job);
    var redb := Bound(s0, legacy.home, "curvy-pix.redb").Some?;
    JobSources(s0, job);
    SourceList(pass, safe, redb);
    MoveSpelled(job.l, job.net);
    forall k | 0 <= k < |job.plan|
      ensures FilesOf(job.l, job.net, job.plan)[k] == MoveOf(job.l, job.net, legacy.sources[k])
    {
      FromSource(s0, job, k);
    }
    hide GoodJob, Describes, AllSources, Bound, MoveOf, FilesOf;
    MovesListed(FilesOf(job.l, job.net, job.plan), job.l, job.net, legacy.sources, ID, if pass then [PASS] else [],
                if safe then [SAFE] else [], if redb then [REDB] else []);
  }

  lemma FromSource(s0: Fs, job: Job, k: nat)
    requires GoodJob(s0, job) && k < |job.plan|
    ensures |job.plan| == |job.legacy.sources|
    ensures job.plan[k].from == SourcePath(job.legacy.sources[k]) && job.plan[k].rel == job.legacy.sources[k].rel
    ensures job.plan[k].place == job.legacy.sources[k].place
  {
    hide ValidFs, Apart, WellLaid, FindLegacy, SourcesOf;
    assert job.plan[k] == PlannedOf(s0, job.legacy, job.legacy.sources[k]);
  }
}
