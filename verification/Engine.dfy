/** The update engine: its status stream, the artifact it installs, the loader window and the updater's own binary. */
module Engine {
  import opened Kernel
  import opened Versions
  import opened Rounds
  import opened Download
  import opened Retries

  // ------------------------------------------------------------------ the updater's own binary

  /** What the installer will do: report success or not, and put its payload at the updater's path unless something is
      there. */
  datatype Installer = Installer(payload: Bytes, succeeds: bool, lands: bool)

  /** The installed updater's path and the `.old` one beside it. Calls on a `faulty` place may fail. */
  class Updater {
    var path: Option<Bytes>
    var oldPath: Option<Bytes>
    var faults: nat
    const faulty: bool

    constructor (path: Option<Bytes>, aside: Option<Bytes>, faulty: bool)
      ensures this.path == path && oldPath == aside && faults == 0 && this.faulty == faulty
    {
      this.path, oldPath, faults, this.faulty := path, aside, 0, faulty;
    }

    twostate predicate Counted()
      reads this
    {
      old(faults) <= faults && (!faulty ==> faults == old(faults))
    }

    method Fault() returns (hit: bool)
      modifies this`faults
      ensures hit ==> faulty && faults == old(faults) + 1
      ensures !hit ==> faults == old(faults)
    {
      hit := false;
      if faulty {
        hit := *;
        if hit { faults := faults + 1; }
      }
    }

    /** Frees the path, exactly if something is there and the call does not fail. */
    method Engage() returns (renamed: bool)
      modifies this
      ensures Counted() && (renamed <==> faults == old(faults) && old(path).Some?)
      ensures path == (if renamed then None else old(path)) && oldPath == (if renamed then old(path) else old(oldPath))
    {
      var hit := Fault();
      renamed := !hit && path.Some?;
      if renamed { path, oldPath := None, path; }
    }

    /** Runs the installer; a running binary that is still in place cannot be overwritten. */
    method Install(installer: Installer) returns (ok: bool)
      modifies this`path
      ensures ok == installer.succeeds
      ensures path == if installer.lands && old(path) == None then Some(installer.payload) else old(path)
    {
      ok := installer.succeeds;
      if installer.lands && path == None { path := Some(installer.payload); }
    }

    method RemoveOld()
      modifies this`oldPath, this`faults
      ensures Counted() && oldPath == if faults == old(faults) then None else old(oldPath)
    {
      var hit := Fault();
      if !hit { oldPath := None; }
    }

    method FinishSuccess(renamed: bool)
      modifies this`oldPath, this`faults
      ensures Counted() && oldPath == if renamed && faults == old(faults) then None else old(oldPath)
    {
      if !renamed { return; }
      RemoveOld();
    }

    /** The path keeps what has landed there, and otherwise gets back what was set aside. */
    method FinishFailure(renamed: bool)
      modifies this
      ensures Counted()
      ensures !renamed || faults != old(faults) ==> path == old(path) && oldPath == old(oldPath)
      ensures renamed && faults == old(faults) && old(path).Some? ==> path == old(path) && oldPath == None
      ensures renamed && faults == old(faults) && old(path) == None && old(oldPath).Some? ==>
        path == old(oldPath) && oldPath == None
    {
      if !renamed { return; }
      if path.Some? {
        RemoveOld();
        return;
      }
      var hit := Fault();
      if !hit && oldPath.Some? { path, oldPath := oldPath, None; }
    }

    method Finish(renamed: bool, ok: bool)
      modifies this
      ensures Counted()
      ensures ok ==> path == old(path) && oldPath == if renamed && faults == old(faults) then None else old(oldPath)
      ensures !ok && (!renamed || faults != old(faults)) ==> path == old(path) && oldPath == old(oldPath)
      ensures !ok && renamed && faults == old(faults) && old(path).Some? ==> path == old(path) && oldPath == None
      ensures !ok && renamed && faults == old(faults) && old(path) == None && old(oldPath).Some? ==>
        path == old(oldPath) && oldPath == None
    {
      if ok { FinishSuccess(renamed); } else { FinishFailure(renamed); }
    }
  }

  // ------------------------------------------------------------------ the artifact

  const FREE_SPACE_HEADROOM: nat := 524288000

  /** `None` exactly for a URL that ends in nothing or in a dot name. */
  function SafeArtifactFilename(url: Url): (r: Option<string>)
    ensures r.Some? ==> url.segments != [] && r.value == url.segments[|url.segments| - 1] && r.value !in {"", ".", ".."}
    ensures r.None? ==> url.segments == [] || url.segments[|url.segments| - 1] in {"", ".", ".."}
  {
    if url.segments == [] then None
    else
      var last := url.segments[|url.segments| - 1];
      if last in {"", ".", ".."} then None else Some(last)
  }

  datatype ArtifactError =
    | InsecureUrl
    | InvalidFilename
    | SymlinkDownloadPath
    | InsufficientSpace(needed: nat, free: nat)
    | SizeMismatch(expected: nat, actual: nat)
    | Fetch(error: DownloadError)
    | FileTrouble

  datatype Slotted = Absent | Link | Regular | Directory

  /** The download directory: the artifact's path, and the pinned installer choices. Calls on a `faulty` one may fail.
      */
  class Slot {
    var there: Slotted
    var file: Disk
    var choices: bool
    var faults: nat
    const faulty: bool

    constructor (there: Slotted, faulty: bool)
      ensures this.there == there && fresh(file) && faults == 0 && this.faulty == faulty && !choices
      ensures file.faulty == faulty
    {
      this.there, this.faulty, choices, faults := there, faulty, false, 0;
      file := new Disk(faulty);
    }

    twostate predicate Counted()
      reads this
    {
      old(faults) <= faults && (!faulty ==> faults == old(faults))
    }

    method Fault() returns (hit: bool)
      modifies this`faults
      ensures Counted() && (hit ==> faulty) && faults == old(faults) + One(hit)
    {
      hit := *;
      hit := hit && faulty;
      if hit { faults := faults + 1; }
    }

    /** symlink_metadata: `None` if nothing is there, or if the call failed. */
    method Probe() returns (found: Option<Slotted>)
      modifies this`faults
      ensures Counted() && (found.Some? ==> found.value == there != Absent && faults == old(faults))
      ensures faults <= old(faults) + 1
      ensures faults == old(faults) ==> (found == None <==> there == Absent)
    {
      var hit := Fault();
      found := if hit || there == Absent then None else Some(there);
    }

    /** remove_file, whose failures nobody looks at; a directory is not removed. */
    method Remove()
      modifies this`there, this`faults
      ensures Counted() && faults <= old(faults) + 1
      ensures there == if faults == old(faults) && old(there) != Directory then Absent else old(there)
    {
      var hit := Fault();
      if !hit && there != Directory { there := Absent; }
    }

    /** Only a path where nothing is can be created. */
    method CreateNew() returns (ok: bool)
      modifies this`there, this`file, this`faults
      ensures Counted() && (ok <==> faults == old(faults) && old(there) == Absent)
      ensures ok ==> there == Regular && fresh(file) && file.content == [] && file.pos == 0 && file.faulty == faulty
      ensures ok ==> file.faults == 0
      ensures !ok ==> there == old(there) && file == old(file)
    {
      var hit := Fault();
      ok := !hit && there == Absent;
      if ok {
        there := Regular;
        file := new Disk(faulty);
      }
    }

    /** Writes the choice changes, if there is a selection to pin; only a failing write stops the install. */
    method WriteChoices(selected: bool) returns (ok: bool)
      modifies this`choices, this`faults
      ensures Counted() && (ok <==> faults == old(faults)) && (!selected ==> ok)
      ensures choices == (old(choices) || (ok && selected))
    {
      if !selected { return true; }
      var hit := Fault();
      ok := !hit;
      if ok { choices := true; }
    }

    method RemoveChoices(written: bool)
      modifies this`choices, this`faults
      ensures Counted() && faults <= old(faults) + 1
      ensures choices == (old(choices) && !(written && faults == old(faults)))
    {
      if !written { return; }
      var hit := Fault();
      if !hit { choices := false; }
    }

    /** Hashes the file through a fixed buffer; reads may be short, and may fail. */
    method VerifySha256(expected: Digest) returns (r: Result<(), ()>)
      modifies this`faults
      ensures Counted() && (r.Ok? <==> faults == old(faults) && Sha256(file.content) == expected)
    {
      var content := file.content;
      var hashed: Bytes := [];
      var at := 0;
      while true
        invariant at <= |content| && hashed == content[..at] && faults == old(faults) && content == file.content
        decreases |content| - at
      {
        var hit := Fault();
        if hit { return Err(()); }
        var left := |content| - at;
        if left == 0 { break; }
        var n: nat :| 0 < n <= left && n <= BUFFER;
        hashed := hashed + content[at..at + n];
        at := at + n;
      }
      assert content[..at] == content;
      r := if Sha256(hashed) == expected then Ok(()) else Err(());
    }
  }

  const BUFFER: nat := 65536

  /** The free space asked for; adding 64-bit numbers wraps around. */
  function Need(sizeBytes: U64): (need: nat)
    ensures need == sizeBytes + 500 * 1024 * 1024 || need + 0x1_0000_0000_0000_0000 == sizeBytes + 500 * 1024 * 1024
    ensures need < 0x1_0000_0000_0000_0000
  {
    (sizeBytes + FREE_SPACE_HEADROOM) % 0x1_0000_0000_0000_0000
  }

  /** What is wrong with a download before it starts, if anything; the first that is. */
  function Objection(release: ChannelRelease, there: Slotted, free: Option<nat>): Option<ArtifactError> {
    if release.downloadUrl.scheme != "https" then Some(InsecureUrl)
    else if SafeArtifactFilename(release.downloadUrl).None? then Some(InvalidFilename)
    else if there == Link then Some(SymlinkDownloadPath)
    else if free.Some? && free.value < Need(release.sizeBytes) then
      Some(InsufficientSpace(Need(release.sizeBytes), free.value))
    else if there == Directory then Some(FileTrouble)
    else None
  }

  /** What comes before the download: a refusal, or a fresh file at the path. */
  method Preflight(slot: Slot, release: ChannelRelease, free: Option<nat>) returns (r: Option<ArtifactError>)
    modifies slot`there, slot`file, slot`faults
    ensures slot.Counted()
    ensures r.None? ==> slot.there == Regular && fresh(slot.file) && slot.file.content == [] && slot.file.pos == 0
    ensures r.None? ==> slot.file.faulty == slot.faulty && slot.file.faults == 0
    ensures slot.faults == old(slot.faults) ==> r == Objection(release, old(slot.there), free)
    ensures r.None? ==> Objection(release, old(slot.there), free).None? && slot.faults <= old(slot.faults) + 1
    ensures r.None? ==> old(slot.there) == Absent || old(slot.there) == Regular
    ensures release.downloadUrl.scheme != "https" ==> r == Some(InsecureUrl)
    ensures r.Some? && r.value.InsufficientSpace? ==>
      && r.value.needed == Need(release.sizeBytes) && free == Some(r.value.free) && r.value.free < r.value.needed
    ensures r == Some(SymlinkDownloadPath) ==> old(slot.there) == Link
    ensures r.Some? ==> !r.value.SizeMismatch? && !r.value.Fetch?
    ensures r.Some? ==> slot.there == old(slot.there) || (old(slot.there) == Regular && slot.there == Absent)
    ensures r.Some? && slot.faults == old(slot.faults) ==>
      slot.there != Regular || r.value.InsecureUrl? || r.value.InvalidFilename?
    ensures r.Some? && (r.value.InsecureUrl? || r.value.InvalidFilename?) ==> slot.there == old(slot.there)
  {
    hide Need, SafeArtifactFilename;
    if release.downloadUrl.scheme != "https" { return Some(InsecureUrl); }
    var dir := slot.Fault();
    if dir { return Some(FileTrouble); }
    if SafeArtifactFilename(release.downloadUrl).None? { return Some(InvalidFilename); }
    var found := slot.Probe();
    if found == Some(Link) { return Some(SymlinkDownloadPath); }
    if found.Some? { slot.Remove(); }
    var need := Need(release.sizeBytes);
    if free.Some? && free.value < need { return Some(InsufficientSpace(need, free.value)); }
    var created := slot.CreateNew();
    if !created { return Some(FileTrouble); }
    r := None;
  }

  /** What a download that was started makes of what it fetched. */
  function Received(fetched: Result<nat, DownloadError>, size: nat): Result<(), ArtifactError> {
    match fetched
    case Err(e) => Err(Fetch(e))
    case Ok(n) => if size != 0 && n != size then Err(SizeMismatch(size, n)) else Ok(())
  }

  /** Why a transfer ended as it did: what the origin said last, a failing call on the file, enough bytes, or patience
      run out. */
  ghost predicate Answers(said: seq<Said>, from: nat, file: Disk, expected: nat, r: Result<nat, DownloadError>)
    reads file
  {
    || Justified(said, from, 0 < file.faults, r)
    || (Open(said, from) && file.faults == 0
        && (if r.Ok? then expected != 0 && r.value >= expected else r.error.ConnectionLost?))
  }

  /** Why a download ended as it did; `hit` says whether a call in the directory failed. */
  ghost predicate Fetched(said: seq<Said>, from: nat, file: Disk, release: ChannelRelease, there: Slotted,
                          free: Option<nat>, r: Result<(), ArtifactError>,
                          fetched: Option<Result<nat, DownloadError>>, hit: bool)
    reads file
  {
    && (!hit ==>
      && (fetched.None? <==> Objection(release, there, free).Some?)
      && r == if fetched.None? then Err(Objection(release, there, free).value)
              else Received(fetched.value, release.sizeBytes))
    && (r.Ok? ==> fetched.Some? && fetched.value.Ok? && Received(fetched.value, release.sizeBytes).Ok?)
    && (r.Err? && r.error.InsufficientSpace? ==>
      && r.error.needed == Need(release.sizeBytes) && free == Some(r.error.free) && r.error.free < r.error.needed)
    && (r == Err(SymlinkDownloadPath) ==> there == Link)
    && (r.Err? && (r.error.Fetch? || r.error.SizeMismatch?) ==>
      fetched.Some? && r == Received(fetched.value, release.sizeBytes))
    && (fetched.Some? ==> Answers(said, from, file, release.sizeBytes, fetched.value))
  }

  lemma StartIsWhole(published: seq<Release>, version: nat, content: Bytes, n: nat)
    requires PrefixOf(published, version, content, n)
    ensures Whole(published, content)
  {
  }

  /** The part of `DownloadArtifact` after the new file is there. A part of a file is removed again. */
  method FetchInto(slot: Slot, net: Origin, expected: nat)
    returns (r: Result<(), ArtifactError>, ghost fetched: Result<nat, DownloadError>)
    requires net.Valid() && slot.there == Regular && slot.file.content == [] && slot.file.pos == 0
    requires slot.file.faults == 0 && slot.file.faulty == slot.faulty
    modifies slot`there, slot`faults, slot.file, net
    ensures net.Valid() && slot.Counted() && old(net.said) <= net.said && slot.file == old(slot.file)
    ensures Answers(net.said, old(|net.said|), slot.file, expected, fetched)
    ensures slot.faults == old(slot.faults) ==>
      r == Received(fetched, expected) && slot.there == if r.Ok? then Regular else Absent
    ensures r == Received(fetched, expected) || r == Err(FileTrouble)
    ensures r.Ok? ==> slot.faults == old(slot.faults)
    ensures r.Ok? ==> slot.there == Regular && (expected != 0 ==> |slot.file.content| == expected)
    ensures r.Ok? && net.honest && Identified(net.published) ==> Whole(net.published, slot.file.content)
    ensures r.Err? && r.error.Fetch? && r.error.error.ConnectionLost? ==>
      120 <= r.error.error.offline <= 120 + net.readTimeout
    ensures old(Attainable(net, slot.faulty, expected, PROD)) ==>
      Completes(net.published, net.finish, old(net.script)) ==>
      && fetched == Ok(|net.published[AtRelease(old(net.script))].data|)
      && slot.file.content == Assembled(net.published, old(net.script))
  {
    hide Whole, Chain, FromReleases, Ignored, PrefixOf, NeverSpliced, Identified, Feasible, Completes, Justified, Open,
      Assembled, AtRelease, Reached, Attainable;
    ghost var version, rounds;
    var transfer;
    transfer, version, rounds := FetchWithResume(net, slot.file, expected, PROD);
    fetched := transfer;
    if transfer.Err? {
      slot.Remove();
      return Err(Fetch(transfer.error)), fetched;
    }
    if net.honest && Identified(net.published) {
      StartIsWhole(net.published, version, slot.file.content, transfer.value);
    }
    var flush := slot.Fault();
    if flush { return Err(FileTrouble), fetched; }
    if expected != 0 && transfer.value != expected {
      slot.Remove();
      return Err(SizeMismatch(expected, transfer.value)), fetched;
    }
    r := Ok(());
  }

  /** Downloads to a safe path over HTTPS; on a failure, once storing itself works, no part of a file stays behind. What
      was not a regular file at that path is never followed, replaced or removed. `fetched` is what the transfer
      answered, if there was one; `rounds` are its retried attempts. */
  method DownloadArtifact(slot: Slot, net: Origin, release: ChannelRelease, free: Option<nat>)
    returns (r: Result<(), ArtifactError>, ghost fetched: Option<Result<nat, DownloadError>>)
    requires net.Valid()
    modifies slot`there, slot`file, slot`faults, net
    ensures net.Valid() && slot.Counted() && old(net.said) <= net.said
    ensures Fetched(net.said, old(|net.said|), slot.file, release, old(slot.there), free, r, fetched,
                    old(slot.faults) < slot.faults)
    ensures fetched.None? ==> net.said == old(net.said)
    ensures fetched.Some? && old(Attainable(net, slot.faulty, release.sizeBytes, PROD)) ==>
      Completes(net.published, net.finish, old(net.script)) ==>
      && fetched.value == Ok(|net.published[AtRelease(old(net.script))].data|)
      && slot.file.content == Assembled(net.published, old(net.script))
    ensures r.Ok? ==> release.downloadUrl.scheme == "https" && SafeArtifactFilename(release.downloadUrl).Some?
    ensures r.Ok? ==>
      slot.there == Regular && (release.sizeBytes != 0 ==> |slot.file.content| == release.sizeBytes)
    ensures r.Ok? && free.Some? ==> Need(release.sizeBytes) <= free.value
    ensures r.Ok? ==> slot.faults <= old(slot.faults) + 1
    ensures r.Ok? && net.honest && Identified(net.published) ==> Whole(net.published, slot.file.content)
    ensures release.downloadUrl.scheme != "https" ==> r == Err(InsecureUrl)
    ensures r.Err? && slot.faults == old(slot.faults) && old(slot.there) != Regular ==> slot.there == old(slot.there)
    ensures r.Err? && slot.faults == old(slot.faults) ==>
      slot.there != Regular || r.error.InsecureUrl? || r.error.InvalidFilename?
    ensures old(slot.there) == Link || old(slot.there) == Directory ==> r.Err? && slot.there == old(slot.there)
    ensures r.Err? && (r.error.InsecureUrl? || r.error.InvalidFilename?) ==> slot.there == old(slot.there)
    ensures r.Err? && r.error.Fetch? && r.error.error.ConnectionLost? ==>
      120 <= r.error.error.offline <= 120 + net.readTimeout
    ensures r.Err? && r.error.Fetch? && r.error.error.ConnectionLost? && net.readTimeout == READ_TIMEOUT ==>
      120 <= r.error.error.offline <= 150
  {
    hide Need, SafeArtifactFilename, Whole, Identified, Completes, Attainable, Answers, Assembled, AtRelease;
    fetched := None;
    var refused := Preflight(slot, release, free);
    if refused.Some? { return Err(refused.value), None; }
    ghost var transfer;
    r, transfer := FetchInto(slot, net, release.sizeBytes);
    fetched := Some(transfer);
  }

  /** Close to the largest 64-bit size the check lets through a download there is no room for. */
  lemma HeadroomWraps()
    ensures Need(0xFFFF_FFFF_FFFF_FFFF) == FREE_SPACE_HEADROOM - 1
  {
  }

  // ------------------------------------------------------------------ the run

  datatype Stage = Check | Download | Verify | InstallStage

  datatype Status = Checking | Downloading | Installing | Completed(version: string) | FailedAt(stage: Stage)

  datatype Event = Sent(status: Status)
    | ShowLoader | EngageAside | Ran(artifact: Bytes, ok: bool) | DismissLoader | SettleAside(ok: bool)

  /** What the engine does, in order. */
  class Stream {
    var events: seq<Event>

    constructor ()
      ensures events == []
    {
      events := [];
    }

    method Emit(e: Event)
      modifies this
      ensures events == old(events) + [e]
    {
      events := events + [e];
    }
  }

  datatype Input = Input(channel: Channel, allowDowngrade: bool, current: string)

  const REFUSED: seq<Event> := [Sent(Checking)]
  const UNFETCHED: seq<Event> := [Sent(Checking), Sent(Downloading)]

  /** A run that got to the installer: the loader and the rename-aside are each taken once and given back once. */
  function Installed(artifact: Bytes, ok: bool): seq<Event> {
    UNFETCHED + [ShowLoader, Sent(Installing), EngageAside, Ran(artifact, ok), DismissLoader, SettleAside(ok)]
  }

  /** The installer was given something the gate let through whose size and hash are the manifest's. */
  ghost predicate Sound(manifest: Option<Manifest>, input: Input, artifact: Bytes) {
    && manifest.Some? && Pick(manifest.value, input.channel).Some?
    && var release := Pick(manifest.value, input.channel).value;
      && EnsureInstallable(release, input.current, input.channel, input.allowDowngrade).Ok?
      && Sha256(artifact) == release.sha256 && (release.sizeBytes != 0 ==> |artifact| == release.sizeBytes)
      && release.downloadUrl.scheme == "https" && SafeArtifactFilename(release.downloadUrl).Some?
  }

  /** What happened before the terminal status, by how it ended. */
  ghost predicate Story(events: seq<Event>, manifest: Option<Manifest>, input: Input, r: Result<string, Stage>) {
    match r
    case Ok(version) =>
      exists artifact ::
        && events == Installed(artifact, true) && Sound(manifest, input, artifact)
        && version == Pick(manifest.value, input.channel).value.version
    case Err(Check) => events == REFUSED
    case Err(Download) => events == UNFETCHED
    case Err(Verify) => events == UNFETCHED
    case Err(InstallStage) =>
      events == UNFETCHED
      || exists artifact :: events == Installed(artifact, false) && Sound(manifest, input, artifact)
  }

  /** Whether a run got to the installer. */
  ghost predicate WasInstalled(events: seq<Event>) {
    exists artifact, ok :: events == Installed(artifact, ok)
  }

  /** Where the updater's binary is after the installer ran between setting it aside and settling, no file call
      failing. */
  ghost predicate UpdaterAfter(before: Option<Bytes>, after: Option<Bytes>, aside: Option<Bytes>, installer: Installer)
    {
    && aside == None
    && (after == (if installer.lands then Some(installer.payload) else before) <==>
      (installer.succeeds ==> installer.lands))
    && (installer.succeeds && !installer.lands ==> after == None)
  }

  /** From showing the loader to settling the binary there is no way out in between. */
  method InstallSpan(stream: Stream, updater: Updater, artifact: Bytes, installer: Installer) returns (ok: bool)
    modifies stream, updater
    ensures stream.events == old(stream.events) +
      [ShowLoader, Sent(Installing), EngageAside, Ran(artifact, ok), DismissLoader, SettleAside(ok)]
    ensures ok == installer.succeeds && updater.Counted()
    ensures updater.faults == old(updater.faults) && old(updater.path).Some? ==>
      UpdaterAfter(old(updater.path), updater.path, updater.oldPath, installer)
    ensures !ok && old(updater.path).Some? ==> updater.path.Some? || updater.oldPath == old(updater.path)
  {
    stream.Emit(ShowLoader);
    stream.Emit(Sent(Installing));
    stream.Emit(EngageAside);
    var renamed := updater.Engage();
    ok := updater.Install(installer);
    stream.Emit(Ran(artifact, ok));
    stream.Emit(DismissLoader);
    stream.Emit(SettleAside(ok));
    updater.Finish(renamed, ok);
  }

  /** An installer that reports success without putting an updater in place takes the old one with it. */
  method LosesUpdater(binary: Bytes, artifact: Bytes, payload: Bytes) returns (updater: Updater, ok: bool)
    ensures fresh(updater) && ok && updater.faults == 0 && updater.path == None && updater.oldPath == None
  {
    updater := new Updater(Some(binary), None, false);
    var stream := new Stream();
    ok := InstallSpan(stream, updater, artifact, Installer(payload, true, false));
  }

  /** No manifest, no release for the channel, or one the gate refuses for this input. */
  predicate Refused(manifest: Option<Manifest>, input: Input) {
    || manifest.None? || Pick(manifest.value, input.channel).None?
    || EnsureInstallable(Pick(manifest.value, input.channel).value, input.current, input.channel,
                         input.allowDowngrade).Err?
  }

  /** Which stage fails, if any, when no call in the download directory does: the first with a reason to. `artifact` is
      what the download answered, if there was one. */
  function Blame(manifest: Option<Manifest>, input: Input, artifact: Option<Result<(), ArtifactError>>, content: Bytes,
                 installer: Installer): Option<Stage>
  {
    if Refused(manifest, input) then Some(Check)
    else if artifact.None? || artifact.value.Err? then Some(Download)
    else if Sha256(content) != Pick(manifest.value, input.channel).value.sha256 then Some(Verify)
    else if !installer.succeeds then Some(InstallStage)
    else None
  }

  /** Each stage fails for its own reasons only, and a run that has none goes through; `hit` says whether a call in the
      download directory failed. */
  ghost predicate Explained(manifest: Option<Manifest>, input: Input, r: Result<string, Stage>,
                            artifact: Option<Result<(), ArtifactError>>, file: Disk, installer: Installer, hit: bool)
    reads file
  {
    && (r == Err(Check) <==> Refused(manifest, input)) && (artifact.None? <==> Refused(manifest, input))
    && (r == Err(Download) <==> artifact.Some? && artifact.value.Err?)
    && (r == Err(Verify) ==> hit || Sha256(file.content) != Pick(manifest.value, input.channel).value.sha256)
    && (r == Err(InstallStage) ==> hit || !installer.succeeds)
    && (r.Ok? ==> installer.succeeds)
    && (!hit ==>
      match Blame(manifest, input, artifact, file.content, installer)
      case None => r == Ok(Pick(manifest.value, input.channel).value.version)
      case Some(stage) => r == Err(stage))
  }

  method DriveEngine(stream: Stream, slot: Slot, net: Origin, updater: Updater, manifest: Option<Manifest>,
                     input: Input, free: Option<nat>, selected: bool, installer: Installer)
    returns (r: Result<string, Stage>, ghost artifact: Option<Result<(), ArtifactError>>,
             ghost fetched: Option<Result<nat, DownloadError>>)
    requires net.Valid() && stream.events == []
    modifies stream, slot, updater, net
    ensures Story(stream.events, manifest, input, r) && slot.Counted()
    ensures Explained(manifest, input, r, artifact, slot.file, installer, old(slot.faults) < slot.faults)
    ensures artifact.Some? ==>
      Fetched(net.said, old(|net.said|), slot.file, Pick(manifest.value, input.channel).value, old(slot.there), free,
              artifact.value, fetched, old(slot.faults) < slot.faults)
    ensures r.Ok? && slot.faults == old(slot.faults) ==>
      slot.there == Absent && slot.choices == (old(slot.choices) && !selected)
    ensures r.Ok? ==> slot.faults <= old(slot.faults) + 3
    ensures fetched.Some? ==> artifact.Some?
    ensures fetched.Some? && Completes(net.published, net.finish, old(net.script)) ==>
      old(Attainable(net, slot.faulty, Pick(manifest.value, input.channel).value.sizeBytes, PROD)) ==>
      && fetched.value == Ok(|net.published[AtRelease(old(net.script))].data|)
      && slot.file.content == Assembled(net.published, old(net.script))
    ensures updater.Counted()
    ensures WasInstalled(stream.events) && updater.faults == old(updater.faults) && old(updater.path).Some? ==>
      UpdaterAfter(old(updater.path), updater.path, updater.oldPath, installer)
    ensures !WasInstalled(stream.events) ==>
      updater.path == old(updater.path) && updater.oldPath == old(updater.oldPath)
    ensures r.Err? && old(updater.path).Some? ==> updater.path.Some? || updater.oldPath == old(updater.path)
  {
    hide Need, SafeArtifactFilename, Objection, Answers, Feasible, Completes, Assembled, AtRelease, Compare,
      ChannelOf, Received, UpdaterAfter, EnsureInstallable;
    NotInstalled();
    artifact, fetched := None, None;
    stream.Emit(Sent(Checking));
    assert stream.events == REFUSED;
    if manifest.None? || Pick(manifest.value, input.channel).None? { return Err(Check), artifact, fetched; }
    var release := Pick(manifest.value, input.channel).value;
    if EnsureInstallable(release, input.current, input.channel, input.allowDowngrade).Err? {
      return Err(Check), artifact, fetched;
    }
    stream.Emit(Sent(Downloading));
    assert stream.events == UNFETCHED;
    var got;
    got, fetched := DownloadArtifact(slot, net, release, free);
    artifact := Some(got);
    if got.Err? { return Err(Download), artifact, fetched; }
    r := Settle(stream, slot, updater, manifest, input, release, selected, installer);
  }

  /** From the downloaded artifact on: verified, the choices pinned, installed, cleaned up. Only the two removals of the
      cleanup may fail unnoticed. */
  method Settle(stream: Stream, slot: Slot, updater: Updater, ghost manifest: Option<Manifest>, ghost input: Input,
                release: ChannelRelease, selected: bool, installer: Installer)
    returns (r: Result<string, Stage>)
    requires stream.events == UNFETCHED
    requires Sha256(slot.file.content) == release.sha256 ==> Sound(manifest, input, slot.file.content)
    requires manifest.Some? && Pick(manifest.value, input.channel) == Some(release)
    modifies stream, slot`there, slot`choices, slot`faults, updater
    ensures Story(stream.events, manifest, input, r) && slot.Counted()
    ensures r != Err(Check) && r != Err(Download)
    ensures r == Err(Verify) ==> old(slot.faults) < slot.faults || Sha256(slot.file.content) != release.sha256
    ensures r == Err(InstallStage) ==> old(slot.faults) < slot.faults || !installer.succeeds
    ensures r.Ok? ==> installer.succeeds && Sha256(slot.file.content) == release.sha256
    ensures r.Ok? ==> slot.faults <= old(slot.faults) + 2
    ensures r.Err? && WasInstalled(stream.events) ==> slot.faults == old(slot.faults)
    ensures slot.faults == old(slot.faults) ==>
      r == if Sha256(slot.file.content) != release.sha256 then Err(Verify)
           else if !installer.succeeds then Err(InstallStage)
           else Ok(release.version)
    ensures r.Ok? && slot.faults == old(slot.faults) ==>
      slot.there == (if old(slot.there) == Directory then Directory else Absent)
      && slot.choices == (old(slot.choices) && !selected)
    ensures updater.Counted()
    ensures WasInstalled(stream.events) && updater.faults == old(updater.faults) && old(updater.path).Some? ==>
      UpdaterAfter(old(updater.path), updater.path, updater.oldPath, installer)
    ensures !WasInstalled(stream.events) ==>
      updater.path == old(updater.path) && updater.oldPath == old(updater.oldPath)
    ensures r.Err? && old(updater.path).Some? ==> updater.path.Some? || updater.oldPath == old(updater.path)
  {
    hide Sound, UpdaterAfter;
    NotInstalled();
    var bytes := slot.file.content;
    var verified := slot.VerifySha256(release.sha256);
    if verified.Err? { return Err(Verify); }
    var pinned := slot.WriteChoices(selected);
    if !pinned { return Err(InstallStage); }
    var ok := InstallSpan(stream, updater, bytes, installer);
    assert stream.events == Installed(bytes, ok);
    if !ok { return Err(InstallStage); }
    slot.Remove();
    slot.RemoveChoices(selected);
    r := Ok(release.version);
  }

  lemma NotInstalled()
    ensures !WasInstalled(REFUSED) && !WasInstalled(UNFETCHED)
  {
    forall artifact, ok ensures |Installed(artifact, ok)| == 8 { }
  }

  /** A whole run: whatever happened, exactly one terminal status closes it. If it got to the installer and no file
      call failed, the updater's path has the new binary if one was to land and the old one if not, exactly if the
      installer lands one whenever it succeeds: success drops the old copy without looking. */
  method RunEngine(stream: Stream, slot: Slot, net: Origin, updater: Updater, manifest: Option<Manifest>, input: Input,
                   free: Option<nat>, selected: bool, installer: Installer)
    returns (ghost r: Result<string, Stage>, ghost before: seq<Event>,
             ghost artifact: Option<Result<(), ArtifactError>>, ghost fetched: Option<Result<nat, DownloadError>>)
    requires net.Valid() && stream.events == []
    modifies stream, slot, updater, net
    ensures Story(before, manifest, input, r) && stream.events == before + [Sent(Closing(r))] && slot.Counted()
    ensures updater.Counted()
    ensures Explained(manifest, input, r, artifact, slot.file, installer, old(slot.faults) < slot.faults)
    ensures artifact.Some? ==>
      Fetched(net.said, old(|net.said|), slot.file, Pick(manifest.value, input.channel).value, old(slot.there), free,
              artifact.value, fetched, old(slot.faults) < slot.faults)
    ensures r.Ok? && slot.faults == old(slot.faults) ==>
      slot.there == Absent && slot.choices == (old(slot.choices) && !selected)
    ensures r.Ok? ==> slot.faults <= old(slot.faults) + 3
    ensures fetched.Some? ==> artifact.Some?
    ensures fetched.Some? && Completes(net.published, net.finish, old(net.script)) ==>
      old(Attainable(net, slot.faulty, Pick(manifest.value, input.channel).value.sizeBytes, PROD)) ==>
      && fetched.value == Ok(|net.published[AtRelease(old(net.script))].data|)
      && slot.file.content == Assembled(net.published, old(net.script))
    ensures WasInstalled(before) && updater.faults == old(updater.faults) && old(updater.path).Some? ==>
      UpdaterAfter(old(updater.path), updater.path, updater.oldPath, installer)
    ensures !WasInstalled(before) ==> updater.path == old(updater.path) && updater.oldPath == old(updater.oldPath)
    ensures r.Err? && old(updater.path).Some? ==> updater.path.Some? || updater.oldPath == old(updater.path)
  {
    hide Explained, Fetched, Feasible, Completes, Assembled, AtRelease, Story, WasInstalled;
    var outcome;
    outcome, artifact, fetched := DriveEngine(stream, slot, net, updater, manifest, input, free, selected, installer);
    before := stream.events;
    r := outcome;
    stream.Emit(Sent(Closing(outcome)));
  }

  /** A whole update that goes well: a release the gate lets through, served in any pieces to the end, of the size and
      digest the manifest gives, with room to spare and an installer that does its work, is installed. */
  method Updates(manifest: Manifest, input: Input, release: ChannelRelease, served: Release, pieces: seq<nat>,
                 free: Option<nat>, selected: bool, binary: Bytes, payload: Bytes)
    returns (stream: Stream, slot: Slot, updater: Updater)
    requires !Refused(Some(manifest), input) && Pick(manifest, input.channel) == Some(release)
    requires release.downloadUrl.scheme == "https" && SafeArtifactFilename(release.downloadUrl).Some?
    requires free.Some? ==> Need(release.sizeBytes) <= free.value
    requires Sha256(served.data) == release.sha256 && (release.sizeBytes != 0 ==> |served.data| == release.sizeBytes)
    requires Retries.Pieces(pieces) && Sum(pieces) == |served.data|
    ensures fresh(stream) && fresh(slot) && fresh(updater)
    ensures stream.events == Installed(served.data, true) + [Sent(Completed(release.version))]
    ensures slot.there == Absent && !slot.choices && updater.path == Some(payload) && updater.oldPath == None
  {
    hide Cuts, Feasible, Completes, Reached, Happens, Assembled, AtRelease, Need, SafeArtifactFilename, Answers,
      EnsureInstallable;
    var script := Cuts(served.headers, PROD, pieces);
    var net := new Origin([served], true, READ_TIMEOUT, 0, 0, 0, script, true);
    slot := new Slot(Absent, false);
    updater := new Updater(Some(binary), None, false);
    stream := new Stream();
    if release.sizeBytes != 0 { PiecesShort(pieces); }
    CutsFeasible(served, PROD, release.sizeBytes, pieces);
    CutsComplete(served, PROD, pieces);
    CutsStored(served, PROD, pieces);
    assert served.data[..|served.data|] == served.data;
    ghost var r, before, artifact, fetched;
    r, before, artifact, fetched :=
      RunEngine(stream, slot, net, updater, Some(manifest), input, free, selected, Installer(payload, true, true));
    assert before == Installed(served.data, true);
  }

  lemma PiecesShort(pieces: seq<nat>)
    requires Retries.Pieces(pieces) && pieces != [0]
    ensures Sum(pieces[..|pieces| - 1]) < Sum(pieces)
  {
  }

  function Closing(r: Result<string, Stage>): Status {
    match r case Ok(version) => Completed(version) case Err(stage) => FailedAt(stage)
  }

  // ------------------------------------------------------------------ what every run looks like from outside

  function Word(events: seq<Event>): seq<Status> {
    if events == [] then [] else (if events[0].Sent? then [events[0].status] else []) + Word(events[1..])
  }

  function Count(events: seq<Event>, e: Event): nat {
    if events == [] then 0 else (if events[0] == e then 1 else 0) + Count(events[1..], e)
  }

  predicate Terminal(s: Status) {
    s.Completed? || s.FailedAt?
  }

  lemma {:induction false} WordConcat(a: seq<Event>, b: seq<Event>)
    ensures Word(a + b) == Word(a) + Word(b)
  {
    if a == [] {
      assert a + b == b;
    } else {
      assert (a + b)[0] == a[0] && (a + b)[1..] == a[1..] + b;
      WordConcat(a[1..], b);
      assert Word(a + b) == (if a[0].Sent? then [a[0].status] else []) + (Word(a[1..]) + Word(b));
    }
  }

  lemma {:induction false} CountConcat(a: seq<Event>, b: seq<Event>, e: Event)
    ensures Count(a + b, e) == Count(a, e) + Count(b, e)
  {
    if a == [] {
      assert a + b == b;
    } else {
      assert (a + b)[0] == a[0] && (a + b)[1..] == a[1..] + b;
      CountConcat(a[1..], b, e);
    }
  }

  /** Checking, then perhaps downloading, then perhaps installing, then one terminal; completion only after
      installing. */
  ghost predicate GoodWord(w: seq<Status>) {
    && |w| >= 2 && Terminal(w[|w| - 1])
    && w[..|w| - 1] in {[Checking], [Checking, Downloading], [Checking, Downloading, Installing]}
    && (w[|w| - 1].Completed? ==> w[..|w| - 1] == [Checking, Downloading, Installing])
  }

  lemma Cons(x: Event, rest: seq<Event>, e: Event)
    ensures Word([x] + rest) == (if x.Sent? then [x.status] else []) + Word(rest)
    ensures Count([x] + rest, e) == (if x == e then 1 else 0) + Count(rest, e)
  {
    assert ([x] + rest)[1..] == rest;
  }

  lemma ShortRun(before: seq<Event>, e: Event)
    requires before == REFUSED || before == UNFETCHED
    ensures Word(before) == if before == REFUSED then [Checking] else [Checking, Downloading]
    ensures !e.Sent? ==> Count(before, e) == 0
  {
    Cons(Sent(Downloading), [], e);
    Cons(Sent(Checking), [Sent(Downloading)], e);
    Cons(Sent(Checking), [], e);
    assert UNFETCHED == [Sent(Checking)] + [Sent(Downloading)] && REFUSED == [Sent(Checking)] + [];
    assert [Sent(Downloading)] == [Sent(Downloading)] + [];
  }

  /** The part of a long run that only such a run has. */
  function Tail(artifact: Bytes, ok: bool): seq<Event> {
    [ShowLoader] + ([Sent(Installing)] + ([EngageAside] + ([Ran(artifact, ok)] +
      ([DismissLoader] + ([SettleAside(ok)] + [])))))
  }

  lemma TailRun(artifact: Bytes, ok: bool, e: Event)
    ensures Word(Tail(artifact, ok)) == [Installing]
    ensures e in {ShowLoader, EngageAside, DismissLoader, SettleAside(ok)} ==> Count(Tail(artifact, ok), e) == 1
  {
    hide Word, Count;
    NoEvents(e);
    Cons(SettleAside(ok), [], e);
    Cons(DismissLoader, [SettleAside(ok)] + [], e);
    Cons(Ran(artifact, ok), [DismissLoader] + ([SettleAside(ok)] + []), e);
    Cons(EngageAside, [Ran(artifact, ok)] + ([DismissLoader] + ([SettleAside(ok)] + [])), e);
    Cons(Sent(Installing), [EngageAside] + ([Ran(artifact, ok)] + ([DismissLoader] + ([SettleAside(ok)] + []))), e);
    Cons(ShowLoader,
         [Sent(Installing)] + ([EngageAside] + ([Ran(artifact, ok)] + ([DismissLoader] + ([SettleAside(ok)] + [])))),
         e);
  }

  lemma InstalledTail(artifact: Bytes, ok: bool)
    ensures Installed(artifact, ok) == UNFETCHED + Tail(artifact, ok)
  {
  }

  lemma LongRun(artifact: Bytes, ok: bool, e: Event)
    ensures Word(Installed(artifact, ok)) == [Checking, Downloading, Installing]
    ensures e in {ShowLoader, EngageAside, DismissLoader, SettleAside(ok)} ==> Count(Installed(artifact, ok), e) == 1
  {
    InstalledTail(artifact, ok);
    hide Word, Count, Installed, Tail;
    TailRun(artifact, ok, e);
    ShortRun(UNFETCHED, e);
    WordConcat(UNFETCHED, Tail(artifact, ok));
    CountConcat(UNFETCHED, Tail(artifact, ok), e);
  }

  lemma NoEvents(e: Event)
    ensures Word([]) == [] && Count([], e) == 0
  {
  }

  lemma WordEnds(before: seq<Event>, last: Status)
    ensures Word(before + [Sent(last)]) == Word(before) + [last]
  {
    WordConcat(before, [Sent(last)]);
    Cons(Sent(last), [], ShowLoader);
    assert [Sent(last)] == [Sent(last)] + [];
  }

  lemma WordCloses(w: seq<Status>, last: Status)
    requires Terminal(last)
    requires w == [Checking] || w == [Checking, Downloading] || w == [Checking, Downloading, Installing]
    requires last.Completed? ==> w == [Checking, Downloading, Installing]
    ensures GoodWord(w + [last])
  {
    assert (w + [last])[..|w + [last]| - 1] == w;
  }

  /** Whether a run stopped before the installer. */
  ghost predicate Short(before: seq<Event>) {
    before == REFUSED || before == UNFETCHED
  }

  ghost predicate WasSound(before: seq<Event>, manifest: Option<Manifest>, input: Input, ok: bool) {
    forall i :: 0 <= i < |before| && before[i].Ran? ==> Sound(manifest, input, before[i].artifact) && before[i].ok == ok
  }

  lemma StoryCases(before: seq<Event>, manifest: Option<Manifest>, input: Input, r: Result<string, Stage>)
    requires Story(before, manifest, input, r)
    ensures Short(before) ==> r.Err?
    ensures !Short(before) ==>
      exists artifact :: before == Installed(artifact, r.Ok?) && Sound(manifest, input, artifact)
  {
    hide Sound;
  }

  lemma ShortCounts(before: seq<Event>, ok: bool)
    requires Short(before)
    ensures Count(before, ShowLoader) ==
      Count(before, DismissLoader) == Count(before, EngageAside) == Count(before, SettleAside(ok)) == 0
  {
    hide Word, Count;
    ShortRun(before, ShowLoader);
    ShortRun(before, DismissLoader);
    ShortRun(before, EngageAside);
    ShortRun(before, SettleAside(ok));
  }

  lemma LongCounts(artifact: Bytes, ok: bool)
    ensures var before := Installed(artifact, ok);
      Count(before, ShowLoader) ==
        Count(before, DismissLoader) == Count(before, EngageAside) == Count(before, SettleAside(ok)) == 1
  {
    hide Word, Count, Installed;
    LongRun(artifact, ok, ShowLoader);
    LongRun(artifact, ok, DismissLoader);
    LongRun(artifact, ok, EngageAside);
    LongRun(artifact, ok, SettleAside(ok));
  }

  lemma ShortWord(before: seq<Event>, stage: Stage)
    requires Short(before)
    ensures GoodWord(Word(before + [Sent(FailedAt(stage))]))
  {
    hide Word, Count, GoodWord;
    ShortRun(before, ShowLoader);
    WordEnds(before, FailedAt(stage));
    WordCloses(Word(before), FailedAt(stage));
  }

  lemma LongWord(artifact: Bytes, ok: bool, last: Status)
    requires Terminal(last)
    ensures GoodWord(Word(Installed(artifact, ok) + [Sent(last)]))
  {
    hide Word, Count, GoodWord, Installed;
    LongRun(artifact, ok, ShowLoader);
    WordEnds(Installed(artifact, ok), last);
    WordCloses(Word(Installed(artifact, ok)), last);
  }

  lemma ShortSound(before: seq<Event>, manifest: Option<Manifest>, input: Input, ok: bool)
    requires Short(before)
    ensures WasSound(before, manifest, input, ok)
  {
    hide Sound;
  }

  lemma LongSound(artifact: Bytes, manifest: Option<Manifest>, input: Input, ok: bool)
    requires Sound(manifest, input, artifact)
    ensures WasSound(Installed(artifact, ok), manifest, input, ok)
  {
    hide Sound;
  }

  /** Every run: a well-formed status word; the loader shown and dismissed, the binary set aside and settled, equally
      often and at most once; the installer only ever given a sound artifact. */
  lemma RunShape(before: seq<Event>, manifest: Option<Manifest>, input: Input, r: Result<string, Stage>)
    requires Story(before, manifest, input, r)
    ensures GoodWord(Word(before + [Sent(Closing(r))]))
    ensures Count(before, ShowLoader) == Count(before, DismissLoader) == Count(before, EngageAside) <= 1
    ensures Count(before, EngageAside) == Count(before, SettleAside(r.Ok?))
    ensures WasSound(before, manifest, input, r.Ok?)
  {
    hide Story, Sound, Word, Count, GoodWord, Installed, Short, WasSound;
    StoryCases(before, manifest, input, r);
    if Short(before) {
      ShortCounts(before, r.Ok?);
      ShortWord(before, r.error);
      ShortSound(before, manifest, input, r.Ok?);
    } else {
      var artifact :| before == Installed(artifact, r.Ok?) && Sound(manifest, input, artifact);
      LongCounts(artifact, r.Ok?);
      LongWord(artifact, r.Ok?, Closing(r));
      LongSound(artifact, manifest, input, r.Ok?);
    }
  }
}
