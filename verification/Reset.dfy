/** Starting clean: why nothing is lost in any state of it, and when a second one has nothing to do. */
module Reset {
  import opened Kernel
  import opened Trees
  import opened Steps
  import opened Growth
  import opened FileSystems
  import opened Names
  import opened Layout
  import opened Nofollow
  import opened Identity
  import opened Staging
  import opened Networks
  import opened LegacyHome
  import opened Safety
  import opened Migrate

  datatype User = User(home: Ino, l: UserLayout, net: Name)
  datatype Clean = Clean(legacyHome: Option<Ino>, user: Option<User>, ts: string)

  ghost predicate GoodClean(fs: Fs, req: Clean) {
    req.user.Some? ==>
      && WellLaid(req.user.value.l) && ValidNetwork(req.user.value.net)
      && (req.legacyHome.Some? ==> Apart(fs, req.user.value.home, req.legacyHome.value))
  }

  // ------------------------------------------------------------------ the legacy directory

  predicate BackedUp(name: Name) {
    LEGACY_CONFIG_DIR + "." <= name
  }

  function ConfigDir(fs: Fs, home: Option<Ino>): Result<Option<Ino>, ()> {
    match home
    case None => Ok(None)
    case Some(h) =>
      if !IsDir(fs, h) then Err(())
      else
        match OpenDir(fs, h, LEGACY_CONFIG_DIR)
        case Err(NoEnt) => Ok(None)
        case Err(_) => Err(())
        case Ok(c) => Ok(Some(c))
  }

  /** `.config` goes by a name that was free, if one is given; owners and modes below the home may be secured. */
  ghost predicate Backed(a: Fs, b: Fs, home: Ino, name: Option<Name>) {
    && ValidFs(b) && Touch(a, b, {home}) && b.next == a.next && b.nodes.Keys == a.nodes.Keys
    && (forall i: Ino :: i in a.nodes ==> SecuredMeta(a, home, i, b.nodes[i].meta))
    && (name.Some? ==>
      BackedUp(name.value) && Bound(a, home, name.value) == None && Bound(a, home, LEGACY_CONFIG_DIR).Some?)
    && BackedNames(a, b, home, name)
  }

  ghost predicate BackedNames(a: Fs, b: Fs, home: Ino, name: Option<Name>) {
    forall n: Name :: Bound(b, home, n) == BackedName(a, home, name, n)
  }

  ghost function BackedName(a: Fs, home: Ino, name: Option<Name>, n: Name): Option<Ino> {
    if name == Some(n) then Bound(a, home, LEGACY_CONFIG_DIR)
    else if name.Some? && n == LEGACY_CONFIG_DIR then None
    else Bound(a, home, n)
  }

  ghost predicate SomeBacked(a: Fs, b: Fs, home: Ino) {
    exists name :: Backed(a, b, home, name)
  }

  lemma BackedSwing(a: Fs, b: Fs, home: Ino, name: Name)
    requires Bound(a, home, LEGACY_CONFIG_DIR).Some?
    requires Swing(a, b, home, LEGACY_CONFIG_DIR, name, Bound(a, home, LEGACY_CONFIG_DIR).value) && BackedUp(name)
    ensures Backed(a, b, home, Some(name)) && SomeBacked(a, b, home)
  {
    hide Touch, ValidFs, Reach;
    assert Backed(a, b, home, Some(name));
  }

  lemma BackedSecured(a: Fs, b: Fs, c: Fs, home: Ino, name: Option<Name>)
    requires Backed(a, b, home, name) && Secured(b, c, home) && ValidFs(c)
    ensures Backed(a, c, home, name) && SomeBacked(a, c, home)
  {
    hide ValidFs, Touch, SecuredMeta, BackedUp, Reach;
    SecuredTouch(b, c, home);
    TouchTrans(a, b, c, {home}, {});
    assert {home} + {} == {home};
    MetaTrans(a, b, c, home);
    assert BackedNames(a, c, home, name);
    assert Backed(a, c, home, name);
  }

  lemma BackedRefl(a: Fs, home: Ino)
    requires ValidFs(a)
    ensures Backed(a, a, home, None)
  {
  }

  /** A directory is locked if and only if it was, or was the legacy directory. */
  ghost predicate LockedBy(a: Fs, b: Fs, legacyHome: Option<Ino>) {
    forall i: Ino :: Locked(b, i) <==> Locked(a, i) || ConfigDir(a, legacyHome) == Ok(Some(i))
  }

  /** A directory is locked if and only if it was, or is this one. */
  ghost predicate LockedToo(a: Fs, b: Fs, dir: Ino) {
    forall i: Ino :: Locked(b, i) <==> Locked(a, i) || i == dir
  }

  lemma LockedThen(a: Fs, b: Fs, c: Fs, dir: Ino)
    requires SameMeta(a, b) && forall i: Ino :: Locked(c, i) <==> i == dir || Locked(b, i)
    ensures LockedToo(a, c, dir)
  {
    LockedSame(a, b);
  }

  lemma LockedConfig(a: Fs, legacyHome: Option<Ino>)
    ensures ConfigDir(a, legacyHome) == Ok(None) ==> LockedBy(a, a, legacyHome)
    ensures forall b: Fs, dir: Ino :: ConfigDir(a, legacyHome) == Ok(Some(dir)) && LockedToo(a, b, dir) ==>
      LockedBy(a, b, legacyHome)
  {
    hide Locked, ConfigDir;
  }

  lemma LockedSame(a: Fs, b: Fs)
    requires SameMeta(a, b)
    ensures forall i: Ino :: Locked(b, i) <==> Locked(a, i)
  {
  }

  lemma StillOpen(a: Fs, b: Fs, home: Ino, name: Name, config: Ino)
    requires Swing(a, b, home, LEGACY_CONFIG_DIR, name, config) && config in a.nodes && IsDir(a, home)
    ensures OpenAside(a, b, home, config) && SameMeta(a, b)
  {
    hide Touch, ValidFs;
  }

  /** The rename, then the lock-down: a kill or a fault between them leaves the directory as open as it was. */
  method SetAside(fs: FileSystem, home: Ino, config: Ino, ts: string)
    returns (r: Result<Name, Failure>, ghost name: Option<Name>)
    requires fs.Valid() && IsDir(fs.st, home)
    requires Bound(fs.st, home, LEGACY_CONFIG_DIR) == Some(config) && IsDir(fs.st, config)
    modifies fs
    ensures fs.Ran() && Backed(old(fs.st), fs.st, home, name)
    ensures forall k :: old(|fs.history|) <= k < |fs.history| ==> SomeBacked(old(fs.st), fs.history[k], home)
    ensures r.Ok? ==> name == Some(r.value) && LockedToo(old(fs.st), fs.st, config)
    ensures name.Some? ==> Stamped(".config." + ts + ".bak", name.value)
    ensures r.Ok? ==> PassedOpen(old(fs.st), fs.history, old(|fs.history|), home, config)
    ensures r.Err? ==> r.error == Failure(LegacyStage)
    ensures r.Ok? ==> fs.faults == old(fs.faults)
    ensures fs.faults == old(fs.faults) ==> r.Ok?
  {
    hide ValidFs, Touch, Swing, Backed, SomeBacked, Secured, LeastFree, Reach, Locked, LockedToo, BackedUp, SameMeta,
        OpenAside, PassedOpen, Stamped;
    ghost var a := fs.st;
    name := None;
    BackedRefl(a, home);
    assert LEGACY_CONFIG_DIR + "." == ".config.";
    var failed := Err(Failure(LegacyStage));
    var aside := RenameAside(fs, home, LEGACY_CONFIG_DIR, LEGACY_CONFIG_DIR + "." + ts + ".bak");
    if aside.Err? { return failed, None; }
    name := Some(aside.value);
    ghost var b, sofar := fs.st, fs.history;
    ConfigRenamed(a, b, sofar, old(|fs.history|), home, ts, aside.value, config);
    var locked := LockDown(fs, home, config);
    forall c: Fs | ValidFs(c) && Secured(b, c, home) ensures Backed(a, c, home, name) && SomeBacked(a, c, home) {
      BackedSecured(a, b, c, home, name);
    }
    if locked.Err? { return failed, name; }
    LockedThen(a, b, fs.st, config);
    PassedOpenMore(a, sofar, fs.history, old(|fs.history|), home, config);
    var sync := fs.Attempt();
    if sync.Err? { return failed, name; }
    r := Ok(aside.value);
  }

  /** `.config` goes by a fresh backup name, its tree untouched, and is root's alone once the call has succeeded. */
  method MoveConfigAside(fs: FileSystem, legacyHome: Option<Ino>, ts: string)
    returns (r: Result<Option<Move>, Failure>, ghost name: Option<Name>)
    requires fs.Valid()
    modifies fs
    ensures fs.Ran()
    ensures legacyHome.None? || !IsDir(old(fs.st), legacyHome.value) ==> fs.Looked() && name == None
    ensures legacyHome.Some? ==> Backed(old(fs.st), fs.st, legacyHome.value, name)
    ensures legacyHome.Some? ==>
      forall k :: old(|fs.history|) <= k < |fs.history| ==> SomeBacked(old(fs.st), fs.history[k], legacyHome.value)
    ensures r.Ok? ==>
      ConfigDir(old(fs.st), legacyHome).Ok? && (r.value.Some? <==> ConfigDir(old(fs.st), legacyHome).value.Some?)
    ensures r.Ok? ==>
      (r.value.Some? <==> name.Some?) && (name.Some? ==> r.value == Some(Move([LEGACY_CONFIG_DIR], [name.value])))
    ensures r == Ok(None) ==> fs.Looked()
    ensures name.Some? ==> Stamped(".config." + ts + ".bak", name.value)
    ensures r.Ok? ==> LockedBy(old(fs.st), fs.st, legacyHome)
    ensures r.Ok? && r.value.Some? ==>
      PassedOpen(old(fs.st), fs.history, old(|fs.history|), legacyHome.value,
                 ConfigDir(old(fs.st), legacyHome).value.value)
    ensures r.Err? ==> r.error == Failure(LegacyStage)
    ensures r.Ok? ==> fs.faults == old(fs.faults)
    ensures fs.faults == old(fs.faults) ==> (r.Ok? <==> ConfigDir(old(fs.st), legacyHome).Ok?)
  {
    hide ValidFs, Touch, Backed, SomeBacked, LockedToo, LockedBy, WalkDir, PassedOpen, Stamped;
    name := None;
    if legacyHome.Some? { BackedRefl(fs.st, legacyHome.value); }
    var failed := Err(Failure(LegacyStage));
    var root := OpenHome(fs, legacyHome);
    LockedConfig(fs.st, legacyHome);
    if root == Err(NoEnt) { return Ok(None), None; }
    if root.Err? { return failed, None; }
    var home := root.value;
    var found := FindDir(fs, home, [LEGACY_CONFIG_DIR]);
    OneStep(fs.st, home, LEGACY_CONFIG_DIR);
    if found.Err? { return failed, None; }
    if found.value.None? { return Ok(None), None; }
    var aside;
    aside, name := SetAside(fs, home, found.value.value, ts);
    if aside.Err? { return Err(aside.error), name; }
    r := Ok(Some(Move([LEGACY_CONFIG_DIR], [aside.value])));
  }

  lemma BackupPrefix(ts: string, name: Name)
    requires LEGACY_CONFIG_DIR + "." + ts + ".bak" <= name
    ensures BackedUp(name)
  {
    assert LEGACY_CONFIG_DIR + "." <= LEGACY_CONFIG_DIR + "." + ts + ".bak";
  }

  lemma BackedDir(a: Fs, b: Fs, home: Ino, name: Name, config: Ino)
    requires Backed(a, b, home, Some(name)) && OpenDir(a, home, LEGACY_CONFIG_DIR) == Ok(config)
    ensures IsDir(b, config) && Reach(b, home, config)
  {
    ReachSelf(b, home);
    ReachStep(b, home, home, name);
  }

  /** What the rename alone has done: the directory goes by a backup name, and is as open as it was. */
  lemma ConfigRenamed(a: Fs, b: Fs, h: seq<Fs>, from: nat, home: Ino, ts: string, name: Name, config: Ino)
    requires IsDir(a, home) && OpenDir(a, home, LEGACY_CONFIG_DIR) == Ok(config)
    requires Bound(a, home, LEGACY_CONFIG_DIR) == Some(config)
    requires Swing(a, b, home, LEGACY_CONFIG_DIR, name, config) && LEGACY_CONFIG_DIR + "." + ts + ".bak" <= name
    requires from < |h| && h[|h| - 1] == b
    ensures Backed(a, b, home, Some(name)) && SomeBacked(a, b, home) && SameMeta(a, b)
    ensures IsDir(b, config) && Reach(b, home, config)
    ensures PassedOpen(a, h, from, home, config)
  {
    hide Swing, ValidFs, Touch, Backed, SomeBacked, Reach, BackedUp, OpenAside, PassedOpen, SameMeta;
    BackupPrefix(ts, name);
    BackedSwing(a, b, home, name);
    BackedDir(a, b, home, name, config);
    StillOpen(a, b, home, name, config);
    PassedOpenBy(a, h, from, home, config, |h| - 1);
  }

  // ------------------------------------------------------------------ a user's directories

  /** The networks directory of one side, if it is there. */
  ghost function NetsDir(fs: Fs, home: Ino, l: UserLayout, place: Place): Option<Ino> {
    match Lookup(fs, home, Nets(l, place))
    case None => None
    case Some(d) => if IsDir(fs, d) then Some(d) else None
  }

  ghost function NetsAt(fs: Fs, u: User): set<Ino> {
    set d |
      d in fs.nodes.Keys && (NetsDir(fs, u.home, u.l, Data) == Some(d) || NetsDir(fs, u.home, u.l, Cache) == Some(d))
  }

  function EntryAt(fs: Fs, u: User, place: Place): Option<Ino> {
    Lookup(fs, u.home, NetworkDir(u.l, place, u.net))
  }

  ghost predicate SideReset(a: Fs, b: Fs, u: User, place: Place, aside: Option<Name>) {
    match NetsDir(a, u.home, u.l, place)
    case None => aside == None
    case Some(dir) => SideAside(a, b, dir, u.net, RESET, aside)
  }

  /** Each side's entry goes by a reset name, or is where it was; nothing else changed. */
  ghost predicate UserReset(a: Fs, b: Fs, u: User, data: Option<Name>, cache: Option<Name>) {
    && ValidFs(b) && SameMeta(a, b) && Touch(a, b, NetsAt(a, u)) && SideReset(a, b, u, Data, data)
    && SideReset(a, b, u, Cache, cache)
  }

  ghost predicate SomeReset(a: Fs, b: Fs, u: User) {
    exists x, y :: UserReset(a, b, u, x, y)
  }

  lemma ResetRefl(a: Fs, u: User)
    requires ValidFs(a)
    ensures UserReset(a, a, u, None, None) && SomeReset(a, a, u)
  {
    assert UserReset(a, a, u, None, None);
  }

  /** Different sides are different directories, and neither contains the other. */
  lemma NetsDiffer(a: Fs, u: User, place: Place, other: Place)
    requires ValidFs(a) && IsDir(a, u.home) && WellLaid(u.l) && place != other && NetsDir(a, u.home, u.l, place).Some?
    ensures NetsDir(a, u.home, u.l, place) != NetsDir(a, u.home, u.l, other)
  {
    if NetsDir(a, u.home, u.l, place) == NetsDir(a, u.home, u.l, other) {
      UniquePath(a, u.home, Nets(u.l, place), Nets(u.l, other));
    }
  }

  /** One more side. */
  lemma ResetData(a: Fs, b: Fs, u: User, name: Name)
    requires ValidFs(a) && IsDir(a, u.home) && WellLaid(u.l) && SideMoved(a, b, u, Data, name)
    ensures UserReset(a, b, u, Some(name), None) && SomeReset(a, b, u)
  {
    hide ValidFs, Touch, IsAside, SideAside, Renamed;
    var dir := NetsDir(a, u.home, u.l, Data).value;
    NetsDiffer(a, u, Data, Cache);
    TouchWider(a, b, {dir}, NetsAt(a, u));
    StillAll(a, u.net);
    match NetsDir(a, u.home, u.l, Cache) {
      case None =>
      case Some(other) => AsideElsewhere(a, a, b, other, dir, u.net, None, name);
    }
    AsideHere(a, a, b, dir, u.net, name);
    assert UserReset(a, b, u, Some(name), None);
  }

  lemma StillAll(a: Fs, net: Name)
    ensures forall dir: Ino :: SideAside(a, a, dir, net, RESET, None)
  {
  }

  lemma ResetCache(a: Fs, b: Fs, c: Fs, u: User, data: Option<Name>, name: Name)
    requires ValidFs(a) && IsDir(a, u.home) && WellLaid(u.l) && UserReset(a, b, u, data, None)
    requires SideMoved(b, c, u, Cache, name)
    requires NetsDir(b, u.home, u.l, Cache) == NetsDir(a, u.home, u.l, Cache)
    ensures UserReset(a, c, u, data, Some(name)) && SomeReset(a, c, u)
  {
    hide ValidFs, Touch, IsAside, SideAside, Renamed, SameMeta, NetsAt, NetsDir, WellLaid;
    var dir := NetsDir(a, u.home, u.l, Cache).value;
    NetsDiffer(a, u, Cache, Data);
    ResetCacheTouch(a, b, c, u, dir);
    match NetsDir(a, u.home, u.l, Data) {
      case None =>
      case Some(other) => AsideElsewhere(a, b, c, other, dir, u.net, data, name);
    }
    AsideHere(a, b, c, dir, u.net, name);
    assert UserReset(a, c, u, data, Some(name));
  }

  lemma ResetCacheTouch(a: Fs, b: Fs, c: Fs, u: User, dir: Ino)
    requires NetsDir(a, u.home, u.l, Cache) == Some(dir) && Touch(a, b, NetsAt(a, u)) && SameMeta(a, b)
    requires Touch(b, c, {dir}) && SameMeta(b, c)
    ensures Touch(a, c, NetsAt(a, u)) && SameMeta(a, c)
  {
    hide Touch, SameMeta;
    TouchWider(b, c, {dir}, NetsAt(a, u));
    TouchTrans(a, b, c, NetsAt(a, u), NetsAt(a, u));
    assert NetsAt(a, u) + NetsAt(a, u) == NetsAt(a, u);
    MetasTrans(a, b, c);
  }

  lemma MetasTrans(a: Fs, b: Fs, c: Fs)
    requires SameMeta(a, b) && SameMeta(b, c)
    ensures SameMeta(a, c)
  {
  }

  lemma AsideElsewhere(a: Fs, b: Fs, c: Fs, other: Ino, dir: Ino, net: Name, aside: Option<Name>, name: Name)
    requires SideAside(a, b, other, net, RESET, aside) && other != dir && Bound(b, dir, net).Some?
    requires Swing(b, c, dir, net, name, Bound(b, dir, net).value)
    ensures SideAside(a, c, other, net, RESET, aside)
  {
    hide ValidFs, Touch, IsAside;
  }

  lemma AsideHere(a: Fs, b: Fs, c: Fs, dir: Ino, net: Name, name: Name)
    requires SideAside(a, b, dir, net, RESET, None) && IsAside(net, RESET, name) && name != net
    requires Bound(b, dir, net).Some? && Swing(b, c, dir, net, name, Bound(b, dir, net).value)
    ensures SideAside(a, c, dir, net, RESET, Some(name))
  {
    hide ValidFs, Touch, IsAside;
  }

  /** No entry of the network on this side, and no directory in the way of looking. */
  predicate SideFree(fs: Fs, u: User, place: Place) {
    FreeAt(fs, u.home, Nets(u.l, place), u.net)
  }

  predicate SideOpen(fs: Fs, u: User, place: Place) {
    WalkDir(fs, u.home, Nets(u.l, place)).Ok?
  }

  lemma WalkIsNets(fs: Fs, u: User, place: Place)
    requires IsDir(fs, u.home)
    ensures SideOpen(fs, u, place) ==> WalkDir(fs, u.home, Nets(u.l, place)).value == NetsDir(fs, u.home, u.l, place)
  {
    WalkFinds(fs, u.home, Nets(u.l, place));
  }

  function ResetMove(u: User, place: Place, aside: Option<Name>): seq<Move> {
    match aside case None => [] case Some(n) => [AsideMove(u.l, place, u.net, n)]
  }

  /** This side's entry went by the reset name `name`. */
  ghost predicate SideMoved(a: Fs, b: Fs, u: User, place: Place, name: Name) {
    match NetsDir(a, u.home, u.l, place)
    case None => false
    case Some(dir) =>
      && IsAside(u.net, RESET, name) && name != u.net && Bound(a, dir, u.net).Some?
      && Swing(a, b, dir, u.net, name, Bound(a, dir, u.net).value)
  }

  /** One round of the loop: a side whose directory is there has its entry renamed. */
  method MoveSideAside(fs: FileSystem, u: User, place: Place, ts: string) returns (r: Result<Option<Name>, Failure>)
    requires fs.Valid() && IsDir(fs.st, u.home) && ValidNetwork(u.net)
    modifies fs
    ensures r.Err? || r == Ok(None) ==> fs.Looked()
    ensures r.Err? ==> r.error == Failure(DestinationStage)
    ensures r.Ok? ==> SideOpen(old(fs.st), u, place) && (r.value == None <==> SideFree(old(fs.st), u, place))
    ensures r.Ok? && r.value.Some? ==> fs.Stepped() && SideMoved(old(fs.st), fs.st, u, place, r.value.value)
    ensures r.Ok? && r.value.Some? ==> Stamped(u.net + ".reset-" + ts, r.value.value)
    ensures r.Ok? ==> fs.faults == old(fs.faults)
    ensures fs.faults == old(fs.faults) ==> (r.Ok? <==> SideOpen(old(fs.st), u, place))
  {
    hide ValidFs, Touch, Swing, LeastFree, IsAside, WalkDir, Nets, Lookup, ValidNetwork, Stamped, AsideName;
    ghost var a := fs.st;
    NamesSpelled(u.net, ts, "");
    WalkIsNets(a, u, place);
    var found := FindDir(fs, u.home, Nets(u.l, place));
    if found.Err? { return Err(Failure(DestinationStage)); }
    if found.value.None? { return Ok(None); }
    NetsIsDir(a, u, place);
    r := MoveAsideIn(fs, found.value.value, u.net, RESET, ts);
  }

  /** One rename a side at most, within directories that were there. A failure on the cache side may leave the data
      side moved. */
  method MoveUserDirsAside(fs: FileSystem, u: User, ts: string)
    returns (r: Result<seq<Move>, Failure>, ghost data: Option<Name>, ghost cache: Option<Name>)
    requires fs.Valid() && WellLaid(u.l) && ValidNetwork(u.net)
    modifies fs
    ensures r.Ok? ==> IsDir(old(fs.st), u.home)
    ensures !IsDir(old(fs.st), u.home) ==> fs.Looked()
    ensures fs.Ran() && UserReset(old(fs.st), fs.st, u, data, cache) && SomeReset(old(fs.st), fs.st, u)
    ensures forall k :: old(|fs.history|) <= k < |fs.history| ==> SomeReset(old(fs.st), fs.history[k], u)
    ensures r.Ok? ==> SideOpen(old(fs.st), u, Data) && (data == None <==> SideFree(old(fs.st), u, Data))
    ensures r.Ok? ==> SideOpen(old(fs.st), u, Cache) && (cache == None <==> SideFree(old(fs.st), u, Cache))
    ensures r.Ok? ==> r.value == ResetMove(u, Data, data) + ResetMove(u, Cache, cache)
    ensures r.Ok? && r.value == [] ==> fs.Looked()
    ensures data.Some? ==> Stamped(u.net + ".reset-" + ts, data.value)
    ensures cache.Some? ==> Stamped(u.net + ".reset-" + ts, cache.value)
    ensures r.Err? ==> r.error == Failure(DestinationStage)
    ensures r.Ok? ==> fs.faults == old(fs.faults)
    ensures fs.faults == old(fs.faults) ==>
      (r.Ok? <==> IsDir(old(fs.st), u.home) && SideOpen(old(fs.st), u, Data) && SideOpen(old(fs.st), u, Cache))
  {
    hide ValidFs, UserReset, SomeReset, WellLaid, ValidNetwork, IsDir, SideOpen, SideFree, SideMoved, AsideMove,
        Stamped;
    ghost var a := fs.st;
    ResetRefl(a, u);
    data, cache := None, None;
    var root := OpenHome(fs, Some(u.home));
    if root.Err? { return Err(Failure(DestinationStage)), None, None; }
    var first := MoveSideAside(fs, u, Data, ts);
    if first.Err? { return Err(first.error), None, None; }
    data := first.value;
    if data.Some? { ResetData(a, fs.st, u, data.value); }
    ghost var b := fs.st;
    ResetWalk(a, b, u, data);
    var second := MoveSideAside(fs, u, Cache, ts);
    if second.Err? { return Err(second.error), data, None; }
    cache := second.value;
    if cache.Some? { ResetCache(a, b, fs.st, u, data, cache.value); }
    r := Ok(ResetMove(u, Data, first.value) + ResetMove(u, Cache, second.value));
  }

  lemma NetsIsDir(a: Fs, u: User, place: Place)
    requires NetsDir(a, u.home, u.l, place).Some?
    ensures IsDir(a, NetsDir(a, u.home, u.l, place).value)
  {
  }

  /** A networks directory is never above one, so paths to them stay as they are. */
  lemma NetsStay(a: Fs, b: Fs, u: User, place: Place)
    requires ValidFs(a) && IsDir(a, u.home) && WellLaid(u.l) && Touch(a, b, NetsAt(a, u))
    ensures forall k: nat :: k <= |Nets(u.l, place)| ==>
      Lookup(b, u.home, Nets(u.l, place)[..k]) == Lookup(a, u.home, Nets(u.l, place)[..k])
  {
    hide Touch, ValidFs;
    var p := Nets(u.l, place);
    forall k: nat | k <= |p| ensures Lookup(b, u.home, p[..k]) == Lookup(a, u.home, p[..k]) {
      forall j: nat | j < |p[..k]| && Lookup(a, u.home, p[..k][..j]).Some?
        ensures Lookup(a, u.home, p[..k][..j]).value !in NetsAt(a, u)
      {
        assert p[..k][..j] == p[..j];
        if o: Place :| NetsDir(a, u.home, u.l, o) == Lookup(a, u.home, p[..j]) {
          assert Nets(u.l, o) + [] == Nets(u.l, o);
          NotAbove(u.l, place, j, o, []);
          UniquePath(a, u.home, p[..j], Nets(u.l, o));
        }
      }
      LookupAlong(a, b, NetsAt(a, u), u.home, p[..k]);
    }
  }

  lemma CacheWalk(a: Fs, b: Fs, u: User, data: Option<Name>)
    requires ValidFs(a) && IsDir(a, u.home) && WellLaid(u.l) && UserReset(a, b, u, data, None)
    ensures IsDir(b, u.home) && WalkDir(b, u.home, Nets(u.l, Cache)) == WalkDir(a, u.home, Nets(u.l, Cache))
    ensures NetsDir(b, u.home, u.l, Cache) == NetsDir(a, u.home, u.l, Cache)
  {
    hide ValidFs, Touch, WalkDir, Lookup, WellLaid, NetsAt;
    NetsStay(a, b, u, Cache);
    SameKinds(a, b);
    WalkAgrees(a, b, u.home, Nets(u.l, Cache));
    assert Nets(u.l, Cache)[..|Nets(u.l, Cache)|] == Nets(u.l, Cache);
  }

  /** Moving the data side does not change how the cache side is found, nor what is there. */
  lemma ResetWalk(a: Fs, b: Fs, u: User, data: Option<Name>)
    requires ValidFs(a) && IsDir(a, u.home) && WellLaid(u.l) && UserReset(a, b, u, data, None)
    ensures IsDir(b, u.home) && NetsDir(b, u.home, u.l, Cache) == NetsDir(a, u.home, u.l, Cache)
    ensures SideOpen(b, u, Cache) <==> SideOpen(a, u, Cache)
    ensures SideFree(b, u, Cache) <==> SideFree(a, u, Cache)
  {
    hide ValidFs, Touch, WalkDir, Lookup, WellLaid, NetsAt;
    CacheWalk(a, b, u, data);
    WalkIsNets(a, u, Cache);
  }

  lemma SameKinds(a: Fs, b: Fs)
    requires SameMeta(a, b)
    ensures forall i: Ino :: IsDir(b, i) <==> IsDir(a, i)
  {
  }

  /** Equal resolution of every prefix to equal kinds makes equal walks. */
  lemma WalkAgrees(a: Fs, b: Fs, root: Ino, p: Path)
    requires IsDir(a, root) && (forall i: Ino :: IsDir(b, i) <==> IsDir(a, i))
    requires forall k: nat :: k <= |p| ==> Lookup(b, root, p[..k]) == Lookup(a, root, p[..k])
    ensures WalkDir(b, root, p) == WalkDir(a, root, p)
  {
    hide IsDir, Lookup;
    WalkBlocked(a, root, p);
    WalkBlocked(b, root, p);
    WalkFinds(a, root, p);
    WalkFinds(b, root, p);
    assert p[..|p|] == p;
    if WalkDir(a, root, p).Err? {
      var k: nat :| k <= |p| && Lookup(a, root, p[..k]).Some? && !IsDir(a, Lookup(a, root, p[..k]).value);
      assert Lookup(b, root, p[..k]).Some? && !IsDir(b, Lookup(b, root, p[..k]).value);
    } else if WalkDir(a, root, p).value.Some? {
      assert Lookup(b, root, p) == Lookup(a, root, p);
    } else if WalkDir(b, root, p).value.Some? {
      assert Lookup(b, root, p) == Lookup(a, root, p);
    }
  }

  // ------------------------------------------------------------------ what a reset keeps

  ghost predicate ResetName(net: Name, n: Name) {
    n == net || IsAside(net, RESET, n)
  }

  /** A user's identity is bound, its tree unchanged, under the network name or a reset name. */
  ghost predicate IdentityKept(s0: Fs, s: Fs, u: User, place: Place) {
    var e := EntryAt(s0, u, place);
    e.Some? ==>
      SameTree(s0, s, e.value) && exists n :: ResetName(u.net, n) && Lookup(s, u.home, Nets(u.l, place) + [n]) == e
  }

  /** Every entry of the legacy home is bound, its tree unchanged, under its old name, or a backup name for `.config`.
      */
  ghost predicate LegacyKept(s0: Fs, s: Fs, home: Ino) {
    forall n: Name :: Bound(s0, home, n).Some? ==>
      && SameTree(s0, s, Bound(s0, home, n).value)
      && exists m: Name :: KeptAs(n, m) && Bound(s, home, m) == Bound(s0, home, n)
  }

  predicate KeptAs(n: Name, m: Name) {
    m == n || (n == LEGACY_CONFIG_DIR && BackedUp(m))
  }

  ghost predicate NothingLost(s0: Fs, s: Fs, req: Clean) {
    && (req.legacyHome.Some? ==> LegacyKept(s0, s, req.legacyHome.value))
    && (req.user.Some? ==> IdentityKept(s0, s, req.user.value, Data) && IdentityKept(s0, s, req.user.value, Cache))
  }

  lemma BackedKeeps(s0: Fs, c: Fs, home: Ino, name: Option<Name>)
    requires ValidFs(s0) && Backed(s0, c, home, name)
    ensures LegacyKept(s0, c, home)
  {
    hide Touch, ValidFs, SameTree, SecuredMeta, BackedUp;
    forall n: Name | Bound(s0, home, n).Some?
      ensures SameTree(s0, c, Bound(s0, home, n).value)
      ensures exists m: Name :: KeptAs(n, m) && Bound(c, home, m) == Bound(s0, home, n)
    {
      EntryInNodes(s0, home, n);
      HomeEntryApart(s0, home, n);
      TreeFrame(s0, c, {home}, Bound(s0, home, n).value);
      var m := if n == LEGACY_CONFIG_DIR && name.Some? then name.value else n;
      assert KeptAs(n, m) && Bound(c, home, m) == Bound(s0, home, n);
    }
  }

  /** Backing the legacy directory up does not touch a home that is apart from it. */
  lemma BackedApart(s0: Fs, c: Fs, home: Ino, name: Option<Name>, other: Ino)
    requires ValidFs(s0) && Backed(s0, c, home, name) && other in s0.nodes && Apart(s0, other, home)
    ensures SameTree(s0, c, other)
  {
    hide SecuredMeta, BackedNames, BackedUp, SameTree;
    TreeFrame(s0, c, {home}, other);
  }

  lemma TreeNames(a: Fs, b: Fs, root: Ino, p: Path, x: Ino)
    requires SameTree(a, b, root) && Lookup(a, root, p) == Some(x)
    ensures Lookup(b, root, p) == Some(x) && SameTree(a, b, x)
  {
    forall q: Path
      ensures Lookup(b, x, q) == Lookup(a, x, q)
      ensures Lookup(a, x, q).Some? && Lookup(a, x, q).value in a.nodes ==>
        Lookup(a, x, q).value in b.nodes && SameBody(a.nodes[Lookup(a, x, q).value], b.nodes[Lookup(a, x, q).value])
    {
      LookupAppend(a, root, p, q);
      LookupAppend(b, root, p, q);
      assert Lookup(b, root, p + q) == Lookup(a, root, p + q);
    }
  }

  /** A reset renames inside the networks directories only. */
  lemma ResetKeeps(c: Fs, b: Fs, u: User, data: Option<Name>, cache: Option<Name>, place: Place)
    requires ValidFs(c) && IsDir(c, u.home) && WellLaid(u.l) && UserReset(c, b, u, data, cache)
    ensures IdentityKept(c, b, u, place)
    ensures (if place.Data? then data else cache).Some? ==> EntryAt(b, u, place) == None
  {
    hide Touch, ValidFs, SameTree, SameMeta, SideAside, NetsAt, WellLaid, IdentityKept, Nets;
    NetsStay(c, b, u, place);
    if NetsDir(c, u.home, u.l, place).Some? {
      SideKeeps(c, b, u, place, NetsDir(c, u.home, u.l, place).value, if place.Data? then data else cache);
    } else if EntryAt(c, u, place).Some? {
      EntryParent(c, u, place);
    } else {
      NoEntryKept(c, b, u, place);
    }
  }

  lemma NoEntryKept(c: Fs, b: Fs, u: User, place: Place)
    requires EntryAt(c, u, place) == None
    ensures IdentityKept(c, b, u, place)
  {
  }

  lemma SideKeeps(c: Fs, b: Fs, u: User, place: Place, dir: Ino, aside: Option<Name>)
    requires ValidFs(c) && IsDir(c, u.home) && WellLaid(u.l) && Touch(c, b, NetsAt(c, u))
    requires NetsDir(c, u.home, u.l, place) == Some(dir)
    requires SideAside(c, b, dir, u.net, RESET, aside)
    requires forall k: nat :: k <= |Nets(u.l, place)| ==>
      Lookup(b, u.home, Nets(u.l, place)[..k]) == Lookup(c, u.home, Nets(u.l, place)[..k])
    ensures IdentityKept(c, b, u, place)
    ensures aside.Some? ==> EntryAt(b, u, place) == None
  {
    hide Touch, ValidFs, SameTree, IsAside, WellLaid, NetsAt, Nets;
    assert Nets(u.l, place)[..|Nets(u.l, place)|] == Nets(u.l, place);
    LookupLast(b, u.home, Nets(u.l, place), u.net);
    LookupLast(c, u.home, Nets(u.l, place), u.net);
    if EntryAt(c, u, place).Some? {
      EntryParent(c, u, place);
      EntryAway(c, u, place);
      TreeFrame(c, b, NetsAt(c, u), EntryAt(c, u, place).value);
      var n := if aside.Some? then aside.value else u.net;
      LookupLast(b, u.home, Nets(u.l, place), n);
      assert ResetName(u.net, n);
    }
  }

  lemma EntryParent(c: Fs, u: User, place: Place)
    requires ValidFs(c) && EntryAt(c, u, place).Some?
    ensures NetsDir(c, u.home, u.l, place).Some?
    ensures Bound(c, NetsDir(c, u.home, u.l, place).value, u.net) == EntryAt(c, u, place)
    ensures EntryAt(c, u, place).value in c.nodes
  {
    LookupLast(c, u.home, Nets(u.l, place), u.net);
  }

  lemma EntryAway(c: Fs, u: User, place: Place)
    requires ValidFs(c) && IsDir(c, u.home) && WellLaid(u.l) && EntryAt(c, u, place).Some?
    ensures forall i: Ino :: i in NetsAt(c, u) ==> !Reach(c, EntryAt(c, u, place).value, i)
  {
    forall i: Ino | i in NetsAt(c, u) ensures !Reach(c, EntryAt(c, u, place).value, i) {
      var o := if NetsDir(c, u.home, u.l, Data) == Some(i) then Data else Cache;
      NotPrefix(u.l, place, u.net, o, []);
      assert Nets(u.l, o) + [] == Nets(u.l, o);
      NotUnder(c, u.home, NetworkDir(u.l, place, u.net), EntryAt(c, u, place).value, Nets(u.l, o), i);
    }
  }

  // ------------------------------------------------------------------ the command

  /** The legacy half of a reset. */
  ghost predicate LegacyHalf(s0: Fs, c: Fs, req: Clean, name: Option<Name>) {
    match req.legacyHome
    case None => c == s0 && name == None
    case Some(h) => Backed(s0, c, h, name)
  }

  /** The user's home after the legacy half: the same tree, still apart from the legacy home. */
  lemma HalfApart(s0: Fs, c: Fs, req: Clean, name: Option<Name>)
    requires ValidFs(s0) && GoodClean(s0, req) && req.user.Some? && LegacyHalf(s0, c, req, name)
    requires ConfigDir(s0, req.legacyHome).Ok? && IsDir(s0, req.user.value.home)
    ensures SameTree(s0, c, req.user.value.home) && IsDir(c, req.user.value.home) && ValidFs(c)
    ensures forall i: Ino :: IsDir(c, i) <==> IsDir(s0, i)
    ensures req.legacyHome.Some? ==>
      IsDir(c, req.legacyHome.value) && Apart(c, req.user.value.home, req.legacyHome.value)
  {
    hide Touch, SameTree, WellLaid, ValidNetwork, BackedNames, SecuredMeta, Reach;
    var home := req.user.value.home;
    if req.legacyHome.Some? {
      var h := req.legacyHome.value;
      BackedApart(s0, c, h, name, home);
      assert IsDir(s0, h) && Reach(s0, h, h) by { ReachSelf(s0, h); }
      ApartKept(s0, c, {h}, h, home);
      TouchKinds(s0, c, {h});
    } else {
      SameTreeRefl(s0, home);
    }
  }

  lemma TouchKinds(a: Fs, b: Fs, e: set<Ino>)
    requires Touch(a, b, e) && b.nodes.Keys == a.nodes.Keys
    ensures forall i: Ino :: IsDir(b, i) <==> IsDir(a, i)
  {
  }

  /** Nothing a reset changes for the user lies in the legacy home. */
  lemma UserAway(c: Fs, b: Fs, u: User, h: Ino, data: Option<Name>, cache: Option<Name>)
    requires ValidFs(c) && IsDir(c, h) && Apart(c, u.home, h) && UserReset(c, b, u, data, cache)
    ensures SameTree(c, b, h)
  {
    hide Touch, Reach;
    forall i: Ino | i in NetsAt(c, u) ensures !Reach(c, h, i) {
      var o := if NetsDir(c, u.home, u.l, Data) == Some(i) then Data else Cache;
      if Reach(c, h, i) {
        var t := PathTo(c, h, i);
        ReachBy(c, u.home, Nets(u.l, o), i);
        MeetApart(c, u.home, Nets(u.l, o), h, t);
      }
    }
    TreeFrame(c, b, NetsAt(c, u), h);
  }

  lemma HalfSafe(s0: Fs, c: Fs, req: Clean, name: Option<Name>)
    requires ValidFs(s0) && GoodClean(s0, req) && LegacyHalf(s0, c, req, name)
    ensures NothingLost(s0, c, req)
  {
    hide Touch, SameTree, WellLaid, ValidNetwork, BackedNames, SecuredMeta, Reach, LegacyKept, IdentityKept, ValidFs;
    forall x: Ino ensures SameTree(s0, s0, x) { SameTreeRefl(s0, x); }
    if req.legacyHome.Some? { BackedKeeps(s0, c, req.legacyHome.value, name); }
    if req.user.Some? {
      var u := req.user.value;
      if IsDir(s0, u.home) {
        if req.legacyHome.Some? { BackedApart(s0, c, req.legacyHome.value, name, u.home); }
        HomeKept(s0, c, u, Data);
        HomeKept(s0, c, u, Cache);
      } else {
        HomeMissing(s0, c, u, Data);
        HomeMissing(s0, c, u, Cache);
      }
    }
  }

  lemma HomeKept(s0: Fs, c: Fs, u: User, place: Place)
    requires SameTree(s0, c, u.home)
    ensures IdentityKept(s0, c, u, place) && EntryAt(c, u, place) == EntryAt(s0, u, place)
  {
    if EntryAt(s0, u, place).Some? {
      TreeNames(s0, c, u.home, NetworkDir(u.l, place, u.net), EntryAt(s0, u, place).value);
      assert ResetName(u.net, u.net);
      assert Lookup(c, u.home, Nets(u.l, place) + [u.net]) == EntryAt(s0, u, place);
    }
  }

  /** No home, no entries. */
  lemma HomeMissing(s0: Fs, c: Fs, u: User, place: Place)
    requires !IsDir(s0, u.home)
    ensures IdentityKept(s0, c, u, place)
  {
    var p := NetworkDir(u.l, place, u.net);
    assert p != [] && Bound(s0, u.home, p[0]) == None;
  }

  lemma IdentityTwice(s0: Fs, c: Fs, b: Fs, u: User, place: Place)
    requires SameTree(s0, c, u.home) && IdentityKept(c, b, u, place)
    ensures IdentityKept(s0, b, u, place)
  {
    hide SameTree, IsAside;
    HomeKept(s0, c, u, place);
    if EntryAt(s0, u, place).Some? { SameTreeTrans(s0, c, b, EntryAt(s0, u, place).value); }
  }

  lemma LegacyTwice(s0: Fs, c: Fs, b: Fs, h: Ino)
    requires LegacyKept(s0, c, h) && SameTree(c, b, h)
    ensures LegacyKept(s0, b, h)
  {
    hide SameTree, BackedUp;
    forall n: Name | Bound(s0, h, n).Some?
      ensures SameTree(s0, b, Bound(s0, h, n).value)
      ensures exists m: Name :: KeptAs(n, m) && Bound(b, h, m) == Bound(s0, h, n)
    {
      var m: Name :| KeptAs(n, m) && Bound(c, h, m) == Bound(s0, h, n);
      SameTreeBelow(c, b, h, m, Bound(s0, h, n).value);
      SameTreeTrans(s0, c, b, Bound(s0, h, n).value);
    }
  }

  /** Both halves together. */
  lemma WholeSafe(s0: Fs, c: Fs, b: Fs, req: Clean, name: Option<Name>)
    requires ValidFs(s0) && GoodClean(s0, req) && req.user.Some? && LegacyHalf(s0, c, req, name)
    requires ConfigDir(s0, req.legacyHome).Ok? && IsDir(s0, req.user.value.home)
    requires SomeReset(c, b, req.user.value)
    ensures NothingLost(s0, b, req)
    ensures req.legacyHome.Some? ==> SameTree(c, b, req.legacyHome.value)
  {
    hide Touch, SameTree, ValidNetwork, Reach, LegacyKept, IdentityKept, ValidFs, UserReset, Backed;
    var u := req.user.value;
    HalfApart(s0, c, req, name);
    HalfSafe(s0, c, req, name);
    var data, cache :| UserReset(c, b, u, data, cache);
    ResetKeeps(c, b, u, data, cache, Data);
    ResetKeeps(c, b, u, data, cache, Cache);
    IdentityTwice(s0, c, b, u, Data);
    IdentityTwice(s0, c, b, u, Cache);
    if req.legacyHome.Some? {
      UserAway(c, b, u, req.legacyHome.value, data, cache);
      LegacyTwice(s0, c, b, req.legacyHome.value);
    }
  }

  /** Nothing for a reset to do: no legacy directory and, for the user, no identity. */
  ghost predicate NothingLeft(fs: Fs, req: Clean) {
    && ConfigDir(fs, req.legacyHome) == Ok(None)
    && (req.user.Some? ==> SideFree(fs, req.user.value, Data) && SideFree(fs, req.user.value, Cache))
  }

  ghost predicate Clear(fs: Fs, req: Clean) {
    && ConfigDir(fs, req.legacyHome).Ok?
    && (req.user.Some? ==>
      IsDir(fs, req.user.value.home) && SideOpen(fs, req.user.value, Data) && SideOpen(fs, req.user.value, Cache))
  }

  /** The user's side looks the same before and after the legacy half. */
  lemma HalfLooksSame(s0: Fs, c: Fs, req: Clean, name: Option<Name>, place: Place)
    requires ValidFs(s0) && GoodClean(s0, req) && req.user.Some? && LegacyHalf(s0, c, req, name)
    requires ConfigDir(s0, req.legacyHome).Ok? && IsDir(s0, req.user.value.home)
    ensures SideOpen(c, req.user.value, place) <==> SideOpen(s0, req.user.value, place)
    ensures SideFree(c, req.user.value, place) <==> SideFree(s0, req.user.value, place)
  {
    hide Touch, ValidNetwork, ValidFs, Backed, Lookup, WellLaid, Nets;
    var u := req.user.value;
    var p := Nets(u.l, place);
    HalfApart(s0, c, req, name);
    forall k: nat | k <= |p| ensures Lookup(c, u.home, p[..k]) == Lookup(s0, u.home, p[..k]) { }
    WalkAgrees(s0, c, u.home, p);
    WalkFinds(s0, u.home, p);
    if WalkDir(s0, u.home, p).Ok? && WalkDir(s0, u.home, p).value.Some? {
      LookupLast(s0, u.home, p, u.net);
      LookupLast(c, u.home, p, u.net);
      HomeKept(s0, c, u, place);
    }
  }

  lemma SideDone(c: Fs, b: Fs, u: User, data: Option<Name>, cache: Option<Name>, place: Place)
    requires ValidFs(c) && IsDir(c, u.home) && WellLaid(u.l) && UserReset(c, b, u, data, cache) && SideOpen(c, u, place)
    requires (if place.Data? then data else cache) == None ==> SideFree(c, u, place)
    ensures SideFree(b, u, place)
  {
    hide ValidFs, Touch, Lookup, WellLaid, IsAside, WalkDir;
    NetsStay(c, b, u, place);
    SameKinds(c, b);
    WalkAgrees(c, b, u.home, Nets(u.l, place));
    WalkFinds(c, u.home, Nets(u.l, place));
  }

  lemma ConfigDone(s0: Fs, c: Fs, b: Fs, req: Clean, name: Option<Name>)
    requires LegacyHalf(s0, c, req, name) && ConfigDir(s0, req.legacyHome).Ok?
    requires name == None ==> ConfigDir(s0, req.legacyHome) == Ok(None)
    requires req.legacyHome.Some? ==> SameTree(c, b, req.legacyHome.value) && IsDir(b, req.legacyHome.value)
    ensures ConfigDir(b, req.legacyHome) == Ok(None)
  {
    if req.legacyHome.Some? {
      var h := req.legacyHome.value;
      OneName(c, h, LEGACY_CONFIG_DIR);
      OneName(b, h, LEGACY_CONFIG_DIR);
      assert Lookup(b, h, [LEGACY_CONFIG_DIR]) == Lookup(c, h, [LEGACY_CONFIG_DIR]);
      assert name.Some? ==> BackedName(s0, h, name, LEGACY_CONFIG_DIR) == None;
    }
  }

  lemma ConfigGoneAfter(s0: Fs, c: Fs, req: Clean, name: Option<Name>)
    requires LegacyHalf(s0, c, req, name) && ConfigDir(s0, req.legacyHome).Ok?
    requires name == None ==> ConfigDir(s0, req.legacyHome) == Ok(None)
    ensures ConfigDir(c, req.legacyHome) == Ok(None)
  {
    if req.legacyHome.Some? {
      SameTreeRefl(c, req.legacyHome.value);
      TouchKinds(s0, c, {req.legacyHome.value});
    }
    ConfigDone(s0, c, c, req, name);
  }

  lemma WholeDone(s0: Fs, c: Fs, b: Fs, req: Clean, name: Option<Name>, data: Option<Name>, cache: Option<Name>)
    requires ValidFs(s0) && GoodClean(s0, req) && req.user.Some? && LegacyHalf(s0, c, req, name)
    requires ConfigDir(s0, req.legacyHome).Ok? && IsDir(s0, req.user.value.home)
    requires name == None ==> ConfigDir(s0, req.legacyHome) == Ok(None)
    requires UserReset(c, b, req.user.value, data, cache)
    requires SideOpen(c, req.user.value, Data) && SideOpen(c, req.user.value, Cache)
    requires data == None <==> SideFree(c, req.user.value, Data)
    requires cache == None <==> SideFree(c, req.user.value, Cache)
    ensures NothingLeft(b, req)
    ensures NothingLeft(s0, req) <==> name == None && data == None && cache == None
  {
    hide *;
    var u := req.user.value;
    GoodUser(s0, req);
    HalfApart(s0, c, req, name);
    HalfLooksSame(s0, c, req, name, Data);
    HalfLooksSame(s0, c, req, name, Cache);
    SideDone(c, b, u, data, cache, Data);
    SideDone(c, b, u, data, cache, Cache);
    SomeResetBy(c, b, u, data, cache);
    WholeSafe(s0, c, b, req, name);
    if req.legacyHome.Some? { KindAfter(c, b, u, data, cache, req.legacyHome.value); }
    ConfigDone(s0, c, b, req, name);
    if name.Some? { NameMeansThere(s0, c, req, name); }
    LeftIs(s0, req);
    LeftIs(b, req);
  }

  lemma SomeResetBy(c: Fs, b: Fs, u: User, data: Option<Name>, cache: Option<Name>)
    requires UserReset(c, b, u, data, cache)
    ensures SomeReset(c, b, u)
  {
  }

  lemma LeftIs(fs: Fs, req: Clean)
    requires req.user.Some?
    ensures NothingLeft(fs, req) <==>
      && ConfigDir(fs, req.legacyHome) == Ok(None) && SideFree(fs, req.user.value, Data)
      && SideFree(fs, req.user.value, Cache)
  {
  }

  lemma NameMeansThere(s0: Fs, c: Fs, req: Clean, name: Option<Name>)
    requires LegacyHalf(s0, c, req, name) && name.Some?
    ensures ConfigDir(s0, req.legacyHome) != Ok(None)
  {
  }

  lemma KindAfter(c: Fs, b: Fs, u: User, data: Option<Name>, cache: Option<Name>, i: Ino)
    requires UserReset(c, b, u, data, cache) && IsDir(c, i)
    ensures IsDir(b, i)
  {
  }

  lemma HalfKinds(s0: Fs, c: Fs, req: Clean, name: Option<Name>)
    requires LegacyHalf(s0, c, req, name)
    ensures forall i: Ino :: IsDir(c, i) <==> IsDir(s0, i)
  {
    if req.legacyHome.Some? { TouchKinds(s0, c, {req.legacyHome.value}); }
  }

  function MovedBy(req: Clean, name: Option<Name>, data: Option<Name>, cache: Option<Name>): seq<Move> {
    (match name case None => [] case Some(n) => [Move([LEGACY_CONFIG_DIR], [n])])
    + match req.user case None => [] case Some(u) => ResetMove(u, Data, data) + ResetMove(u, Cache, cache)
  }

  lemma NameLeads(s0: Fs, c: Fs, req: Clean, name: Option<Name>)
    requires LegacyHalf(s0, c, req, name) && name.Some?
    ensures req.legacyHome.Some?
    ensures Bound(c, req.legacyHome.value, name.value) == Bound(s0, req.legacyHome.value, LEGACY_CONFIG_DIR)
  {
  }

  lemma WholeGood(s0: Fs, c: Fs, b: Fs, req: Clean, name: Option<Name>, data: Option<Name>, cache: Option<Name>)
    requires ValidFs(s0) && GoodClean(s0, req) && req.user.Some? && LegacyHalf(s0, c, req, name)
    requires ConfigDir(s0, req.legacyHome).Ok? && IsDir(s0, req.user.value.home)
    requires UserReset(c, b, req.user.value, data, cache)
    ensures GoodClean(b, req) && IsDir(b, req.user.value.home)
  {
    hide LegacyHalf, ValidFs, WellLaid, ValidNetwork, ConfigDir, Touch, SideReset, Reach, SameTree;
    var u := req.user.value;
    HalfApart(s0, c, req, name);
    KindAfter(c, b, u, data, cache, u.home);
    if req.legacyHome.Some? {
      forall i: Ino | i in NetsAt(c, u) ensures Reach(c, u.home, i) && IsDir(c, i) {
        ReachBy(c, u.home, Nets(u.l, if NetsDir(c, u.home, u.l, Data) == Some(i) then Data else Cache), i);
      }
      ApartKept(c, b, NetsAt(c, u), u.home, req.legacyHome.value);
    }
  }

  /** The legacy half and, if a user is given, the user's half: whatever fails, every entry of both keeps its tree
      under its own or a new name. Success leaves nothing for a second reset; without a user only the legacy home is
      touched. */
  method StartClean(fs: FileSystem, req: Clean)
    returns (r: Result<Outcome, Failure>, ghost name: Option<Name>, ghost data: Option<Name>, ghost cache: Option<Name>)
    requires fs.Valid() && GoodClean(fs.st, req)
    modifies fs
    ensures fs.Ran() && NothingLost(old(fs.st), fs.st, req)
    ensures r.Ok? ==> GoodClean(fs.st, req) && (req.user.Some? ==> IsDir(fs.st, req.user.value.home))
    ensures forall k :: old(|fs.history|) <= k < |fs.history| ==> NothingLost(old(fs.st), fs.history[k], req)
    ensures req.user == None ==>
      fs.st == old(fs.st) || (req.legacyHome.Some? && SomeBacked(old(fs.st), fs.st, req.legacyHome.value))
    ensures r.Ok? ==> r.value.NothingToDo? || r.value.StartedClean?
    ensures r.Ok? ==> Clear(old(fs.st), req) && NothingLeft(fs.st, req)
    ensures r.Ok? ==> (r.value.NothingToDo? <==> NothingLeft(old(fs.st), req))
    ensures r.Ok? && r.value.NothingToDo? ==> fs.Looked()
    ensures r.Ok? && r.value.StartedClean? ==> r.value.moved == MovedBy(req, name, data, cache)
    ensures name.Some? ==> Stamped(".config." + req.ts + ".bak", name.value)
    ensures req.user.Some? && data.Some? ==> Stamped(req.user.value.net + ".reset-" + req.ts, data.value)
    ensures req.user.Some? && cache.Some? ==> Stamped(req.user.value.net + ".reset-" + req.ts, cache.value)
    ensures r.Ok? && name.Some? ==>
      && req.legacyHome.Some?
      && Bound(fs.st, req.legacyHome.value, name.value) == Bound(old(fs.st), req.legacyHome.value, LEGACY_CONFIG_DIR)
    ensures r.Ok? ==> LockedBy(old(fs.st), fs.st, req.legacyHome)
    ensures r.Ok? ==>
      ConfigDir(old(fs.st), req.legacyHome).Ok? && (name.Some? <==> ConfigDir(old(fs.st), req.legacyHome).value.Some?)
    ensures r.Ok? && name.Some? ==>
      PassedOpen(old(fs.st), fs.history, old(|fs.history|), req.legacyHome.value,
                 ConfigDir(old(fs.st), req.legacyHome).value.value)
    ensures r.Ok? ==> fs.faults == old(fs.faults)
    ensures fs.faults == old(fs.faults) ==> (r.Ok? <==> Clear(old(fs.st), req))
  {
    hide ValidFs, GoodClean, NothingLost, SomeBacked, Backed, ConfigDir, SideOpen, SideFree, WellLaid, ValidNetwork,
        Locked, LegacyHalf, Bound, PassedOpen, Stamped;
    ghost var s0 := fs.st;
    data, cache := None, None;
    var config;
    config, name := MoveConfigAside(fs, req.legacyHome, req.ts);
    ghost var c := fs.st;
    HalfBy(s0, c, req, name);
    if req.legacyHome.Some? {
      forall b: Fs | SomeBacked(s0, b, req.legacyHome.value)
        ensures NothingLost(s0, b, req)
      {
        SomeHalfSafe(s0, b, req);
      }
      SomeBackedBy(s0, c, req.legacyHome.value, name);
    }
    HalfSafe(s0, c, req, name);
    if config.Err? { return Err(config.error), name, None, None; }
    if name.Some? { NameLeads(s0, c, req, name); }
    var moved: seq<Move> := if config.value.Some? then [config.value.value] else [];
    ConfigGoneAfter(s0, c, req, name);
    ghost var sofar := fs.history;
    if req.user.Some? {
      var dirs;
      dirs, data, cache := MoveUserAside(fs, s0, req, name);
      if dirs.Err? { return Err(dirs.error), name, data, cache; }
      moved := moved + dirs.value;
      if name.Some? {
        PassedOpenMore(s0, sofar, fs.history, old(|fs.history|), req.legacyHome.value,
                       ConfigDir(s0, req.legacyHome).value.value);
      }
    } else {
      NoUserGood(c, req);
    }
    r := if moved == [] then Ok(NothingToDo) else Ok(StartedClean(moved));
  }

  /** The user's half of a reset, seen from where the whole of it began. */
  method MoveUserAside(fs: FileSystem, ghost s0: Fs, req: Clean, ghost name: Option<Name>)
    returns (r: Result<seq<Move>, Failure>, ghost data: Option<Name>, ghost cache: Option<Name>)
    requires fs.Valid() && ValidFs(s0) && GoodClean(s0, req) && req.user.Some? && LegacyHalf(s0, fs.st, req, name)
    requires ConfigDir(s0, req.legacyHome).Ok?
    requires (name == None <==> ConfigDir(s0, req.legacyHome) == Ok(None)) && NothingLost(s0, fs.st, req)
    modifies fs
    ensures fs.Ran() && NothingLost(s0, fs.st, req)
    ensures forall k :: old(|fs.history|) <= k < |fs.history| ==> NothingLost(s0, fs.history[k], req)
    ensures r.Ok? ==>
      GoodClean(fs.st, req) && IsDir(fs.st, req.user.value.home) && NothingLeft(fs.st, req) && Clear(s0, req)
    ensures r.Ok? ==> r.value == ResetMove(req.user.value, Data, data) + ResetMove(req.user.value, Cache, cache)
    ensures r.Ok? ==> (NothingLeft(s0, req) <==> name == None && r.value == []) && (r.value == [] ==> fs.Looked())
    ensures r.Ok? && req.legacyHome.Some? ==>
      forall n: Name :: Bound(fs.st, req.legacyHome.value, n) == Bound(old(fs.st), req.legacyHome.value, n)
    ensures data.Some? ==> Stamped(req.user.value.net + ".reset-" + req.ts, data.value)
    ensures cache.Some? ==> Stamped(req.user.value.net + ".reset-" + req.ts, cache.value)
    ensures forall i: Ino :: Locked(fs.st, i) <==> Locked(old(fs.st), i)
    ensures r.Ok? ==> fs.faults == old(fs.faults)
    ensures fs.faults == old(fs.faults) ==> (r.Ok? <==> Clear(s0, req))
  {
    hide ValidFs, GoodClean, NothingLost, Backed, UserReset, SomeReset, ConfigDir, SideOpen, SideFree, WellLaid,
        ValidNetwork, LegacyHalf, Bound, NothingLeft, Stamped;
    var u := req.user.value;
    ghost var c := fs.st;
    GoodUser(s0, req);
    HalfKinds(s0, c, req, name);
    if IsDir(s0, u.home) {
      HalfLooksSame(s0, c, req, name, Data);
      HalfLooksSame(s0, c, req, name, Cache);
    }
    r, data, cache := MoveUserDirsAside(fs, u, req.ts);
    UserLocks(c, fs.st, u, data, cache);
    if IsDir(s0, u.home) {
      forall b: Fs | SomeReset(c, b, u)
        ensures NothingLost(s0, b, req) && (req.legacyHome.Some? ==> SameTree(c, b, req.legacyHome.value))
      {
        WholeSafe(s0, c, b, req, name);
      }
    }
    if r.Err? { return; }
    WholeDone(s0, c, fs.st, req, name, data, cache);
    WholeGood(s0, c, fs.st, req, name, data, cache);
    if req.legacyHome.Some? { TreeBound(c, fs.st, req.legacyHome.value); }
  }

  lemma UserLocks(c: Fs, b: Fs, u: User, data: Option<Name>, cache: Option<Name>)
    requires UserReset(c, b, u, data, cache)
    ensures forall i: Ino :: Locked(b, i) <==> Locked(c, i)
  {
    LockedSame(c, b);
  }

  lemma HalfBy(s0: Fs, c: Fs, req: Clean, name: Option<Name>)
    requires match req.legacyHome case None => c == s0 && name == None case Some(h) => Backed(s0, c, h, name)
    ensures LegacyHalf(s0, c, req, name)
  {
  }

  lemma NoUserGood(c: Fs, req: Clean)
    requires req.user == None
    ensures GoodClean(c, req)
  {
  }

  lemma SomeBackedBy(s0: Fs, c: Fs, home: Ino, name: Option<Name>)
    requires Backed(s0, c, home, name)
    ensures SomeBacked(s0, c, home)
  {
  }

  lemma SomeHalfSafe(s0: Fs, b: Fs, req: Clean)
    requires ValidFs(s0) && GoodClean(s0, req) && req.legacyHome.Some? && SomeBacked(s0, b, req.legacyHome.value)
    ensures NothingLost(s0, b, req)
  {
    hide GoodClean, ValidFs, Backed, NothingLost;
    var n :| Backed(s0, b, req.legacyHome.value, n);
    HalfSafe(s0, b, req, n);
  }

  lemma GoodUser(s0: Fs, req: Clean)
    requires GoodClean(s0, req) && req.user.Some?
    ensures WellLaid(req.user.value.l) && ValidNetwork(req.user.value.net)
  {
  }
}
