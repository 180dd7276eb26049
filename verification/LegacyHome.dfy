/** The legacy home: the two renames that retire an identity, the states between them, and the sweep of owners and
    modes. */
module LegacyHome {
  import opened Kernel
  import opened Trees
  import opened Steps
  import opened Growth
  import opened FileSystems
  import opened Names
  import opened Layout
  import opened Nofollow
  import opened TreeWalks
  import opened Identity
  import opened Networks

  // ------------------------------------------------------------------ owners and modes only

  /** Same names and bytes; below `top` an inode may have gone to root, and then keeps its mode or is private. */
  ghost predicate Secured(a: Fs, b: Fs, top: Ino) {
    && b.next == a.next && b.nodes.Keys == a.nodes.Keys
    && (forall i: Ino :: i in a.nodes ==> SameBody(a.nodes[i], b.nodes[i]) && SecuredMeta(a, top, i, b.nodes[i].meta))
    && (forall d: Ino, n: Name :: Bound(b, d, n) == Bound(a, d, n))
  }

  ghost predicate SecuredMeta(a: Fs, top: Ino, i: Ino, meta: Meta)
    requires i in a.nodes
  {
    || meta == a.nodes[i].meta
    || (Reach(a, top, i) && meta.uid == ROOT_UID && (meta.mode == a.nodes[i].meta.mode || meta.mode == DIR_MODE))
  }

  lemma SecuredRefl(a: Fs, top: Ino)
    ensures Secured(a, a, top)
  {
  }

  lemma SecuredReach(a: Fs, b: Fs, top: Ino)
    requires Secured(a, b, top)
    ensures forall x: Ino, i: Ino :: Reach(b, x, i) <==> Reach(a, x, i)
    ensures forall x: Ino, p: Path :: Lookup(b, x, p) == Lookup(a, x, p)
  {
    forall x: Ino, p: Path ensures Lookup(b, x, p) == Lookup(a, x, p) { LookupSame(a, b, x, p); }
    forall x: Ino, i: Ino ensures Reach(b, x, i) <==> Reach(a, x, i) {
      if Reach(b, x, i) { var p :| Lookup(b, x, p) == Some(i); assert Lookup(a, x, p) == Some(i); }
      if Reach(a, x, i) { var p :| Lookup(a, x, p) == Some(i); assert Lookup(b, x, p) == Some(i); }
    }
  }

  lemma SecuredTrans(a: Fs, b: Fs, c: Fs, top: Ino)
    requires Secured(a, b, top) && Secured(b, c, top)
    ensures Secured(a, c, top)
  {
    SecuredReach(a, b, top);
    forall i: Ino | i in a.nodes ensures SecuredMeta(a, top, i, c.nodes[i].meta) {
      assert SecuredMeta(a, top, i, b.nodes[i].meta) && SecuredMeta(b, top, i, c.nodes[i].meta);
    }
  }

  lemma SecuredTouch(a: Fs, b: Fs, top: Ino)
    requires Secured(a, b, top)
    ensures Touch(a, b, {})
  {
  }

  lemma SecuredHanded(a: Fs, s: set<Ino>, top: Ino)
    requires forall i: Ino :: i in s ==> Reach(a, top, i)
    ensures Secured(a, Handed(a, s), top)
  {
    HandedBodies(a, s);
  }

  lemma SecuredOne(a: Fs, top: Ino, i: Ino, meta: Meta)
    requires ValidFs(a) && i in a.nodes && SecuredMeta(a, top, i, meta)
    ensures Secured(a, SetMeta(a, i, meta), top)
  {
    MetaStep(a, i, meta);
  }

  /** Root's, and closed to everybody else: 0o700. */
  predicate Locked(fs: Fs, i: Ino) {
    IsDir(fs, i) && fs.nodes[i].meta == Meta(0, 448)
  }

  lemma LockedKept(a: Fs, b: Fs, top: Ino, i: Ino)
    requires Secured(a, b, top) && Locked(a, i)
    ensures Locked(b, i)
  {
    assert SecuredMeta(a, top, i, b.nodes[i].meta);
  }

  /** Nothing new is owed to a later sweep. */
  lemma OwedKept(a: Fs, b: Fs, top: Ino, x: Ino, uid: nat)
    requires Secured(a, b, top) && uid != ROOT_UID
    ensures Owed(b, x, uid) <= Owed(a, x, uid)
  {
    SecuredReach(a, b, top);
    forall i: Ino | i in Owed(b, x, uid) ensures i in Owed(a, x, uid) {
      assert SecuredMeta(a, top, i, b.nodes[i].meta);
      LinksSame(a, b, i);
    }
  }

  /** fchown and fchmod through an open handle below `top`. */
  method LockDown(fs: FileSystem, ghost top: Ino, dir: Ino) returns (r: Result<(), Errno>)
    requires fs.Valid() && IsDir(fs.st, dir) && Reach(fs.st, top, dir)
    modifies fs
    ensures fs.Ran() && Secured(old(fs.st), fs.st, top)
    ensures forall k :: old(|fs.history|) <= k < |fs.history| ==> Secured(old(fs.st), fs.history[k], top)
    ensures r.Ok? ==> forall i: Ino :: Locked(fs.st, i) <==> i == dir || Locked(old(fs.st), i)
    ensures r.Ok? ==> fs.faults == old(fs.faults)
    ensures fs.faults == old(fs.faults) ==> r.Ok?
  {
    hide ValidFs, Reach, Secured;
    ghost var a := fs.st;
    SecuredRefl(a, top);
    var own := fs.Chown(dir, ROOT_UID);
    if own.Err? { return own; }
    ghost var b := fs.st;
    SecuredOne(a, top, dir, a.nodes[dir].meta.(uid := ROOT_UID));
    SecuredReach(a, b, top);
    r := fs.Chmod(dir, DIR_MODE);
    if r.Err? { return; }
    SecuredOne(b, top, dir, b.nodes[dir].meta.(mode := DIR_MODE));
    SecuredTrans(a, b, fs.st, top);
  }

  // ------------------------------------------------------------------ the sweep

  predicate ConfigLike(name: Name) {
    LEGACY_CONFIG_DIR <= name
  }

  /** What the sweep owes for one entry of the home: `.config`, a leftover or a backup of it, whatever follows those
      letters, is locked if it is a directory. */
  ghost predicate EntrySecured(fs: Fs, home: Ino, name: Name, uid: nat) {
    Bound(fs, home, name).Some? ==>
      && (".config" <= name && IsDir(fs, Bound(fs, home, name).value) ==> Locked(fs, Bound(fs, home, name).value))
      && (uid != ROOT_UID ==> Owed(fs, Bound(fs, home, name).value, uid) == {})
  }

  lemma EntrySecuredKept(a: Fs, b: Fs, home: Ino, name: Name, uid: nat)
    requires Secured(a, b, home) && EntrySecured(a, home, name, uid)
    ensures EntrySecured(b, home, name, uid)
  {
    if Bound(b, home, name).Some? {
      var i := Bound(b, home, name).value;
      assert Bound(a, home, name) == Some(i);
      assert IsDir(b, i) ==> IsDir(a, i);
      if uid != ROOT_UID { OwedKept(a, b, home, i, uid); }
      if ConfigLike(name) && IsDir(b, i) { LockedKept(a, b, home, i); }
    }
  }

  /** Locks a directory with a `.config*` name and hands what is owed below the entry to root, changing owners and
      modes only. */
  method SecureEntry(fs: FileSystem, home: Ino, name: Name, uid: nat) returns (r: Result<(), Errno>)
    requires fs.Valid() && Bound(fs.st, home, name).Some?
    modifies fs
    ensures fs.Ran() && Secured(old(fs.st), fs.st, home)
    ensures forall k :: old(|fs.history|) <= k < |fs.history| ==> Secured(old(fs.st), fs.history[k], home)
    ensures r.Ok? ==> fs.faults == old(fs.faults)
    ensures fs.faults == old(fs.faults) ==> r.Ok?
    ensures r.Ok? ==> EntrySecured(fs.st, home, name, uid)
  {
    hide ValidFs, Reach, Secured, Owed, Handed;
    ghost var a, x := fs.st, Bound(fs.st, home, name).value;
    SecuredRefl(a, home);
    ReachSelf(a, home);
    ReachStep(a, home, home, name);
    if ConfigLike(name) {
      var stat := fs.Stat(home, name);
      if stat.Err? { return Err(stat.error); }
      if IsDir(fs.st, stat.value) {
        var dir := fs.OpenDirAt(home, name);
        if dir.Err? { return Err(dir.error); }
        r := LockDown(fs, home, dir.value);
        if r.Err? { return; }
      }
    }
    ghost var b := fs.st;
    SecuredNames(a, b, home);
    r := Ok(());
    if uid == ROOT_UID { return; }
    var swept := ReownTree(fs, home, name, uid);
    forall c: Fs | PartHanded(b, c, Owed(b, x, uid)) ensures Secured(a, c, home) && Secured(b, c, home) {
      var s :| s <= Owed(b, x, uid) && c == Handed(b, s);
      SecuredPart(a, b, home, x, uid, s);
    }
    if swept.Err? { return Err(swept.error); }
    SecuredNames(a, fs.st, home);
    SweptClean(b, x, uid);
    if ConfigLike(name) && IsDir(b, x) { LockedKept(b, fs.st, home, x); }
  }

  lemma SecuredNames(a: Fs, b: Fs, top: Ino)
    requires Secured(a, b, top)
    ensures forall d: Ino, n: Name :: Bound(b, d, n) == Bound(a, d, n)
    ensures forall i: Ino :: IsDir(b, i) <==> IsDir(a, i)
  {
    forall i: Ino ensures IsDir(b, i) <==> IsDir(a, i) { if i in a.nodes { assert SameBody(a.nodes[i], b.nodes[i]); } }
  }

  lemma SecuredPart(a: Fs, b: Fs, home: Ino, x: Ino, uid: nat, s: set<Ino>)
    requires Secured(a, b, home) && Reach(a, home, x) && s <= Owed(b, x, uid)
    ensures Secured(a, Handed(b, s), home) && Secured(b, Handed(b, s), home)
  {
    SecuredReach(a, b, home);
    forall i: Ino | i in s ensures Reach(b, home, i) {
      var p :| Lookup(b, home, p) == Some(x);
      ReachTrans(b, home, p, x, i);
    }
    SecuredHanded(b, s, home);
    SecuredTrans(a, b, Handed(b, s), home);
  }

  lemma SweptClean(b: Fs, x: Ino, uid: nat)
    requires uid != ROOT_UID
    ensures Owed(Handed(b, Owed(b, x, uid)), x, uid) == {}
  {
    OwedLeft(b, Owed(b, x, uid), x, uid);
  }

  /** After the sweep every `.config*` directory is root's alone and nothing below the home is the account's,
      but for leaves with another name. */
  ghost predicate HomeSecured(fs: Fs, home: Ino, uid: nat) {
    forall n: Name :: EntrySecured(fs, home, n, uid)
  }

  /** Sweeps every name listed, whichever of them fail. */
  method SecureLeftovers(fs: FileSystem, home: Ino, uid: nat)
    requires fs.Valid() && IsDir(fs.st, home)
    modifies fs
    ensures fs.Ran() && Secured(old(fs.st), fs.st, home)
    ensures forall k :: old(|fs.history|) <= k < |fs.history| ==> Secured(old(fs.st), fs.history[k], home)
    ensures fs.faults == old(fs.faults) ==> HomeSecured(fs.st, home, uid)
  {
    hide ValidFs, Secured, EntrySecured;
    ghost var a := fs.st;
    SecuredRefl(a, home);
    var names := fs.List(home);
    if names.Err? { return; }
    var k := 0;
    while k < |names.value|
      invariant k <= |names.value| && fs.Ran() && Secured(a, fs.st, home)
      invariant forall j :: old(|fs.history|) <= j < |fs.history| ==> Secured(a, fs.history[j], home)
      invariant fs.faults == old(fs.faults) ==>
        forall j :: 0 <= j < k ==> EntrySecured(fs.st, home, names.value[j], uid)
    {
      ghost var b := fs.st;
      SecuredNames(a, b, home);
      assert names.value[k] in names.value;
      var done := SecureEntry(fs, home, names.value[k], uid);
      forall c: Fs | Secured(b, c, home) ensures Secured(a, c, home) { SecuredTrans(a, b, c, home); }
      forall n: Name | EntrySecured(b, home, n, uid)
        ensures EntrySecured(fs.st, home, n, uid)
      {
        EntrySecuredKept(b, fs.st, home, n, uid);
      }
      k := k + 1;
    }
    SecuredNames(a, fs.st, home);
    forall n: Name | Bound(fs.st, home, n) == None
      ensures EntrySecured(fs.st, home, n, uid)
    {
      UnboundSecured(fs.st, home, n, uid);
    }
  }

  lemma UnboundSecured(fs: Fs, home: Ino, n: Name, uid: nat)
    requires Bound(fs, home, n) == None
    ensures EntrySecured(fs, home, n, uid)
  {
  }

  // ------------------------------------------------------------------ moving aside

  predicate ConfigAside(name: Name) {
    LEGACY_CONFIG_DIR + ".migrated-" <= name
  }

  predicate RedbAside(name: Name) {
    PIX_DB_FILE + ".migrated-" <= name
  }

  /** What the home's name `n` is once `.config` and the PIX db go by the given aside names. */
  ghost function HomeName(a: Fs, home: Ino, config: Option<Name>, redb: Option<Name>, n: Name): Option<Ino> {
    if config == Some(n) then Bound(a, home, LEGACY_CONFIG_DIR)
    else if redb == Some(n) then Bound(a, home, PIX_DB_FILE)
    else if config.Some? && n == LEGACY_CONFIG_DIR then None
    else if redb.Some? && n == PIX_DB_FILE then None
    else Bound(a, home, n)
  }

  /** Names that were free before. */
  ghost predicate AsideNames(a: Fs, home: Ino, config: Option<Name>, redb: Option<Name>) {
    && (config.Some? ==>
      && ConfigAside(config.value) && Bound(a, home, config.value) == None
      && Bound(a, home, LEGACY_CONFIG_DIR).Some?)
    && (redb.Some? ==> RedbAside(redb.value) && Bound(a, home, redb.value) == None && Bound(a, home, PIX_DB_FILE).Some?)
  }

  /** Only the home's own entries were renamed, and owners and modes below it secured. */
  ghost predicate LegacyMoved(a: Fs, b: Fs, home: Ino, config: Option<Name>, redb: Option<Name>) {
    && ValidFs(b) && Touch(a, b, {home}) && b.next == a.next && b.nodes.Keys == a.nodes.Keys
    && (forall i: Ino :: i in a.nodes ==> SecuredMeta(a, home, i, b.nodes[i].meta))
    && AsideNames(a, home, config, redb) && forall n: Name :: Bound(b, home, n) == HomeName(a, home, config, redb, n)
  }

  lemma LegacyRefl(a: Fs, home: Ino)
    requires ValidFs(a)
    ensures LegacyMoved(a, a, home, None, None)
  {
  }

  lemma MetaTrans(a: Fs, b: Fs, c: Fs, home: Ino)
    requires Touch(a, b, {home}) && a.nodes.Keys == b.nodes.Keys == c.nodes.Keys
    requires forall i: Ino :: i in a.nodes ==>
      SecuredMeta(a, home, i, b.nodes[i].meta) && SecuredMeta(b, home, i, c.nodes[i].meta)
    ensures forall i: Ino :: i in a.nodes ==> SecuredMeta(a, home, i, c.nodes[i].meta)
  {
    hide Touch, Reach;
    forall i: Ino | i in a.nodes ensures SecuredMeta(a, home, i, c.nodes[i].meta) {
      assert SecuredMeta(a, home, i, b.nodes[i].meta) && SecuredMeta(b, home, i, c.nodes[i].meta);
      if Reach(b, home, i) {
        ReachSelf(a, home);
        var p := PathTo(b, home, i);
        ReachBack(a, b, {home}, home, p);
      }
    }
  }

  lemma LegacySecured(a: Fs, b: Fs, c: Fs, home: Ino, config: Option<Name>, redb: Option<Name>)
    requires LegacyMoved(a, b, home, config, redb) && Secured(b, c, home) && ValidFs(c)
    ensures LegacyMoved(a, c, home, config, redb)
  {
    SecuredTouch(b, c, home);
    TouchTrans(a, b, c, {home}, {});
    MetaTrans(a, b, c, home);
  }

  /** The names the home can carry are told apart by how they start and how long they are. */
  lemma AsideShapes(config: Option<Name>, redb: Option<Name>)
    requires (config.Some? ==> ConfigAside(config.value)) && (redb.Some? ==> RedbAside(redb.value))
    ensures config.Some? ==> config.value != LEGACY_CONFIG_DIR && config.value != PIX_DB_FILE && config != redb
    ensures redb.Some? ==> redb.value != LEGACY_CONFIG_DIR && redb.value != PIX_DB_FILE
  {
    assert config.Some? ==> config.value[0] == '.' && |config.value| > |LEGACY_CONFIG_DIR|;
    assert redb.Some? ==> redb.value[0] == 'c' && |redb.value| > |PIX_DB_FILE|;
    assert PIX_DB_FILE[0] == 'c' && LEGACY_CONFIG_DIR[0] == '.';
  }

  lemma SwingNames(a: Fs, b: Fs, c: Fs, home: Ino, config: Option<Name>, redb: Option<Name>, isConfig: bool, name: Name)
    requires AsideNames(a, home, config, redb)
    requires forall n: Name :: Bound(b, home, n) == HomeName(a, home, config, redb, n)
    requires (if isConfig then config else redb) == None && (if isConfig then ConfigAside(name) else RedbAside(name))
    requires var from := if isConfig then LEGACY_CONFIG_DIR else PIX_DB_FILE;
      && Bound(b, home, from).Some? && Bound(b, home, name) == None
      && Renamed(b, c, home, from, home, name, Bound(b, home, from).value)
    ensures var config' := if isConfig then Some(name) else config; var redb' := if isConfig then redb else Some(name);
      AsideNames(a, home, config', redb') && forall n: Name :: Bound(c, home, n) == HomeName(a, home, config', redb', n)
  {
    AsideShapes(if isConfig then Some(name) else config, if isConfig then redb else Some(name));
    assert PIX_DB_FILE != LEGACY_CONFIG_DIR;
  }

  lemma LegacySwing(a: Fs, b: Fs, c: Fs, home: Ino, config: Option<Name>, redb: Option<Name>, isConfig: bool,
                    name: Name)
    requires LegacyMoved(a, b, home, config, redb)
    requires (if isConfig then config else redb) == None && (if isConfig then ConfigAside(name) else RedbAside(name))
    requires
      var from := if isConfig then LEGACY_CONFIG_DIR else PIX_DB_FILE;
      Bound(b, home, from).Some? && Swing(b, c, home, from, name, Bound(b, home, from).value)
    ensures LegacyMoved(a, c, home, if isConfig then Some(name) else config, if isConfig then redb else Some(name))
  {
    hide Touch, ValidFs, ConfigAside, RedbAside, AsideNames, HomeName, Reach;
    TouchTrans(a, b, c, {home}, {home});
    MetaTrans(a, b, c, home);
    SwingNames(a, b, c, home, config, redb, isConfig, name);
  }

  /** Renames `name` to a free aside name in the home. */
  method RenameAside(fs: FileSystem, home: Ino, name: Name, candidate: Name) returns (r: Result<Name, Failure>)
    requires fs.Valid() && IsDir(fs.st, home) && Bound(fs.st, home, name).Some?
    modifies fs
    ensures r.Err? ==> fs.Looked() && r.error == Failure(LegacyStage)
    ensures r.Ok? ==> fs.Stepped() && LeastFree(old(fs.st), home, candidate, r.value) && candidate <= r.value
    ensures r.Ok? ==> Stamped(candidate, r.value)
    ensures r.Ok? ==> Swing(old(fs.st), fs.st, home, name, r.value, Bound(old(fs.st), home, name).value)
    ensures r.Ok? ==> fs.faults == old(fs.faults)
    ensures fs.faults == old(fs.faults) ==> r.Ok?
  {
    hide ValidFs, Touch, Swing, Ousted;
    var aside := UniqueName(fs, home, candidate);
    if aside.Err? { return Err(Failure(LegacyStage)); }
    assert candidate <= aside.value by {
      if aside.value != candidate { var n: nat :| aside.value == Numbered(candidate, n); }
    }
    var moved := RenameIn(fs, home, name, aside.value);
    if moved.Err? { return Err(Failure(LegacyStage)); }
    FreeStamped(old(fs.st), home, candidate, aside.value);
    r := Ok(aside.value);
  }

  /** Some stage of moving the legacy identity aside, `.config` before the PIX db. */
  ghost predicate LegacyMoving(a: Fs, b: Fs, legacy: Legacy) {
    exists config, redb ::
      && LegacyMoved(a, b, legacy.home, config, redb) && (redb.Some? ==> config.Some? && legacy.hasRedb)
      && (config.None? ==> b == a)
  }

  lemma LegacyMovingBy(a: Fs, b: Fs, legacy: Legacy, config: Option<Name>, redb: Option<Name>)
    requires LegacyMoved(a, b, legacy.home, config, redb) && (redb.Some? ==> config.Some? && legacy.hasRedb)
    requires config.None? ==> b == a
    ensures LegacyMoving(a, b, legacy)
  {
  }

  lemma MovingSecured(a: Fs, b: Fs, legacy: Legacy, config: Option<Name>, redb: Option<Name>)
    requires LegacyMoved(a, b, legacy.home, config, redb) && config.Some? && (redb.Some? ==> legacy.hasRedb)
    ensures forall c: Fs :: ValidFs(c) && Secured(b, c, legacy.home) ==>
      LegacyMoved(a, c, legacy.home, config, redb) && LegacyMoving(a, c, legacy)
  {
    hide ValidFs, Secured, LegacyMoved;
    forall c: Fs | ValidFs(c) && Secured(b, c, legacy.home)
      ensures LegacyMoved(a, c, legacy.home, config, redb) && LegacyMoving(a, c, legacy)
    {
      LegacySecured(a, b, c, legacy.home, config, redb);
    }
  }

  function LegacyMoves(config: Name, redb: Option<Name>): seq<Move> {
    [Move([LEGACY_CONFIG_DIR], [config])] + match redb { case None => [] case Some(n) => [Move([PIX_DB_FILE], [n])] }
  }

  /** The handles and flags describe the home as it is. */
  ghost predicate Describes(fs: Fs, legacy: Legacy) {
    && IsDir(fs, legacy.home) && IsDir(fs, legacy.config)
    && Bound(fs, legacy.home, LEGACY_CONFIG_DIR) == Some(legacy.config)
    && (legacy.hasRedb <==> Bound(fs, legacy.home, PIX_DB_FILE).Some?)
  }

  /** The PIX db, if there was one, after `.config` is aside and locked. */
  method MoveRedbAside(fs: FileSystem, ghost a: Fs, legacy: Legacy, ts: string, ghost config: Option<Name>)
    returns (r: Result<Option<Name>, Failure>)
    requires fs.Valid() && Describes(a, legacy) && config.Some? && LegacyMoved(a, fs.st, legacy.home, config, None)
    requires Locked(fs.st, legacy.config)
    modifies fs
    ensures fs.Ran() && LegacyMoved(a, fs.st, legacy.home, config, if r.Ok? then r.value else None)
    ensures forall k :: old(|fs.history|) <= k < |fs.history| ==> LegacyMoving(a, fs.history[k], legacy)
    ensures r.Ok? ==> (r.value.Some? <==> legacy.hasRedb)
    ensures r.Ok? && r.value.Some? ==> Stamped("curvy-pix.redb.migrated-" + ts, r.value.value)
    ensures r.Err? ==> r.error == Failure(LegacyStage)
    ensures Locked(fs.st, legacy.config)
    ensures r.Ok? ==> fs.faults == old(fs.faults)
    ensures fs.faults == old(fs.faults) ==> r.Ok?
  {
    hide ValidFs, Touch, Swing, LegacyMoved, LegacyMoving, Locked, RedbAside, Stamped;
    if !legacy.hasRedb { return Ok(None); }
    ghost var c := fs.st;
    MovedNames(a, c, legacy, config, None);
    assert PIX_DB_FILE + ".migrated-" == "curvy-pix.redb.migrated-";
    var moved := RenameAside(fs, legacy.home, PIX_DB_FILE, PIX_DB_FILE + ".migrated-" + ts);
    if moved.Err? { return Err(moved.error); }
    AsidePrefix(PIX_DB_FILE, ts, moved.value);
    LegacySwing(a, c, fs.st, legacy.home, config, None, false, moved.value);
    LegacyMovingBy(a, fs.st, legacy, config, Some(moved.value));
    SwingKeepsLock(c, fs.st, legacy.home, PIX_DB_FILE, moved.value, legacy.config);
    r := Ok(Some(moved.value));
  }

  /** `.config` has left its name, and the directory is owned and readable as it was in `a`: not locked by this run
      yet. */
  ghost predicate OpenAside(a: Fs, b: Fs, home: Ino, config: Ino) {
    IsDir(b, home) && Bound(b, home, LEGACY_CONFIG_DIR) == None && SameOwner(a, b, config)
  }

  ghost predicate SameOwner(a: Fs, b: Fs, i: Ino) {
    i in a.nodes && i in b.nodes && b.nodes[i].meta == a.nodes[i].meta
  }

  ghost predicate PassedOpen(a: Fs, h: seq<Fs>, from: nat, home: Ino, config: Ino) {
    exists k :: from <= k < |h| && OpenAside(a, h[k], home, config)
  }

  lemma PassedOpenBy(a: Fs, h: seq<Fs>, from: nat, home: Ino, config: Ino, k: nat)
    requires from <= k < |h| && OpenAside(a, h[k], home, config)
    ensures PassedOpen(a, h, from, home, config)
  {
  }

  lemma PassedOpenMore(a: Fs, h: seq<Fs>, more: seq<Fs>, from: nat, home: Ino, config: Ino)
    requires PassedOpen(a, h, from, home, config) && h <= more
    ensures PassedOpen(a, more, from, home, config)
  {
    hide OpenAside;
    var k :| from <= k < |h| && OpenAside(a, h[k], home, config);
    assert more[k] == h[k];
  }

  lemma SwingOpens(a: Fs, b: Fs, legacy: Legacy, name: Name)
    requires Describes(a, legacy) && Swing(a, b, legacy.home, LEGACY_CONFIG_DIR, name, legacy.config)
    ensures OpenAside(a, b, legacy.home, legacy.config)
  {
    hide ValidFs, Touch;
  }

  /** `.config` goes aside and is locked down at once. */
  method MoveConfigAside(fs: FileSystem, legacy: Legacy, ts: string)
    returns (r: Result<Name, Failure>, ghost config: Option<Name>)
    requires fs.Valid() && Describes(fs.st, legacy)
    modifies fs
    ensures fs.Ran() && LegacyMoved(old(fs.st), fs.st, legacy.home, config, None)
    ensures forall k :: old(|fs.history|) <= k < |fs.history| ==> LegacyMoving(old(fs.st), fs.history[k], legacy)
    ensures r.Ok? ==> config == Some(r.value) && Locked(fs.st, legacy.config)
    ensures r.Ok? ==> Stamped(".config.migrated-" + ts, r.value)
    ensures r.Ok? ==> PassedOpen(old(fs.st), fs.history, old(|fs.history|), legacy.home, legacy.config)
    ensures r.Err? ==> r.error == Failure(LegacyStage)
    ensures r.Ok? ==> fs.faults == old(fs.faults)
    ensures fs.faults == old(fs.faults) ==> r.Ok?
  {
    hide ValidFs, Touch, Swing, LegacyMoved, LegacyMoving, Secured, Reach, LeastFree, Locked, ConfigAside, RedbAside,
        OpenAside, PassedOpen, Stamped;
    ghost var a := fs.st;
    var home := legacy.home;
    LegacyRefl(a, home);
    LegacyMovingBy(a, a, legacy, None, None);
    assert LEGACY_CONFIG_DIR + ".migrated-" == ".config.migrated-";
    var moved := RenameAside(fs, home, LEGACY_CONFIG_DIR, LEGACY_CONFIG_DIR + ".migrated-" + ts);
    if moved.Err? { return Err(moved.error), None; }
    config := Some(moved.value);
    ghost var b := fs.st;
    SwingOpens(a, b, legacy, moved.value);
    PassedOpenBy(a, fs.history, old(|fs.history|), legacy.home, legacy.config, |fs.history| - 1);
    ghost var sofar := fs.history;
    AsidePrefix(LEGACY_CONFIG_DIR, ts, moved.value);
    LegacySwing(a, a, b, home, None, None, true, moved.value);
    LegacyMovingBy(a, b, legacy, config, None);
    MovingSecured(a, b, legacy, config, None);
    MovedNames(a, b, legacy, config, None);
    ReachSelf(b, home);
    ReachStep(b, home, home, moved.value);
    var locked := LockDown(fs, home, legacy.config);
    if locked.Err? { return Err(Failure(LegacyStage)), config; }
    PassedOpenMore(a, sofar, fs.history, old(|fs.history|), legacy.home, legacy.config);
    r := Ok(moved.value);
  }

  /** `.config` first; then the PIX db; then the sweep over what else is in the home. */
  method MoveLegacyAside(fs: FileSystem, legacy: Legacy, ts: string)
    returns (r: Result<seq<Move>, Failure>, ghost config: Option<Name>, ghost redb: Option<Name>)
    requires fs.Valid() && Describes(fs.st, legacy)
    modifies fs
    ensures fs.Ran() && LegacyMoved(old(fs.st), fs.st, legacy.home, config, redb)
    ensures forall k :: old(|fs.history|) <= k < |fs.history| ==> LegacyMoving(old(fs.st), fs.history[k], legacy)
    ensures r.Ok? ==> config.Some? && (redb.Some? <==> legacy.hasRedb) && r.value == LegacyMoves(config.value, redb)
    ensures r.Ok? ==> Stamped(".config.migrated-" + ts, config.value)
    ensures r.Ok? && redb.Some? ==> Stamped("curvy-pix.redb.migrated-" + ts, redb.value)
    ensures r.Ok? ==> PassedOpen(old(fs.st), fs.history, old(|fs.history|), legacy.home, legacy.config)
    ensures r.Err? ==> r.error == Failure(LegacyStage)
    ensures fs.faults == old(fs.faults) ==>
      r.Ok? && Locked(fs.st, legacy.config) && HomeSecured(fs.st, legacy.home, legacy.ownerUid)
  {
    hide ValidFs, Touch, LegacyMoved, LegacyMoving, Secured, HomeSecured, Reach, Locked, Bound, LegacyMoves,
      PassedOpen, NoNewLinks, Describes, Stamped;
    ghost var a := fs.st;
    var home := legacy.home;
    var configMove;
    redb := None;
    configMove, config := MoveConfigAside(fs, legacy, ts);
    if configMove.Err? { return Err(configMove.error), config, None; }
    ghost var sofar := fs.history;
    var redbMove := MoveRedbAside(fs, a, legacy, ts, config);
    if redbMove.Err? { return Err(redbMove.error), config, None; }
    redb := redbMove.value;
    ghost var e := fs.st;
    MovedNames(a, e, legacy, config, redb);
    MovingSecured(a, e, legacy, config, redb);
    SecureLeftovers(fs, home, legacy.ownerUid);
    if Locked(e, legacy.config) { LockedKept(e, fs.st, home, legacy.config); }
    var sync := fs.Attempt();
    if sync.Err? { return Err(Failure(LegacyStage)), config, redb; }
    PassedOpenMore(a, sofar, fs.history, old(|fs.history|), legacy.home, legacy.config);
    r := Ok(LegacyMoves(configMove.value, redbMove.value));
  }

  lemma AsidePrefix(base: Name, ts: string, name: Name)
    requires base + ".migrated-" + ts <= name
    ensures base == LEGACY_CONFIG_DIR ==> ConfigAside(name)
    ensures base == PIX_DB_FILE ==> RedbAside(name)
  {
    assert base + ".migrated-" <= base + ".migrated-" + ts;
  }

  lemma MovedNames(a: Fs, b: Fs, legacy: Legacy, config: Option<Name>, redb: Option<Name>)
    requires LegacyMoved(a, b, legacy.home, config, redb) && Describes(a, legacy)
    ensures IsDir(b, legacy.home) && IsDir(b, legacy.config)
    ensures config.Some? ==> Bound(b, legacy.home, config.value) == Some(legacy.config)
    ensures redb.None? && legacy.hasRedb ==> Bound(b, legacy.home, PIX_DB_FILE).Some?
  {
    if config.Some? { assert PIX_DB_FILE[0] != LEGACY_CONFIG_DIR[0] && config.value[0] == '.'; }
  }

  lemma SwingKeepsLock(a: Fs, b: Fs, home: Ino, from: Name, to: Name, i: Ino)
    requires Bound(a, home, from).Some? && Swing(a, b, home, from, to, Bound(a, home, from).value) && Locked(a, i)
    ensures Locked(b, i)
  {
  }
}
