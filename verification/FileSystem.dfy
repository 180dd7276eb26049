/** The running system: one filesystem, the state after every call that changed it, and injected faults.
    A crash can be looked at in any state of `history`. On a `faulty` system every call may fail (or, for
    a write, store other bytes than asked); `faults` counts how often that happened. */
module FileSystems {
  import opened Kernel
  import opened Trees
  import opened Steps

  const ROOT_UID := 0

  class FileSystem {
    var st: Fs
    var history: seq<Fs>
    var faults: nat
    ghost var undoFaults: nat
    const faulty: bool

    ghost predicate Valid()
      reads this
    {
      && ValidFs(st) && |history| > 0 && history[|history| - 1] == st
      && forall k: nat :: k < |history| ==> ValidFs(history[k])
    }

    constructor (start: Fs, mayFail: bool)
      requires ValidFs(start)
      ensures Valid() && st == start && history == [start] && faults == 0 && undoFaults == 0 && faulty == mayFail
    {
      st, history, faults, undoFaults, faulty := start, [start], 0, 0, mayFail;
    }

    /** Faults are only counted up, and never happen on a system that is not `faulty`. */
    twostate predicate Counted()
      reads this
    {
      old(faults) <= faults && (!faulty ==> faults == old(faults))
    }

    /** A call that only looked. */
    twostate predicate Looked()
      reads this
    {
      Valid() && Counted() && st == old(st) && history == old(history) && undoFaults == old(undoFaults)
    }

    /** A call that recorded exactly one new state. */
    twostate predicate Stepped()
      reads this
    {
      Valid() && Counted() && history == old(history) + [st] && undoFaults == old(undoFaults)
    }

    /** Any number of recorded states later, none of them while undoing. */
    twostate predicate Ran()
      reads this
    {
      && Valid() && Counted() && old(|history|) <= |history| && history[..old(|history|)] == old(history)
      && undoFaults == old(undoFaults)
    }

    /** The same, and some of it may have been undoing: `undoFaults` are those of the faults that were met by undo
        calls. */
    twostate predicate Went()
      reads this
    {
      && Valid() && Counted() && old(|history|) <= |history| && history[..old(|history|)] == old(history)
      && old(undoFaults) <= undoFaults <= old(undoFaults) + (faults - old(faults))
    }

    /** Closes an undo that began when `since` faults had been met. */
    ghost method NoteUndo(since: nat)
      requires since <= faults
      modifies this`undoFaults
      ensures undoFaults == old(undoFaults) + (faults - since)
    {
      undoFaults := undoFaults + (faults - since);
    }

    method Fault() returns (hit: bool)
      modifies this`faults
      ensures hit ==> faulty && faults == old(faults) + 1
      ensures !hit ==> faults == old(faults)
    {
      hit := false;
      if faulty {
        hit := *;
        if hit { faults := faults + 1; }
      }
    }

    // ---------------------------------------------------------------- calls that look

    method Exists(d: Ino, n: Name) returns (r: Result<bool, Errno>)
      requires Valid()
      modifies this`faults
      ensures Looked()
      ensures r.Ok? ==> r.value == Bound(st, d, n).Some?
      ensures r.Err? ==> r.error == Io
      ensures r != Err(Io) ==> faults == old(faults)
      ensures faults == old(faults) ==> r.Ok?
    {
      var hit := Fault();
      r := if hit then Err(Io) else Ok(Bound(st, d, n).Some?);
    }

    /** fstatat without following: which inode the name is, or that there is none. */
    method Stat(d: Ino, n: Name) returns (r: Result<Ino, Errno>)
      requires Valid()
      modifies this`faults
      ensures Looked()
      ensures r.Ok? ==> Bound(st, d, n) == Some(r.value)
      ensures r.Err? ==> r.error == Io || (r.error == NoEnt && Bound(st, d, n) == None)
      ensures r != Err(Io) ==> faults == old(faults)
      ensures faults == old(faults) ==> (r.Ok? <==> Bound(st, d, n).Some?)
    {
      var hit := Fault();
      r := if hit then Err(Io) else match Bound(st, d, n) case None => Err(NoEnt) case Some(i) => Ok(i);
    }

    method OpenDirAt(d: Ino, n: Name) returns (r: Result<Ino, Errno>)
      requires Valid()
      modifies this`faults
      ensures Looked()
      ensures r == OpenDir(st, d, n) || r == Err(Io)
      ensures r != Err(Io) ==> faults == old(faults)
      ensures faults == old(faults) ==> r == OpenDir(st, d, n)
    {
      var hit := Fault();
      r := if hit then Err(Io) else OpenDir(st, d, n);
    }

    method OpenRegularAt(d: Ino, n: Name) returns (r: Result<Ino, Errno>)
      requires Valid()
      modifies this`faults
      ensures Looked()
      ensures r == OpenRegular(st, d, n) || r == Err(Io)
      ensures r != Err(Io) ==> faults == old(faults)
      ensures faults == old(faults) ==> r == OpenRegular(st, d, n)
    {
      var hit := Fault();
      r := if hit then Err(Io) else OpenRegular(st, d, n);
    }

    /** Reading a whole file through an open handle. */
    method ReadAll(i: Ino) returns (r: Result<Bytes, Errno>)
      requires Valid() && i in st.nodes && st.nodes[i].File?
      modifies this`faults
      ensures Looked()
      ensures r == Ok(st.nodes[i].data) || r == Err(Io)
      ensures r != Err(Io) ==> faults == old(faults)
      ensures faults == old(faults) ==> r.Ok?
    {
      var hit := Fault();
      r := if hit then Err(Io) else Ok(st.nodes[i].data);
    }

    /** Calls whose only outcome is success or failure: fsync, fstat, lseek, dup, one readdir. */
    method Attempt() returns (r: Result<(), Errno>)
      requires Valid()
      modifies this`faults
      ensures Looked()
      ensures r == Ok(()) || r == Err(Io)
      ensures r != Err(Io) ==> faults == old(faults)
      ensures faults == old(faults) ==> r.Ok?
    {
      var hit := Fault();
      r := if hit then Err(Io) else Ok(());
    }

    /** The names in a directory, in some order. */
    method List(d: Ino) returns (r: Result<seq<Name>, Errno>)
      requires Valid() && IsDir(st, d)
      modifies this`faults
      ensures Looked()
      ensures r.Err? ==> r.error == Io
      ensures r.Ok? ==> (forall n :: n in r.value <==> Bound(st, d, n).Some?)
      ensures r.Ok? ==> forall i, j :: 0 <= i < j < |r.value| ==> r.value[i] != r.value[j]
      ensures r != Err(Io) ==> faults == old(faults)
      ensures faults == old(faults) ==> r.Ok?
    {
      var hit := Fault();
      if hit { return Err(Io); }
      var left := st.nodes[d].entries.Keys;
      var names: seq<Name> := [];
      while left != {}
        invariant left <= st.nodes[d].entries.Keys
        invariant forall n :: n in names <==> n in st.nodes[d].entries && n !in left
        invariant forall i, j :: 0 <= i < j < |names| ==> names[i] != names[j]
        decreases |left|
      {
        var n :| n in left;
        names := names + [n];
        left := left - {n};
      }
      r := Ok(names);
    }

    // ---------------------------------------------------------------- calls that change

    method Record(next: Fs)
      requires Valid() && ValidFs(next)
      modifies this`st, this`history
      ensures Valid() && st == next && history == old(history) + [next]
    {
      st, history := next, history + [next];
    }

    method MkdirAt(d: Ino, n: Name, mode: nat) returns (r: Result<(), Errno>)
      requires Valid()
      modifies this
      ensures r.Ok? ==> Stepped() && Create(old(st), d, n, Dir(Meta(ROOT_UID, mode), map[])) == Ok(st)
      ensures r.Err? ==> Looked()
      ensures r != Err(Io) ==> faults == old(faults)
      ensures faults == old(faults) ==> (r.Ok? <==> IsDir(old(st), d) && Bound(old(st), d, n) == None)
    {
      var hit := Fault();
      if hit { return Err(Io); }
      match Create(st, d, n, Dir(Meta(ROOT_UID, mode), map[]))
      case Err(e) => r := Err(e);
      case Ok(next) =>
        CreateStep(st, d, n, Dir(Meta(ROOT_UID, mode), map[]), next);
        Record(next);
        r := Ok(());
    }

    /** openat(O_CREAT|O_EXCL); the new handle is the new inode. */
    method CreateAt(d: Ino, n: Name, mode: nat) returns (r: Result<Ino, Errno>)
      requires Valid()
      modifies this
      ensures r.Ok? ==>
        Stepped() && r.value == old(st).next && Create(old(st), d, n, File(Meta(ROOT_UID, mode), [])) == Ok(st)
      ensures r.Err? ==> Looked()
      ensures r != Err(Io) ==> faults == old(faults)
      ensures faults == old(faults) ==> (r.Ok? <==> IsDir(old(st), d) && Bound(old(st), d, n) == None)
    {
      var hit := Fault();
      if hit { return Err(Io); }
      match Create(st, d, n, File(Meta(ROOT_UID, mode), []))
      case Err(e) => r := Err(e);
      case Ok(next) =>
        r := Ok(st.next);
        CreateStep(st, d, n, File(Meta(ROOT_UID, mode), []), next);
        Record(next);
    }

    method Chown(i: Ino, uid: nat) returns (r: Result<(), Errno>)
      requires Valid() && i in st.nodes
      modifies this
      ensures r.Ok? ==> Stepped() && st == SetMeta(old(st), i, old(st).nodes[i].meta.(uid := uid))
      ensures r.Err? ==> Looked()
      ensures r != Err(Io) ==> faults == old(faults)
      ensures faults == old(faults) ==> r.Ok?
    {
      var hit := Fault();
      if hit { return Err(Io); }
      MetaStep(st, i, st.nodes[i].meta.(uid := uid));
      Record(SetMeta(st, i, st.nodes[i].meta.(uid := uid)));
      r := Ok(());
    }

    method Chmod(i: Ino, mode: nat) returns (r: Result<(), Errno>)
      requires Valid() && i in st.nodes
      modifies this
      ensures r.Ok? ==> Stepped() && st == SetMeta(old(st), i, old(st).nodes[i].meta.(mode := mode))
      ensures r.Err? ==> Looked()
      ensures r != Err(Io) ==> faults == old(faults)
      ensures faults == old(faults) ==> r.Ok?
    {
      var hit := Fault();
      if hit { return Err(Io); }
      MetaStep(st, i, st.nodes[i].meta.(mode := mode));
      Record(SetMeta(st, i, st.nodes[i].meta.(mode := mode)));
      r := Ok(());
    }

    /** Appends at the end of the file. A fault may store something else and still report success. */
    method Write(i: Ino, bytes: Bytes) returns (r: Result<(), Errno>, ghost stored: Bytes)
      requires Valid() && i in st.nodes && st.nodes[i].File?
      modifies this
      ensures Stepped() && st == Append(old(st), i, stored)
      ensures faults == old(faults) ==> r.Ok? && stored == bytes
      ensures faults <= old(faults) + 1
    {
      var hit := Fault();
      var data: Bytes := bytes;
      r := Ok(());
      if hit {
        data := *;
        var told: bool := *;
        if !told { r := Err(Io); }
      }
      stored := data;
      AppendStep(st, i, data);
      Record(Append(st, i, data));
    }

    method UnlinkAt(d: Ino, n: Name) returns (r: Result<(), Errno>)
      requires Valid()
      modifies this
      ensures r.Ok? ==> Stepped() && Unlink(old(st), d, n) == Ok(st)
      ensures r.Err? ==> Looked() && (r.error == Io || Unlink(old(st), d, n) == Err(r.error))
      ensures r != Err(Io) ==> faults == old(faults)
      ensures faults == old(faults) ==> (r.Ok? <==> Unlink(old(st), d, n).Ok?)
    {
      var hit := Fault();
      if hit { return Err(Io); }
      match Unlink(st, d, n)
      case Err(e) => r := Err(e);
      case Ok(next) =>
        CutStep(st, d, n);
        Record(next);
        r := Ok(());
    }

    method RmdirAt(d: Ino, n: Name) returns (r: Result<(), Errno>)
      requires Valid()
      modifies this
      ensures r.Ok? ==> Stepped() && Rmdir(old(st), d, n) == Ok(st)
      ensures r.Err? ==> Looked() && (r.error == Io || Rmdir(old(st), d, n) == Err(r.error))
      ensures r != Err(Io) ==> faults == old(faults)
      ensures faults == old(faults) ==>
        (r.Ok? <==> Rmdir(old(st), d, n).Ok?) && (r.Err? ==> Rmdir(old(st), d, n) == Err(r.error))
    {
      var hit := Fault();
      if hit { return Err(Io); }
      match Rmdir(st, d, n)
      case Err(e) => r := Err(e);
      case Ok(next) =>
        CutStep(st, d, n);
        Record(next);
        r := Ok(());
    }

    /** Whether `d` lies at or below `i`: what renameat refuses. Walks up from `d`. */
    method Within(i: Ino, d: Ino) returns (r: bool)
      requires Valid() && IsDir(st, d)
      ensures r <==> Reach(st, i, d)
    {
      var at := d;
      var seen: set<Ino> := {};
      ghost var s :| Shaped(st, s);
      ghost var down: Path := [];
      while at != i
        invariant IsDir(st, at) && Lookup(st, at, down) == Some(d)
        invariant Reach(st, i, d) <==> Reach(st, i, at)
        invariant seen <= st.nodes.Keys && forall x: Ino :: x in seen ==> x in st.nodes && s.height(x) < s.height(at)
        decreases st.nodes.Keys - seen
      {
        if up: Ino, n :|
          up in st.nodes.Keys && st.nodes[up].Dir? && n in st.nodes[up].entries.Keys && st.nodes[up].entries[n] == at
        {
          assert Bound(st, up, n) == Some(at);
          OnlyParent(st, s, i, at, up, n);
          LookupAppend(st, up, [n], down);
          LookupLast(st, up, [], n);
          assert [] + [n] == [n];
          seen := seen + {at};
          at, down := up, [n] + down;
        } else {
          NoParent(st, i, at);
          return false;
        }
      }
      ReachSelf(st, i);
      r := true;
    }

    method RenameAt(d1: Ino, from: Name, d2: Ino, to: Name) returns (r: Result<(), Errno>)
      requires Valid() && IsDir(st, d1) && IsDir(st, d2)
      modifies this
      ensures r.Ok? ==>
        Stepped() && RenameOk(old(st), d1, from, d2, to) && Rename(old(st), d1, from, d2, to, false) == Ok(st)
      ensures r.Err? ==> Looked()
      ensures r != Err(Io) ==> faults == old(faults)
      ensures faults == old(faults) ==> (r.Ok? <==> RenameOk(old(st), d1, from, d2, to))
    {
      hide ValidFs;
      var hit := Fault();
      if hit { return Err(Io); }
      match Bound(st, d1, from)
      case None => r := Err(NoEnt);
      case Some(i) =>
        var inside := Within(i, d2);
        match Rename(st, d1, from, d2, to, inside) {
          case Err(e) => r := Err(e);
          case Ok(next) =>
            RenameAcrossStep(st, d1, from, d2, to, i);
            Record(next);
            r := Ok(());
        }
    }
  }

  /** When renameat succeeds: the source is bound, is not moved into itself, and what it replaces may be replaced. */
  ghost predicate RenameOk(fs: Fs, d1: Ino, from: Name, d2: Ino, to: Name) {
    Bound(fs, d1, from).Some? && !Reach(fs, Bound(fs, d1, from).value, d2) && Rename(fs, d1, from, d2, to, false).Ok?
  }

  /** What may be replaced: an empty directory by a directory, anything else by what is no directory, and anything by
      itself, which changes nothing. */
  lemma RenameExact(fs: Fs, d1: Ino, from: Name, d2: Ino, to: Name, x: Ino)
    requires IsDir(fs, d1) && IsDir(fs, d2) && Bound(fs, d1, from) == Some(x)
    ensures RenameOk(fs, d1, from, d2, to) <==>
      && !Reach(fs, x, d2)
      && match Bound(fs, d2, to)
         case None => true
         case Some(y) =>
           y == x || (IsDir(fs, x) && IsDir(fs, y) && forall n: Name :: Bound(fs, y, n) == None)
           || (!IsDir(fs, x) && !IsDir(fs, y))
    ensures RenameOk(fs, d1, from, d2, to) && Bound(fs, d2, to) != Some(x) ==>
      Renamed(fs, Rename(fs, d1, from, d2, to, false).value, d1, from, d2, to, x)
    ensures RenameOk(fs, d1, from, d2, to) && Bound(fs, d2, to) == Some(x) ==>
      Rename(fs, d1, from, d2, to, false) == Ok(fs)
  {
    hide Reach;
    MovedBindings(fs, d1, from, d2, to, x);
    if Bound(fs, d2, to).Some? && IsDir(fs, Bound(fs, d2, to).value) { NoNames(fs, Bound(fs, d2, to).value); }
  }

  lemma NoNames(fs: Fs, d: Ino)
    requires IsDir(fs, d)
    ensures fs.nodes[d].entries == map[] <==> forall n: Name :: Bound(fs, d, n) == None
  {
    if forall n: Name :: Bound(fs, d, n) == None {
      forall n: Name ensures n !in fs.nodes[d].entries { assert Bound(fs, d, n) == None; }
    }
  }

  lemma OnlyParent(fs: Fs, s: Shape, i: Ino, at: Ino, up: Ino, n: Name)
    requires Shaped(fs, s) && IsDir(fs, at) && Bound(fs, up, n) == Some(at) && at != i
    ensures Reach(fs, i, at) <==> Reach(fs, i, up)
    ensures s.height(at) < s.height(up)
  {
    if Reach(fs, i, at) {
      var p :| Lookup(fs, i, p) == Some(at);
      var p0 := p[..|p| - 1];
      assert p == p0 + [p[|p| - 1]];
      LookupLast(fs, i, p0, p[|p| - 1]);
    }
    if Reach(fs, i, up) { ReachStep(fs, i, up, n); }
  }

  lemma NoParent(fs: Fs, i: Ino, at: Ino)
    requires at != i && forall d: Ino, n: Name :: Bound(fs, d, n) != Some(at)
    ensures !Reach(fs, i, at)
  {
    if Reach(fs, i, at) {
      var p :| Lookup(fs, i, p) == Some(at);
      assert p == p[..|p| - 1] + [p[|p| - 1]];
      LookupLast(fs, i, p[..|p| - 1], p[|p| - 1]);
    }
  }
}
