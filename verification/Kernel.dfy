/** The filesystem as a value: a graph of inodes, POSIX call semantics on it, and how paths resolve.
    Directories carry their names, other inodes their bytes; a held descriptor is an inode number. */
module Kernel {
  newtype byte = x: int | 0 <= x < 256
  type Bytes = seq<byte>
  type Ino = nat
  type Name = string
  type Path = seq<Name>

  datatype Option<+T> = None | Some(value: T)
  datatype Result<+T, +E> = Ok(value: T) | Err(error: E)

  /** `Io` is an injected fault; every other value is decided by the state of the filesystem. */
  datatype Errno = NoEnt | NotDir | IsDirectory | Exist | NotEmpty | Inval | NotRegular | ManyLinks | Io

  datatype Meta = Meta(uid: nat, mode: nat)

  datatype Node =
    | Dir(meta: Meta, entries: map<Name, Ino>)
    | File(meta: Meta, data: Bytes)
    | Special(meta: Meta, symlink: bool)

  datatype Fs = Fs(nodes: map<Ino, Node>, next: Ino)

  // ------------------------------------------------------------------ names and paths

  predicate IsDir(fs: Fs, i: Ino) {
    i in fs.nodes && fs.nodes[i].Dir?
  }

  /** What `name` is bound to in directory `d`. */
  function Bound(fs: Fs, d: Ino, name: Name): Option<Ino> {
    if IsDir(fs, d) && name in fs.nodes[d].entries then Some(fs.nodes[d].entries[name]) else None
  }

  /** Plain resolution of a relative path; symlinks are leaves and are never followed. */
  function Lookup(fs: Fs, root: Ino, path: Path): Option<Ino>
    decreases |path|
  {
    if path == [] then Some(root)
    else
      match Bound(fs, root, path[0])
      case None => None
      case Some(child) => Lookup(fs, child, path[1..])
  }

  ghost predicate Reach(fs: Fs, from: Ino, to: Ino) {
    exists p: Path :: Lookup(fs, from, p) == Some(to)
  }

  /** The names an inode is bound to, as (directory, name) pairs: its hard links. */
  function Links(fs: Fs, i: Ino): set<(Ino, Name)> {
    set d, n |
      d in fs.nodes.Keys && fs.nodes[d].Dir? && n in fs.nodes[d].entries.Keys && fs.nodes[d].entries[n] == i
      :: (d, n)
  }

  // ------------------------------------------------------------------ well-formed filesystems

  /** Evidence that the directories form a tree: a height that falls along every entry, and the one entry naming each
      directory. */
  datatype Shape = Shape(height: Ino -> nat, parent: Ino -> (Ino, Name))

  ghost predicate Shaped(fs: Fs, s: Shape) {
    forall d: Ino, n: Name :: Bound(fs, d, n).Some? && IsDir(fs, Bound(fs, d, n).value) ==>
      s.height(Bound(fs, d, n).value) < s.height(d) && s.parent(Bound(fs, d, n).value) == (d, n)
  }

  ghost predicate Tree(fs: Fs) {
    exists s :: Shaped(fs, s)
  }

  ghost predicate Closed(fs: Fs) {
    && (forall i: Ino :: i in fs.nodes ==> i < fs.next)
    && (forall d: Ino, n: Name :: Bound(fs, d, n).Some? ==> Bound(fs, d, n).value in fs.nodes)
  }

  ghost predicate ValidFs(fs: Fs) {
    Closed(fs) && Tree(fs)
  }

  // ------------------------------------------------------------------ call semantics

  function WithEntries(fs: Fs, d: Ino, entries: map<Name, Ino>): Fs
    requires IsDir(fs, d)
  {
    fs.(nodes := fs.nodes[d := fs.nodes[d].(entries := entries)])
  }

  /** mkdirat and openat(O_CREAT|O_EXCL): a new inode under a free name. */
  function Create(fs: Fs, d: Ino, name: Name, node: Node): Result<Fs, Errno> {
    if !IsDir(fs, d) then Err(NotDir)
    else if name in fs.nodes[d].entries then Err(Exist)
    else
      var named := WithEntries(fs, d, fs.nodes[d].entries[name := fs.next]);
      Ok(Fs(named.nodes[fs.next := node], fs.next + 1))
  }

  function SetMeta(fs: Fs, i: Ino, meta: Meta): Fs
    requires i in fs.nodes
  {
    fs.(nodes := fs.nodes[i := fs.nodes[i].(meta := meta)])
  }

  function Append(fs: Fs, i: Ino, bytes: Bytes): Fs
    requires i in fs.nodes && fs.nodes[i].File?
  {
    fs.(nodes := fs.nodes[i := fs.nodes[i].(data := fs.nodes[i].data + bytes)])
  }

  /** unlinkat without AT_REMOVEDIR. */
  function Unlink(fs: Fs, d: Ino, name: Name): Result<Fs, Errno> {
    match Bound(fs, d, name)
    case None => Err(NoEnt)
    case Some(i) => if IsDir(fs, i) then Err(IsDirectory) else Ok(WithEntries(fs, d, fs.nodes[d].entries - {name}))
  }

  /** unlinkat with AT_REMOVEDIR: only an empty directory goes. */
  function Rmdir(fs: Fs, d: Ino, name: Name): Result<Fs, Errno> {
    match Bound(fs, d, name)
    case None => Err(NoEnt)
    case Some(i) =>
      if !IsDir(fs, i) then Err(NotDir)
      else if fs.nodes[i].entries != map[] then Err(NotEmpty)
      else Ok(WithEntries(fs, d, fs.nodes[d].entries - {name}))
  }

  /** The new name after the old one is gone. */
  function Moved(fs: Fs, d1: Ino, from: Name, d2: Ino, to: Name, i: Ino): Fs
    requires IsDir(fs, d1) && IsDir(fs, d2)
  {
    var cut := WithEntries(fs, d1, fs.nodes[d1].entries - {from});
    WithEntries(cut, d2, cut.nodes[d2].entries[to := i])
  }

  /** renameat. `intoSelf` says whether `d2` lies at or below the moved inode. */
  function Rename(fs: Fs, d1: Ino, from: Name, d2: Ino, to: Name, intoSelf: bool): Result<Fs, Errno> {
    if !IsDir(fs, d1) || !IsDir(fs, d2) then Err(NotDir)
    else
      match Bound(fs, d1, from)
      case None => Err(NoEnt)
      case Some(i) =>
        if intoSelf then Err(Inval)
        else
          match Bound(fs, d2, to)
          case None => Ok(Moved(fs, d1, from, d2, to, i))
          case Some(there) =>
            if there == i then Ok(fs)
            else if IsDir(fs, i) && !IsDir(fs, there) then Err(NotDir)
            else if !IsDir(fs, i) && IsDir(fs, there) then Err(IsDirectory)
            else if IsDir(fs, there) && fs.nodes[there].entries != map[] then Err(NotEmpty)
            else Ok(Moved(fs, d1, from, d2, to, i))
  }

  /** openat(O_DIRECTORY|O_NOFOLLOW). */
  function OpenDir(fs: Fs, d: Ino, name: Name): Result<Ino, Errno> {
    match Bound(fs, d, name)
    case None => Err(NoEnt)
    case Some(i) => if IsDir(fs, i) then Ok(i) else Err(NotDir)
  }

  /** openat(O_NOFOLLOW|O_NONBLOCK), then only a regular file with one hard link is kept. */
  function OpenRegular(fs: Fs, d: Ino, name: Name): Result<Ino, Errno> {
    match Bound(fs, d, name)
    case None => Err(NoEnt)
    case Some(i) =>
      if i !in fs.nodes || !fs.nodes[i].File? then Err(NotRegular)
      else if |Links(fs, i)| != 1 then Err(ManyLinks)
      else Ok(i)
  }

  /** Walks directories component by component: an absent one is `None`, anything but a directory an error. */
  function WalkDir(fs: Fs, root: Ino, rel: Path): Result<Option<Ino>, Errno>
    decreases |rel|
  {
    if rel == [] then Ok(Some(root))
    else
      match OpenDir(fs, root, rel[0])
      case Err(NoEnt) => Ok(None)
      case Err(e) => Err(e)
      case Ok(child) => WalkDir(fs, child, rel[1..])
  }

  /** sha256 stood for by the bytes it identifies, so equal digests mean equal contents. */
  datatype Digest = Sha256(of: Bytes)
}
