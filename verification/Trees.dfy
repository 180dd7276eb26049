/** What the tree shape gives: paths name directories uniquely, and a step that touches only some
    directories leaves every subtree that does not reach them exactly as it was. */
module Trees {
  import opened Kernel

  // ------------------------------------------------------------------ paths

  lemma {:induction false} LookupAppend(fs: Fs, r: Ino, p: Path, q: Path)
    ensures Lookup(fs, r, p + q) ==
            match Lookup(fs, r, p) { case None => None case Some(m) => Lookup(fs, m, q) }
    decreases |p|
  {
    if p == [] {
      assert p + q == q;
    } else {
      assert (p + q)[0] == p[0] && (p + q)[1..] == p[1..] + q;
      match Bound(fs, r, p[0])
      case None =>
      case Some(c) => LookupAppend(fs, c, p[1..], q);
    }
  }

  /** Resolution of a path by its last component. */
  lemma LookupLast(fs: Fs, r: Ino, p: Path, n: Name)
    ensures Lookup(fs, r, p + [n]) ==
            match Lookup(fs, r, p) { case None => None case Some(m) => Bound(fs, m, n) }
  {
    LookupAppend(fs, r, p, [n]);
    match Lookup(fs, r, p)
    case None =>
    case Some(m) =>
      assert [n][1..] == [];
  }

  /** Every proper prefix of a path that resolves is a directory. */
  lemma {:induction false} PrefixIsDir(fs: Fs, r: Ino, p: Path, k: nat)
    requires Lookup(fs, r, p).Some? && k < |p|
    ensures Lookup(fs, r, p[..k]).Some? && IsDir(fs, Lookup(fs, r, p[..k]).value)
  {
    assert p == p[..k] + p[k..];
    LookupAppend(fs, r, p[..k], p[k..]);
  }

  lemma {:induction false} HeightFalls(fs: Fs, s: Shape, r: Ino, p: Path)
    requires Shaped(fs, s)
    requires Lookup(fs, r, p).Some? && IsDir(fs, Lookup(fs, r, p).value) && p != []
    ensures s.height(Lookup(fs, r, p).value) < s.height(r)
    decreases |p|
  {
    var c := Bound(fs, r, p[0]).value;
    if p[1..] != [] {
      HeightFalls(fs, s, c, p[1..]);
      PrefixIsDir(fs, c, p[1..], 0);
      assert p[1..][..0] == [];
    }
  }

  lemma {:induction false} UniqueUnder(fs: Fs, s: Shape, r: Ino, p: Path, q: Path)
    requires Shaped(fs, s)
    requires Lookup(fs, r, p).Some? && Lookup(fs, r, p) == Lookup(fs, r, q)
    requires IsDir(fs, Lookup(fs, r, p).value)
    ensures p == q
    decreases |p|
  {
    if p == [] || q == [] {
      if p != [] { HeightFalls(fs, s, r, p); }
      if q != [] { HeightFalls(fs, s, r, q); }
    } else {
      var p0, q0 := p[..|p| - 1], q[..|q| - 1];
      assert p == p0 + [p[|p| - 1]] && q == q0 + [q[|q| - 1]];
      LookupLast(fs, r, p0, p[|p| - 1]);
      LookupLast(fs, r, q0, q[|q| - 1]);
      assert Lookup(fs, r, p0) == Lookup(fs, r, q0);
      UniqueUnder(fs, s, r, p0, q0);
    }
  }

  /** Two paths from one root to the same directory are the same path. */
  lemma UniquePath(fs: Fs, r: Ino, p: Path, q: Path)
    requires ValidFs(fs)
    requires Lookup(fs, r, p).Some? && Lookup(fs, r, p) == Lookup(fs, r, q)
    requires IsDir(fs, Lookup(fs, r, p).value)
    ensures p == q
  {
    var s :| Shaped(fs, s);
    UniqueUnder(fs, s, r, p, q);
  }

  /** Nothing at path `a` reaches the directory at path `b` unless `a` is a prefix of `b`. */
  lemma NotUnder(fs: Fs, r: Ino, a: Path, x: Ino, b: Path, e: Ino)
    requires ValidFs(fs)
    requires Lookup(fs, r, a) == Some(x) && Lookup(fs, r, b) == Some(e) && IsDir(fs, e)
    requires !(a <= b)
    ensures !Reach(fs, x, e)
  {
    if Reach(fs, x, e) {
      var p :| Lookup(fs, x, p) == Some(e);
      LookupAppend(fs, r, a, p);
      UniquePath(fs, r, a + p, b);
    }
  }

  lemma ReachTrans(fs: Fs, a: Ino, p: Path, b: Ino, c: Ino)
    requires Lookup(fs, a, p) == Some(b) && Reach(fs, b, c)
    ensures Reach(fs, a, c)
  {
    var q :| Lookup(fs, b, q) == Some(c);
    LookupAppend(fs, a, p, q);
  }

  lemma ReachStep(fs: Fs, a: Ino, d: Ino, n: Name)
    requires Reach(fs, a, d) && Bound(fs, d, n).Some?
    ensures Reach(fs, a, Bound(fs, d, n).value)
  {
    var q :| Lookup(fs, a, q) == Some(d);
    LookupLast(fs, a, q, n);
  }

  lemma ReachSelf(fs: Fs, a: Ino)
    ensures Reach(fs, a, a)
  {
    assert Lookup(fs, a, []) == Some(a);
  }

  lemma {:induction false} LookupInNodes(fs: Fs, r: Ino, p: Path)
    requires ValidFs(fs) && r in fs.nodes && Lookup(fs, r, p).Some?
    ensures Lookup(fs, r, p).value in fs.nodes
    decreases |p|
  {
    if p != [] { LookupInNodes(fs, Bound(fs, r, p[0]).value, p[1..]); }
  }

  // ------------------------------------------------------------------ steps

  /** The same directory entries or the same bytes; owner and mode may differ. */
  predicate SameBody(a: Node, b: Node) {
    match a
    case Dir(_, e) => b.Dir? && b.entries == e
    case File(_, data) => b.File? && b.data == data
    case Special(_, l) => b.Special? && b.symlink == l
  }

  predicate SameKind(a: Node, b: Node) {
    (a.Dir? <==> b.Dir?) && (a.File? <==> b.File?)
  }

  ghost predicate NoNewLinks(a: Fs, b: Fs, f: Ino) {
    forall d: Ino, n: Name :: Bound(b, d, n) == Some(f) ==> Bound(a, d, n) == Some(f)
  }

  ghost predicate BoundIn(fs: Fs, dirs: set<Ino>, f: Ino) {
    exists d: Ino, n: Name :: d in dirs && Bound(fs, d, n) == Some(f)
  }

  lemma EntriesEqual(a: Fs, b: Fs, d: Ino)
    requires IsDir(a, d) && IsDir(b, d) && forall n: Name :: Bound(b, d, n) == Bound(a, d, n)
    ensures a.nodes[d].entries == b.nodes[d].entries
  {
    var ea, eb := a.nodes[d].entries, b.nodes[d].entries;
    forall n: Name ensures n in ea <==> n in eb { assert Bound(b, d, n) == Bound(a, d, n); }
    assert ea.Keys == eb.Keys;
    forall n: Name | n in ea ensures ea[n] == eb[n] { assert Bound(b, d, n) == Bound(a, d, n); }
  }

  /** From `a` to `b` only the inodes in `e` changed their bodies, and only inodes named in one of
      them may have gained a name. Every call of a run is such a step for a small `e`. */
  ghost predicate Touch(a: Fs, b: Fs, e: set<Ino>) {
    && a.next <= b.next
    && (forall i: Ino :: i in a.nodes ==>
      i in b.nodes && SameKind(a.nodes[i], b.nodes[i]) && (i in e || SameBody(a.nodes[i], b.nodes[i])))
    && (forall f: Ino :: f in a.nodes ==> BoundIn(a, e, f) || NoNewLinks(a, b, f))
  }

  lemma TouchRefl(a: Fs, e: set<Ino>)
    ensures Touch(a, a, e)
  {
  }

  lemma TouchWider(a: Fs, b: Fs, e: set<Ino>, e': set<Ino>)
    requires Touch(a, b, e) && e <= e'
    ensures Touch(a, b, e')
  {
    forall f | f in a.nodes && BoundIn(a, e, f) ensures BoundIn(a, e', f) {
      var d, n :| d in e && Bound(a, d, n) == Some(f);
      assert d in e';
    }
  }

  /** Steps compose; what the second one touches must be allowed or new. */
  lemma TouchTrans(a: Fs, b: Fs, c: Fs, e: set<Ino>, e': set<Ino>)
    requires Touch(a, b, e) && Touch(b, c, e')
    requires forall i: Ino :: i in e' && i in a.nodes ==> i in e
    ensures Touch(a, c, e)
  {
    forall i: Ino | i in a.nodes && i !in e ensures i in c.nodes && SameBody(a.nodes[i], c.nodes[i]) {
      assert i in b.nodes && SameBody(a.nodes[i], b.nodes[i]);
      assert i in c.nodes && SameBody(b.nodes[i], c.nodes[i]);
    }
    forall f: Ino | f in a.nodes && !BoundIn(a, e, f) ensures NoNewLinks(a, c, f) {
      assert NoNewLinks(a, b, f);
      assert forall d: Ino, n: Name :: Bound(b, d, n) == Some(f) ==> Bound(a, d, n) == Some(f);
    }
  }

  predicate Preserved(a: Node, b: Node) {
    b.meta == a.meta && SameKind(a, b) && (!a.Dir? ==> b == a)
  }

  /** Nothing that existed changed: inodes keep owner, mode and bytes, names keep their meaning, links are only added
      to new inodes. */
  ghost predicate Added(a: Fs, b: Fs) {
    && a.next <= b.next
    && (forall i: Ino :: i in a.nodes ==> i in b.nodes && Preserved(a.nodes[i], b.nodes[i]))
    && (forall d: Ino, n: Name :: Bound(a, d, n).Some? ==> Bound(b, d, n) == Bound(a, d, n))
    && (forall f: Ino :: f in a.nodes ==> NoNewLinks(a, b, f))
  }

  lemma AddedTrans(a: Fs, b: Fs, c: Fs)
    requires Added(a, b) && Added(b, c)
    ensures Added(a, c)
  {
    forall f: Ino | f in a.nodes ensures NoNewLinks(a, c, f) {
      assert NoNewLinks(a, b, f) && NoNewLinks(b, c, f);
    }
  }

  lemma {:induction false} LookupAdded(a: Fs, b: Fs, r: Ino, p: Path)
    requires Added(a, b) && Lookup(a, r, p).Some?
    ensures Lookup(b, r, p) == Lookup(a, r, p)
    decreases |p|
  {
    if p != [] { LookupAdded(a, b, Bound(a, r, p[0]).value, p[1..]); }
  }

  /** A subtree that reaches no touched inode resolves every path as before. */
  lemma {:induction false} LookupFrame(a: Fs, b: Fs, e: set<Ino>, x: Ino, p: Path)
    requires ValidFs(a) && Touch(a, b, e) && x in a.nodes
    requires forall i: Ino :: i in e ==> !Reach(a, x, i)
    ensures Lookup(b, x, p) == Lookup(a, x, p)
    decreases |p|
  {
    if p != [] {
      ReachSelf(a, x);
      assert SameBody(a.nodes[x], b.nodes[x]);
      assert Bound(a, x, p[0]) == Bound(b, x, p[0]);
      match Bound(a, x, p[0])
      case None =>
      case Some(c) =>
        forall i | i in e ensures !Reach(a, c, i) {
          assert p[..1][1..] == [];
          if Reach(a, c, i) { ReachTrans(a, x, p[..1], c, i); }
        }
        LookupFrame(a, b, e, c, p[1..]);
    }
  }

  /** Resolution along one path depends only on the directories it passes through. */
  lemma {:induction false} LookupAlong(a: Fs, b: Fs, e: set<Ino>, r: Ino, p: Path)
    requires ValidFs(a) && Touch(a, b, e) && r in a.nodes
    requires forall k: nat :: 0 <= k < |p| && Lookup(a, r, p[..k]).Some? ==> Lookup(a, r, p[..k]).value !in e
    ensures Lookup(b, r, p) == Lookup(a, r, p)
    decreases |p|
  {
    if p != [] {
      assert p[..0] == [];
      assert SameBody(a.nodes[r], b.nodes[r]);
      assert Bound(a, r, p[0]) == Bound(b, r, p[0]);
      match Bound(a, r, p[0])
      case None =>
      case Some(c) =>
        forall k | 0 <= k < |p[1..]| && Lookup(a, c, p[1..][..k]).Some? ensures Lookup(a, c, p[1..][..k]).value !in e {
          assert p[..k + 1][1..] == p[1..][..k];
          assert Lookup(a, r, p[..k + 1]) == Lookup(a, c, p[1..][..k]);
        }
        LookupAlong(a, b, e, c, p[1..]);
    }
  }

  /** Everything below `x` is as it was: the same paths to the same inodes with the same bodies. */
  ghost predicate SameTree(a: Fs, b: Fs, x: Ino) {
    forall p: Path :: Lookup(b, x, p) == Lookup(a, x, p) &&
      (Lookup(a, x, p).Some? && Lookup(a, x, p).value in a.nodes ==>
        Lookup(a, x, p).value in b.nodes && SameBody(a.nodes[Lookup(a, x, p).value], b.nodes[Lookup(a, x, p).value]))
  }

  lemma TreeFrame(a: Fs, b: Fs, e: set<Ino>, x: Ino)
    requires ValidFs(a) && Touch(a, b, e) && x in a.nodes
    requires forall i: Ino :: i in e ==> !Reach(a, x, i)
    ensures SameTree(a, b, x)
  {
    forall p: Path
      ensures Lookup(b, x, p) == Lookup(a, x, p)
      ensures Lookup(a, x, p).Some? && Lookup(a, x, p).value in a.nodes ==>
          Lookup(a, x, p).value in b.nodes && SameBody(a.nodes[Lookup(a, x, p).value], b.nodes[Lookup(a, x, p).value])
    {
      LookupFrame(a, b, e, x, p);
      if Lookup(a, x, p).Some? { assert Reach(a, x, Lookup(a, x, p).value); }
    }
  }

  /** An old inode named in `b` was already below `r` if its directory was, or if it was named in a touched one. */
  lemma ReachBackStep(a: Fs, b: Fs, e: set<Ino>, r: Ino, d: Ino, n: Name, f: Ino)
    requires Touch(a, b, e) && f in a.nodes && Bound(b, d, n) == Some(f)
    requires forall i: Ino :: i in e && i in a.nodes ==> Reach(a, r, i)
    requires d in a.nodes ==> Reach(a, r, d)
    ensures Reach(a, r, f)
  {
    hide Reach;
    if BoundIn(a, e, f) {
      var d0: Ino, m :| d0 in e && Bound(a, d0, m) == Some(f);
      ReachStep(a, r, d0, m);
    } else {
      assert NoNewLinks(a, b, f);
      ReachStep(a, r, d, n);
    }
  }

  /** If everything touched lies at or below `r` (or did not exist), what `r` reaches afterwards it reached before. */
  lemma {:induction false} ReachBack(a: Fs, b: Fs, e: set<Ino>, r: Ino, p: Path)
    requires Touch(a, b, e)
    requires forall i: Ino :: i in e && i in a.nodes ==> Reach(a, r, i)
    requires Lookup(b, r, p).Some? && Lookup(b, r, p).value in a.nodes
    ensures Reach(a, r, Lookup(b, r, p).value)
    decreases |p|
  {
    hide Reach, Touch;
    if p == [] {
      ReachSelf(a, r);
    } else {
      var p0, n := p[..|p| - 1], p[|p| - 1];
      assert p == p0 + [n];
      LookupLast(b, r, p0, n);
      var d := Lookup(b, r, p0).value;
      if d in a.nodes { ReachBack(a, b, e, r, p0); }
      ReachBackStep(a, b, e, r, d, n, Lookup(b, r, p).value);
    }
  }

  /** A path that witnesses reachability. */
  lemma PathTo(fs: Fs, a: Ino, b: Ino) returns (p: Path)
    requires Reach(fs, a, b)
    ensures Lookup(fs, a, p) == Some(b)
  {
    p :| Lookup(fs, a, p) == Some(b);
  }

  /** Two directory trees are apart: neither root lies at or below the other. */
  ghost predicate Apart(fs: Fs, h: Ino, l: Ino) {
    !Reach(fs, h, l) && !Reach(fs, l, h)
  }

  /** Steps inside the tree of `h` keep it apart from the tree of `l`. */
  lemma ApartKept(a: Fs, b: Fs, e: set<Ino>, h: Ino, l: Ino)
    requires ValidFs(a) && Touch(a, b, e) && IsDir(a, h) && IsDir(a, l) && Apart(a, h, l)
    requires forall i: Ino :: i in e && i in a.nodes ==> Reach(a, h, i) && IsDir(a, i)
    ensures Apart(b, h, l)
  {
    if Reach(b, h, l) {
      var p :| Lookup(b, h, p) == Some(l);
      ReachBack(a, b, e, h, p);
    }
    if Reach(b, l, h) {
      var p :| Lookup(b, l, p) == Some(h);
      forall i | i in e ensures !Reach(a, l, i) {
        if Reach(a, l, i) {
          if i in a.nodes {
            var q :| Lookup(a, h, q) == Some(i);
            var t :| Lookup(a, l, t) == Some(i);
            MeetApart(a, h, q, l, t);
          } else {
            var t :| Lookup(a, l, t) == Some(i);
            LookupInNodes(a, l, t);
          }
        }
      }
      LookupFrame(a, b, e, l, p);
    }
  }

  /** Trees that are apart share no directory. */
  lemma {:induction false} MeetApart(fs: Fs, h: Ino, q: Path, l: Ino, t: Path)
    requires ValidFs(fs) && Lookup(fs, h, q).Some? && Lookup(fs, h, q) == Lookup(fs, l, t)
    requires IsDir(fs, Lookup(fs, h, q).value)
    ensures Reach(fs, h, l) || Reach(fs, l, h)
    decreases |q|
  {
    if q == [] {
      assert Lookup(fs, l, t) == Some(h);
    } else if t == [] {
      assert Lookup(fs, h, q) == Some(l);
    } else {
      var s :| Shaped(fs, s);
      var q0, t0 := q[..|q| - 1], t[..|t| - 1];
      assert q == q0 + [q[|q| - 1]] && t == t0 + [t[|t| - 1]];
      LookupLast(fs, h, q0, q[|q| - 1]);
      LookupLast(fs, l, t0, t[|t| - 1]);
      MeetApart(fs, h, q0, l, t0);
    }
  }
}
