/** Creating missing directories along paths: nothing that resolved before resolves differently. */
module Growth {
  import opened Kernel
  import opened Trees
  import opened Steps

  function Prefixes(rel: Path): set<Path> {
    set k | 0 < k <= |rel| :: rel[..k]
  }

  /** The directories that would get a new entry when the paths in `made` are created. */
  ghost function Parents(fs: Fs, root: Ino, made: set<Path>): set<Ino> {
    set q | q in made && q != [] && Lookup(fs, root, q[..|q| - 1]).Some? :: Lookup(fs, root, q[..|q| - 1]).value
  }

  /** From `a` to `b` only directories at paths in `made` appeared. */
  ghost predicate Grown(a: Fs, b: Fs, root: Ino, made: set<Path>) {
    && Touch(a, b, Parents(a, root, made)) && Added(a, b)
    && forall q: Path :: Lookup(b, root, q) == Lookup(a, root, q) || MadeDir(a, b, root, made, q)
  }

  ghost predicate MadeDir(a: Fs, b: Fs, root: Ino, made: set<Path>, q: Path) {
    && q in made && Lookup(a, root, q) == None && Lookup(b, root, q).Some?
    && Lookup(b, root, q).value >= a.next && IsDir(b, Lookup(b, root, q).value)
  }

  lemma GrownRefl(a: Fs, root: Ino, made: set<Path>)
    ensures Grown(a, a, root, made)
  {
  }

  lemma GrownWider(a: Fs, b: Fs, root: Ino, made: set<Path>, made': set<Path>)
    requires Grown(a, b, root, made) && made <= made'
    ensures Grown(a, b, root, made')
  {
    forall i | i in Parents(a, root, made) ensures i in Parents(a, root, made') {
      var q :| q in made && q != [] && Lookup(a, root, q[..|q| - 1]) == Some(i);
      assert q in made';
    }
    TouchWider(a, b, Parents(a, root, made), Parents(a, root, made'));
    forall q: Path ensures Lookup(b, root, q) == Lookup(a, root, q) || MadeDir(a, b, root, made', q) {
      assert Lookup(b, root, q) == Lookup(a, root, q) || MadeDir(a, b, root, made, q);
    }
  }

  lemma GrownTrans(a: Fs, b: Fs, c: Fs, root: Ino, made: set<Path>)
    requires ValidFs(a) && Grown(a, b, root, made) && Grown(b, c, root, made)
    ensures Grown(a, c, root, made)
  {
    forall i: Ino | i in Parents(b, root, made) && i in a.nodes ensures i in Parents(a, root, made) {
      var q :| q in made && q != [] && Lookup(b, root, q[..|q| - 1]) == Some(i);
      assert Lookup(b, root, q[..|q| - 1]) == Lookup(a, root, q[..|q| - 1]) || MadeDir(a, b, root, made, q[..|q| - 1]);
    }
    TouchTrans(a, b, c, Parents(a, root, made), Parents(b, root, made));
    AddedTrans(a, b, c);
    forall q: Path ensures Lookup(c, root, q) == Lookup(a, root, q) || MadeDir(a, c, root, made, q) {
      assert Lookup(b, root, q) == Lookup(a, root, q) || MadeDir(a, b, root, made, q);
      assert Lookup(c, root, q) == Lookup(b, root, q) || MadeDir(b, c, root, made, q);
      if MadeDir(a, b, root, made, q) {
        var i := Lookup(b, root, q).value;
        assert i in b.nodes && i in c.nodes && IsDir(c, i);
      }
    }
  }

  /** A new inode without entries adds one path and changes no other. */
  lemma {:induction false} LookupCreated(b: Fs, c: Fs, root: Ino, q: Path, n: Name, d: Ino, x: Path)
    requires ValidFs(b) && IsDir(b, root) && Lookup(b, root, q) == Some(d) && IsDir(b, d)
    requires Rebound(b, c, d, n, Some(b.next)) && Bound(b, d, n) == None && b.next !in b.nodes
    ensures Lookup(c, root, x) == if x == q + [n] then Some(b.next) else Lookup(b, root, x)
    decreases |x|
  {
    if x == [] {
    } else {
      var x0, m := x[..|x| - 1], x[|x| - 1];
      assert x == x0 + [m];
      LookupCreated(b, c, root, q, n, d, x0);
      LookupLast(b, root, x0, m);
      LookupLast(c, root, x0, m);
      LookupLast(b, root, q, n);
      assert Bound(c, b.next, m) == None by { assert b.next != d && Bound(b, b.next, m) == None; }
      if Lookup(b, root, x0) == Some(d) && m == n {
        UniquePath(b, root, x0, q);
      }
    }
  }

  lemma {:induction false} LookupSame(b: Fs, c: Fs, root: Ino, x: Path)
    requires forall d: Ino, n: Name :: Bound(c, d, n) == Bound(b, d, n)
    ensures Lookup(c, root, x) == Lookup(b, root, x)
    decreases |x|
  {
    if x != [] && Bound(b, root, x[0]).Some? { LookupSame(b, c, Bound(b, root, x[0]).value, x[1..]); }
  }

  /** Setting owner or mode of something that is new since `a`. */
  lemma GrownMeta(a: Fs, b: Fs, root: Ino, made: set<Path>, i: Ino, meta: Meta)
    requires ValidFs(a) && Grown(a, b, root, made) && ValidFs(b) && i in b.nodes && i !in a.nodes
    ensures Grown(a, SetMeta(b, i, meta), root, made)
  {
    hide Touch, Added, ValidFs;
    var c := SetMeta(b, i, meta);
    MetaStep(b, i, meta);
    TouchTrans(a, b, c, Parents(a, root, made), {});
    AddedMeta(a, b, i, meta);
    forall q: Path ensures Lookup(c, root, q) == Lookup(a, root, q) || MadeDir(a, c, root, made, q) {
      LookupSame(b, c, root, q);
      assert Lookup(b, root, q) == Lookup(a, root, q) || MadeDir(a, b, root, made, q);
    }
  }

  lemma GrownCreate(b: Fs, c: Fs, root: Ino, made: set<Path>, q: Path, d: Ino, n: Name, meta: Meta)
    requires ValidFs(b) && IsDir(b, root) && Lookup(b, root, q) == Some(d) && q + [n] in made
    requires Create(b, d, n, Dir(meta, map[])) == Ok(c)
    ensures Grown(b, c, root, made) && Lookup(c, root, q + [n]) == Some(b.next) && IsDir(c, b.next)
  {
    hide Touch, Added, OthersSame;
    CreateStep(b, d, n, Dir(meta, map[]), c);
    assert d in Parents(b, root, made) by { assert (q + [n])[..|q + [n]| - 1] == q; }
    TouchWider(b, c, {d}, Parents(b, root, made));
    CreateAdded(b, c, d, n, Dir(meta, map[]));
    LookupLast(b, root, q, n);
    forall x: Path ensures Lookup(c, root, x) == Lookup(b, root, x) || MadeDir(b, c, root, made, x) {
      LookupCreated(b, c, root, q, n, d, x);
    }
    LookupCreated(b, c, root, q, n, d, q + [n]);
  }

  // ------------------------------------------------------------------ walking

  /** Walking agrees with resolution: found exactly when the path resolves to a directory. */
  lemma {:induction false} WalkFinds(fs: Fs, root: Ino, rel: Path)
    requires IsDir(fs, root)
    ensures WalkDir(fs, root, rel) == Ok(None) ==> Lookup(fs, root, rel) == None
    ensures forall d :: WalkDir(fs, root, rel) == Ok(Some(d)) <==> Lookup(fs, root, rel) == Some(d) && IsDir(fs, d)
    decreases |rel|
  {
    if rel != [] {
      match Bound(fs, root, rel[0])
      case None =>
      case Some(c) =>
        if IsDir(fs, c) {
          WalkFinds(fs, c, rel[1..]);
        } else if rel[1..] != [] {
          assert Bound(fs, c, rel[1..][0]) == None;
        }
    }
  }

  /** A walk fails exactly when some component resolves to something that is not a directory. */
  lemma {:induction false} WalkBlocked(fs: Fs, root: Ino, rel: Path)
    requires IsDir(fs, root)
    ensures WalkDir(fs, root, rel).Err? <==>
            exists k: nat ::
              k <= |rel| && Lookup(fs, root, rel[..k]).Some? && !IsDir(fs, Lookup(fs, root, rel[..k]).value)
    ensures WalkDir(fs, root, rel).Err? ==> WalkDir(fs, root, rel) == Err(NotDir)
    decreases |rel|
  {
    assert rel[..0] == [];
    if rel != [] {
      assert forall k: nat :: 0 < k <= |rel| ==> rel[..k][0] == rel[0] && rel[..k][1..] == rel[1..][..k - 1];
      match Bound(fs, root, rel[0])
      case None =>
      case Some(c) =>
        if IsDir(fs, c) {
          WalkBlocked(fs, c, rel[1..]);
          if WalkDir(fs, c, rel[1..]).Err? {
            var k: nat :| k <= |rel[1..]| && Lookup(fs, c, rel[1..][..k]).Some? && !IsDir(fs,
                Lookup(fs, c, rel[1..][..k]).value);
            assert Lookup(fs, root, rel[..k + 1]) == Lookup(fs, c, rel[1..][..k]);
          } else {
            forall k: nat | k <= |rel| && Lookup(fs, root, rel[..k]).Some?
              ensures IsDir(fs, Lookup(fs, root, rel[..k]).value)
            {
              if k > 0 { assert Lookup(fs, root, rel[..k]) == Lookup(fs, c, rel[1..][..k - 1]); }
            }
          }
        } else {
          assert rel[..1][1..] == [];
          assert Lookup(fs, root, rel[..1]) == Some(c);
        }
    }
  }

  /** Growth blocks no walk that was open, and opens none that was blocked. */
  lemma WalkGrown(a: Fs, b: Fs, root: Ino, made: set<Path>, rel: Path)
    requires ValidFs(a) && IsDir(a, root) && Grown(a, b, root, made) && IsDir(b, root)
    ensures WalkDir(b, root, rel).Err? <==> WalkDir(a, root, rel).Err?
  {
    WalkBlocked(a, root, rel);
    WalkBlocked(b, root, rel);
    forall k: nat | k <= |rel|
      ensures (Lookup(a, root, rel[..k]).Some? && !IsDir(a, Lookup(a, root, rel[..k]).value)) <==>
              (Lookup(b, root, rel[..k]).Some? && !IsDir(b, Lookup(b, root, rel[..k]).value))
    {
      var q := rel[..k];
      assert Lookup(b, root, q) == Lookup(a, root, q) || MadeDir(a, b, root, made, q);
      if Lookup(a, root, q).Some? {
        LookupInNodes(a, root, q);
        KindKept(a, b, root, made, Lookup(a, root, q).value);
      }
    }
  }

  lemma KindKept(a: Fs, b: Fs, root: Ino, made: set<Path>, i: Ino)
    requires ValidFs(a) && Grown(a, b, root, made) && i in a.nodes
    ensures i in b.nodes && (IsDir(a, i) <==> IsDir(b, i))
  {
  }
}
