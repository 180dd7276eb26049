/** What a step may do to the paths below a root: where entries may go, where they may come, and where directories may
    be made. */
module Regions {
  import opened Kernel
  import opened Trees
  import opened Steps
  import opened Growth
  import opened FileSystems
  import opened TreeWalks
  import opened Staging
  import opened Networks
  import opened Safety
  import opened Rollback

  datatype Region = Region(cut: set<Path>, put: set<Path>, made: set<Path>)

  ghost predicate Under(tops: set<Path>, q: Path) {
    exists c :: c in tops && c <= q
  }

  ghost predicate NewDir(a: Fs, b: Fs, root: Ino, q: Path) {
    Lookup(b, root, q).Some? && Lookup(b, root, q).value >= a.next && IsDir(b, Lookup(b, root, q).value)
  }

  /** From `a` to `b` only paths of the region changed: those at or below `cut` may be gone, those at or below `put` are
      anything, those in `made` may be new directories. No inode changed owner, mode, kind or bytes. */
  ghost predicate Effect(a: Fs, b: Fs, root: Ino, g: Region) {
    NodesKept(a, b) && forall q: Path :: PathEffect(a, b, root, g, q)
  }

  ghost predicate PathEffect(a: Fs, b: Fs, root: Ino, g: Region, q: Path) {
    || Lookup(b, root, q) == Lookup(a, root, q)
    || (Under(g.cut, q) && Lookup(b, root, q) == None)
    || Under(g.put, q)
    || (q in g.made && (Lookup(a, root, q) == None || Under(g.cut, q)) && NewDir(a, b, root, q))
  }

  function Join(g: Region, h: Region): Region {
    Region(g.cut + h.cut, g.put + h.put, g.made + h.made)
  }

  lemma EffectRefl(a: Fs, root: Ino, g: Region)
    ensures Effect(a, a, root, g)
  {
  }

  lemma UnderMore(s: set<Path>, t: set<Path>, q: Path)
    ensures Under(s + t, q) <==> Under(s, q) || Under(t, q)
  {
    if Under(s, q) { var c :| c in s && c <= q; assert c in s + t; }
    if Under(t, q) { var c :| c in t && c <= q; assert c in s + t; }
  }

  lemma EffectTrans(a: Fs, b: Fs, c: Fs, root: Ino, g: Region, h: Region)
    requires Effect(a, b, root, g) && Effect(b, c, root, h)
    ensures Effect(a, c, root, Join(g, h))
  {
    hide Under;
    KeptTrans(a, b, c);
    forall q: Path ensures PathEffect(a, c, root, Join(g, h), q) {
      UnderMore(g.cut, h.cut, q);
      UnderMore(g.put, h.put, q);
      assert PathEffect(a, b, root, g, q) && PathEffect(b, c, root, h, q);
      if NewDir(a, b, root, q) { DirStays(b, c, Lookup(b, root, q).value); }
    }
  }

  lemma DirStays(b: Fs, c: Fs, i: Ino)
    requires NodesKept(b, c) && IsDir(b, i)
    ensures IsDir(c, i)
  {
  }

  lemma EffectWider(a: Fs, b: Fs, root: Ino, g: Region, h: Region)
    requires Effect(a, b, root, g) && g.cut <= h.cut && g.put <= h.put && g.made <= h.made
    ensures Effect(a, b, root, h)
  {
    EffectRefl(b, root, h);
    EffectTrans(a, b, b, root, g, h);
    assert Join(g, h) == h;
  }

  // ------------------------------------------------------------------ the three kinds of change

  lemma GrownEffect(a: Fs, b: Fs, root: Ino, made: set<Path>)
    requires Grown(a, b, root, made)
    ensures Effect(a, b, root, Region({}, {}, made))
  {
    forall q: Path ensures PathEffect(a, b, root, Region({}, {}, made), q) {
      assert Lookup(b, root, q) == Lookup(a, root, q) || MadeDir(a, b, root, made, q);
    }
  }

  lemma UnderOne(c: Path, q: Path)
    ensures Under({c}, q) <==> c <= q
  {
  }

  lemma PrunedPath(a: Fs, b: Fs, root: Ino, up: Path, parent: Ino, name: Name, q: Path)
    requires ValidFs(a) && Lookup(a, root, up) == Some(parent) && Pruned(a, b, parent, name)
    ensures Lookup(b, root, q) == Lookup(a, root, q) || (up + [name] <= q && Lookup(b, root, q) == None)
    decreases |q|
  {
    if q != [] {
      var q0, n := q[..|q| - 1], q[|q| - 1];
      assert q == q0 + [n];
      PrunedPath(a, b, root, up, parent, name, q0);
      LookupLast(a, root, q0, n);
      LookupLast(b, root, q0, n);
      if Lookup(b, root, q0) == Lookup(a, root, q0) && Lookup(b, root, q) != Lookup(a, root, q) {
        var d := Lookup(a, root, q0).value;
        assert InTree(a, parent, name, d, n) && Bound(a, d, n).Some?;
        CutBelow(a, root, up, parent, name, q0, d, n);
      }
    }
  }

  /** An entry of the tree at `up/name` has a path below it. */
  lemma CutBelow(a: Fs, root: Ino, up: Path, parent: Ino, name: Name, q0: Path, d: Ino, n: Name)
    requires ValidFs(a) && Lookup(a, root, up) == Some(parent) && Lookup(a, root, q0) == Some(d)
    requires InTree(a, parent, name, d, n) && IsDir(a, d)
    ensures up + [name] <= q0 + [n]
  {
    if d == parent && n == name {
      UniquePath(a, root, q0, up);
    } else {
      var x := Bound(a, parent, name).value;
      var t := PathTo(a, x, d);
      LookupLast(a, root, up, name);
      LookupAppend(a, root, up + [name], t);
      UniquePath(a, root, q0, up + [name] + t);
    }
  }

  lemma PrunedEffect(a: Fs, b: Fs, root: Ino, up: Path, parent: Ino, name: Name)
    requires ValidFs(a) && Lookup(a, root, up) == Some(parent) && Pruned(a, b, parent, name)
    ensures Effect(a, b, root, Region({up + [name]}, {}, {}))
  {
    forall q: Path ensures PathEffect(a, b, root, Region({up + [name]}, {}, {}), q) {
      PrunedPath(a, b, root, up, parent, name, q);
      UnderOne(up + [name], q);
    }
    PrunedNodes(a, b, parent, name);
  }

  lemma PrunedNodes(a: Fs, b: Fs, parent: Ino, name: Name)
    requires Pruned(a, b, parent, name)
    ensures NodesKept(a, b)
  {
  }

  /** A rename across directories, seen from the root both are below. */
  lemma {:induction false} MovedPath(a: Fs, b: Fs, root: Ino, up: Path, d1: Ino, from: Name, over: Path, d2: Ino,
                                     to: Name, x: Ino, q: Path)
    requires ValidFs(a) && Lookup(a, root, up) == Some(d1) && Lookup(a, root, over) == Some(d2) && IsDir(a, d1)
    requires IsDir(a, d2)
    requires Renamed(a, b, d1, from, d2, to, x)
    ensures
      Lookup(b, root, q) == Lookup(a, root, q) || (up + [from] <= q && Lookup(b, root, q) == None) || over + [to] <= q
    decreases |q|
  {
    if q != [] {
      var q0, n := q[..|q| - 1], q[|q| - 1];
      assert q == q0 + [n];
      MovedPath(a, b, root, up, d1, from, over, d2, to, x, q0);
      LookupLast(a, root, q0, n);
      LookupLast(b, root, q0, n);
      if Lookup(b, root, q0) == Lookup(a, root, q0) && Lookup(a, root, q0).Some? {
        var d := Lookup(a, root, q0).value;
        if d == d1 && n == from { UniquePath(a, root, q0, up); }
        if d == d2 && n == to { UniquePath(a, root, q0, over); }
      }
    }
  }

  // ------------------------------------------------------------------ what is clear of a region

  predicate Unrelated(p: Path, q: Path) {
    !(p <= q) && !(q <= p)
  }

  /** Nothing at or below `p` is in the region. */
  ghost predicate Clear(g: Region, p: Path) {
    (forall c :: c in g.cut || c in g.put ==> Unrelated(c, p)) && (forall m :: m in g.made && p <= m ==> m == p)
  }

  lemma ClearBelow(g: Region, p: Path, t: Path)
    requires Clear(g, p)
    ensures !Under(g.cut, p + t) && !Under(g.put, p + t) && (p + t in g.made ==> t == [])
  {
    forall c | c in g.cut || c in g.put ensures !(c <= p + t) { PrefixesCompare(c, p, p + t); }
    assert p <= p + t;
    if p + t in g.made { assert |p + t| == |p|; }
  }

  /** What is bound at a path clear of the region stays bound there, its whole tree unchanged. */
  lemma KeptAt(a: Fs, b: Fs, root: Ino, g: Region, p: Path)
    requires Effect(a, b, root, g) && Clear(g, p) && Lookup(a, root, p).Some?
    ensures Lookup(b, root, p) == Lookup(a, root, p) && SameTree(a, b, Lookup(a, root, p).value)
  {
    var x := Lookup(a, root, p).value;
    assert p + [] == p;
    forall t: Path ensures Lookup(b, root, p + t) == Lookup(a, root, p + t) {
      ClearBelow(g, p, t);
      assert PathEffect(a, b, root, g, p + t);
      if t == [] { assert p + t == p; }
    }
    assert Lookup(b, root, p) == Lookup(a, root, p);
    SameBelow(a, b, root, p);
  }

  /** Equal resolution of everything below `p` makes equal trees. */
  lemma SameBelow(a: Fs, b: Fs, root: Ino, p: Path)
    requires NodesKept(a, b) && Lookup(a, root, p).Some?
    requires forall t: Path :: Lookup(b, root, p + t) == Lookup(a, root, p + t)
    ensures SameTree(a, b, Lookup(a, root, p).value)
  {
    var x := Lookup(a, root, p).value;
    assert p + [] == p;
    forall t: Path ensures Lookup(b, x, t) == Lookup(a, x, t) {
      assert Lookup(b, root, p + t) == Lookup(a, root, p + t);
      LookupAppend(a, root, p, t);
      LookupAppend(b, root, p, []);
      LookupAppend(b, root, p, t);
    }
    forall t: Path | Lookup(a, x, t).Some? && Lookup(a, x, t).value in a.nodes
      ensures Lookup(a, x, t).value in b.nodes
      ensures SameBody(a.nodes[Lookup(a, x, t).value], b.nodes[Lookup(a, x, t).value])
    {
      var i := Lookup(a, x, t).value;
      if IsDir(a, i) {
        forall n: Name ensures Bound(b, i, n) == Bound(a, i, n) {
          LookupLast(a, x, t, n);
          LookupLast(b, x, t, n);
          assert Lookup(b, x, t + [n]) == Lookup(a, x, t + [n]);
        }
        EntriesEqual(a, b, i);
      }
    }
  }

  /** What is absent at a path that is neither put nor made stays absent. */
  lemma AbsentAt(a: Fs, b: Fs, root: Ino, g: Region, p: Path)
    requires Effect(a, b, root, g) && !Under(g.put, p) && p !in g.made && Lookup(a, root, p) == None
    ensures Lookup(b, root, p) == None
  {
    assert PathEffect(a, b, root, g, p);
  }
}
