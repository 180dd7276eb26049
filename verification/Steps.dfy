/** What each call does to the graph: it stays a well-formed tree, and exactly the named entries change. */
module Steps {
  import opened Kernel
  import opened Trees

  /** Every binding is as before except that `(d, n)` is now `v`. */
  ghost predicate Rebound(a: Fs, b: Fs, d: Ino, n: Name, v: Option<Ino>) {
    forall x: Ino, m: Name :: Bound(b, x, m) == if x == d && m == n then v else Bound(a, x, m)
  }

  /** Every inode but `i` is untouched; `i` exists in both. */
  ghost predicate OthersSame(a: Fs, b: Fs, e: set<Ino>) {
    forall i: Ino :: i in a.nodes && i !in e ==> i in b.nodes && b.nodes[i] == a.nodes[i]
  }

  ghost function Raised(s: Shape, leaf: Ino, i: Ino): nat {
    if i == leaf then 0 else s.height(i) + 1
  }

  lemma TreeBy(fs: Fs, s: Shape)
    requires Shaped(fs, s)
    ensures Tree(fs)
  {
  }

  lemma CreatedTree(a: Fs, b: Fs, d: Ino, n: Name)
    requires ValidFs(a) && IsDir(a, d) && Rebound(a, b, d, n, Some(a.next))
    requires forall x: Ino :: x != a.next ==> (IsDir(b, x) <==> IsDir(a, x))
    requires forall m: Name :: Bound(b, a.next, m) == None
    ensures Tree(b)
  {
    var s :| Shaped(a, s);
    assert forall x: Ino, m: Name :: Bound(a, x, m).Some? ==> Bound(a, x, m).value != a.next;
    ghost var height: Ino -> nat := (i: Ino) => Raised(s, a.next, i);
    ghost var parent: Ino -> (Ino, Name) := (i: Ino) => if i == a.next then (d, n) else s.parent(i);
    TreeBy(b, Shape(height, parent));
  }

  lemma CreateStep(a: Fs, d: Ino, n: Name, node: Node, b: Fs)
    requires ValidFs(a) && Create(a, d, n, node) == Ok(b)
    requires node.Dir? ==> node.entries == map[]
    ensures ValidFs(b) && Touch(a, b, {d}) && OthersSame(a, b, {d})
    ensures Rebound(a, b, d, n, Some(a.next)) && Bound(a, d, n) == None
    ensures b.next == a.next + 1 && a.next !in a.nodes && a.next in b.nodes && b.nodes[a.next] == node
    ensures b.nodes.Keys == a.nodes.Keys + {a.next}
    ensures IsDir(b, d) && b.nodes[d].meta == a.nodes[d].meta
  {
    assert Rebound(a, b, d, n, Some(a.next));
    CreatedTree(a, b, d, n);
  }

  lemma CreateAdded(a: Fs, b: Fs, d: Ino, n: Name, node: Node)
    requires ValidFs(a) && Create(a, d, n, node) == Ok(b) && (node.Dir? ==> node.entries == map[])
    ensures Added(a, b)
  {
    CreateStep(a, d, n, node, b);
  }

  lemma MetaStep(a: Fs, i: Ino, meta: Meta)
    requires ValidFs(a) && i in a.nodes
    ensures ValidFs(SetMeta(a, i, meta)) && Touch(a, SetMeta(a, i, meta), {}) && OthersSame(a, SetMeta(a, i, meta), {i})
    ensures forall x: Ino, m: Name :: Bound(SetMeta(a, i, meta), x, m) == Bound(a, x, m)
    ensures SameBody(a.nodes[i], SetMeta(a, i, meta).nodes[i])
    ensures SetMeta(a, i, meta).next == a.next && SetMeta(a, i, meta).nodes.Keys == a.nodes.Keys
  {
    var b := SetMeta(a, i, meta);
    assert forall x: Ino, m: Name :: Bound(b, x, m) == Bound(a, x, m);
    var s :| Shaped(a, s);
    assert Shaped(b, s);
  }

  lemma AddedMeta(a: Fs, b: Fs, i: Ino, meta: Meta)
    requires Added(a, b) && i in b.nodes && i !in a.nodes
    ensures Added(a, SetMeta(b, i, meta))
  {
    var c := SetMeta(b, i, meta);
    assert forall x: Ino, m: Name :: Bound(c, x, m) == Bound(b, x, m);
  }

  lemma AppendStep(a: Fs, i: Ino, bytes: Bytes)
    requires ValidFs(a) && i in a.nodes && a.nodes[i].File?
    ensures ValidFs(Append(a, i, bytes)) && Touch(a, Append(a, i, bytes), {i})
    ensures OthersSame(a, Append(a, i, bytes), {i})
    ensures forall x: Ino, m: Name :: Bound(Append(a, i, bytes), x, m) == Bound(a, x, m)
    ensures Append(a, i, bytes).next == a.next && Append(a, i, bytes).nodes.Keys == a.nodes.Keys
  {
    var b := Append(a, i, bytes);
    assert forall x: Ino, m: Name :: Bound(b, x, m) == Bound(a, x, m);
    var s :| Shaped(a, s);
    assert Shaped(b, s);
  }

  /** unlink and rmdir both just cut one entry. */
  lemma CutStep(a: Fs, d: Ino, n: Name)
    requires ValidFs(a) && IsDir(a, d)
    ensures var b := WithEntries(a, d, a.nodes[d].entries - {n});
      && ValidFs(b) && Touch(a, b, {d}) && OthersSame(a, b, {d})
      && Rebound(a, b, d, n, None) && b.next == a.next && b.nodes.Keys == a.nodes.Keys
      && IsDir(b, d) && b.nodes[d].meta == a.nodes[d].meta
  {
    var b := WithEntries(a, d, a.nodes[d].entries - {n});
    assert Rebound(a, b, d, n, None);
    var s :| Shaped(a, s);
    assert Shaped(b, s);
  }

  ghost predicate Renamed(a: Fs, b: Fs, d1: Ino, from: Name, d2: Ino, to: Name, i: Ino) {
    forall x: Ino, m: Name :: Bound(b, x, m) ==
      if x == d2 && m == to then Some(i) else if x == d1 && m == from then None else Bound(a, x, m)
  }

  lemma MovedBindings(a: Fs, d1: Ino, from: Name, d2: Ino, to: Name, i: Ino)
    requires IsDir(a, d1) && IsDir(a, d2) && Bound(a, d1, from) == Some(i)
    ensures Renamed(a, Moved(a, d1, from, d2, to, i), d1, from, d2, to, i)
    ensures OthersSame(a, Moved(a, d1, from, d2, to, i), {d1, d2})
    ensures Moved(a, d1, from, d2, to, i).nodes.Keys == a.nodes.Keys && Moved(a, d1, from, d2, to, i).next == a.next
    ensures forall x: Ino :: x in a.nodes ==> Moved(a, d1, from, d2, to, i).nodes[x].meta == a.nodes[x].meta
    ensures forall x: Ino :: x in a.nodes ==> SameKind(a.nodes[x], Moved(a, d1, from, d2, to, i).nodes[x])
  {
  }

  lemma MovedTouch(a: Fs, b: Fs, d1: Ino, from: Name, d2: Ino, to: Name, i: Ino)
    requires ValidFs(a) && IsDir(a, d1) && IsDir(a, d2) && Bound(a, d1, from) == Some(i)
    requires Renamed(a, b, d1, from, d2, to, i) && OthersSame(a, b, {d1, d2})
    requires b.nodes.Keys == a.nodes.Keys && b.next == a.next
    requires forall x: Ino :: x in a.nodes ==> SameKind(a.nodes[x], b.nodes[x])
    ensures Touch(a, b, {d1, d2}) && Closed(b)
  {
    assert BoundIn(a, {d1, d2}, i);
  }

  /** A rename within one directory keeps every height. */
  lemma RenameInStep(a: Fs, d: Ino, from: Name, to: Name, i: Ino)
    requires ValidFs(a) && Bound(a, d, from) == Some(i)
    ensures ValidFs(Moved(a, d, from, d, to, i)) && Touch(a, Moved(a, d, from, d, to, i), {d})
  {
    var b := Moved(a, d, from, d, to, i);
    MovedBindings(a, d, from, d, to, i);
    MovedTouch(a, b, d, from, d, to, i);
    assert {d, d} == {d};
    var s :| Shaped(a, s);
    var parent: Ino -> (Ino, Name) := (x: Ino) => if x == i then (d, to) else s.parent(x);
    assert forall x: Ino :: IsDir(a, x) <==> IsDir(b, x);
    TreeBy(b, Shape(s.height, parent));
  }

  /** The ancestors of `d2` lifted above the tree of `i`. */
  ghost function Lifted(a: Fs, s: Shape, i: Ino, d2: Ino, x: Ino): nat {
    if Reach(a, x, d2) then s.height(x) + s.height(i) + 1 else s.height(x)
  }

  lemma LiftedFalls(a: Fs, s: Shape, i: Ino, d2: Ino, d: Ino, n: Name)
    requires Shaped(a, s) && Bound(a, d, n).Some? && IsDir(a, Bound(a, d, n).value)
    ensures Lifted(a, s, i, d2, Bound(a, d, n).value) < Lifted(a, s, i, d2, d)
  {
    var c := Bound(a, d, n).value;
    if Reach(a, c, d2) {
      LookupLast(a, d, [], n);
      assert [] + [n] == [n];
      ReachTrans(a, d, [n], c, d2);
    }
  }

  lemma LiftedShaped(a: Fs, b: Fs, s: Shape, d1: Ino, from: Name, d2: Ino, to: Name, i: Ino)
    requires Shaped(a, s) && Bound(a, d1, from) == Some(i) && (IsDir(a, i) ==> !Reach(a, i, d2))
    requires Renamed(a, b, d1, from, d2, to, i) && forall x: Ino :: IsDir(b, x) ==> IsDir(a, x)
    ensures Tree(b)
  {
    ghost var height: Ino -> nat := (x: Ino) => Lifted(a, s, i, d2, x);
    ghost var parent: Ino -> (Ino, Name) := (x: Ino) => if x == i then (d2, to) else s.parent(x);
    forall d: Ino, n: Name | Bound(b, d, n).Some? && IsDir(b, Bound(b, d, n).value)
      ensures height(Bound(b, d, n).value) < height(d) && parent(Bound(b, d, n).value) == (d, n)
    {
      assert IsDir(a, Bound(b, d, n).value);
      if d == d2 && n == to {
        ReachSelf(a, d2);
      } else {
        assert Bound(a, d, n) == Bound(b, d, n);
        LiftedFalls(a, s, i, d2, d, n);
      }
    }
    TreeBy(b, Shape(height, parent));
  }

  /** Across directories: sound as long as a directory is not moved into itself. */
  lemma RenameAcrossStep(a: Fs, d1: Ino, from: Name, d2: Ino, to: Name, i: Ino)
    requires ValidFs(a) && IsDir(a, d2) && Bound(a, d1, from) == Some(i) && (IsDir(a, i) ==> !Reach(a, i, d2))
    ensures ValidFs(Moved(a, d1, from, d2, to, i)) && Touch(a, Moved(a, d1, from, d2, to, i), {d1, d2})
  {
    var b := Moved(a, d1, from, d2, to, i);
    MovedBindings(a, d1, from, d2, to, i);
    MovedTouch(a, b, d1, from, d2, to, i);
    var s :| Shaped(a, s);
    LiftedShaped(a, b, s, d1, from, d2, to, i);
  }
}
