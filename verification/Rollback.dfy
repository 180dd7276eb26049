/** Why a failed run leaves nothing behind but the parent directories it created. */
module Rollback {
  import opened Kernel
  import opened Trees
  import opened Steps
  import opened Growth
  import opened FileSystems
  import opened Names
  import opened Layout
  import opened TreeWalks
  import opened Identity
  import opened Staging
  import opened Networks
  import opened Safety

  /** Everything that existed in `a` is exactly as it was, under exactly the names it had. */
  ghost predicate Undisturbed(a: Fs, b: Fs) {
    Added(a, b) && Touch(a, b, {})
  }

  lemma UndisturbedGrown(s0: Fs, s1: Fs, s: Fs, home: Ino, made: set<Path>)
    requires ValidFs(s0) && ValidFs(s1) && home in s1.nodes && Grown(s0, s1, home, made) && Undisturbed(s1, s)
    ensures Grown(s0, s, home, made)
  {
    hide ValidFs, Touch, Added;
    AddedTrans(s0, s1, s);
    TouchTrans(s0, s1, s, Parents(s0, home, made), {});
    forall q: Path ensures Lookup(s, home, q) == Lookup(s0, home, q) || MadeDir(s0, s, home, made, q) {
      LookupFrame(s1, s, {}, home, q);
      assert Lookup(s1, home, q) == Lookup(s0, home, q) || MadeDir(s0, s1, home, made, q);
      if MadeDir(s0, s1, home, made, q) { DirAdded(s1, s, Lookup(s1, home, q).value); }
    }
  }

  lemma DirAdded(a: Fs, b: Fs, i: Ino)
    requires Added(a, b) && IsDir(a, i)
    ensures IsDir(b, i)
  {
  }

  /** Other directories than the two hold what they held. */
  ghost predicate ElsewhereSame(a: Fs, b: Fs, d: NetDirs) {
    forall x: Ino, n: Name :: x != d.data && x != d.cache ==> Bound(b, x, n) == Bound(a, x, n)
  }

  lemma InNetsElsewhere(a: Fs, b: Fs, d: NetDirs)
    requires SameMeta(a, b) && Touch(a, b, {d.data, d.cache})
    ensures ElsewhereSame(a, b, d)
  {
    forall x: Ino, n: Name | x != d.data && x != d.cache ensures Bound(b, x, n) == Bound(a, x, n) {
      if x in a.nodes { assert SameBody(a.nodes[x], b.nodes[x]); }
    }
  }

  /** Owners, modes, kinds and leaf contents of what existed in `a`. */
  ghost predicate NodesKept(a: Fs, b: Fs) {
    a.next <= b.next && forall i: Ino :: i in a.nodes ==> i in b.nodes && Preserved(a.nodes[i], b.nodes[i])
  }

  lemma KeptInNets(a: Fs, b: Fs, d: NetDirs)
    requires SameMeta(a, b) && Touch(a, b, {d.data, d.cache}) && IsDir(a, d.data) && IsDir(a, d.cache)
    ensures NodesKept(a, b)
  {
    forall i: Ino | i in a.nodes && !a.nodes[i].Dir? ensures b.nodes[i] == a.nodes[i] {
      assert SameBody(a.nodes[i], b.nodes[i]);
    }
  }

  lemma KeptTrans(a: Fs, b: Fs, c: Fs)
    requires NodesKept(a, b) && NodesKept(b, c)
    ensures NodesKept(a, c)
  {
  }

  /** If the two directories hold what they held, and elsewhere only old entries of old directories remain, nothing is
      disturbed. */
  lemma UndisturbedBy(a: Fs, b: Fs, d: NetDirs)
    requires NodesKept(a, b) && IsDir(a, d.data) && IsDir(a, d.cache)
    requires forall n: Name ::
      Bound(b, d.data, n) == Bound(a, d.data, n) && Bound(b, d.cache, n) == Bound(a, d.cache, n)
    requires forall x: Ino, n: Name :: x in a.nodes ==> Bound(b, x, n) == Bound(a, x, n)
    requires forall x: Ino, n: Name :: Bound(b, x, n).Some? && Bound(b, x, n).value in a.nodes ==> x in a.nodes
    ensures Undisturbed(a, b)
  {
    forall i: Ino | i in a.nodes ensures SameBody(a.nodes[i], b.nodes[i]) {
      if IsDir(a, i) { EntriesEqual(a, b, i); }
    }
    forall f: Ino | f in a.nodes ensures NoNewLinks(a, b, f) { }
  }

  /** A move aside that was taken back, or never happened. */
  lemma AsideUndone(s1: Fs, s: Fs, d: NetDirs, net: Name, reason: string)
    requires ValidFs(s1) && IsDir(s1, d.data) && IsDir(s1, d.cache) && BothAside(s1, s, d, net, reason, None, None)
    ensures Undisturbed(s1, s)
  {
    InNetsElsewhere(s1, s, d);
    KeptInNets(s1, s, d);
    UndisturbedBy(s1, s, d);
  }

  /** The names of one side through a whole failed run: aside, staged, taken back, dropped, restored. */
  lemma SideUndone(s1: Fs, s2: Fs, s3: Fs, s4: Fs, s5: Fs, s6: Fs, dir: Ino, net: Name, staging: Name,
                   aside: Option<Name>)
    requires SideAside(s1, s2, dir, net, REPLACED, aside) && OnlyHead(s2, s3, dir, staging)
    requires SidePublished(s3, s4, dir, staging, net, false)
    requires Bound(s5, dir, staging) == Bound(s1, dir, staging)
    requires forall n: Name :: n != staging ==> Bound(s5, dir, n) == Bound(s4, dir, n)
    requires SideBack(s5, s6, dir, net, aside, aside.Some?)
    requires net != staging && aside != Some(staging)
    ensures forall n: Name :: Bound(s6, dir, n) == Bound(s1, dir, n)
  {
    hide IsAside;
    forall n: Name ensures Bound(s6, dir, n) == Bound(s1, dir, n) {
      if n != staging { assert Bound(s5, dir, n) == Bound(s2, dir, n); }
    }
  }

  /** A run whose undo calls all took effect: everything is as when the two directories had just been opened. */
  lemma RunUndone(s1: Fs, s2: Fs, s3: Fs, s4: Fs, s5: Fs, s6: Fs, d: NetDirs, net: Name, staging: Name,
                  data: Option<Name>, cache: Option<Name>)
    requires ValidFs(s1) && IsDir(s1, d.data) && IsDir(s1, d.cache) && d.data != d.cache
    requires BothAside(s1, s2, d, net, REPLACED, data, cache) && StagedInto(s2, s3, d.data, d.cache, staging)
    requires BothPublished(s3, s4, d, staging, net, false, false) && Dropped(s4, s5, d, staging)
    requires BothBack(s5, s6, d, net, data, cache, data.Some?, cache.Some?)
    requires OpenDir(s1, d.data, staging).Err? && OpenDir(s1, d.cache, staging).Err? && net != staging
    requires data != Some(staging) && cache != Some(staging)
    requires Bound(s5, d.data, staging) == Bound(s1, d.data, staging)
    requires Bound(s5, d.cache, staging) == Bound(s1, d.cache, staging)
    ensures Undisturbed(s1, s6)
  {
    SideUndone(s1, s2, s3, s4, s5, s6, d.data, net, staging, data);
    SideUndone(s1, s2, s3, s4, s5, s6, d.cache, net, staging, cache);
    RunKept(s1, s2, s3, s4, s5, s6, d, net, staging, data, cache);
    RunElsewhere(s1, s2, s3, s4, s5, s6, d, net, staging, data, cache);
    UndisturbedBy(s1, s6, d);
  }

  lemma RunKept(s1: Fs, s2: Fs, s3: Fs, s4: Fs, s5: Fs, s6: Fs, d: NetDirs, net: Name, staging: Name,
                data: Option<Name>, cache: Option<Name>)
    requires IsDir(s1, d.data) && IsDir(s1, d.cache)
    requires BothAside(s1, s2, d, net, REPLACED, data, cache) && StagedInto(s2, s3, d.data, d.cache, staging)
    requires BothPublished(s3, s4, d, staging, net, false, false) && Dropped(s4, s5, d, staging)
    requires BothBack(s5, s6, d, net, data, cache, data.Some?, cache.Some?)
    ensures NodesKept(s1, s6)
  {
    hide *;
    AsideKept(s1, s2, d, net, data, cache);
    StagedKept(s2, s3, d, staging);
    TakenBackNames(s3, s4, d, staging, net);
    KeptInNets(s3, s4, d);
    KeptDirs(s3, s4, d);
    DroppedKept(s4, s5, d, staging);
    BackKept(s5, s6, d, net, data, cache);
    KeptTrans(s1, s2, s3);
    KeptTrans(s1, s3, s4);
    KeptTrans(s1, s4, s5);
    KeptTrans(s1, s5, s6);
  }

  lemma KeptDirs(a: Fs, b: Fs, d: NetDirs)
    requires NodesKept(a, b) && IsDir(a, d.data) && IsDir(a, d.cache)
    ensures IsDir(b, d.data) && IsDir(b, d.cache)
  {
  }

  lemma AsideKept(s1: Fs, s2: Fs, d: NetDirs, net: Name, data: Option<Name>, cache: Option<Name>)
    requires IsDir(s1, d.data) && IsDir(s1, d.cache) && BothAside(s1, s2, d, net, REPLACED, data, cache)
    ensures NodesKept(s1, s2) && IsDir(s2, d.data) && IsDir(s2, d.cache)
  {
    hide SideAside, ValidFs;
    KeptInNets(s1, s2, d);
  }

  lemma StagedKept(s2: Fs, s3: Fs, d: NetDirs, staging: Name)
    requires IsDir(s2, d.data) && IsDir(s2, d.cache) && StagedInto(s2, s3, d.data, d.cache, staging)
    ensures NodesKept(s2, s3) && IsDir(s3, d.data) && IsDir(s3, d.cache)
  {
  }

  lemma DroppedKept(s4: Fs, s5: Fs, d: NetDirs, staging: Name)
    requires IsDir(s4, d.data) && IsDir(s4, d.cache) && Dropped(s4, s5, d, staging)
    ensures NodesKept(s4, s5) && IsDir(s5, d.data) && IsDir(s5, d.cache)
  {
    hide ValidFs, Touch;
  }

  lemma BackKept(s5: Fs, s6: Fs, d: NetDirs, net: Name, data: Option<Name>, cache: Option<Name>)
    requires IsDir(s5, d.data) && IsDir(s5, d.cache) && BothBack(s5, s6, d, net, data, cache, data.Some?, cache.Some?)
    ensures NodesKept(s5, s6)
  {
    hide SideBack, ValidFs;
    KeptInNets(s5, s6, d);
  }

  lemma RunElsewhere(s1: Fs, s2: Fs, s3: Fs, s4: Fs, s5: Fs, s6: Fs, d: NetDirs, net: Name, staging: Name,
                     data: Option<Name>, cache: Option<Name>)
    requires ValidFs(s1) && IsDir(s1, d.data) && IsDir(s1, d.cache)
    requires BothAside(s1, s2, d, net, REPLACED, data, cache) && StagedInto(s2, s3, d.data, d.cache, staging)
    requires BothPublished(s3, s4, d, staging, net, false, false) && Dropped(s4, s5, d, staging)
    requires BothBack(s5, s6, d, net, data, cache, data.Some?, cache.Some?)
    requires OpenDir(s1, d.data, staging).Err? && OpenDir(s1, d.cache, staging).Err? && net != staging
    requires data != Some(staging) && cache != Some(staging)
    requires forall n: Name ::
      Bound(s6, d.data, n) == Bound(s1, d.data, n) && Bound(s6, d.cache, n) == Bound(s1, d.cache, n)
    ensures forall x: Ino, n: Name :: x in s1.nodes ==> Bound(s6, x, n) == Bound(s1, x, n)
    ensures forall x: Ino, n: Name :: Bound(s6, x, n).Some? && Bound(s6, x, n).value in s1.nodes ==> x in s1.nodes
  {
    hide Touch, ValidFs, StagedInto, Dropped;
    InNetsElsewhere(s1, s2, d);
    InNetsElsewhere(s3, s4, d);
    InNetsElsewhere(s5, s6, d);
    DropsNew(s1, s2, s3, s4, s5, d, net, staging, data, cache);
    StagedElsewhere(s2, s3, d, staging);
    NamesKnown(s1, s2, d);
    forall x: Ino, n: Name | Bound(s6, x, n).Some? && Bound(s6, x, n).value in s1.nodes ensures x in s1.nodes {
      if x != d.data && x != d.cache {
        assert Bound(s3, x, n) == Bound(s6, x, n);
      }
    }
    forall x: Ino, n: Name | x in s1.nodes ensures Bound(s6, x, n) == Bound(s1, x, n) {
      if x != d.data && x != d.cache {
        assert Bound(s6, x, n) == Bound(s5, x, n) && Bound(s5, x, n) == Bound(s4, x, n);
      }
    }
  }

  lemma NamesKnown(s1: Fs, s2: Fs, d: NetDirs)
    requires ValidFs(s1) && SameMeta(s1, s2)
    ensures forall x: Ino, n: Name :: Bound(s2, x, n).Some? ==> x in s1.nodes
  {
  }

  /** Staging puts old inodes nowhere and changes no old directory but the two. */
  lemma StagedElsewhere(s2: Fs, s3: Fs, d: NetDirs, staging: Name)
    requires StagedInto(s2, s3, d.data, d.cache, staging)
    ensures forall x: Ino, n: Name :: x in s2.nodes && x != d.data && x != d.cache ==>
      Bound(s3, x, n) == Bound(s2, x, n)
    ensures forall x: Ino, n: Name :: Bound(s3, x, n).Some? && Bound(s3, x, n).value in s2.nodes ==>
      Bound(s2, x, n).Some?
  {
    forall x: Ino, n: Name | x in s2.nodes && x != d.data && x != d.cache ensures Bound(s3, x, n) == Bound(s2, x, n) {
      assert SameBody(s2.nodes[x], s3.nodes[x]);
    }
    forall x: Ino, n: Name | Bound(s3, x, n).Some? && Bound(s3, x, n).value in s2.nodes ensures Bound(s2, x, n).Some? {
      assert NoNewLinks(s2, s3, Bound(s3, x, n).value);
    }
  }

  /** What is dropped was new: old directories other than the two keep their entries. */
  lemma DropsNew(s1: Fs, s2: Fs, s3: Fs, s4: Fs, s5: Fs, d: NetDirs, net: Name, staging: Name, data: Option<Name>,
                 cache: Option<Name>)
    requires ValidFs(s1)
    requires BothAside(s1, s2, d, net, REPLACED, data, cache) && StagedInto(s2, s3, d.data, d.cache, staging)
    requires BothPublished(s3, s4, d, staging, net, false, false) && Dropped(s4, s5, d, staging)
    requires OpenDir(s1, d.data, staging).Err? && OpenDir(s1, d.cache, staging).Err? && net != staging
    requires data != Some(staging) && cache != Some(staging)
    ensures forall x: Ino, n: Name :: x in s1.nodes && x != d.data && x != d.cache ==>
      Bound(s5, x, n) == Bound(s4, x, n)
    ensures forall x: Ino, n: Name :: x != d.data && x != d.cache && Bound(s5, x, n).Some? ==>
      Bound(s5, x, n) == Bound(s4, x, n)
  {
    hide *;
    AsideNoDir(s1, s2, d, net, staging, data, cache);
    TakenBackNames(s3, s4, d, staging, net);
    DropsOnly(s4, s5, d, staging);
    forall x: Ino | x in TreeOf(s4, d.data, staging)
      ensures x !in s1.nodes
    {
      FreshTree(s2, s3, s4, d, staging, d.data, x);
    }
    forall x: Ino | x in TreeOf(s4, d.cache, staging)
      ensures x !in s1.nodes
    {
      FreshTree(s2, s3, s4, d, staging, d.cache, x);
    }
    DroppedElsewhere(s4, s5, d, staging, s1.nodes.Keys);
  }

  lemma AsideNoDir(s1: Fs, s2: Fs, d: NetDirs, net: Name, staging: Name, data: Option<Name>, cache: Option<Name>)
    requires BothAside(s1, s2, d, net, REPLACED, data, cache) && net != staging && data != Some(staging)
    requires cache != Some(staging)
    requires OpenDir(s1, d.data, staging).Err? && OpenDir(s1, d.cache, staging).Err?
    ensures ValidFs(s2) && s2.nodes.Keys == s1.nodes.Keys
    ensures OpenDir(s2, d.data, staging).Err? && OpenDir(s2, d.cache, staging).Err?
  {
    hide ValidFs, Touch, IsAside;
  }

  lemma TakenBackNames(s3: Fs, s4: Fs, d: NetDirs, staging: Name, net: Name)
    requires BothPublished(s3, s4, d, staging, net, false, false)
    ensures ValidFs(s4) && SameMeta(s3, s4) && Touch(s3, s4, {d.data, d.cache})
    ensures forall n: Name ::
      Bound(s4, d.data, n) == Bound(s3, d.data, n) && Bound(s4, d.cache, n) == Bound(s3, d.cache, n)
  {
    hide ValidFs, Touch, SameMeta;
  }

  lemma DropsOnly(s4: Fs, s5: Fs, d: NetDirs, staging: Name)
    requires Dropped(s4, s5, d, staging)
    ensures IsDroppable(s4, s5, d, staging)
  {
    hide ValidFs, Touch;
  }

  ghost predicate IsDroppable(s4: Fs, s5: Fs, d: NetDirs, staging: Name) {
    && s5.nodes.Keys == s4.nodes.Keys
    && Touch(s4, s5, {d.data, d.cache} + TreeOf(s4, d.data, staging) + TreeOf(s4, d.cache, staging))
    && forall x: Ino, n: Name :: Bound(s5, x, n) == Bound(s4, x, n) || Bound(s5, x, n) == None
  }

  lemma DroppedElsewhere(s4: Fs, s5: Fs, d: NetDirs, staging: Name, known: set<Ino>)
    requires IsDroppable(s4, s5, d, staging)
    requires forall x: Ino :: x in known ==> x !in TreeOf(s4, d.data, staging) && x !in TreeOf(s4, d.cache, staging)
    ensures forall x: Ino, n: Name :: x in known && x != d.data && x != d.cache ==> Bound(s5, x, n) == Bound(s4, x, n)
    ensures forall x: Ino, n: Name :: x != d.data && x != d.cache && Bound(s5, x, n).Some? ==>
      Bound(s5, x, n) == Bound(s4, x, n)
  {
    hide TreeOf;
    forall x: Ino, n: Name | x in known && x != d.data && x != d.cache ensures Bound(s5, x, n) == Bound(s4, x, n) {
      if x in s4.nodes { assert SameBody(s4.nodes[x], s5.nodes[x]); }
    }
  }

  lemma FreshTree(s2: Fs, s3: Fs, s4: Fs, d: NetDirs, staging: Name, dir: Ino, x: Ino)
    requires ValidFs(s2) && StagedInto(s2, s3, d.data, d.cache, staging) && SameMeta(s3, s4)
    requires Touch(s3, s4, {d.data, d.cache}) && ValidFs(s4)
    requires forall n: Name :: Bound(s4, d.data, n) == Bound(s3, d.data, n)
    requires forall n: Name :: Bound(s4, d.cache, n) == Bound(s3, d.cache, n)
    requires (dir == d.data || dir == d.cache) && OpenDir(s2, dir, staging).Err? && x in TreeOf(s4, dir, staging)
    ensures x !in s2.nodes
  {
    InNetsElsewhere(s3, s4, d);
    var s := Bound(s4, dir, staging).value;
    var p := PathTo(s4, s, x);
    if Bound(s2, dir, staging).Some? {
      LeafStaysLeaf(s2, s3, s4, s);
      LookupLeaf(s4, s, p);
    } else {
      assert s in s2.nodes ==> NoNewLinks(s2, s3, s);
      LookupSame(s3, s4, s, p);
      FreshBelow(s2, s3, s, p);
    }
  }

  lemma LeafStaysLeaf(s2: Fs, s3: Fs, s4: Fs, y: Ino)
    requires y in s2.nodes && !IsDir(s2, y) && Added(s2, s3) && SameMeta(s3, s4)
    ensures !IsDir(s4, y)
  {
    assert Preserved(s2.nodes[y], s3.nodes[y]);
  }
}
