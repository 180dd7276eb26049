/** Whole relocation runs: what every state of one keeps, what it reports, and why a second one has nothing to move. */
module Relocation {
  import opened Kernel
  import opened Trees
  import opened Growth
  import opened FileSystems
  import opened Nofollow
  import opened Layout
  import opened Identity
  import opened Staging
  import opened Networks
  import opened Safety
  import opened Rollback
  import opened Regions
  import opened Relocate

  // ------------------------------------------------------------------ steps that do not disturb each other

  /** Step `j` leaves whatever is bound at `p` alone. An empty directory above `p` holds nothing at `p`. */
  ghost predicate Spares(j: Step, p: Path) {
    match j
    case MoveStep(from, to, parents) =>
      Unrelated(from, p) && Unrelated(to, p) && forall m :: m in MadeBy(parents) ==> !(p <= m)
    case RemoveTreeStep(path) => Unrelated(path, p)
    case RemoveEmptyDirStep(path) => !(p <= path)
  }

  /** Once idle, step `i` stays idle through an effect on `g`. */
  ghost predicate Lasting(i: Step, g: Region) {
    match i
    case MoveStep(from, to, parents) =>
      && !Under(g.put, from) && from !in g.made
      && forall k, c :: 0 <= k < |parents| && (c in g.cut || c in g.put) ==> !(c <= parents[k].0)
    case RemoveTreeStep(path) => !Under(g.put, path) && path !in g.made
    case RemoveEmptyDirStep(path) => Clear(g, path) && path !in g.made
  }

  /** A directory the step walks to. */
  ghost predicate IsWay(step: Step, q: Path) {
    match step
    case MoveStep(from, to, parents) =>
      (from != [] && q == ParentOf(from)) || exists k :: 0 <= k < |parents| && q == parents[k].0
    case RemoveTreeStep(path) => q == path
    case RemoveEmptyDirStep(path) => q == path
  }

  /** No step delivers anything onto a way of one. */
  ghost predicate Sheltered(steps: seq<Step>, i: nat, j: nat)
    requires i < |steps| && j < |steps|
  {
    steps[j].MoveStep? ==> forall q :: IsWay(steps[i], q) ==> !(steps[j].to <= q)
  }

  ghost predicate Orderly(steps: seq<Step>) {
    && (forall i, j :: 0 <= i < |steps| && 0 <= j < |steps| ==> Sheltered(steps, i, j))
    && (forall i :: 0 <= i < |steps| ==> WellFormed(steps[i]))
    && (forall i, j :: 0 <= i < |steps| && 0 <= j < |steps| && i != j && steps[i].MoveStep? ==>
         Spares(steps[j], steps[i].from) && Spares(steps[j], steps[i].to))
    && (forall i, j :: 0 <= i < j < |steps| ==> Lasting(steps[i], RegionOf(steps[j])))
    && (forall i, j :: 0 <= i < |steps| && 0 <= j < |steps| ==> Key(steps[i]) !in RegionOf(steps[j]).made)
  }

  // ------------------------------------------------------------------ what every state keeps

  /** What was at the destination at the start is there, its tree unchanged. */
  ghost predicate DestKept(s0: Fs, s: Fs, root: Ino, to: Path) {
    Lookup(s0, root, to).Some? ==>
      Lookup(s, root, to) == Lookup(s0, root, to) && SameTree(s0, s, Lookup(s0, root, to).value)
  }

  /** What was at the source is there or at the destination, its tree unchanged, unless the destination was taken from
      the start. */
  ghost predicate SourceKept(s0: Fs, s: Fs, root: Ino, from: Path, to: Path) {
    var x := Lookup(s0, root, from);
    x.Some? ==>
      || Lookup(s0, root, to).Some?
      || (SameTree(s0, s, x.value) && (Lookup(s, root, from) == x || Lookup(s, root, to) == x))
  }

  /** Where nothing was, nothing is: not at the source, and not at the destination unless the source delivers it. */
  ghost predicate NoneKept(s0: Fs, s: Fs, root: Ino, from: Path, to: Path) {
    Lookup(s0, root, from) == None ==>
      Lookup(s, root, from) == None && (Lookup(s0, root, to) == None ==> Lookup(s, root, to) == None)
  }

  ghost predicate MoveKept(s0: Fs, s: Fs, root: Ino, step: Step) {
    step.MoveStep? ==>
      && DestKept(s0, s, root, step.to) && SourceKept(s0, s, root, step.from, step.to)
      && NoneKept(s0, s, root, step.from, step.to)
  }

  /** A move whose turn has not come: both its ends are as they were. */
  ghost predicate Pending(s0: Fs, s: Fs, root: Ino, step: Step) {
    step.MoveStep? ==>
      && DestKept(s0, s, root, step.to) && DestKept(s0, s, root, step.from)
      && (Lookup(s0, root, step.to) == None ==> Lookup(s, root, step.to) == None)
      && (Lookup(s0, root, step.from) == None ==> Lookup(s, root, step.from) == None)
  }

  lemma PendingKept(s0: Fs, s: Fs, root: Ino, step: Step)
    requires Pending(s0, s, root, step)
    ensures MoveKept(s0, s, root, step)
  {
    hide Lookup, SameTree;
  }

  lemma PendingStart(s0: Fs, root: Ino, step: Step)
    ensures Pending(s0, s0, root, step)
  {
    hide Lookup, SameTree;
    forall x: Ino ensures SameTree(s0, s0, x) { SameTreeRefl(s0, x); }
  }

  lemma MoveEffect(a: Fs, h: Fs, root: Ino, from: Path, to: Path, made: set<Path>)
    requires MoveState(a, h, root, from, to, made)
    ensures Effect(a, h, root, Region({from}, {to}, made))
  {
    hide Effect, Lookup, ValidFs, SameTree;
    var g := Region({from}, {to}, made);
    if Grown(a, h, root, made) {
      GrownEffect(a, h, root, made);
      EffectWider(a, h, root, Region({}, {}, made), g);
    } else if Stale(a, h, root, from, to, made) {
      EffectWider(a, h, root, Region({from}, {}, made), g);
    }
  }

  lemma StepEffect(a: Fs, h: Fs, root: Ino, step: Step)
    requires StepState(a, h, root, step) && WellFormed(step)
    ensures Effect(a, h, root, RegionOf(step))
  {
    hide Effect, Lookup, ValidFs, MoveState, Passing, WellFormed, MadeBy;
    match step
    case MoveStep(from, to, parents) =>
      PassingWell(a, h, root, step);
      MoveEffect(a, h, root, from, to, MadeBy(parents));
    case RemoveTreeStep(path) =>
    case RemoveEmptyDirStep(path) => if h == a { EffectRefl(a, root, RegionOf(step)); }
  }

  lemma SparesClear(j: Step, p: Path)
    requires Spares(j, p) && !j.RemoveEmptyDirStep?
    ensures Clear(RegionOf(j), p)
  {
  }

  /** An empty directory that goes was not above anything. */
  lemma EmptyAbove(a: Fs, h: Fs, root: Ino, path: Path, p: Path)
    requires EmptyGone(a, h, root, path) && !(p <= path) && Lookup(a, root, p).Some?
    ensures Unrelated(path, p)
  {
    if path <= p {
      var t := p[|path|..];
      assert p == path + t && t != [];
      LookupAppend(a, root, path, t);
    }
  }

  lemma BoundThrough(a: Fs, h: Fs, root: Ino, j: Step, p: Path)
    requires StepState(a, h, root, j) && WellFormed(j) && Spares(j, p) && Lookup(a, root, p).Some?
    ensures Lookup(h, root, p) == Lookup(a, root, p) && SameTree(a, h, Lookup(a, root, p).value)
  {
    hide Effect, SameTree;
    StepEffect(a, h, root, j);
    if j.RemoveEmptyDirStep? {
      if h == a { SameTreeRefl(a, Lookup(a, root, p).value); return; }
      EmptyAbove(a, h, root, j.path, p);
    } else {
      SparesClear(j, p);
    }
    KeptAt(a, h, root, RegionOf(j), p);
  }

  lemma AbsentThrough(a: Fs, h: Fs, root: Ino, j: Step, p: Path)
    requires StepState(a, h, root, j) && WellFormed(j) && Spares(j, p) && Lookup(a, root, p) == None
    ensures Lookup(h, root, p) == None
  {
    hide WellFormed, StepState, Effect, MadeBy;
    StepEffect(a, h, root, j);
    AbsentAt(a, h, root, RegionOf(j), p);
  }

  lemma DestThrough(s0: Fs, a: Fs, h: Fs, root: Ino, j: Step, p: Path)
    requires StepState(a, h, root, j) && WellFormed(j) && Spares(j, p) && DestKept(s0, a, root, p)
    ensures DestKept(s0, h, root, p)
  {
    hide WellFormed, StepState, Spares, SameTree, Lookup;
    if Lookup(s0, root, p).Some? {
      BoundThrough(a, h, root, j, p);
      SameTreeTrans(s0, a, h, Lookup(s0, root, p).value);
    }
  }

  /** Another step leaves a pending move pending and a finished one finished. */
  lemma OtherStep(s0: Fs, a: Fs, h: Fs, root: Ino, i: Step, j: Step)
    requires StepState(a, h, root, j) && WellFormed(j) && (i.MoveStep? ==> Spares(j, i.from) && Spares(j, i.to))
    ensures Pending(s0, a, root, i) ==> Pending(s0, h, root, i)
    ensures MoveKept(s0, a, root, i) ==> MoveKept(s0, h, root, i)
  {
    hide WellFormed, StepState, Spares, SameTree, Lookup, DestKept;
    if i.MoveStep? {
      if DestKept(s0, a, root, i.to) { DestThrough(s0, a, h, root, j, i.to); }
      if DestKept(s0, a, root, i.from) { DestThrough(s0, a, h, root, j, i.from); }
      if Lookup(a, root, i.to) == None { AbsentThrough(a, h, root, j, i.to); }
      if Lookup(a, root, i.from) == None { AbsentThrough(a, h, root, j, i.from); }
      if MoveKept(s0, a, root, i) { SourceThrough(s0, a, h, root, i, j); }
    }
  }

  lemma SourceThrough(s0: Fs, a: Fs, h: Fs, root: Ino, i: Step, j: Step)
    requires StepState(a, h, root, j) && WellFormed(j) && i.MoveStep? && Spares(j, i.from) && Spares(j, i.to)
    requires SourceKept(s0, a, root, i.from, i.to)
    ensures SourceKept(s0, h, root, i.from, i.to)
  {
    hide WellFormed, StepState, Spares, SameTree, Lookup;
    var x := Lookup(s0, root, i.from);
    if x.Some? && Lookup(s0, root, i.to) == None {
      if Lookup(a, root, i.from) == x {
        BoundThrough(a, h, root, j, i.from);
      } else {
        BoundThrough(a, h, root, j, i.to);
      }
      SameTreeTrans(s0, a, h, x.value);
    }
  }

  /** A move's own states keep what it promises. */
  lemma OwnStep(s0: Fs, a: Fs, h: Fs, root: Ino, i: Step)
    requires WellFormed(i) && StepState(a, h, root, i) && Pending(s0, a, root, i)
    ensures MoveKept(s0, h, root, i)
  {
    hide SameTree, Lookup, MadeBy, Effect, ValidFs, Stale, Passing, SourceCut, SourceMoved;
    if i.MoveStep? {
      var from, to, made := i.from, i.to, MadeBy(i.parents);
      PassingWell(a, h, root, i);
      if Grown(a, h, root, made) {
        OwnGrown(s0, a, h, root, i);
      } else if Arrived(a, h, root, from, to, made) {
        if Lookup(s0, root, from).Some? && Lookup(s0, root, to) == None {
          SameTreeTrans(s0, a, h, Lookup(s0, root, from).value);
        }
      } else {
        OwnStale(s0, a, h, root, i);
      }
    }
  }

  lemma OwnGrown(s0: Fs, a: Fs, h: Fs, root: Ino, i: Step)
    requires WellFormed(i) && i.MoveStep? && Grown(a, h, root, MadeBy(i.parents)) && Pending(s0, a, root, i)
    ensures MoveKept(s0, h, root, i)
  {
    hide SameTree, Lookup, Grown, Effect, MadeBy;
    MoveGrown(a, h, root, i);
    var g := Region({}, {}, MadeBy(i.parents));
    if Lookup(s0, root, i.to).Some? {
      KeptAt(a, h, root, g, i.to);
      SameTreeTrans(s0, a, h, Lookup(s0, root, i.to).value);
    }
    if Lookup(s0, root, i.from).Some? { SameTreeTrans(s0, a, h, Lookup(s0, root, i.from).value); }
  }

  lemma OwnStale(s0: Fs, a: Fs, h: Fs, root: Ino, i: Step)
    requires WellFormed(i) && i.MoveStep? && Stale(a, h, root, i.from, i.to, MadeBy(i.parents))
    requires Pending(s0, a, root, i)
    ensures MoveKept(s0, h, root, i)
  {
    hide SameTree, Lookup, Effect, MadeBy;
    var g := Region({i.from}, {}, MadeBy(i.parents));
    assert Clear(g, i.to);
    KeptAt(a, h, root, g, i.to);
    SameTreeTrans(s0, a, h, Lookup(s0, root, i.to).value);
  }

  // ------------------------------------------------------------------ staying idle

  /** A blocked walk stays blocked: what is in the way is not in the region. */
  lemma BlockedStays(a: Fs, h: Fs, root: Ino, g: Region, p: Path)
    requires ValidFs(a) && IsDir(a, root) && IsDir(h, root) && Effect(a, h, root, g) && WalkDir(a, root, p).Err?
    requires forall c :: c in g.cut || c in g.put ==> !(c <= p)
    ensures WalkDir(h, root, p).Err?
  {
    hide ValidFs, WalkDir;
    WalkBlocked(a, root, p);
    WalkBlocked(h, root, p);
    var k: nat :| k <= |p| && Lookup(a, root, p[..k]).Some? && !IsDir(a, Lookup(a, root, p[..k]).value);
    var q := p[..k];
    forall c | c in g.cut || c in g.put ensures !(c <= q) { assert c <= q ==> c <= p; }
    assert PathEffect(a, h, root, g, q);
    LookupInNodes(a, root, q);
    assert Lookup(h, root, p[..k]).Some? && !IsDir(h, Lookup(h, root, p[..k]).value) by { hide Under, Lookup; }
  }

  lemma IdleThrough(a: Fs, h: Fs, root: Ino, i: Step, g: Region)
    requires ValidFs(a) && IsDir(a, root) && IsDir(h, root) && Effect(a, h, root, g) && Lasting(i, g)
    requires Idle(a, root, i)
    ensures Idle(h, root, i)
  {
    match i
    case MoveStep(from, to, parents) =>
      if Lookup(a, root, from) == None {
        AbsentAt(a, h, root, g, from);
      } else {
        var k :| 0 <= k < |parents| && WalkDir(a, root, parents[k].0).Err?;
        BlockedStays(a, h, root, g, parents[k].0);
      }
    case RemoveTreeStep(path) =>
      assert PathEffect(a, h, root, g, path);
      if Lookup(a, root, path).Some? { LookupInNodes(a, root, path); }
    case RemoveEmptyDirStep(path) => EmptyThrough(a, h, root, path, g);
  }

  lemma EmptyThrough(a: Fs, h: Fs, root: Ino, path: Path, g: Region)
    requires ValidFs(a) && IsDir(a, root) && Effect(a, h, root, g) && Lasting(RemoveEmptyDirStep(path), g)
    requires Idle(a, root, RemoveEmptyDirStep(path))
    ensures Idle(h, root, RemoveEmptyDirStep(path))
  {
    hide ValidFs, Lookup;
    if Lookup(a, root, path).Some? {
      var x := Lookup(a, root, path).value;
      KeptAt(a, h, root, g, path);
      LookupInNodes(a, root, path);
      TreeBound(a, h, x);
      assert IsDir(h, x) ==> IsDir(a, x) by { hide PathEffect, Idle, SameTree; }
    } else {
      ClearBelow(g, path, []);
      assert path + [] == path;
      AbsentAt(a, h, root, g, path);
    }
  }

  /** Creating parents makes no idle step busy. */
  lemma IdleGrown(a: Fs, h: Fs, root: Ino, i: Step, j: Step)
    requires ValidFs(a) && IsDir(a, root) && IsDir(h, root) && OnlyParents(a, h, root, j) && Key(i) !in RegionOf(j).made
    requires Idle(a, root, i)
    ensures Idle(h, root, i)
  {
    hide ValidFs, MadeBy;
    if j.MoveStep? {
      var made := MadeBy(j.parents);
      assert Lookup(h, root, Key(i)) == Lookup(a, root, Key(i)) || MadeDir(a, h, root, made, Key(i)) by { hide Idle; }
      if Lookup(a, root, Key(i)).Some? {
        LookupInNodes(a, root, Key(i));
        KindKept(a, h, root, made, Lookup(a, root, Key(i)).value);
        match i
        case MoveStep(from, to, parents) =>
          var k :| 0 <= k < |parents| && WalkDir(a, root, parents[k].0).Err?;
          WalkGrown(a, h, root, made, parents[k].0);
        case RemoveTreeStep(path) =>
        case RemoveEmptyDirStep(path) => HeldGrown(a, h, root, made, Lookup(a, root, path).value);
      }
    }
  }

  lemma HeldGrown(a: Fs, h: Fs, root: Ino, made: set<Path>, x: Ino)
    requires Grown(a, h, root, made)
    ensures (exists n: Name :: Bound(a, x, n).Some?) ==> exists n: Name :: Bound(h, x, n).Some?
  {
    if n: Name :| Bound(a, x, n).Some? { assert Bound(h, x, n) == Bound(a, x, n); }
  }

  lemma DoneIdle(h: Fs, root: Ino, i: Step)
    requires Lookup(h, root, Key(i)) == None
    ensures Idle(h, root, i)
  {
  }

  // ------------------------------------------------------------------ a run

  /** One entry for a step that did or failed something, none for one that had nothing to do. */
  function Entered(report: Report, step: Step, r: Result<Done, Errno>): Report {
    match r
    case Ok(Nothing) => report
    case Ok(MovedTo(to)) => report.(moved := report.moved + [Move(Key(step), to)])
    case Ok(RemovedIt) => report.(removed := report.removed + [Key(step)])
    case Err(_) => report.(failed := report.failed + [Key(step)])
  }

  function ReportOf(steps: seq<Step>, results: seq<Result<Done, Errno>>): Report
    requires |steps| == |results|
  {
    if steps == [] then Report([], [], [])
    else Entered(ReportOf(steps[..|steps| - 1], results[..|steps| - 1]), steps[|steps| - 1], results[|steps| - 1])
  }

  function Entries(report: Report): nat {
    |report.moved| + |report.removed| + |report.failed|
  }

  /** At most one entry per step, and none at all exactly when every step had nothing to do. */
  lemma {:induction false} OneEntryEach(steps: seq<Step>, results: seq<Result<Done, Errno>>)
    requires |steps| == |results|
    ensures Entries(ReportOf(steps, results)) <= |steps|
    ensures Entries(ReportOf(steps, results)) == 0 <==> forall k :: 0 <= k < |results| ==> results[k] == Ok(Nothing)
  {
    if steps != [] {
      var n := |steps| - 1;
      OneEntryEach(steps[..n], results[..n]);
      assert forall k :: 0 <= k < n ==> results[..n][k] == results[k];
    }
  }

  ghost function AllRegions(steps: seq<Step>): Region {
    Region(set k, c | 0 <= k < |steps| && c in RegionOf(steps[k]).cut :: c,
           set k, c | 0 <= k < |steps| && c in RegionOf(steps[k]).put :: c,
           set k, c | 0 <= k < |steps| && c in RegionOf(steps[k]).made :: c)
  }

  ghost predicate AllSpare(steps: seq<Step>, p: Path) {
    forall k :: 0 <= k < |steps| ==> Spares(steps[k], p)
  }

  /** The lists of one report before those of another. */
  function Extended(report: Report, other: Report): Report {
    Report(report.moved + other.moved, report.removed + other.removed, report.failed + other.failed)
  }

  lemma OneReport(step: Step, r: Result<Done, Errno>)
    ensures ReportOf([step], [r]) ==
            match r
            case Ok(Nothing) => Report([], [], [])
            case Ok(MovedTo(to)) => Report([Move(Key(step), to)], [], [])
            case Ok(RemovedIt) => Report([], [Key(step)], [])
            case Err(_) => Report([], [], [Key(step)])
  {
    assert [step][..0] == [] && [r][..0] == [];
    assert ReportOf([], []) == Report([], [], []);
  }

  /** The report of steps run one after the other is the reports of the parts in that order. */
  lemma {:induction false} ReportConcat(steps: seq<Step>, results: seq<Result<Done, Errno>>, more: seq<Step>,
                                        others: seq<Result<Done, Errno>>)
    requires |steps| == |results| && |more| == |others|
    ensures ReportOf(steps + more, results + others) == Extended(ReportOf(steps, results), ReportOf(more, others))
  {
    if more == [] {
      assert steps + more == steps && results + others == results;
    } else {
      var n := |more| - 1;
      ReportConcat(steps, results, more[..n], others[..n]);
      assert (steps + more)[..|steps| + n] == steps + more[..n];
      assert (results + others)[..|steps| + n] == results + others[..n];
    }
  }

  /** What is listed is what was done: a move under `moved`, with where it went, only if that was its result. */
  lemma {:induction false} ReportSays(steps: seq<Step>, results: seq<Result<Done, Errno>>)
    requires |steps| == |results|
    ensures forall m :: m in ReportOf(steps, results).moved <==>
            exists k :: 0 <= k < |steps| && results[k] == Ok(MovedTo(m.to)) && Key(steps[k]) == m.from
    ensures forall p :: p in ReportOf(steps, results).removed <==>
            exists k :: 0 <= k < |steps| && results[k] == Ok(RemovedIt) && Key(steps[k]) == p
    ensures forall p :: p in ReportOf(steps, results).failed <==>
            exists k :: 0 <= k < |steps| && results[k].Err? && Key(steps[k]) == p
  {
    if steps != [] {
      var n := |steps| - 1;
      ReportSays(steps[..n], results[..n]);
      assert forall k :: 0 <= k < n ==> results[..n][k] == results[k] && steps[..n][k] == steps[k];
      var before := ReportOf(steps[..n], results[..n]);
      forall m
        ensures m in ReportOf(steps, results).moved <==>
          exists k :: 0 <= k < |steps| && results[k] == Ok(MovedTo(m.to)) && Key(steps[k]) == m.from
      {
        if m in before.moved {
          var k :| 0 <= k < n && results[..n][k] == Ok(MovedTo(m.to)) && Key(steps[..n][k]) == m.from;
          assert results[k] == Ok(MovedTo(m.to)) && Key(steps[k]) == m.from;
        }
        if k :| 0 <= k < |steps| && results[k] == Ok(MovedTo(m.to)) && Key(steps[k]) == m.from {
          if k < n { assert results[..n][k] == Ok(MovedTo(m.to)) && Key(steps[..n][k]) == m.from; }
        }
      }
    }
  }

  /** Moves keep what they promise, and what no step is about is where it was, its tree unchanged. */
  ghost predicate RunKept(s0: Fs, h: Fs, root: Ino, steps: seq<Step>) {
    && (forall k :: 0 <= k < |steps| ==> MoveKept(s0, h, root, steps[k]))
    && (forall p :: AllSpare(steps, p) ==> DestKept(s0, h, root, p))
    && Effect(s0, h, root, AllRegions(steps))
  }

  ghost predicate AllIdle(s: Fs, root: Ino, steps: seq<Step>) {
    forall k :: 0 <= k < |steps| ==> Idle(s, root, steps[k])
  }

  ghost predicate Quiet(report: Report) {
    report.moved == [] && report.removed == []
  }

  /** Where a run stands before step `k`: only the steps before it have done anything. */
  ghost predicate Standing(s0: Fs, s: Fs, root: Ino, steps: seq<Step>, k: nat)
    requires k <= |steps|
  {
    && RunKept(s0, s, root, steps) && (forall i :: k <= i < |steps| ==> Pending(s0, s, root, steps[i]))
    && Effect(s0, s, root, AllRegions(steps[..k]))
  }

  /** The same, and every state since `from` kept what the moves promise. */
  ghost predicate Advanced(s0: Fs, s: Fs, h: seq<Fs>, from: nat, root: Ino, steps: seq<Step>, k: nat)
    requires k <= |steps|
  {
    Standing(s0, s, root, steps, k) && forall j :: from <= j < |h| ==> RunKept(s0, h[j], root, steps)
  }

  lemma AdvancedMore(s0: Fs, a: Fs, b: Fs, h: seq<Fs>, more: seq<Fs>, from: nat, root: Ino, steps: seq<Step>, k: nat)
    requires Orderly(steps) && k < |steps| && h <= more && Advanced(s0, a, h, from, root, steps, k)
    requires StepState(a, b, root, steps[k])
    requires forall j :: |h| <= j < |more| ==> StepState(a, more[j], root, steps[k])
    ensures Advanced(s0, b, more, from, root, steps, k + 1)
  {
    hide Orderly, StepState, RunKept, Pending;
    StandingStep(s0, a, b, root, steps, k);
    forall j | from <= j < |more| ensures RunKept(s0, more[j], root, steps) {
      if j < |h| { assert more[j] == h[j]; } else { StandingStep(s0, a, more[j], root, steps, k); }
    }
  }

  lemma AdvancedKept(s0: Fs, s: Fs, h: seq<Fs>, from: nat, root: Ino, steps: seq<Step>)
    requires Advanced(s0, s, h, from, root, steps, |steps|)
    ensures RunKept(s0, s, root, steps) && forall j :: from <= j < |h| ==> RunKept(s0, h[j], root, steps)
  {
    hide RunKept;
  }

  lemma AdvancedStanding(s0: Fs, s: Fs, h: seq<Fs>, from: nat, root: Ino, steps: seq<Step>, k: nat)
    requires k <= |steps| && Advanced(s0, s, h, from, root, steps, k)
    ensures Standing(s0, s, root, steps, k)
  {
    hide Standing, RunKept;
  }

  lemma OrderlyStep(steps: seq<Step>, k: nat)
    requires Orderly(steps) && k < |steps|
    ensures WellFormed(steps[k])
  {
  }

  lemma StandingStart(s0: Fs, root: Ino, steps: seq<Step>)
    ensures Standing(s0, s0, root, steps, 0)
  {
    hide Pending, MoveKept, AllSpare, AllRegions, Lookup;
    forall i | 0 <= i < |steps| ensures Pending(s0, s0, root, steps[i]) && MoveKept(s0, s0, root, steps[i]) {
      PendingStart(s0, root, steps[i]);
      PendingKept(s0, s0, root, steps[i]);
    }
    forall p ensures DestKept(s0, s0, root, p) {
      if Lookup(s0, root, p).Some? { SameTreeRefl(s0, Lookup(s0, root, p).value); }
    }
    EffectRefl(s0, root, AllRegions(steps));
    EffectRefl(s0, root, AllRegions(steps[..0]));
  }

  lemma RegionIn(steps: seq<Step>, k: nat)
    requires k < |steps|
    ensures RegionOf(steps[k]).cut <= AllRegions(steps).cut && RegionOf(steps[k]).put <= AllRegions(steps).put
    ensures RegionOf(steps[k]).made <= AllRegions(steps).made
  {
    hide RegionOf;
  }

  lemma RegionJoined(steps: seq<Step>, k: nat)
    requires k < |steps|
    ensures Join(AllRegions(steps), RegionOf(steps[k])) == AllRegions(steps)
  {
    RegionIn(steps, k);
  }

  /** One step more. */
  lemma RegionMore(steps: seq<Step>, k: nat)
    requires k < |steps|
    ensures AllRegions(steps[..k + 1]) == Join(AllRegions(steps[..k]), RegionOf(steps[k]))
  {
    hide RegionOf;
    var before, now := steps[..k], steps[..k + 1];
    assert forall i :: 0 <= i < k ==> now[i] == before[i];
    assert now[k] == steps[k];
    forall c ensures c in AllRegions(now).cut <==> c in Join(AllRegions(before), RegionOf(steps[k])).cut {
      if c in RegionOf(steps[k]).cut { assert c in RegionOf(now[k]).cut; }
    }
    forall c ensures c in AllRegions(now).put <==> c in Join(AllRegions(before), RegionOf(steps[k])).put {
      if c in RegionOf(steps[k]).put { assert c in RegionOf(now[k]).put; }
    }
    forall c ensures c in AllRegions(now).made <==> c in Join(AllRegions(before), RegionOf(steps[k])).made {
      if c in RegionOf(steps[k]).made { assert c in RegionOf(now[k]).made; }
    }
  }

  lemma AdvancedStart(s0: Fs, h: seq<Fs>, root: Ino, steps: seq<Step>)
    requires Standing(s0, s0, root, steps, 0)
    ensures Advanced(s0, s0, h, |h|, root, steps, 0)
  {
    hide RunKept, Pending;
  }

  lemma StandingStep(s0: Fs, a: Fs, h: Fs, root: Ino, steps: seq<Step>, k: nat)
    requires Orderly(steps) && k < |steps| && Standing(s0, a, root, steps, k) && StepState(a, h, root, steps[k])
    ensures Standing(s0, h, root, steps, k + 1)
  {
    hide Pending, MoveKept, StepState, Spares, Lasting, WellFormed, DestKept, AllRegions, Effect, RegionOf, Join;
    OrderlyStep(steps, k);
    forall i | 0 <= i < |steps|
      ensures MoveKept(s0, h, root, steps[i])
      ensures i > k ==> Pending(s0, h, root, steps[i])
    {
      if i == k { OwnStep(s0, a, h, root, steps[k]); } else { OtherStep(s0, a, h, root, steps[i], steps[k]); }
    }
    forall p | AllSpare(steps, p) ensures DestKept(s0, h, root, p) { DestThrough(s0, a, h, root, steps[k], p); }
    StepEffect(a, h, root, steps[k]);
    EffectTrans(s0, a, h, root, AllRegions(steps), RegionOf(steps[k]));
    RegionJoined(steps, k);
    EffectTrans(s0, a, h, root, AllRegions(steps[..k]), RegionOf(steps[k]));
    RegionMore(steps, k);
  }

  lemma IdleStep(a: Fs, h: Fs, root: Ino, steps: seq<Step>, k: nat, i: nat)
    requires Orderly(steps) && i < k < |steps| && ValidFs(a) && IsDir(a, root) && IsDir(h, root)
    requires StepState(a, h, root, steps[k]) && Idle(a, root, steps[i])
    ensures Idle(h, root, steps[i])
  {
    OrderlyStep(steps, k);
    StepEffect(a, h, root, steps[k]);
    assert Lasting(steps[i], RegionOf(steps[k]));
    hide *;
    IdleThrough(a, h, root, steps[i], RegionOf(steps[k]));
  }

  /** What a fault-free step does to the idleness of all of them. */
  lemma IdleRound(a: Fs, h: Fs, root: Ino, steps: seq<Step>, k: nat)
    requires Orderly(steps) && k < |steps| && ValidFs(a) && IsDir(a, root) && IsDir(h, root)
    requires StepState(a, h, root, steps[k])
    requires Idle(a, root, steps[k]) ==> OnlyParents(a, h, root, steps[k])
    requires !Idle(a, root, steps[k]) ==> Lookup(h, root, Key(steps[k])) == None
    ensures AllIdle(a, root, steps[..k]) ==> AllIdle(h, root, steps[..k + 1])
    ensures AllIdle(a, root, steps) ==> AllIdle(h, root, steps)
  {
    hide ValidFs, StepState, Idle, OnlyParents, Lookup, WellFormed, Spares, Lasting, RegionOf;
    StepDone(a, h, root, steps, k);
    if AllIdle(a, root, steps[..k]) {
      forall i | 0 <= i < k ensures Idle(h, root, steps[i]) {
        assert steps[..k][i] == steps[i];
        IdleStep(a, h, root, steps, k, i);
      }
    }
    if Idle(a, root, steps[k]) {
      forall i | 0 <= i < |steps| && Idle(a, root, steps[i])
        ensures Idle(h, root, steps[i])
      {
        IdleGrown(a, h, root, steps[i], steps[k]);
      }
    }
  }

  /** Every step was run: `marks` are the states between them, and each result tells what its step did. */
  ghost predicate Story(s0: Fs, s: Fs, root: Ino, steps: seq<Step>, results: seq<Result<Done, Errno>>, marks: seq<Fs>) {
    && |results| == |steps| && |marks| == |steps| + 1 && marks[0] == s0 && marks[|steps|] == s
    && forall k :: 0 <= k < |steps| ==> Told(marks[k], marks[k + 1], root, steps[k], results[k])
  }

  /** Where the run stood before every step. */
  ghost predicate Stood(s0: Fs, root: Ino, steps: seq<Step>, marks: seq<Fs>)
    requires |marks| <= |steps| + 1
  {
    forall k :: 0 <= k < |marks| ==> Standing(s0, marks[k], root, steps, k)
  }

  lemma StoodMore(s0: Fs, s: Fs, root: Ino, steps: seq<Step>, marks: seq<Fs>)
    requires |marks| <= |steps| && Stood(s0, root, steps, marks) && Standing(s0, s, root, steps, |marks|)
    ensures Stood(s0, root, steps, marks + [s])
  {
    hide Standing;
  }

  /** Every step was answered as a fault-free one is. */
  ghost predicate Prompted(root: Ino, steps: seq<Step>, results: seq<Result<Done, Errno>>, marks: seq<Fs>, uid: nat)
    requires |results| < |marks| && |results| <= |steps|
  {
    forall k :: 0 <= k < |results| ==> Prompt(marks[k], marks[k + 1], root, steps[k], results[k], uid)
  }

  lemma PromptedMore(root: Ino, steps: seq<Step>, results: seq<Result<Done, Errno>>, marks: seq<Fs>, uid: nat,
                     result: Result<Done, Errno>, s: Fs)
    requires |marks| == |results| + 1 && |results| < |steps| && Prompted(root, steps, results, marks, uid)
    requires Prompt(marks[|results|], s, root, steps[|results|], result, uid)
    ensures Prompted(root, steps, results + [result], marks + [s], uid)
  {
    hide Prompt;
  }

  /** Fails only if the root cannot be opened. Whatever else fails, every step is run: `marks` are the states between
      them, and each result tells what its step did. A list of steps that do not disturb each other keeps what its
      moves promise in every state. */
  method Run(fs: FileSystem, rootPath: Option<Ino>, steps: seq<Step>, uid: nat)
    returns (r: Result<Report, Errno>, ghost results: seq<Result<Done, Errno>>, ghost marks: seq<Fs>)
    requires fs.Valid()
    modifies fs
    ensures fs.Ran()
    ensures r.Err? || steps == [] ==> fs.Looked()
    ensures r.Ok? ==> rootPath.Some? && IsDir(fs.st, rootPath.value)
    ensures r.Ok? ==>
      Story(old(fs.st), fs.st, rootPath.value, steps, results, marks) && r.value == ReportOf(steps, results)
    ensures r.Ok? && Orderly(steps) ==> Stood(old(fs.st), rootPath.value, steps, marks)
    ensures r.Ok? && fs.faults == old(fs.faults) ==> Prompted(rootPath.value, steps, results, marks, uid)
    ensures r.Ok? && Orderly(steps) ==> RunKept(old(fs.st), fs.st, rootPath.value, steps)
    ensures r.Ok? && Orderly(steps) ==>
      forall k :: old(|fs.history|) <= k < |fs.history| ==> RunKept(old(fs.st), fs.history[k], rootPath.value, steps)
    ensures r.Ok? && r.value.failed == [] ==> fs.faults == old(fs.faults)
    ensures fs.faults == old(fs.faults) ==> (r.Ok? <==> rootPath.Some? && IsDir(old(fs.st), rootPath.value))
    ensures fs.faults == old(fs.faults) && r.Ok? && Orderly(steps) ==> AllIdle(fs.st, rootPath.value, steps)
    ensures fs.faults == old(fs.faults) && r.Ok? && Orderly(steps) && AllIdle(old(fs.st), rootPath.value, steps) ==>
      Quiet(r.value)
  {
    hide ValidFs, StepState, Idle, RunKept, Pending, Spares, Lasting, WellFormed, OnlyParents, Lookup, Orderly, Key,
      Advanced, MadeBy, Story, Stood, Prompted, Prompt;
    ghost var s0 := fs.st;
    results, marks := [], [s0];
    var home := OpenHome(fs, rootPath);
    if home.Err? { return Err(home.error), results, marks; }
    var root := home.value;
    var report := Report([], [], []);
    var k := 0;
    AtStart(s0, fs.history, root, steps);
    while k < |steps|
      invariant k <= |steps| && fs.Ran() && IsDir(fs.st, root) && (steps == [] ==> fs.Looked())
      invariant Orderly(steps) ==> Advanced(s0, fs.st, fs.history, old(|fs.history|), root, steps, k)
      invariant |results| == k && Story(s0, fs.st, root, steps[..k], results, marks)
      invariant |marks| == k + 1 && marks[k] == fs.st && (Orderly(steps) ==> Stood(s0, root, steps, marks))
      invariant fs.faults == old(fs.faults) ==> Prompted(root, steps, results, marks, uid)
      invariant report == ReportOf(steps[..k], results) && (report.failed == [] ==> fs.faults == old(fs.faults))
      invariant fs.faults == old(fs.faults) && Orderly(steps) ==> AllIdle(fs.st, root, steps[..k])
      invariant fs.faults == old(fs.faults) && Orderly(steps) && AllIdle(s0, root, steps) ==>
        AllIdle(fs.st, root, steps) && Quiet(report)
    {
      ghost var a, sofar := fs.st, fs.history;
      var result := RunStep(fs, root, steps[k], uid);
      ToldState(a, fs.st, root, steps[k], result);
      if Orderly(steps) {
        OrderlyStep(steps, k);
        AdvancedMore(s0, a, fs.st, sofar, fs.history, old(|fs.history|), root, steps, k);
        AdvancedStanding(s0, fs.st, fs.history, old(|fs.history|), root, steps, k + 1);
        StoodMore(s0, fs.st, root, steps, marks);
        if fs.faults == old(fs.faults) { IdleRound(a, fs.st, root, steps, k); }
      }
      if fs.faults == old(fs.faults) { PromptedMore(root, steps, results, marks, uid, result, fs.st); }
      StoryMore(s0, a, fs.st, root, steps, results, marks, result);
      results, marks := results + [result], marks + [fs.st];
      report := Entered(report, steps[k], result);
      k := k + 1;
    }
    assert steps[..k] == steps;
    if Orderly(steps) { AdvancedKept(s0, fs.st, fs.history, old(|fs.history|), root, steps); }
    r := Ok(report);
  }

  lemma ToldState(a: Fs, h: Fs, root: Ino, step: Step, result: Result<Done, Errno>)
    requires Told(a, h, root, step, result)
    ensures StepState(a, h, root, step)
  {
  }

  /** One step more, with the report that goes with it. */
  lemma StoryMore(s0: Fs, a: Fs, s: Fs, root: Ino, steps: seq<Step>, results: seq<Result<Done, Errno>>, marks: seq<Fs>,
                  result: Result<Done, Errno>)
    requires |results| < |steps| && Story(s0, a, root, steps[..|results|], results, marks)
    requires Told(a, s, root, steps[|results|], result)
    ensures Story(s0, s, root, steps[..|results| + 1], results + [result], marks + [s])
    ensures ReportOf(steps[..|results| + 1], results + [result])
         == Entered(ReportOf(steps[..|results|], results), steps[|results|], result)
  {
    hide Told;
    var k := |results|;
    assert steps[..k + 1][..k] == steps[..k] && (results + [result])[..k] == results;
    forall i | 0 <= i < k + 1
      ensures Told((marks + [s])[i], (marks + [s])[i + 1], root, steps[..k + 1][i], (results + [result])[i])
    {
      if i < k { assert Told(marks[i], marks[i + 1], root, steps[..k][i], results[i]); }
    }
  }

  lemma AtStart(s0: Fs, h: seq<Fs>, root: Ino, steps: seq<Step>)
    ensures Advanced(s0, s0, h, |h|, root, steps, 0)
    ensures Story(s0, s0, root, steps[..0], [], [s0]) && ReportOf(steps[..0], []) == Report([], [], [])
    ensures AllIdle(s0, root, steps[..0]) && Stood(s0, root, steps, [s0])
    ensures forall uid: nat :: Prompted(root, steps, [], [s0], uid)
  {
    hide Standing;
    StandingStart(s0, root, steps);
    AdvancedStart(s0, h, root, steps);
  }

  lemma StepDone(a: Fs, h: Fs, root: Ino, steps: seq<Step>, k: nat)
    requires Orderly(steps) && k < |steps| && ValidFs(a) && IsDir(a, root) && IsDir(h, root)
    requires Idle(a, root, steps[k]) ==> OnlyParents(a, h, root, steps[k])
    requires !Idle(a, root, steps[k]) ==> Lookup(h, root, Key(steps[k])) == None
    ensures Idle(h, root, steps[k])
  {
    hide Idle, OnlyParents, Lookup, ValidFs;
    if Idle(a, root, steps[k]) { IdleGrown(a, h, root, steps[k], steps[k]); } else { DoneIdle(h, root, steps[k]); }
  }

  /** A fault-free run right after a fault-free run moves and removes nothing. */
  method RunTwice(fs: FileSystem, root: Ino, steps: seq<Step>, uid: nat) returns (first: Report, second: Report)
    requires fs.Valid() && !fs.faulty && IsDir(fs.st, root)
    modifies fs
    ensures fs.Ran() && IsDir(fs.st, root)
    ensures Orderly(steps) ==> AllIdle(fs.st, root, steps) && Quiet(second)
  {
    hide ValidFs, RunKept, AllIdle, Orderly;
    var once, again;
    ghost var results, marks;
    once, results, marks := Run(fs, Some(root), steps, uid);
    first := once.value;
    again, results, marks := Run(fs, Some(root), steps, uid);
    second := again.value;
  }

  // ------------------------------------------------------------------ the lists that are built

  const APP_ID := "com.gnosisvpn.gnosisvpnclient"
  const GNOSIS := "GnosisVPN"
  const INSTALLER: Path := ["Library", "Application Support", GNOSIS, "installer"]
  const OLD_INSTALLER: Path := ["Library", "Logs", GNOSIS, "installer"]
  const OLD_LOGS: Path := ["private", "var", "log", "gnosisvpn"]
  const LOGS: Path := ["Library", "Logs", GNOSIS]

  function ChoiceStep(name: Name): Step {
    MoveStep(OLD_INSTALLER + [name], INSTALLER + [name], [(INSTALLER, SHARED_DIR_MODE)])
  }

  /** The system-wide steps on macOS; on Linux there are none. */
  function SystemSteps(): seq<Step> {
    [ChoiceStep("network_choice"), ChoiceStep("loglevel_choice"), ChoiceStep("update_status"),
     MoveStep(OLD_LOGS + ["updates.log"], LOGS + ["updates.log"], [(LOGS, SHARED_DIR_MODE)]),
     RemoveEmptyDirStep(OLD_LOGS),
     RemoveTreeStep(["Library", "Application Support", GNOSIS, "updates"])]
  }

  /** A user's steps on Linux; on macOS there are none. */
  function UserSteps(): seq<Step> {
    [MoveStep([".local", "share", APP_ID, "settings.json"], [".config", APP_ID, "settings.json"],
              [([".config"], SHARED_DIR_MODE), ([".config", APP_ID], DIR_MODE)]),
     MoveStep([".local", "share", APP_ID, "logs"], [".local", "state", APP_ID],
              [([".local"], SHARED_DIR_MODE), ([".local", "state"], SHARED_DIR_MODE)])]
  }

  lemma Fork(p: Path, q: Path, k: nat)
    requires k < |p| && k < |q| && p[k] != q[k]
    ensures Unrelated(p, q)
  {
  }

  /** Every parent of a move leads to where it moves. */
  ghost predicate Proper(step: Step) {
    && Key(step) != []
    && (step.MoveStep? ==>
      && step.to != [] && Unrelated(step.from, step.to) && |step.parents| > 0
      && step.parents[|step.parents| - 1].0 == ParentOf(step.to)
      && forall k :: 0 <= k < |step.parents| ==> step.parents[k].0 <= ParentOf(step.to))
  }

  ghost predicate IsEnd(step: Step, p: Path) {
    p == Key(step) || (step.MoveStep? && p == step.to)
  }

  /** Ends of different steps lie apart, but an emptied directory may come after a move out of it. */
  ghost predicate EndsApart(steps: seq<Step>, i: nat, j: nat)
    requires i < |steps| && j < |steps|
  {
    forall p, q :: IsEnd(steps[i], p) && IsEnd(steps[j], q) ==>
      Unrelated(p, q) || Emptying(steps, i, p, j, q) || Emptying(steps, j, q, i, p)
  }

  ghost predicate Emptying(steps: seq<Step>, i: nat, p: Path, j: nat, q: Path)
    requires i < |steps| && j < |steps|
  {
    steps[i].RemoveEmptyDirStep? && j < i && steps[j].MoveStep? && q == steps[j].from && p == steps[i].path && !(q <= p)
  }

  lemma MadeBelow(step: Step)
    requires step.MoveStep? && Proper(step)
    ensures forall m :: m in MadeBy(step.parents) ==> m <= step.to && |m| < |step.to|
  {
    forall m | m in MadeBy(step.parents) ensures m <= step.to && |m| < |step.to| {
      var k :| 0 <= k < |step.parents| && m in Prefixes(step.parents[k].0);
      assert m <= step.parents[k].0 <= ParentOf(step.to) <= step.to;
    }
  }

  lemma SparesBy(steps: seq<Step>, i: nat, j: nat, p: Path)
    requires i < |steps| && j < |steps| && i != j && steps[i].MoveStep? && IsEnd(steps[i], p) && Proper(steps[i])
    requires Proper(steps[j]) && EndsApart(steps, i, j)
    ensures Spares(steps[j], p)
  {
    hide MadeBy;
    assert IsEnd(steps[j], Key(steps[j]));
    if steps[j].MoveStep? {
      MadeBelow(steps[j]);
      assert IsEnd(steps[j], steps[j].to);
      assert Unrelated(p, steps[j].to);
    }
  }

  lemma LastingBy(steps: seq<Step>, i: nat, j: nat)
    requires i < j < |steps| && Proper(steps[i]) && Proper(steps[j]) && EndsApart(steps, i, j)
    ensures Lasting(steps[i], RegionOf(steps[j]))
  {
    hide MadeBy;
    var s, t := steps[i], steps[j];
    assert IsEnd(s, Key(s)) && IsEnd(t, Key(t));
    if t.MoveStep? {
      MadeBelow(t);
      assert IsEnd(t, t.to);
      assert Unrelated(Key(s), t.to);
      UnderOne(t.to, Key(s));
    }
    if s.MoveStep? {
      var to := s.to;
      assert IsEnd(s, to);
      forall k, c | 0 <= k < |s.parents| && (c in RegionOf(t).cut || c in RegionOf(t).put)
        ensures !(c <= s.parents[k].0)
      {
        assert IsEnd(t, c);
        assert c <= s.parents[k].0 ==> c <= to;
      }
    }
  }

  lemma KeyNotMade(steps: seq<Step>, i: nat, j: nat)
    requires i < |steps| && j < |steps| && Proper(steps[i]) && Proper(steps[j]) && (i != j ==> EndsApart(steps, i, j))
    ensures Key(steps[i]) !in RegionOf(steps[j]).made
  {
    hide MadeBy;
    if steps[j].MoveStep? {
      MadeBelow(steps[j]);
      assert IsEnd(steps[i], Key(steps[i])) && IsEnd(steps[j], steps[j].to);
    }
  }

  lemma ShelteredBy(steps: seq<Step>, i: nat, j: nat)
    requires i < |steps| && j < |steps| && Proper(steps[i]) && Proper(steps[j]) && (i != j ==> EndsApart(steps, i, j))
    ensures Sheltered(steps, i, j)
  {
    var s, t := steps[i], steps[j];
    if t.MoveStep? {
      assert IsEnd(s, Key(s)) && IsEnd(t, t.to);
      forall q | IsWay(s, q) ensures !(t.to <= q) {
        if s.MoveStep? {
          assert IsEnd(s, s.to);
          assert ParentOf(s.from) <= s.from;
          assert q <= s.from || (q <= s.to && |q| < |s.to|);
        }
      }
    }
  }

  lemma ProperWell(step: Step)
    requires Proper(step)
    ensures WellFormed(step)
  {
    hide MadeBy;
    if step.MoveStep? { MadeBelow(step); }
  }

  lemma OrderlyBy(steps: seq<Step>)
    requires forall i :: 0 <= i < |steps| ==> Proper(steps[i])
    requires forall i, j :: 0 <= i < |steps| && 0 <= j < |steps| && i != j ==> EndsApart(steps, i, j)
    ensures Orderly(steps)
  {
    hide Proper, WellFormed, EndsApart, Spares, Lasting, RegionOf, Key, Sheltered;
    forall i, j | 0 <= i < |steps| && 0 <= j < |steps| ensures Sheltered(steps, i, j) { ShelteredBy(steps, i, j); }
    forall i | 0 <= i < |steps| ensures WellFormed(steps[i]) { ProperWell(steps[i]); }
    forall i, j | 0 <= i < |steps| && 0 <= j < |steps| && i != j && steps[i].MoveStep?
      ensures Spares(steps[j], steps[i].from) && Spares(steps[j], steps[i].to)
    {
      MoveEnds(steps[i]);
      SparesBy(steps, i, j, steps[i].from);
      SparesBy(steps, i, j, steps[i].to);
    }
    forall i, j | 0 <= i < j < |steps| ensures Lasting(steps[i], RegionOf(steps[j])) { LastingBy(steps, i, j); }
    forall i, j | 0 <= i < |steps| && 0 <= j < |steps|
      ensures Key(steps[i]) !in RegionOf(steps[j]).made
    {
      KeyNotMade(steps, i, j);
    }
  }

  lemma MoveEnds(step: Step)
    requires step.MoveStep?
    ensures IsEnd(step, step.from) && IsEnd(step, step.to)
    ensures forall p :: IsEnd(step, p) ==> p == step.from || p == step.to
  {
  }

  lemma CutEnds(step: Step)
    requires !step.MoveStep?
    ensures IsEnd(step, step.path) && forall p :: IsEnd(step, p) ==> p == step.path
  {
  }

  lemma UserStepsOrderly()
    ensures Orderly(UserSteps())
  {
    hide Orderly;
    var steps := UserSteps();
    var a, b := steps[0], steps[1];
    assert ".local" != ".config" && "share" != "state" && "settings.json" != "logs";
    Fork(a.from, a.to, 0);
    Fork(b.from, b.to, 1);
    Fork(a.from, b.from, 3);
    Fork(a.from, b.to, 1);
    Fork(b.from, a.to, 0);
    Fork(a.to, b.to, 0);
    MoveEnds(a);
    MoveEnds(b);
    OrderlyBy(steps);
  }

  /** The two ends of a choice file and another path. */
  lemma ChoiceFork(name: Name, p: Path)
    requires |p| > 0
    requires
      || p[0] == "private"
      || (|p| == 4 && p == LOGS + ["updates.log"])
      || (|p| == 4 && p == ["Library", "Application Support", GNOSIS, "updates"])
    ensures Unrelated(ChoiceStep(name).from, p) && Unrelated(ChoiceStep(name).to, p)
  {
    var step := ChoiceStep(name);
    assert "Library"[0] == 'L' && "private"[0] == 'p';
    assert "Logs" != "Application Support" && "installer" != "updates" && "installer" != "updates.log";
    assert step.from[0] == "Library" && step.from[1] == "Logs" && step.from[3] == "installer";
    assert step.to[0] == "Library" && step.to[1] == "Application Support" && step.to[3] == "installer";
    if p[0] == "private" {
      Fork(step.from, p, 0);
      Fork(step.to, p, 0);
    } else if p[1] == "Logs" {
      Fork(step.from, p, 3);
      Fork(step.to, p, 1);
    } else {
      Fork(step.from, p, 1);
      Fork(step.to, p, 3);
    }
  }

  lemma TwoChoices(name: Name, other: Name)
    ensures Proper(ChoiceStep(name))
    ensures Unrelated(ChoiceStep(name).from, ChoiceStep(other).to)
    ensures Unrelated(ChoiceStep(name).to, ChoiceStep(other).from)
    ensures name != other ==>
      Unrelated(ChoiceStep(name).from, ChoiceStep(other).from) && Unrelated(ChoiceStep(name).to, ChoiceStep(other).to)
  {
    var s, t := ChoiceStep(name), ChoiceStep(other);
    assert "Logs" != "Application Support";
    Fork(s.from, t.to, 1);
    Fork(s.to, t.from, 1);
    Fork(s.from, s.to, 1);
    if name != other {
      Fork(s.from, t.from, 4);
      Fork(s.to, t.to, 4);
    }
    assert ParentOf(s.to) == INSTALLER;
  }

  /** The other ends of the system steps: the old log, its directory, the new log and the old updates. */
  lemma LogForks()
    ensures
      var u, v, e := OLD_LOGS + ["updates.log"], LOGS + ["updates.log"], OLD_LOGS;
      var r := ["Library", "Application Support", GNOSIS, "updates"];
      && Unrelated(u, v) && Unrelated(u, r) && Unrelated(v, e) && Unrelated(v, r) && Unrelated(e, r) && e <= u
      && !(u <= e)
      && u[0] == "private" && e[0] == "private" && |v| == 4 && |r| == 4 && ParentOf(v) == LOGS
  {
    var u, v, e := OLD_LOGS + ["updates.log"], LOGS + ["updates.log"], OLD_LOGS;
    var r := ["Library", "Application Support", GNOSIS, "updates"];
    assert "Library"[0] == 'L' && "private"[0] == 'p';
    assert "Logs" != "Application Support";
    Fork(u, v, 0);
    Fork(u, r, 0);
    Fork(v, e, 0);
    Fork(v, r, 1);
    Fork(e, r, 0);
    assert ParentOf(v) == LOGS;
  }

  lemma ChoicePair(steps: seq<Step>, i: nat, j: nat)
    requires steps == SystemSteps() && i < 3 && j < 3 && i != j
    ensures EndsApart(steps, i, j)
  {
    var names := ["network_choice", "loglevel_choice", "update_status"];
    assert steps[i] == ChoiceStep(names[i]) && steps[j] == ChoiceStep(names[j]);
    assert |names[0]| == 14 && |names[1]| == 15 && |names[2]| == 13;
    TwoChoices(names[i], names[j]);
    TwoChoices(names[j], names[i]);
    MoveEnds(steps[i]);
    MoveEnds(steps[j]);
  }

  lemma ChoiceOther(steps: seq<Step>, i: nat, j: nat)
    requires steps == SystemSteps() && i < 3 <= j < 6
    ensures EndsApart(steps, i, j) && EndsApart(steps, j, i)
  {
    var names := ["network_choice", "loglevel_choice", "update_status"];
    assert steps[i] == ChoiceStep(names[i]);
    LogForks();
    MoveEnds(steps[i]);
    if j == 3 {
      MoveEnds(steps[j]);
      ChoiceFork(names[i], steps[3].from);
      ChoiceFork(names[i], steps[3].to);
    } else {
      CutEnds(steps[j]);
      ChoiceFork(names[i], steps[j].path);
    }
    ApartSym();
  }

  lemma ApartSym()
    ensures forall p: Path, q: Path :: Unrelated(p, q) == Unrelated(q, p)
  {
  }

  lemma LastThree(steps: seq<Step>, i: nat, j: nat)
    requires steps == SystemSteps() && 3 <= i < 6 && 3 <= j < 6 && i != j
    ensures EndsApart(steps, i, j)
  {
    hide Unrelated;
    LogForks();
    MoveEnds(steps[3]);
    CutEnds(steps[4]);
    CutEnds(steps[5]);
    ApartSym();
  }

  lemma LogProper()
    ensures Proper(MoveStep(OLD_LOGS + ["updates.log"], LOGS + ["updates.log"], [(LOGS, SHARED_DIR_MODE)]))
  {
    LogForks();
  }

  lemma CutProper(path: Path)
    requires path != []
    ensures Proper(RemoveTreeStep(path)) && Proper(RemoveEmptyDirStep(path))
  {
  }

  lemma SystemStepsProper(i: nat)
    requires i < 6
    ensures |SystemSteps()| == 6 && Proper(SystemSteps()[i])
  {
    hide Proper, ChoiceStep;
    LogProper();
    CutProper(OLD_LOGS);
    CutProper(["Library", "Application Support", GNOSIS, "updates"]);
    TwoChoices("network_choice", "loglevel_choice");
    TwoChoices("loglevel_choice", "update_status");
    TwoChoices("update_status", "network_choice");
  }

  lemma SystemStepsApart(i: nat, j: nat)
    requires i < 6 && j < 6 && i != j
    ensures |SystemSteps()| == 6 && EndsApart(SystemSteps(), i, j)
  {
    var steps := SystemSteps();
    hide EndsApart;
    if i < 3 && j < 3 { ChoicePair(steps, i, j); }
    else if i < 3 { ChoiceOther(steps, i, j); }
    else if j < 3 { ChoiceOther(steps, j, i); }
    else { LastThree(steps, i, j); }
  }

  lemma SystemStepsOrderly()
    ensures Orderly(SystemSteps())
  {
    SystemStepsProper(0);
    hide *;
    forall i, j | 0 <= i < |SystemSteps()| && 0 <= j < |SystemSteps()| && i != j
      ensures EndsApart(SystemSteps(), i, j)
    {
      SystemStepsApart(i, j);
    }
    forall i | 0 <= i < |SystemSteps()| ensures Proper(SystemSteps()[i]) { SystemStepsProper(i); }
    OrderlyBy(SystemSteps());
  }
}
