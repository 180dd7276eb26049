/** The `layout` command: the system-wide steps, then a user's, and what becomes of the files they are about. */
module LayoutRuns {
  import opened Kernel
  import opened Trees
  import opened Growth
  import opened FileSystems
  import opened Nofollow
  import opened Layout
  import opened Staging
  import opened Networks
  import Rollback
  import opened Regions
  import opened Relocate
  import opened Relocation

  // ------------------------------------------------------------------ steps whose ways are open

  /** Nothing but directories lies on the step's ways, as far as they go. */
  ghost predicate Open(s: Fs, root: Ino, step: Step) {
    forall q :: IsWay(step, q) ==> WalkDir(s, root, q).Ok?
  }

  ghost predicate AllOpen(s: Fs, root: Ino, steps: seq<Step>) {
    forall k :: 0 <= k < |steps| ==> Open(s, root, steps[k])
  }

  lemma UnderAll(steps: seq<Step>, q: Path)
    ensures Under(AllRegions(steps).put, q) <==>
            exists k :: 0 <= k < |steps| && steps[k].MoveStep? && steps[k].to <= q
    ensures Under(AllRegions(steps).cut, q) <==> exists k :: 0 <= k < |steps| && Key(steps[k]) <= q
  {
    hide MadeBy;
    if Under(AllRegions(steps).put, q) {
      var c :| c in AllRegions(steps).put && c <= q;
      var k :| 0 <= k < |steps| && c in RegionOf(steps[k]).put;
      assert steps[k].MoveStep? && steps[k].to <= q;
    }
    if k :| 0 <= k < |steps| && steps[k].MoveStep? && steps[k].to <= q {
      assert steps[k].to in RegionOf(steps[k]).put;
      assert steps[k].to in AllRegions(steps).put;
    }
    if Under(AllRegions(steps).cut, q) {
      var c :| c in AllRegions(steps).cut && c <= q;
      var k :| 0 <= k < |steps| && c in RegionOf(steps[k]).cut;
      assert Key(steps[k]) <= q;
    }
    if k :| 0 <= k < |steps| && Key(steps[k]) <= q {
      assert Key(steps[k]) in RegionOf(steps[k]).cut;
      assert Key(steps[k]) in AllRegions(steps).cut;
    }
  }

  lemma MadeAll(steps: seq<Step>, q: Path)
    ensures q in AllRegions(steps).made <==>
            q != [] && exists k :: 0 <= k < |steps| && steps[k].MoveStep? && Covered(steps[k].parents, q)
  {
    hide MadeBy, Covered;
    forall k | 0 <= k < |steps| && steps[k].MoveStep?
      ensures q in MadeBy(steps[k].parents) <==> q != [] && Covered(steps[k].parents, q)
    {
      if q != [] { CoveredMade(steps[k].parents, q); } else { NilNotMade(steps[k].parents); }
    }
    if k :| 0 <= k < |steps| && steps[k].MoveStep? && q in MadeBy(steps[k].parents) {
      assert q in RegionOf(steps[k]).made;
    }
    if q in AllRegions(steps).made {
      var k :| 0 <= k < |steps| && q in RegionOf(steps[k]).made;
      assert steps[k].MoveStep?;
    }
  }

  lemma NilNotMade(parents: seq<(Path, nat)>)
    ensures [] !in MadeBy(parents)
  {
  }

  lemma UnderLonger(tops: set<Path>, p: Path, q: Path)
    requires p <= q
    ensures Under(tops, p) ==> Under(tops, q)
  {
    if c :| c in tops && c <= p { assert c <= q; }
  }

  /** An open walk stays open where nothing is delivered onto it. */
  lemma WalkStays(a: Fs, h: Fs, root: Ino, g: Region, p: Path)
    requires ValidFs(a) && IsDir(a, root) && IsDir(h, root) && Effect(a, h, root, g) && WalkDir(a, root, p).Ok?
    requires !Under(g.put, p)
    ensures WalkDir(h, root, p).Ok?
  {
    hide ValidFs, WalkDir;
    WalkBlocked(a, root, p);
    WalkBlocked(h, root, p);
    forall k: nat | k <= |p| && Lookup(h, root, p[..k]).Some? ensures IsDir(h, Lookup(h, root, p[..k]).value) {
      var q := p[..k];
      assert PathEffect(a, h, root, g, q);
      UnderLonger(g.put, q, p);
      if Lookup(a, root, q).Some? { LookupInNodes(a, root, q); }
    }
  }

  /** Whatever of a run has been done, the ways are still open. */
  lemma StillOpen(s0: Fs, s: Fs, root: Ino, steps: seq<Step>, k: nat)
    requires ValidFs(s0) && IsDir(s0, root) && IsDir(s, root) && Orderly(steps) && k < |steps|
    requires RunKept(s0, s, root, steps) && Open(s0, root, steps[k])
    ensures Open(s, root, steps[k])
  {
    hide ValidFs, WalkDir, Lookup, Spares, Lasting, WellFormed, MadeBy, Effect, DestKept, MoveKept, AllRegions, Under;
    forall q | IsWay(steps[k], q) ensures WalkDir(s, root, q).Ok? {
      UnderAll(steps, q);
      forall j | 0 <= j < |steps| && steps[j].MoveStep? ensures !(steps[j].to <= q) { assert Sheltered(steps, k, j); }
      WalkStays(s0, s, root, AllRegions(steps), q);
    }
  }

  /** What an open move answers, by what lay at its two ends. */
  function MoveAnswer(s0: Fs, root: Ino, from: Path, to: Path): Result<Done, Errno> {
    if Lookup(s0, root, from) == None then Ok(Nothing)
    else if Lookup(s0, root, to).Some? then Ok(RemovedIt)
    else Ok(MovedTo(to))
  }

  /** A fault-free run of steps whose ways were open. */
  ghost predicate Smooth(s0: Fs, s: Fs, root: Ino, steps: seq<Step>, results: seq<Result<Done, Errno>>, marks: seq<Fs>,
                         uid: nat) {
    && ValidFs(s0) && IsDir(s0, root) && Orderly(steps) && AllOpen(s0, root, steps)
    && Story(s0, s, root, steps, results, marks) && Stood(s0, root, steps, marks)
    && Prompted(root, steps, results, marks, uid) && AllIdle(s, root, steps)
  }

  lemma KeptRoot(s0: Fs, s: Fs, root: Ino, g: Region)
    requires Effect(s0, s, root, g) && IsDir(s0, root)
    ensures IsDir(s, root)
  {
  }

  lemma SmoothAt(s0: Fs, s: Fs, root: Ino, steps: seq<Step>, results: seq<Result<Done, Errno>>, marks: seq<Fs>,
                 uid: nat, k: nat)
    requires Smooth(s0, s, root, steps, results, marks, uid) && k < |steps|
    ensures |results| == |steps| && |marks| == |steps| + 1 && WellFormed(steps[k]) && marks[0] == s0
    ensures marks[|steps|] == s && IsDir(marks[k], root) && Standing(s0, marks[k], root, steps, k)
    ensures IsDir(s, root) && RunKept(s0, s, root, steps)
    ensures Standing(s0, marks[k + 1], root, steps, k + 1) && IsDir(marks[k + 1], root)
    ensures Told(marks[k], marks[k + 1], root, steps[k], results[k])
    ensures Prompt(marks[k], marks[k + 1], root, steps[k], results[k], uid)
    ensures Open(marks[k], root, steps[k]) && Idle(s, root, steps[k]) && Open(s, root, steps[k])
  {
    hide Told, Prompt, WellFormed, MoveKept, DestKept, Effect, AllRegions, AllSpare, ValidFs, Open, Idle, Sheltered,
        Spares, Lasting;
    OrderlyStep(steps, k);
    assert Standing(s0, marks[k], root, steps, k) && Standing(s0, s, root, steps, |steps|);
    assert Standing(s0, marks[k + 1], root, steps, k + 1);
    KeptRoot(s0, marks[k], root, AllRegions(steps));
    KeptRoot(s0, marks[k + 1], root, AllRegions(steps));
    KeptRoot(s0, s, root, AllRegions(steps));
    StillOpen(s0, marks[k], root, steps, k);
    StillOpen(s0, s, root, steps, k);
  }

  lemma MoveAnswered(s0: Fs, s: Fs, root: Ino, steps: seq<Step>, results: seq<Result<Done, Errno>>, marks: seq<Fs>,
                     uid: nat, k: nat)
    requires Smooth(s0, s, root, steps, results, marks, uid) && k < |steps| && steps[k].MoveStep?
    ensures |results| == |steps| && results[k] == MoveAnswer(s0, root, steps[k].from, steps[k].to)
    ensures |marks| == |steps| + 1 && Lookup(marks[k + 1], root, steps[k].from) == None
    ensures results[k] != Ok(Nothing) ==> Furnished(marks[k], marks[k + 1], root, steps[k].parents, uid)
  {
    hide RunKept, Smooth, Furnished, SourceMoved, SourceCut, Effect, StepState, WalkDir, AllRegions, Lookup,
      SameBody, Bound, MadeBy, ParentOf, IsDir, Unrelated;
    SmoothAt(s0, s, root, steps, results, marks, uid, k);
    var step, a := steps[k], marks[k];
    assert Pending(s0, a, root, step);
    assert IsWay(step, ParentOf(step.from));
    forall j | 0 <= j < |step.parents| ensures WalkDir(a, root, step.parents[j].0).Ok? {
      assert IsWay(step, step.parents[j].0);
    }
  }

  // ------------------------------------------------------------------ where things end up

  /** What was at `from` is at `to`, its tree unchanged, unless something was at `to`: that is then as it was, and what
      was at `from` is gone. */
  ghost predicate Delivered(s0: Fs, s: Fs, root: Ino, from: Path, to: Path) {
    && Lookup(s, root, from) == None
    && (Lookup(s0, root, to).Some? ==> DestKept(s0, s, root, to))
    && (Lookup(s0, root, to) == None ==>
      && Lookup(s, root, to) == Lookup(s0, root, from)
      && (Lookup(s0, root, from).Some? ==> SameTree(s0, s, Lookup(s0, root, from).value)))
  }

  lemma MoveDelivers(s0: Fs, s: Fs, root: Ino, steps: seq<Step>, results: seq<Result<Done, Errno>>, marks: seq<Fs>,
                     uid: nat, k: nat)
    requires Smooth(s0, s, root, steps, results, marks, uid) && k < |steps| && steps[k].MoveStep?
    ensures Delivered(s0, s, root, steps[k].from, steps[k].to)
  {
    SmoothAt(s0, s, root, steps, results, marks, uid, k);
    hide Smooth, Told, Prompt, WellFormed, WalkDir, Lookup, SameTree, AllRegions, Effect;
    var step := steps[k];
    assert MoveKept(s0, s, root, step);
    forall j | 0 <= j < |step.parents| ensures WalkDir(s, root, step.parents[j].0).Ok? {
      assert IsWay(step, step.parents[j].0);
    }
  }

  /** A tree to be removed is gone. */
  lemma TreeGone(s0: Fs, s: Fs, root: Ino, steps: seq<Step>, results: seq<Result<Done, Errno>>, marks: seq<Fs>,
                 uid: nat, k: nat)
    requires Smooth(s0, s, root, steps, results, marks, uid) && k < |steps| && steps[k].RemoveTreeStep?
    requires Clear(AllRegions(steps[..k]), steps[k].path) && steps[k].path !in AllRegions(steps[..k]).made
    ensures Lookup(s, root, steps[k].path) == None && |results| == |steps|
    ensures results[k] == if Lookup(s0, root, steps[k].path).Some? then Ok(RemovedIt) else Ok(Nothing)
  {
    SmoothAt(s0, s, root, steps, results, marks, uid, k);
    hide Smooth, RunKept, Told, WellFormed, WalkDir, Lookup, SameTree, AllRegions, Effect;
    var p, a := steps[k].path, marks[k];
    assert IsWay(steps[k], p);
    OpenEnd(a, root, p);
    OpenEnd(s, root, p);
    if Lookup(s0, root, p).Some? {
      KeptAt(s0, a, root, AllRegions(steps[..k]), p);
    } else {
      ClearBelow(AllRegions(steps[..k]), p, []);
      assert p + [] == p;
      AbsentAt(s0, a, root, AllRegions(steps[..k]), p);
    }
    assert p != [];
    WalkLast(a, root, p);
  }

  lemma OpenEnd(s: Fs, root: Ino, p: Path)
    requires IsDir(s, root) && WalkDir(s, root, p).Ok?
    ensures Lookup(s, root, p).Some? ==> IsDir(s, Lookup(s, root, p).value)
  {
    WalkBlocked(s, root, p);
    assert p[..|p|] == p;
  }

  // ------------------------------------------------------------------ directories that are made

  /** Every step that makes `q` asks for that mode. */
  ghost predicate AsksFor(steps: seq<Step>, q: Path, mode: nat) {
    forall k :: 0 <= k < |steps| && steps[k].MoveStep? && Covered(steps[k].parents, q) ==>
      ModeAt(steps[k].parents, q) == mode
  }

  /** If something new is at `q` it is a directory with that owner and mode. */
  ghost predicate NewWith(s0: Fs, s: Fs, root: Ino, q: Path, meta: Meta) {
    Lookup(s0, root, q) == None && Lookup(s, root, q).Some? ==>
      IsDir(s, Lookup(s, root, q).value) && s.nodes[Lookup(s, root, q).value].meta == meta
  }

  lemma NewWithMore(s0: Fs, s: Fs, root: Ino, steps: seq<Step>, results: seq<Result<Done, Errno>>, marks: seq<Fs>,
                    uid: nat, k: nat, q: Path, mode: nat)
    requires Smooth(s0, s, root, steps, results, marks, uid) && k < |steps| && AsksFor(steps, q, mode)
    requires !Under(AllRegions(steps).put, q) && !Under(AllRegions(steps).cut, q) && q != []
    requires |marks| == |steps| + 1 && NewWith(s0, marks[k], root, q, Meta(uid, mode))
    ensures NewWith(s0, marks[k + 1], root, q, Meta(uid, mode))
  {
    SmoothAt(s0, s, root, steps, results, marks, uid, k);
    hide Smooth, RunKept, WellFormed, WalkDir, Lookup, SameTree, AllRegions, Under, StepState, Idle, Open;
    var a, h, step := marks[k], marks[k + 1], steps[k];
    StepAlone(a, h, root, steps, k, results[k], q);
    if Lookup(a, root, q) == None && Lookup(h, root, q).Some? {
      MoveAnswered(s0, s, root, steps, results, marks, uid, k);
      CoveredMade(step.parents, q);
    }
  }

  /** Of one step's effect at a path that is neither taken from nor put to. */
  lemma StepAlone(a: Fs, h: Fs, root: Ino, steps: seq<Step>, k: nat, r: Result<Done, Errno>, q: Path)
    requires k < |steps| && Told(a, h, root, steps[k], r) && WellFormed(steps[k])
    requires !Under(AllRegions(steps).put, q) && !Under(AllRegions(steps).cut, q)
    ensures Lookup(a, root, q).Some? ==> Lookup(h, root, q) == Lookup(a, root, q) && Rollback.NodesKept(a, h)
    ensures Lookup(a, root, q) == None && Lookup(h, root, q).Some? ==>
      steps[k].MoveStep? && q in MadeBy(steps[k].parents) && r != Ok(Nothing)
  {
    hide WellFormed, Lookup, StepState, AllRegions, MadeBy;
    StepEffect(a, h, root, steps[k]);
    RegionIn(steps, k);
    assert PathEffect(a, h, root, RegionOf(steps[k]), q);
  }

  lemma {:induction false} NewWithAt(s0: Fs, s: Fs, root: Ino, steps: seq<Step>, results: seq<Result<Done, Errno>>,
                                     marks: seq<Fs>, uid: nat, k: nat, q: Path, mode: nat)
    requires Smooth(s0, s, root, steps, results, marks, uid) && k <= |steps| && AsksFor(steps, q, mode)
    requires !Under(AllRegions(steps).put, q) && !Under(AllRegions(steps).cut, q) && q != []
    ensures |marks| == |steps| + 1 && NewWith(s0, marks[k], root, q, Meta(uid, mode))
    decreases k
  {
    hide Smooth, AsksFor, Under, AllRegions, Lookup;
    if k == 0 {
      SmoothStart(s0, s, root, steps, results, marks, uid);
    } else {
      NewWithAt(s0, s, root, steps, results, marks, uid, k - 1, q, mode);
      NewWithMore(s0, s, root, steps, results, marks, uid, k - 1, q, mode);
    }
  }

  lemma SmoothStart(s0: Fs, s: Fs, root: Ino, steps: seq<Step>, results: seq<Result<Done, Errno>>, marks: seq<Fs>,
                    uid: nat)
    requires Smooth(s0, s, root, steps, results, marks, uid)
    ensures |marks| == |steps| + 1 && |results| == |steps| && marks[0] == s0 && marks[|steps|] == s
  {
  }

  // ------------------------------------------------------------------ the system-wide files on macOS

  /** The files that moved, from where to where. */
  const MAC_MOVES: seq<(Path, Path)> :=
    [(["Library", "Logs", "GnosisVPN", "installer", "network_choice"],
      ["Library", "Application Support", "GnosisVPN", "installer", "network_choice"]),
     (["Library", "Logs", "GnosisVPN", "installer", "loglevel_choice"],
      ["Library", "Application Support", "GnosisVPN", "installer", "loglevel_choice"]),
     (["Library", "Logs", "GnosisVPN", "installer", "update_status"],
      ["Library", "Application Support", "GnosisVPN", "installer", "update_status"]),
     (["private", "var", "log", "gnosisvpn", "updates.log"], ["Library", "Logs", "GnosisVPN", "updates.log"])]

  const MAC_OLD_LOGS: Path := ["private", "var", "log", "gnosisvpn"]
  const MAC_UPDATES: Path := ["Library", "Application Support", "GnosisVPN", "updates"]

  /** Directories a run may make. */
  const MAC_MADE: seq<Path> :=
    [["Library"], ["Library", "Application Support"], ["Library", "Application Support", "GnosisVPN"],
     ["Library", "Application Support", "GnosisVPN", "installer"], ["Library", "Logs"],
     ["Library", "Logs", "GnosisVPN"]]

  lemma MacSteps()
    ensures |SystemSteps()| == 6
    ensures forall k :: 0 <= k < 4 ==>
      SystemSteps()[k] == MoveStep(MAC_MOVES[k].0, MAC_MOVES[k].1, [(ParentOf(MAC_MOVES[k].1), 493)])
    ensures SystemSteps()[4] == RemoveEmptyDirStep(MAC_OLD_LOGS) && SystemSteps()[5] == RemoveTreeStep(MAC_UPDATES)
  {
    ChoiceSpelled("network_choice");
    ChoiceSpelled("loglevel_choice");
    ChoiceSpelled("update_status");
    assert OLD_LOGS + ["updates.log"] == MAC_MOVES[3].0 && LOGS + ["updates.log"] == MAC_MOVES[3].1;
    assert ParentOf(MAC_MOVES[3].1) == LOGS;
  }

  lemma ChoiceSpelled(name: Name)
    ensures var to := ["Library", "Application Support", "GnosisVPN", "installer", name];
            ChoiceStep(name) == MoveStep(["Library", "Logs", "GnosisVPN", "installer", name], to, [(ParentOf(to), 493)])
  {
    var to := ["Library", "Application Support", "GnosisVPN", "installer", name];
    assert OLD_INSTALLER + [name] == ["Library", "Logs", "GnosisVPN", "installer", name];
    assert INSTALLER + [name] == to && ParentOf(to) == INSTALLER;
  }

  /** What a macOS run is not about. */
  predicate MacAside(p: Path) {
    && (forall k :: 0 <= k < |MAC_MOVES| ==> Unrelated(MAC_MOVES[k].0, p) && Unrelated(MAC_MOVES[k].1, p))
    && Unrelated(MAC_UPDATES, p) && !(p <= MAC_OLD_LOGS)
  }

  /** The legacy home, but for the two directories a run is about, and what else is in the old log directory. */
  lemma MacKeeps(name: Name)
    ensures name != "installer" && name != "updates" ==> MacAside(["Library", "Application Support", "GnosisVPN", name])
    ensures name != "updates.log" ==> MacAside(["private", "var", "log", "gnosisvpn", name])
  {
    var p, q := ["Library", "Application Support", "GnosisVPN", name], ["private", "var", "log", "gnosisvpn", name];
    assert "Library"[0] == 'L' && "private"[0] == 'p';
    assert "Application Support" != "Logs";
    forall k | 0 <= k < |MAC_MOVES|
      ensures name != "installer" ==> Unrelated(MAC_MOVES[k].0, p) && Unrelated(MAC_MOVES[k].1, p)
      ensures name != "updates.log" ==> Unrelated(MAC_MOVES[k].0, q) && Unrelated(MAC_MOVES[k].1, q)
    {
      if k < 3 {
        Fork(MAC_MOVES[k].0, p, 1);
        Fork(MAC_MOVES[k].0, q, 0);
        if name != "installer" { Fork(MAC_MOVES[k].1, p, 3); }
      } else {
        Fork(MAC_MOVES[k].0, p, 0);
        Fork(MAC_MOVES[k].1, p, 1);
        if name != "updates.log" { Fork(MAC_MOVES[k].0, q, 4); }
      }
      Fork(MAC_MOVES[k].1, q, 0);
    }
    Fork(p, MAC_OLD_LOGS, 0);
    Fork(MAC_UPDATES, q, 0);
    if name != "updates" { Fork(MAC_UPDATES, p, 3); }
  }

  lemma MacSpared(p: Path)
    requires MacAside(p)
    ensures AllSpare(SystemSteps(), p)
  {
    MacSteps();
    hide SystemSteps;
    forall k | 0 <= k < 6 ensures Spares(SystemSteps()[k], p) {
      if k < 4 {
        var step := SystemSteps()[k];
        forall m | m in MadeBy(step.parents) ensures !(p <= m) {
          assert m <= step.parents[0].0 == ParentOf(step.to) <= step.to;
        }
      }
    }
  }

  /** What every state keeps of a move's two ends. */
  ghost predicate EndsKept(s0: Fs, h: Fs, root: Ino, from: Path, to: Path) {
    DestKept(s0, h, root, to) && SourceKept(s0, h, root, from, to) && NoneKept(s0, h, root, from, to)
  }

  /** In particular the legacy identity and its database stay where they are, with their trees. */
  ghost predicate MacKept(s0: Fs, h: Fs, root: Ino) {
    && (forall k :: 0 <= k < |MAC_MOVES| ==> EndsKept(s0, h, root, MAC_MOVES[k].0, MAC_MOVES[k].1))
    && (forall p :: MacAside(p) ==> DestKept(s0, h, root, p))
    && DestKept(s0, h, root, ["Library", "Application Support", "GnosisVPN", ".config"])
    && DestKept(s0, h, root, ["Library", "Application Support", "GnosisVPN", "curvy-pix.redb"])
  }

  lemma MacKeptBy(s0: Fs, h: Fs, root: Ino)
    requires RunKept(s0, h, root, SystemSteps())
    ensures MacKept(s0, h, root)
  {
    hide DestKept, SourceKept, NoneKept, AllRegions, Effect, SystemSteps, MacAside, AllSpare;
    MacSteps();
    forall p | MacAside(p) ensures DestKept(s0, h, root, p) { MacSpared(p); }
    forall k | 0 <= k < |MAC_MOVES| ensures EndsKept(s0, h, root, MAC_MOVES[k].0, MAC_MOVES[k].1) {
      assert MoveKept(s0, h, root, SystemSteps()[k]);
    }
    MacIdentityAside();
  }

  lemma MacIdentityAside()
    ensures MacAside(["Library", "Application Support", "GnosisVPN", ".config"])
    ensures MacAside(["Library", "Application Support", "GnosisVPN", "curvy-pix.redb"])
  {
    assert |"installer"| == 9 && |"updates"| == 7 && |".config"| == 7 && |"curvy-pix.redb"| == 14;
    assert ".config"[0] != "updates"[0];
    hide MacAside;
    MacKeeps(".config");
    MacKeeps("curvy-pix.redb");
  }

  /** Only directories, as far as anything, on the ways to the old and the new places. */
  ghost predicate MacOpen(s: Fs, root: Ino) {
    && (forall k :: 0 <= k < |MAC_MOVES| ==>
         WalkDir(s, root, ParentOf(MAC_MOVES[k].0)).Ok? && WalkDir(s, root, ParentOf(MAC_MOVES[k].1)).Ok?)
    && WalkDir(s, root, MAC_OLD_LOGS).Ok? && WalkDir(s, root, MAC_UPDATES).Ok?
  }

  lemma MacAllOpen(s: Fs, root: Ino)
    requires MacOpen(s, root)
    ensures AllOpen(s, root, SystemSteps())
  {
    hide WalkDir, SystemSteps;
    MacSteps();
    forall k, q | 0 <= k < 6 && IsWay(SystemSteps()[k], q) ensures WalkDir(s, root, q).Ok? {}
  }

  /** Nothing else is in the directory at `p`, if there is one. */
  ghost predicate HoldsOnly(s: Fs, root: Ino, p: Path, name: Name) {
    forall n: Name :: Lookup(s, root, p + [n]).Some? ==> n == name
  }

  /** Where a fault-free run of open ways leaves things. */
  ghost predicate MacDone(s0: Fs, s: Fs, root: Ino) {
    && (forall k :: 0 <= k < |MAC_MOVES| ==> Delivered(s0, s, root, MAC_MOVES[k].0, MAC_MOVES[k].1))
    && Lookup(s, root, MAC_UPDATES) == None
    && (Lookup(s, root, MAC_OLD_LOGS) == None <==> HoldsOnly(s0, root, MAC_OLD_LOGS, "updates.log"))
    && forall k :: 0 <= k < |MAC_MADE| ==> NewWith(s0, s, root, MAC_MADE[k], Meta(0, 493))
  }

  /** A list with one entry, or none. */
  function When<T>(b: bool, x: T): seq<T> {
    if b then [x] else []
  }

  predicate Taken(s0: Fs, root: Ino, from: Path, to: Path) {
    Lookup(s0, root, from).Some? && Lookup(s0, root, to).Some?
  }

  predicate Sent(s0: Fs, root: Ino, from: Path, to: Path) {
    Lookup(s0, root, from).Some? && Lookup(s0, root, to) == None
  }

  /** What a move adds to the report. */
  function MoveReport(s0: Fs, root: Ino, from: Path, to: Path): Report {
    Report(When(Sent(s0, root, from, to), Move(from, to)), When(Taken(s0, root, from, to), from), [])
  }

  /** One report after the other. */
  function Listed(reports: seq<Report>): Report {
    if reports == [] then Report([], [], [])
    else Extended(Listed(reports[..|reports| - 1]), reports[|reports| - 1])
  }

  /** What the `k`th step adds: nothing fails, and what goes goes because it is stale, empty or an old download. */
  ghost function MacEntry(s0: Fs, root: Ino, k: nat): Report
    requires k < 6
  {
    if k < 4 then MoveReport(s0, root, MAC_MOVES[k].0, MAC_MOVES[k].1)
    else if k == 4 then
      Report([], When(Lookup(s0, root, MAC_OLD_LOGS).Some? && HoldsOnly(s0, root, MAC_OLD_LOGS, "updates.log"),
                      MAC_OLD_LOGS), [])
    else Report([], When(Lookup(s0, root, MAC_UPDATES).Some?, MAC_UPDATES), [])
  }

  ghost function MacReport(s0: Fs, root: Ino): Report {
    Listed(seq(6, k requires 0 <= k < 6 => MacEntry(s0, root, k)))
  }

  // ------------------------------------------------------------------ the old log directory

  lemma MacRegionSplit(k: nat, q: Path)
    requires k <= 6 && |SystemSteps()| == 6
    ensures Under(AllRegions(SystemSteps()[..k]).put, q) ==> exists i :: 0 <= i < 4 && MAC_MOVES[i].1 <= q
    ensures Under(AllRegions(SystemSteps()[..k]).cut, q) ==>
            || (exists i :: 0 <= i < k && i < 4 && MAC_MOVES[i].0 <= q)
            || (k > 4 && MAC_OLD_LOGS <= q) || (k > 5 && MAC_UPDATES <= q)
    ensures q in AllRegions(SystemSteps()[..k]).made ==> exists i :: 0 <= i < 4 && q <= ParentOf(MAC_MOVES[i].1)
  {
    MacSteps();
    hide SystemSteps, AllRegions, Under, ParentOf;
    var steps := SystemSteps()[..k];
    assert forall i :: 0 <= i < k ==> steps[i] == SystemSteps()[i];
    UnderAll(steps, q);
    MadeAll(steps, q);
  }

  lemma OldLogsApart(n: Name)
    ensures forall i :: 0 <= i < 4 ==> !(MAC_MOVES[i].1 <= MAC_OLD_LOGS + [n]) && !(MAC_MOVES[i].1 <= MAC_OLD_LOGS)
    ensures forall i :: 0 <= i < 4 ==> !(MAC_OLD_LOGS <= ParentOf(MAC_MOVES[i].1))
    ensures forall i :: 0 <= i < 4 ==> !(MAC_OLD_LOGS + [n] <= ParentOf(MAC_MOVES[i].1))
    ensures forall i :: 0 <= i < 4 ==> !(MAC_MOVES[i].0 <= MAC_OLD_LOGS)
    ensures forall i :: 0 <= i < 4 && MAC_MOVES[i].0 <= MAC_OLD_LOGS + [n] ==> n == "updates.log"
    ensures !(MAC_UPDATES <= MAC_OLD_LOGS + [n])
  {
    var p := MAC_OLD_LOGS + [n];
    assert "Library"[0] == 'L' && "private"[0] == 'p';
    forall i | 0 <= i < 4
      ensures MAC_MOVES[i].1[0] == "Library" && ParentOf(MAC_MOVES[i].1)[0] == "Library"
      ensures i < 3 ==> MAC_MOVES[i].0[0] == "Library"
    {
    }
    assert p[0] == "private" && MAC_OLD_LOGS[0] == "private" && p[4] == n;
  }

  /** A path that no earlier step is about, before a step's turn. */
  lemma PathBefore(s0: Fs, s: Fs, root: Ino, steps: seq<Step>, results: seq<Result<Done, Errno>>, marks: seq<Fs>,
                   uid: nat, k: nat, q: Path)
    requires Smooth(s0, s, root, steps, results, marks, uid) && k < |steps|
    requires !Under(AllRegions(steps[..k]).put, q) && !Under(AllRegions(steps[..k]).cut, q)
    requires q !in AllRegions(steps[..k]).made
    ensures |marks| == |steps| + 1 && Lookup(marks[k], root, q) == Lookup(s0, root, q)
  {
    SmoothAt(s0, s, root, steps, results, marks, uid, k);
    hide Smooth, RunKept, Told, Prompt, WellFormed, Open, Idle, Lookup, AllRegions, Under, Pending;
    assert PathEffect(s0, marks[k], root, AllRegions(steps[..k]), q);
  }

  /** Before its turn the old log directory is where it was, with what was in it but the log. */
  lemma OldLogsBefore(s0: Fs, s: Fs, root: Ino, results: seq<Result<Done, Errno>>, marks: seq<Fs>, n: Name)
    requires Smooth(s0, s, root, SystemSteps(), results, marks, 0)
    ensures |marks| == 7 && Lookup(marks[4], root, MAC_OLD_LOGS) == Lookup(s0, root, MAC_OLD_LOGS)
    ensures Lookup(marks[4], root, MAC_OLD_LOGS + [n]) ==
            if n == "updates.log" then None else Lookup(s0, root, MAC_OLD_LOGS + [n])
  {
    hide Smooth, Furnished, Lookup, AllRegions, SystemSteps, Under, ParentOf;
    MacSteps();
    OldLogsApart(n);
    MacRegionSplit(4, MAC_OLD_LOGS);
    PathBefore(s0, s, root, SystemSteps(), results, marks, 0, 4, MAC_OLD_LOGS);
    if n == "updates.log" {
      MoveAnswered(s0, s, root, SystemSteps(), results, marks, 0, 3);
      assert MAC_MOVES[3].0 == MAC_OLD_LOGS + ["updates.log"];
    } else {
      MacRegionSplit(4, MAC_OLD_LOGS + [n]);
      PathBefore(s0, s, root, SystemSteps(), results, marks, 0, 4, MAC_OLD_LOGS + [n]);
    }
  }

  lemma HoldsAt(s: Fs, root: Ino, p: Path)
    requires Lookup(s, root, p).Some?
    ensures (exists n: Name :: Bound(s, Lookup(s, root, p).value, n).Some?) <==>
            exists n: Name :: Lookup(s, root, p + [n]).Some?
  {
    hide Lookup, Bound;
    forall n: Name ensures Lookup(s, root, p + [n]) == Bound(s, Lookup(s, root, p).value, n) {
      LookupLast(s, root, p, n);
    }
  }

  /** Idle, with nothing in the way: the directory is absent or holds something. */
  lemma IdleDir(s: Fs, root: Ino, p: Path)
    requires IsDir(s, root) && Open(s, root, RemoveEmptyDirStep(p))
    ensures Idle(s, root, RemoveEmptyDirStep(p)) <==>
            Lookup(s, root, p) == None || exists n: Name :: Lookup(s, root, p + [n]).Some?
  {
    hide Lookup, WalkDir;
    assert IsWay(RemoveEmptyDirStep(p), p);
    OpenEnd(s, root, p);
    if Lookup(s, root, p).Some? { HoldsAt(s, root, p); }
  }

  /** A directory that loses one entry before its turn. */
  lemma EmptyAnswered(s0: Fs, a: Fs, h: Fs, root: Ino, p: Path, name: Name, r: Result<Done, Errno>, uid: nat)
    requires IsDir(a, root) && Open(a, root, RemoveEmptyDirStep(p)) && p != []
    requires Told(a, h, root, RemoveEmptyDirStep(p), r) && Prompt(a, h, root, RemoveEmptyDirStep(p), r, uid)
    requires Lookup(a, root, p) == Lookup(s0, root, p)
    requires forall n: Name ::
      Lookup(a, root, p + [n]) == if n == name then None else Lookup(s0, root, p + [n])
    ensures r == if Lookup(s0, root, p).Some? && HoldsOnly(s0, root, p, name) then Ok(RemovedIt) else Ok(Nothing)
  {
    hide StepState, WalkDir, Lookup, Open, Idle;
    IdleDir(a, root, p);
    OpenHere(a, root, p);
  }

  lemma OpenHere(s: Fs, root: Ino, p: Path)
    requires Open(s, root, RemoveEmptyDirStep(p))
    ensures WalkDir(s, root, p).Ok?
  {
    assert IsWay(RemoveEmptyDirStep(p), p);
  }

  lemma OldLogsAnswer(s0: Fs, s: Fs, root: Ino, results: seq<Result<Done, Errno>>, marks: seq<Fs>)
    requires Smooth(s0, s, root, SystemSteps(), results, marks, 0)
    ensures |results| == 6
    ensures results[4] ==
            if Lookup(s0, root, MAC_OLD_LOGS).Some? && HoldsOnly(s0, root, MAC_OLD_LOGS, "updates.log")
            then Ok(RemovedIt) else Ok(Nothing)
  {
    MacSteps();
    SmoothAt(s0, s, root, SystemSteps(), results, marks, 0, 4);
    hide Smooth, Standing, Told, Prompt, WellFormed, Lookup, SystemSteps, Idle, Open, RunKept, HoldsOnly;
    forall n: Name
      ensures Lookup(marks[4], root, MAC_OLD_LOGS) == Lookup(s0, root, MAC_OLD_LOGS)
      ensures Lookup(marks[4], root, MAC_OLD_LOGS + [n]) ==
              if n == "updates.log" then None else Lookup(s0, root, MAC_OLD_LOGS + [n])
    {
      OldLogsBefore(s0, s, root, results, marks, n);
    }
    EmptyAnswered(s0, marks[4], marks[5], root, MAC_OLD_LOGS, "updates.log", results[4], 0);
  }

  lemma OldLogsEnd(s0: Fs, s: Fs, root: Ino, results: seq<Result<Done, Errno>>, marks: seq<Fs>)
    requires Smooth(s0, s, root, SystemSteps(), results, marks, 0)
    ensures Lookup(s, root, MAC_OLD_LOGS) == None <==> HoldsOnly(s0, root, MAC_OLD_LOGS, "updates.log")
  {
    hide Smooth, RunKept, Lookup, SystemSteps;
    OldLogsIdle(s0, s, root, results, marks);
    forall n: Name | n != "updates.log"
      ensures Lookup(s0, root, MAC_OLD_LOGS + [n]).Some? <==> Lookup(s, root, MAC_OLD_LOGS + [n]).Some?
    {
      OldLogsOther(s0, s, root, n);
    }
    forall n: Name ensures Lookup(s, root, MAC_OLD_LOGS) == None ==> Lookup(s, root, MAC_OLD_LOGS + [n]) == None {
      LookupLast(s, root, MAC_OLD_LOGS, n);
    }
  }

  lemma OldLogsIdle(s0: Fs, s: Fs, root: Ino, results: seq<Result<Done, Errno>>, marks: seq<Fs>)
    requires Smooth(s0, s, root, SystemSteps(), results, marks, 0)
    ensures Lookup(s, root, MAC_OLD_LOGS) == None || exists n: Name :: Lookup(s, root, MAC_OLD_LOGS + [n]).Some?
    ensures Lookup(s, root, MAC_OLD_LOGS + ["updates.log"]) == None && RunKept(s0, s, root, SystemSteps())
  {
    MacSteps();
    SmoothAt(s0, s, root, SystemSteps(), results, marks, 0, 4);
    MoveDelivers(s0, s, root, SystemSteps(), results, marks, 0, 3);
    hide Smooth, Standing, RunKept, Told, Prompt, WellFormed, Lookup, SystemSteps, Idle, Open;
    IdleDir(s, root, MAC_OLD_LOGS);
    assert MAC_MOVES[3].0 == MAC_OLD_LOGS + ["updates.log"];
  }

  /** What else was in the old log directory is there after the run, and nothing more. */
  lemma OldLogsOther(s0: Fs, s: Fs, root: Ino, n: Name)
    requires RunKept(s0, s, root, SystemSteps()) && n != "updates.log"
    ensures Lookup(s0, root, MAC_OLD_LOGS + [n]).Some? <==> Lookup(s, root, MAC_OLD_LOGS + [n]).Some?
  {
    MacKeptBy(s0, s, root);
    hide MoveKept, Lookup, SameTree, AllRegions, SystemSteps, Under, EndsKept, MacAside, ParentOf;
    MacKeeps(n);
    assert MAC_OLD_LOGS + [n] == ["private", "var", "log", "gnosisvpn", n];
    MacSteps();
    OldLogsApart(n);
    MacRegionSplit(6, MAC_OLD_LOGS + [n]);
    assert SystemSteps()[..6] == SystemSteps();
    assert PathEffect(s0, s, root, AllRegions(SystemSteps()), MAC_OLD_LOGS + [n]);
  }

  // ------------------------------------------------------------------ all of it

  lemma MacUpdatesGone(s0: Fs, s: Fs, root: Ino, results: seq<Result<Done, Errno>>, marks: seq<Fs>)
    requires Smooth(s0, s, root, SystemSteps(), results, marks, 0)
    ensures Lookup(s, root, MAC_UPDATES) == None && |results| == 6
    ensures results[5] == if Lookup(s0, root, MAC_UPDATES).Some? then Ok(RemovedIt) else Ok(Nothing)
  {
    MacSteps();
    hide Smooth, Lookup, SystemSteps, AllRegions;
    UpdatesClear();
    TreeGone(s0, s, root, SystemSteps(), results, marks, 0, 5);
  }

  lemma UpdatesClear()
    ensures |SystemSteps()| == 6 && Clear(AllRegions(SystemSteps()[..5]), MAC_UPDATES)
    ensures MAC_UPDATES !in AllRegions(SystemSteps()[..5]).made
  {
    MacSteps();
    var p, steps := MAC_UPDATES, SystemSteps()[..5];
    assert "Library"[0] == 'L' && "private"[0] == 'p';
    assert "Application Support" != "Logs" && "installer" != "updates";
    forall i | 0 <= i < 4 ensures Unrelated(MAC_MOVES[i].0, p) && Unrelated(MAC_MOVES[i].1, p) {
      if i < 3 {
        Fork(MAC_MOVES[i].0, p, 1);
        Fork(MAC_MOVES[i].1, p, 3);
      } else {
        Fork(MAC_MOVES[i].0, p, 0);
        Fork(MAC_MOVES[i].1, p, 1);
      }
    }
    Fork(MAC_OLD_LOGS, p, 0);
    hide SystemSteps, MadeBy, Unrelated, ParentOf;
    forall c | c in AllRegions(steps).cut || c in AllRegions(steps).put ensures Unrelated(c, p) {
      var i :| 0 <= i < |steps| && (c in RegionOf(steps[i]).cut || c in RegionOf(steps[i]).put);
      assert steps[i] == SystemSteps()[i];
    }
    forall m | p <= m ensures m !in AllRegions(steps).made {
      MacRegionSplit(5, m);
      if m in AllRegions(steps).made {
        var i :| 0 <= i < 4 && m <= ParentOf(MAC_MOVES[i].1);
        UpdatesNotAbove(i, m);
      }
    }
  }

  lemma UpdatesNotAbove(i: nat, m: Path)
    requires i < 4 && MAC_UPDATES <= m
    ensures !(m <= ParentOf(MAC_MOVES[i].1))
  {
    assert "Application Support" != "Logs" && "installer" != "updates";
    assert i < 3 ==> ParentOf(MAC_MOVES[i].1)[3] == "installer";
    assert i == 3 ==> |ParentOf(MAC_MOVES[i].1)| == 3;
  }

  lemma MacMadeApart(i: nat)
    requires i < |MAC_MADE|
    ensures |SystemSteps()| == 6 && AsksFor(SystemSteps(), MAC_MADE[i], 493) && MAC_MADE[i] != []
    ensures !Under(AllRegions(SystemSteps()).put, MAC_MADE[i]) && !Under(AllRegions(SystemSteps()).cut, MAC_MADE[i])
  {
    MacSteps();
    hide SystemSteps, AllRegions, Under, ParentOf;
    var q := MAC_MADE[i];
    MacRegionSplit(6, q);
    assert SystemSteps()[..6] == SystemSteps();
    assert "Library"[0] == 'L' && "private"[0] == 'p';
    assert "Application Support" != "Logs" && "installer" != "updates";
    assert q[0] == "Library" && |q| <= 4 && (|q| == 4 ==> q[1] == "Application Support" && q[3] == "installer");
  }

  lemma MacResult(s0: Fs, s: Fs, root: Ino, results: seq<Result<Done, Errno>>, marks: seq<Fs>)
    requires Smooth(s0, s, root, SystemSteps(), results, marks, 0)
    ensures MacDone(s0, s, root)
  {
    MacSteps();
    hide Smooth, Lookup, SystemSteps, Delivered, NewWith, HoldsOnly, AsksFor, Under, AllRegions, ParentOf;
    forall k | 0 <= k < |MAC_MOVES| ensures Delivered(s0, s, root, MAC_MOVES[k].0, MAC_MOVES[k].1) {
      MoveDelivers(s0, s, root, SystemSteps(), results, marks, 0, k);
    }
    MacUpdatesGone(s0, s, root, results, marks);
    OldLogsEnd(s0, s, root, results, marks);
    forall k | 0 <= k < |MAC_MADE| ensures NewWith(s0, s, root, MAC_MADE[k], Meta(0, 493)) {
      MacMadeApart(k);
      NewWithAt(s0, s, root, SystemSteps(), results, marks, 0, 6, MAC_MADE[k], 493);
      SmoothStart(s0, s, root, SystemSteps(), results, marks, 0);
    }
  }

  lemma MoveEntry(s0: Fs, root: Ino, step: Step)
    requires step.MoveStep?
    ensures ReportOf([step], [MoveAnswer(s0, root, step.from, step.to)]) == MoveReport(s0, root, step.from, step.to)
  {
    hide Lookup;
    OneReport(step, MoveAnswer(s0, root, step.from, step.to));
  }

  lemma CutEntry(step: Step, gone: bool)
    ensures ReportOf([step], [if gone then Ok(RemovedIt) else Ok(Nothing)]) == Report([], When(gone, Key(step)), [])
  {
    OneReport(step, if gone then Ok(RemovedIt) else Ok(Nothing));
  }

  /** A run's report is those of its steps, one after the other. */
  lemma {:induction false} ReportsListed(steps: seq<Step>, results: seq<Result<Done, Errno>>, e: seq<Report>)
    requires |steps| == |results| == |e|
    requires forall k :: 0 <= k < |e| ==> ReportOf([steps[k]], [results[k]]) == e[k]
    ensures ReportOf(steps, results) == Listed(e)
  {
    if e != [] {
      var n := |e| - 1;
      ReportsListed(steps[..n], results[..n], e[..n]);
      ReportConcat(steps[..n], results[..n], [steps[n]], [results[n]]);
      assert steps == steps[..n] + [steps[n]] && results == results[..n] + [results[n]];
    }
  }

  lemma MacEntered(s0: Fs, s: Fs, root: Ino, results: seq<Result<Done, Errno>>, marks: seq<Fs>, k: nat)
    requires Smooth(s0, s, root, SystemSteps(), results, marks, 0) && k < 6
    ensures |results| == |SystemSteps()| == 6
    ensures ReportOf([SystemSteps()[k]], [results[k]]) == MacEntry(s0, root, k)
  {
    MacSteps();
    hide Smooth, Lookup, SystemSteps, ReportOf, HoldsOnly, Furnished, MoveAnswer, MoveReport, ParentOf, When;
    if k < 4 {
      MoveAnswered(s0, s, root, SystemSteps(), results, marks, 0, k);
      MoveEntry(s0, root, SystemSteps()[k]);
    } else if k == 4 {
      OldLogsAnswer(s0, s, root, results, marks);
      CutEntry(SystemSteps()[4],
               Lookup(s0, root, MAC_OLD_LOGS).Some? && HoldsOnly(s0, root, MAC_OLD_LOGS, "updates.log"));
    } else {
      MacUpdatesGone(s0, s, root, results, marks);
      CutEntry(SystemSteps()[5], Lookup(s0, root, MAC_UPDATES).Some?);
    }
  }

  lemma MacReported(s0: Fs, s: Fs, root: Ino, results: seq<Result<Done, Errno>>, marks: seq<Fs>)
    requires Smooth(s0, s, root, SystemSteps(), results, marks, 0)
    ensures |results| == |SystemSteps()| && ReportOf(SystemSteps(), results) == MacReport(s0, root)
  {
    hide Smooth, SystemSteps, ReportOf, MacEntry, Listed;
    MacEntered(s0, s, root, results, marks, 0);
    var e := seq(6, k requires 0 <= k < 6 => MacEntry(s0, root, k));
    forall k | 0 <= k < 6 ensures ReportOf([SystemSteps()[k]], [results[k]]) == e[k] {
      MacEntered(s0, s, root, results, marks, k);
    }
    ReportsListed(SystemSteps(), results, e);
  }

  // ------------------------------------------------------------------ a user's files on Linux

  const LINUX_MOVES: seq<(Path, Path)> :=
    [([".local", "share", "com.gnosisvpn.gnosisvpnclient", "settings.json"],
      [".config", "com.gnosisvpn.gnosisvpnclient", "settings.json"]),
     ([".local", "share", "com.gnosisvpn.gnosisvpnclient", "logs"],
      [".local", "state", "com.gnosisvpn.gnosisvpnclient"])]

  /** Directories a run may make, with their modes. */
  const LINUX_MADE: seq<(Path, nat)> :=
    [([".config"], 493), ([".config", "com.gnosisvpn.gnosisvpnclient"], 448), ([".local"], 493),
     ([".local", "state"], 493)]

  lemma LinuxSteps()
    ensures |UserSteps()| == 2
    ensures UserSteps()[0] == MoveStep(LINUX_MOVES[0].0, LINUX_MOVES[0].1, [LINUX_MADE[0], LINUX_MADE[1]])
    ensures UserSteps()[1] == MoveStep(LINUX_MOVES[1].0, LINUX_MOVES[1].1, [LINUX_MADE[2], LINUX_MADE[3]])
    ensures LINUX_MADE[0].0 <= LINUX_MADE[1].0 && LINUX_MADE[1].0 == ParentOf(LINUX_MOVES[0].1)
    ensures LINUX_MADE[2].0 <= LINUX_MADE[3].0 && LINUX_MADE[3].0 == ParentOf(LINUX_MOVES[1].1)
  {
  }

  /** What a Linux run is not about. */
  predicate LinuxAside(p: Path) {
    forall k :: 0 <= k < |LINUX_MOVES| ==> Unrelated(LINUX_MOVES[k].0, p) && Unrelated(LINUX_MOVES[k].1, p)
  }

  /** The user's identity on both its sides, and what else lies beside the app's files. */
  lemma LinuxKeeps(name: Name)
    ensures LinuxAside([".local", "share", "gnosisvpn"]) && LinuxAside([".cache", "gnosisvpn"])
    ensures name != "com.gnosisvpn.gnosisvpnclient" ==>
      LinuxAside([".local", "share", name]) && LinuxAside([".local", "state", name]) && LinuxAside([".config", name])
    ensures name != "settings.json" && name != "logs" ==>
      LinuxAside([".local", "share", "com.gnosisvpn.gnosisvpnclient", name])
  {
    var app := "com.gnosisvpn.gnosisvpnclient";
    assert |app| == 29 && |"gnosisvpn"| == 9;
    assert ".local"[1] == 'l' && ".cache"[2] == 'a' && ".config"[2] == 'o';
    assert "share"[1] == 'h' && "state"[1] == 't';
    LinuxForks([".local", "share", "gnosisvpn"], 2, 0, 2, 1);
    LinuxForks([".cache", "gnosisvpn"], 0, 0, 0, 0);
    if name != app {
      LinuxForks([".local", "share", name], 2, 0, 2, 1);
      LinuxForks([".local", "state", name], 1, 0, 1, 2);
      LinuxForks([".config", name], 0, 1, 0, 0);
    }
    if name != "settings.json" && name != "logs" { LinuxForks([".local", "share", app, name], 3, 0, 3, 1); }
  }

  lemma LinuxForks(p: Path, a: nat, b: nat, c: nat, d: nat)
    requires a < |p| && b < |p| && c < |p| && d < |p| && a < 4 && b < 3 && c < 4 && d < 3
    requires LINUX_MOVES[0].0[a] != p[a] && LINUX_MOVES[0].1[b] != p[b]
    requires LINUX_MOVES[1].0[c] != p[c] && LINUX_MOVES[1].1[d] != p[d]
    ensures LinuxAside(p)
  {
    Fork(LINUX_MOVES[0].0, p, a);
    Fork(LINUX_MOVES[0].1, p, b);
    Fork(LINUX_MOVES[1].0, p, c);
    Fork(LINUX_MOVES[1].1, p, d);
  }

  lemma LinuxSpared(p: Path)
    requires LinuxAside(p)
    ensures AllSpare(UserSteps(), p)
  {
    LinuxSteps();
    hide UserSteps, ParentOf;
    forall k | 0 <= k < 2 ensures Spares(UserSteps()[k], p) {
      var step := UserSteps()[k];
      assert step.from == LINUX_MOVES[k].0 && step.to == LINUX_MOVES[k].1;
      forall m | m in MadeBy(step.parents) ensures !(p <= m) {
        assert m <= step.parents[0].0 || m <= step.parents[1].0;
        MadeAbove(k, m, p);
      }
    }
  }

  lemma MadeAbove(k: nat, m: Path, p: Path)
    requires k < 2 && m <= LINUX_MADE[2 * k + 1].0 && LinuxAside(p)
    ensures !(p <= m)
  {
    LinuxSteps();
    assert ParentOf(LINUX_MOVES[k].1) <= LINUX_MOVES[k].1;
    assert m <= LINUX_MOVES[k].1;
  }

  /** In particular both sides of the user's identity stay where they are, with their trees. */
  ghost predicate LinuxKept(s0: Fs, h: Fs, home: Ino) {
    && (forall k :: 0 <= k < |LINUX_MOVES| ==> EndsKept(s0, h, home, LINUX_MOVES[k].0, LINUX_MOVES[k].1))
    && (forall p :: LinuxAside(p) ==> DestKept(s0, h, home, p))
    && DestKept(s0, h, home, [".local", "share", "gnosisvpn"]) && DestKept(s0, h, home, [".cache", "gnosisvpn"])
  }

  lemma LinuxKeptBy(s0: Fs, h: Fs, home: Ino)
    requires RunKept(s0, h, home, UserSteps())
    ensures LinuxKept(s0, h, home)
  {
    hide DestKept, SourceKept, NoneKept, AllRegions, Effect, UserSteps, LinuxAside, AllSpare, ParentOf;
    LinuxSteps();
    forall p | LinuxAside(p) ensures DestKept(s0, h, home, p) { LinuxSpared(p); }
    forall k | 0 <= k < |LINUX_MOVES| ensures EndsKept(s0, h, home, LINUX_MOVES[k].0, LINUX_MOVES[k].1) {
      assert MoveKept(s0, h, home, UserSteps()[k]);
    }
    LinuxKeeps("");
  }

  ghost predicate LinuxOpen(s: Fs, home: Ino) {
    forall k :: 0 <= k < |LINUX_MOVES| ==>
      WalkDir(s, home, ParentOf(LINUX_MOVES[k].0)).Ok? && WalkDir(s, home, ParentOf(LINUX_MOVES[k].1)).Ok?
  }

  lemma LinuxAllOpen(s: Fs, home: Ino)
    requires IsDir(s, home) && LinuxOpen(s, home)
    ensures AllOpen(s, home, UserSteps())
  {
    hide WalkDir, UserSteps, ParentOf;
    LinuxSteps();
    PrefixUnblocked(s, home, LINUX_MADE[0].0, LINUX_MADE[1].0);
    PrefixUnblocked(s, home, LINUX_MADE[2].0, LINUX_MADE[3].0);
    forall k, q | 0 <= k < 2 && IsWay(UserSteps()[k], q) ensures WalkDir(s, home, q).Ok? {}
  }

  ghost predicate LinuxDone(s0: Fs, s: Fs, home: Ino, uid: nat) {
    && (forall k :: 0 <= k < |LINUX_MOVES| ==> Delivered(s0, s, home, LINUX_MOVES[k].0, LINUX_MOVES[k].1))
    && forall k :: 0 <= k < |LINUX_MADE| ==> NewWith(s0, s, home, LINUX_MADE[k].0, Meta(uid, LINUX_MADE[k].1))
  }

  lemma LinuxMadeApart(i: nat)
    requires i < |LINUX_MADE|
    ensures AsksFor(UserSteps(), LINUX_MADE[i].0, LINUX_MADE[i].1) && LINUX_MADE[i].0 != []
    ensures !Under(AllRegions(UserSteps()).put, LINUX_MADE[i].0) && !Under(AllRegions(UserSteps()).cut, LINUX_MADE[i].0)
  {
    LinuxSteps();
    hide UserSteps, AllRegions, Under, ParentOf;
    var q, steps := LINUX_MADE[i].0, UserSteps();
    assert ".local"[1] == 'l' && ".config"[2] == 'o';
    UnderAll(steps, q);
    forall k | 0 <= k < 2 && Covered(steps[k].parents, q) ensures ModeAt(steps[k].parents, q) == LINUX_MADE[i].1 {
      LinuxMode(k, i);
    }
  }

  lemma LinuxMode(k: nat, i: nat)
    requires k < 2 && i < 4
    ensures var parents := [LINUX_MADE[2 * k], LINUX_MADE[2 * k + 1]];
            Covered(parents, LINUX_MADE[i].0) ==> ModeAt(parents, LINUX_MADE[i].0) == LINUX_MADE[i].1
  {
    var parents := [LINUX_MADE[2 * k], LINUX_MADE[2 * k + 1]];
    var q := LINUX_MADE[i].0;
    assert ".local"[1] == 'l' && ".config"[2] == 'o';
    assert parents[1..] == [parents[1]];
    assert q[0] == (if i < 2 then ".config" else ".local") && |q| == 1 + i % 2;
    assert parents[0].0[0] == parents[1].0[0] == (if k == 0 then ".config" else ".local");
    if Covered(parents, q) {
      var j :| 0 <= j < |parents| && q <= parents[j].0;
      assert q[0] == parents[j].0[0];
    }
  }

  function LinuxReport(s0: Fs, home: Ino): Report {
    Listed([MoveReport(s0, home, LINUX_MOVES[0].0, LINUX_MOVES[0].1),
            MoveReport(s0, home, LINUX_MOVES[1].0, LINUX_MOVES[1].1)])
  }

  lemma LinuxResult(s0: Fs, s: Fs, home: Ino, results: seq<Result<Done, Errno>>, marks: seq<Fs>, uid: nat)
    requires Smooth(s0, s, home, UserSteps(), results, marks, uid)
    ensures LinuxDone(s0, s, home, uid)
  {
    LinuxSteps();
    hide Smooth, Lookup, UserSteps, Delivered, NewWith, AsksFor, Under, AllRegions, ParentOf;
    forall k | 0 <= k < 2 ensures Delivered(s0, s, home, LINUX_MOVES[k].0, LINUX_MOVES[k].1) {
      MoveDelivers(s0, s, home, UserSteps(), results, marks, uid, k);
    }
    forall k | 0 <= k < 4 ensures NewWith(s0, s, home, LINUX_MADE[k].0, Meta(uid, LINUX_MADE[k].1)) {
      LinuxMadeApart(k);
      NewWithAt(s0, s, home, UserSteps(), results, marks, uid, 2, LINUX_MADE[k].0, LINUX_MADE[k].1);
      SmoothStart(s0, s, home, UserSteps(), results, marks, uid);
    }
  }

  lemma LinuxEntered(s0: Fs, s: Fs, home: Ino, results: seq<Result<Done, Errno>>, marks: seq<Fs>, uid: nat, k: nat)
    requires Smooth(s0, s, home, UserSteps(), results, marks, uid) && k < 2
    ensures |results| == |UserSteps()| == 2
    ensures ReportOf([UserSteps()[k]], [results[k]]) ==
            MoveReport(s0, home, LINUX_MOVES[k].0, LINUX_MOVES[k].1)
  {
    LinuxSteps();
    hide Smooth, Lookup, UserSteps, ReportOf, Furnished, MoveAnswer, MoveReport, ParentOf, When;
    MoveAnswered(s0, s, home, UserSteps(), results, marks, uid, k);
    MoveEntry(s0, home, UserSteps()[k]);
  }

  lemma LinuxReported(s0: Fs, s: Fs, home: Ino, results: seq<Result<Done, Errno>>, marks: seq<Fs>, uid: nat)
    requires Smooth(s0, s, home, UserSteps(), results, marks, uid)
    ensures |results| == |UserSteps()| && ReportOf(UserSteps(), results) == LinuxReport(s0, home)
  {
    hide Smooth, UserSteps, ReportOf, MoveReport, Listed;
    LinuxEntered(s0, s, home, results, marks, uid, 0);
    LinuxEntered(s0, s, home, results, marks, uid, 1);
    ReportsListed(UserSteps(), results, [MoveReport(s0, home, LINUX_MOVES[0].0, LINUX_MOVES[0].1),
                                         MoveReport(s0, home, LINUX_MOVES[1].0, LINUX_MOVES[1].1)]);
  }

  // ------------------------------------------------------------------ the command

  datatype Platform = MacOs | Linux

  /** The user a run is asked to look after, as far as the account could be resolved. */
  datatype Whose = Nobodys | Unresolved | Users(home: Option<Ino>, uid: nat)

  datatype Unfit = UserUnknown | RootUnopened

  /** What every state of a run keeps. */
  ghost predicate LayoutKept(s0: Fs, h: Fs, platform: Platform, slash: Option<Ino>, user: Whose) {
    && (platform.MacOs? && slash.Some? ==> MacKept(s0, h, slash.value))
    && (platform.Linux? && user.Users? && user.home.Some? ==> LinuxKept(s0, h, user.home.value))
    && (platform.Linux? && (!user.Users? || user.home == None) ==> h == s0)
    && (platform.MacOs? && slash == None ==> h == s0)
  }

  /** The system-wide steps, then the user's; either list is empty on the other platform. A step that fails is only
      reported. */
  method RunLayout(fs: FileSystem, platform: Platform, slash: Option<Ino>, user: Whose)
    returns (r: Result<Report, Unfit>)
    requires fs.Valid()
    modifies fs
    ensures fs.Ran()
    ensures forall k :: old(|fs.history|) <= k < |fs.history| ==>
      LayoutKept(old(fs.st), fs.history[k], platform, slash, user)
    ensures r == Err(UserUnknown) ==> user == Unresolved
    ensures r.Ok? && r.value.failed == [] ==> fs.faults == old(fs.faults)
    ensures fs.faults == old(fs.faults) && slash.Some? && IsDir(old(fs.st), slash.value) ==>
      && (user == Nobodys ==> r.Ok?)
      && (user == Unresolved ==> r == Err(UserUnknown))
      && (user.Users? && user.home.Some? && IsDir(old(fs.st), user.home.value) ==> r.Ok?)
    ensures fs.faults == old(fs.faults) && platform.MacOs? && slash.Some? && IsDir(old(fs.st), slash.value) ==>
      MacOpen(old(fs.st), slash.value) ==>
      && MacDone(old(fs.st), fs.st, slash.value)
      && (r.Ok? ==> r.value == MacReport(old(fs.st), slash.value))
    ensures fs.faults == old(fs.faults) && r.Ok? && platform.Linux? && user.Users? && user.home.Some? ==>
      LinuxOpen(old(fs.st), user.home.value) ==>
      && LinuxDone(old(fs.st), fs.st, user.home.value, user.uid)
      && r.value == LinuxReport(old(fs.st), user.home.value)
    ensures r.Ok? && platform.Linux? && !user.Users? ==> r.value == Report([], [], [])
  {
    hide ValidFs, RunKept, SystemSteps, UserSteps, ReportOf, Story, Stood, Prompted, AllIdle, Orderly, MacKept,
        LinuxKept, MacDone, LinuxDone, MacReport, LinuxReport, MacOpen, LinuxOpen;
    ghost var s0 := fs.st;
    ghost var results, marks;
    var system, users, report;
    SystemStepsOrderly();
    UserStepsOrderly();
    system, results, marks := Run(fs, slash, if platform.MacOs? then SystemSteps() else [], 0);
    if system.Err? { return Err(RootUnopened); }
    report := system.value;
    if platform.Linux? { NothingReported(s0, fs.st, slash.value, results, marks); }
    if platform.MacOs? {
      forall h: Fs | RunKept(s0, h, slash.value, SystemSteps()) ensures MacKept(s0, h, slash.value) {
        MacKeptBy(s0, h, slash.value);
      }
      DirsKept(s0, fs.st, slash.value, SystemSteps());
      if fs.faults == old(fs.faults) && MacOpen(s0, slash.value) {
        MacSmooth(s0, fs.st, slash.value, results, marks);
      }
    }
    if user == Nobodys { return Ok(report); }
    if user == Unresolved { return Err(UserUnknown); }
    ghost var s1 := fs.st;
    users, results, marks := Run(fs, user.home, if platform.Linux? then UserSteps() else [], user.uid);
    if users.Err? { return Err(RootUnopened); }
    if platform.Linux? {
      forall h: Fs | RunKept(s1, h, user.home.value, UserSteps()) ensures LinuxKept(s1, h, user.home.value) {
        LinuxKeptBy(s1, h, user.home.value);
      }
      if fs.faults == old(fs.faults) && LinuxOpen(s1, user.home.value) {
        LinuxSmooth(s1, fs.st, user.home.value, results, marks, user.uid);
      }
    }
    if platform.MacOs? { NothingReported(s1, fs.st, user.home.value, results, marks); }
    report := Extended(report, users.value);
    r := Ok(report);
  }

  lemma NothingReported(s0: Fs, s: Fs, root: Ino, results: seq<Result<Done, Errno>>, marks: seq<Fs>)
    requires Story(s0, s, root, [], results, marks)
    ensures |results| == 0 && ReportOf([], results) == Report([], [], [])
    ensures forall other :: Extended(other, Report([], [], [])) == other && Extended(Report([], [], []), other) == other
  {
  }

  lemma DirsKept(s0: Fs, s: Fs, root: Ino, steps: seq<Step>)
    requires RunKept(s0, s, root, steps)
    ensures forall i: Ino :: IsDir(s0, i) ==> IsDir(s, i)
  {
    hide MoveKept, DestKept, AllSpare, AllRegions;
  }

  lemma MacSmooth(s0: Fs, s: Fs, root: Ino, results: seq<Result<Done, Errno>>, marks: seq<Fs>)
    requires ValidFs(s0) && IsDir(s0, root) && MacOpen(s0, root) && Story(s0, s, root, SystemSteps(), results, marks)
    requires Orderly(SystemSteps())
    requires Stood(s0, root, SystemSteps(), marks) && Prompted(root, SystemSteps(), results, marks, 0)
    requires AllIdle(s, root, SystemSteps())
    ensures MacDone(s0, s, root) && |results| == |SystemSteps()|
    ensures ReportOf(SystemSteps(), results) == MacReport(s0, root)
  {
    hide ValidFs, SystemSteps, ReportOf, Story, Stood, Prompted, AllIdle, Orderly, MacDone, MacReport, MacOpen, AllOpen;
    MacAllOpen(s0, root);
    MacResult(s0, s, root, results, marks);
    MacReported(s0, s, root, results, marks);
  }

  lemma LinuxSmooth(s0: Fs, s: Fs, home: Ino, results: seq<Result<Done, Errno>>, marks: seq<Fs>, uid: nat)
    requires ValidFs(s0) && IsDir(s0, home) && LinuxOpen(s0, home) && Story(s0, s, home, UserSteps(), results, marks)
    requires Orderly(UserSteps())
    requires Stood(s0, home, UserSteps(), marks) && Prompted(home, UserSteps(), results, marks, uid)
    requires AllIdle(s, home, UserSteps())
    ensures LinuxDone(s0, s, home, uid) && |results| == |UserSteps()|
    ensures ReportOf(UserSteps(), results) == LinuxReport(s0, home)
  {
    hide ValidFs, UserSteps, ReportOf, Story, Stood, Prompted, AllIdle, Orderly, LinuxDone, LinuxReport, LinuxOpen,
        AllOpen;
    LinuxAllOpen(s0, home);
    LinuxResult(s0, s, home, results, marks, uid);
    LinuxReported(s0, s, home, results, marks, uid);
  }
}
