/** Version order, channels and the decisions taken from them: the install gate, the check and the end of life. */
module Versions {
  import opened Decimals
  import opened Kernel

  datatype Ordering = Less | Equal | Greater

  datatype Channel = Stable | Snapshot | Experimental

  // ------------------------------------------------------------------ components

  predicate IsSeparator(c: char) {
    c == '.' || c == '-' || c == '+'
  }

  /** The pieces between separators; there is always one. */
  function Pieces(s: string): (r: seq<string>)
    ensures |r| > 0
  {
    if s == "" then [""]
    else
      var rest := Pieces(s[1..]);
      if IsSeparator(s[0]) then [""] + rest else [[s[0]] + rest[0]] + rest[1..]
  }

  const U64_MAX: nat := 18446744073709551615

  /** Anything that is no 64-bit number counts as zero. */
  function Component(s: string): nat {
    if s != "" && AllDigits(s) && Numeral(s) <= U64_MAX then Numeral(s) else 0
  }

  function Components(s: string): seq<nat> {
    var pieces := Pieces(s);
    seq(|pieces|, i requires 0 <= i < |pieces| => Component(pieces[i]))
  }

  // ------------------------------------------------------------------ the order

  /** A component, or zero past the end. */
  function At(p: seq<nat>, i: nat): nat {
    if i < |p| then p[i] else 0
  }

  function CompareNat(x: nat, y: nat): Ordering {
    if x < y then Less else if x > y then Greater else Equal
  }

  function Longer(a: seq<nat>, b: seq<nat>): nat {
    if |a| < |b| then |b| else |a|
  }

  function CompareFrom(a: seq<nat>, b: seq<nat>, i: nat): Ordering
    decreases Longer(a, b) - i
  {
    if i >= Longer(a, b) then Equal
    else if At(a, i) != At(b, i) then CompareNat(At(a, i), At(b, i))
    else CompareFrom(a, b, i + 1)
  }

  function Compare(a: string, b: string): Ordering {
    CompareFrom(Components(a), Components(b), 0)
  }

  /** At the first difference `a` has the smaller component. */
  ghost predicate Before(a: seq<nat>, b: seq<nat>) {
    exists k: nat :: FirstDiffers(a, b, k) && At(a, k) < At(b, k)
  }

  ghost predicate FirstDiffers(a: seq<nat>, b: seq<nat>, k: nat) {
    At(a, k) != At(b, k) && forall i: nat :: i < k ==> At(a, i) == At(b, i)
  }

  ghost predicate Agree(a: seq<nat>, b: seq<nat>) {
    forall i: nat :: At(a, i) == At(b, i)
  }

  method CompareComponents(x: string, y: string) returns (r: Ordering)
    ensures r == Compare(x, y)
    ensures r == Less <==> Before(Components(x), Components(y))
    ensures r == Greater <==> Before(Components(y), Components(x))
    ensures r == Equal <==> Agree(Components(x), Components(y))
  {
    var a, b := Components(x), Components(y);
    CompareMeans(a, b);
    var n := Longer(a, b);
    for i := 0 to n
      invariant forall j: nat :: j < i ==> At(a, j) == At(b, j)
      invariant CompareFrom(a, b, 0) == CompareFrom(a, b, i)
    {
      var av, bv := At(a, i), At(b, i);
      if CompareNat(av, bv) != Equal { return CompareNat(av, bv); }
    }
    r := Equal;
  }

  lemma {:induction false} CompareFromMeans(a: seq<nat>, b: seq<nat>, i: nat)
    requires i <= Longer(a, b) && forall j: nat :: j < i ==> At(a, j) == At(b, j)
    ensures CompareFrom(a, b, i) == Less <==> Before(a, b)
    ensures CompareFrom(a, b, i) == Greater <==> Before(b, a)
    ensures CompareFrom(a, b, i) == Equal <==> Agree(a, b)
    decreases Longer(a, b) - i
  {
    if i == Longer(a, b) {
      assert Agree(a, b);
    } else if At(a, i) != At(b, i) {
      assert FirstDiffers(a, b, i) && FirstDiffers(b, a, i);
      forall k: nat | FirstDiffers(a, b, k) || FirstDiffers(b, a, k) ensures k == i { }
    } else {
      CompareFromMeans(a, b, i + 1);
    }
  }

  lemma CompareMeans(a: seq<nat>, b: seq<nat>)
    ensures CompareFrom(a, b, 0) == Less <==> Before(a, b)
    ensures CompareFrom(a, b, 0) == Greater <==> Before(b, a)
    ensures CompareFrom(a, b, 0) == Equal <==> Agree(a, b)
  {
    CompareFromMeans(a, b, 0);
  }

  lemma Reflexive(a: string)
    ensures Compare(a, a) == Equal
  {
    CompareMeans(Components(a), Components(a));
  }

  function Flipped(o: Ordering): Ordering {
    match o case Less => Greater case Equal => Equal case Greater => Less
  }

  lemma SignSymmetric(a: string, b: string)
    ensures Compare(b, a) == Flipped(Compare(a, b))
  {
    CompareMeans(Components(a), Components(b));
    CompareMeans(Components(b), Components(a));
    assert Agree(Components(a), Components(b)) <==> Agree(Components(b), Components(a));
  }

  /** The earlier of two first differences decides. */
  lemma FirstOfTwo(a: seq<nat>, b: seq<nat>, c: seq<nat>, k: nat, m: nat)
    requires FirstDiffers(a, b, k) && At(a, k) < At(b, k)
    requires FirstDiffers(b, c, m) && At(b, m) < At(c, m)
    ensures Before(a, c)
  {
    hide At;
    var n := if k < m then k else m;
    forall i: nat | i < n ensures At(a, i) == At(c, i) {
      assert At(a, i) == At(b, i) && At(b, i) == At(c, i);
    }
    assert FirstDiffers(a, c, n);
  }

  lemma BeforeAgrees(a: seq<nat>, b: seq<nat>, c: seq<nat>)
    ensures Before(a, b) && Agree(b, c) ==> Before(a, c)
    ensures Agree(a, b) && Before(b, c) ==> Before(a, c)
  {
    hide At;
    if Before(a, b) && Agree(b, c) {
      var k: nat :| FirstDiffers(a, b, k) && At(a, k) < At(b, k);
      assert FirstDiffers(a, c, k);
    }
    if Agree(a, b) && Before(b, c) {
      var k: nat :| FirstDiffers(b, c, k) && At(b, k) < At(c, k);
      assert FirstDiffers(a, c, k);
    }
  }

  lemma BeforeTrans(a: seq<nat>, b: seq<nat>, c: seq<nat>)
    requires (Before(a, b) || Agree(a, b)) && (Before(b, c) || Agree(b, c))
    ensures Before(a, c) || Agree(a, c)
    ensures Before(a, b) || Before(b, c) ==> Before(a, c)
  {
    hide At, FirstDiffers;
    BeforeAgrees(a, b, c);
    if Before(a, b) && Before(b, c) {
      var k: nat :| FirstDiffers(a, b, k) && At(a, k) < At(b, k);
      var m: nat :| FirstDiffers(b, c, m) && At(b, m) < At(c, m);
      FirstOfTwo(a, b, c, k, m);
    }
  }

  /** Across all lengths: not after and not after is not after, and strictly so if either step is. */
  lemma Transitive(a: string, b: string, c: string)
    requires Compare(a, b) != Greater && Compare(b, c) != Greater
    ensures Compare(a, c) != Greater
    ensures Compare(a, c) == Equal <==> Compare(a, b) == Equal && Compare(b, c) == Equal
  {
    var p, q, r := Components(a), Components(b), Components(c);
    CompareMeans(p, q);
    CompareMeans(q, r);
    CompareMeans(p, r);
    CompareMeans(r, p);
    BeforeTrans(p, q, r);
    SignSymmetric(a, c);
  }

  /** The components without trailing zeros. */
  function Trimmed(p: seq<nat>): (t: seq<nat>)
    ensures t <= p && (t != [] ==> t[|t| - 1] != 0) && forall i :: |t| <= i < |p| ==> p[i] == 0
  {
    if p != [] && p[|p| - 1] == 0 then Trimmed(p[..|p| - 1]) else p
  }

  /** Equal exactly when the components agree up to trailing zeros. */
  lemma EqualIsTrimmed(a: string, b: string)
    ensures Compare(a, b) == Equal <==> Trimmed(Components(a)) == Trimmed(Components(b))
  {
    hide Components, CompareFrom;
    CompareMeans(Components(a), Components(b));
    AgreeIsTrimmed(Components(a), Components(b));
  }

  lemma AgreeIsTrimmed(p: seq<nat>, q: seq<nat>)
    ensures Agree(p, q) <==> Trimmed(p) == Trimmed(q)
  {
    TrimmedAgrees(p);
    TrimmedAgrees(q);
    hide Trimmed;
    var s, t := Trimmed(p), Trimmed(q);
    if Agree(p, q) {
      assert forall i: nat :: At(s, i) == At(t, i);
      if s != [] { assert At(s, |s| - 1) == At(t, |s| - 1); }
      if t != [] { assert At(t, |t| - 1) == At(s, |t| - 1); }
      assert |s| == |t| && forall i :: 0 <= i < |s| ==> s[i] == At(s, i) && t[i] == At(t, i);
    }
  }

  lemma TrimmedAgrees(p: seq<nat>)
    ensures Agree(p, Trimmed(p))
  {
    hide *;
    forall i: nat ensures At(p, i) == At(Trimmed(p), i) { TrimmedAt(p, i); }
    AgreeBy(p, Trimmed(p));
  }

  lemma AgreeBy(p: seq<nat>, q: seq<nat>)
    requires forall i: nat :: At(p, i) == At(q, i)
    ensures Agree(p, q)
  {
  }

  lemma TrimmedAt(p: seq<nat>, i: nat)
    ensures At(p, i) == At(Trimmed(p), i)
  {
  }

  // ------------------------------------------------------------------ channels

  const EXPERIMENTAL_SEGMENT := "experimental"

  /** The pieces between dots. */
  function Dotted(s: string): (r: seq<string>)
    ensures |r| > 0
  {
    if s == "" then [""]
    else
      Prepend(s[0], Dotted(s[1..]))
  }

  /** A dot starts a new piece, anything else belongs to the first one. */
  function Prepend(c: char, rest: seq<string>): (r: seq<string>)
    requires |rest| > 0
    ensures |r| > 0
  {
    if c == '.' then [""] + rest else [[c] + rest[0]] + rest[1..]
  }

  function ChannelOf(version: string): Channel {
    if EXPERIMENTAL_SEGMENT in Pieces(version) then Experimental
    else if
      && version != ""
      && forall i :: 0 <= i < |Dotted(version)| ==> Dotted(version)[i] != "" && AllDigits(Dotted(version)[i])
    then Stable
    else Snapshot
  }

  /** `t` is `s` with some `+` written as `-`, as file names and URLs need it. */
  predicate Slugged(s: string, t: string) {
    |s| == |t| && forall i :: 0 <= i < |s| ==> s[i] == t[i] || (s[i] == '+' && t[i] == '-')
  }

  lemma {:induction false} SlugPieces(s: string, t: string)
    requires Slugged(s, t)
    ensures Pieces(s) == Pieces(t)
  {
    if s != "" {
      assert forall i :: 0 <= i < |s| - 1 ==> s[1..][i] == s[i + 1] && t[1..][i] == t[i + 1];
      SlugPieces(s[1..], t[1..]);
      assert s[0] == t[0] || (s[0] == '+' && t[0] == '-');
    }
  }

  /** Where `t` has a dash instead of a plus, neither is a plain release. */
  /** Both empty or neither, both digits or neither. */
  predicate Alike(x: string, y: string) {
    (x == "" <==> y == "") && (AllDigits(x) <==> AllDigits(y))
  }

  lemma AlikeCons(c: char, d: char, x: string, y: string)
    requires Alike(x, y) && (c == d || (c == '+' && d == '-'))
    ensures Alike([c] + x, [d] + y)
  {
    hide AllDigits;
    DigitsCons(c, x);
    DigitsCons(d, y);
  }

  ghost predicate AllAlike(u: seq<string>, v: seq<string>) {
    |u| == |v| && forall i :: 0 <= i < |u| ==> Alike(u[i], v[i])
  }

  lemma AlikePrepend(c: char, d: char, u: seq<string>, v: seq<string>)
    requires |u| > 0 && AllAlike(u, v) && (c == d || (c == '+' && d == '-'))
    ensures AllAlike(Prepend(c, u), Prepend(d, v))
  {
    hide Alike;
    AlikeCons(c, d, u[0], v[0]);
    AlikeSelf([""]);
    var x, y := Prepend(c, u), Prepend(d, v);
    forall i | 0 <= i < |x| ensures Alike(x[i], y[i]) {
      if c == '.' && i > 0 {
        assert x[i] == u[i - 1] && y[i] == v[i - 1];
      } else if i > 0 {
        assert x[i] == u[i] && y[i] == v[i];
      } else if c == '.' {
        assert x[0] == [""][0] && y[0] == [""][0];
      }
    }
  }

  lemma {:induction false} SlugDotted(s: string, t: string)
    requires Slugged(s, t)
    ensures AllAlike(Dotted(s), Dotted(t))
  {
    hide AllDigits, AllAlike, Prepend;
    if s == "" {
      assert Dotted(s) == Dotted(t);
      AlikeSelf(Dotted(s));
    } else {
      assert forall i :: 0 <= i < |s| - 1 ==> s[1..][i] == s[i + 1] && t[1..][i] == t[i + 1];
      SlugDotted(s[1..], t[1..]);
      assert s[0] == t[0] || (s[0] == '+' && t[0] == '-');
      AlikePrepend(s[0], t[0], Dotted(s[1..]), Dotted(t[1..]));
    }
  }

  lemma AlikeSelf(u: seq<string>)
    ensures AllAlike(u, u)
  {
  }

  lemma DigitsCons(c: char, s: string)
    ensures AllDigits([c] + s) <==> IsDigit(c) && AllDigits(s)
  {
    assert ([c] + s)[0] == c;
    assert forall i :: 0 <= i < |s| ==> ([c] + s)[i + 1] == s[i];
  }

  /** Writing `+` as `-` anywhere changes neither the order nor the channel. */
  lemma SlugInvariant(s: string, t: string, other: string)
    requires Slugged(s, t)
    ensures Compare(s, other) == Compare(t, other) && Compare(other, s) == Compare(other, t) && Compare(s, t) == Equal
    ensures ChannelOf(s) == ChannelOf(t)
  {
    SlugPieces(s, t);
    SlugDotted(s, t);
    assert Components(s) == Components(t);
    Reflexive(s);
  }

  // ------------------------------------------------------------------ end of life

  type Timestamp = int

  datatype EndOfLife = EndOfLife(version: string, endsAt: Timestamp, reason: string)

  /** The parts of a URL that matter here; segments hold no slash. */
  datatype Url = Url(scheme: string, segments: seq<string>)

  type U64 = x: int | 0 <= x < 0x1_0000_0000_0000_0000

  datatype ChannelRelease = ChannelRelease(version: string, downloadUrl: Url, sizeBytes: U64, sha256: Digest,
                                           minAppVersion: string, endOfLife: seq<EndOfLife>)

  datatype Manifest = Manifest(stable: Option<ChannelRelease>, snapshot: Option<ChannelRelease>,
                               experimental: Option<ChannelRelease>)

  function Pick(m: Manifest, channel: Channel): Option<ChannelRelease> {
    match channel case Stable => m.stable case Snapshot => m.snapshot case Experimental => m.experimental
  }

  /** An entry of the version's own scheme at or above it. */
  predicate Covers(e: EndOfLife, version: string) {
    ChannelOf(e.version) == ChannelOf(version) && Compare(version, e.version) != Greater
  }

  function Covering(entries: seq<EndOfLife>, version: string): seq<EndOfLife> {
    if entries == [] then []
    else (if Covers(entries[0], version) then [entries[0]] else []) + Covering(entries[1..], version)
  }

  /** The first of the earliest-ending ones. */
  function Earliest(entries: seq<EndOfLife>): (r: Option<EndOfLife>)
    ensures r == None <==> entries == []
    ensures r.Some? ==> r.value in entries && forall e :: e in entries ==> r.value.endsAt <= e.endsAt
  {
    if entries == [] then None
    else
      match Earliest(entries[1..])
      case None => Some(entries[0])
      case Some(e) => if e.endsAt < entries[0].endsAt then Some(e) else Some(entries[0])
  }

  function EndOfLifeFor(m: Manifest, version: string): Option<EndOfLife> {
    match Pick(m, ChannelOf(version))
    case None => None
    case Some(release) => Earliest(Covering(release.endOfLife, version))
  }

  /** The entries that apply to an installed version. */
  function EntriesFor(m: Manifest, version: string): seq<EndOfLife> {
    match Pick(m, ChannelOf(version)) case None => [] case Some(release) => release.endOfLife
  }

  lemma {:induction false} CoveringIs(entries: seq<EndOfLife>, version: string)
    ensures forall e :: e in Covering(entries, version) <==> e in entries && Covers(e, version)
  {
    if entries != [] { CoveringIs(entries[1..], version); }
  }

  /** It covers the version, ends no later than any other entry that does, and is absent only if none does. */
  lemma EndOfLifeExact(m: Manifest, version: string)
    ensures EndOfLifeFor(m, version) == None <==> forall e :: e in EntriesFor(m, version) ==> !Covers(e, version)
    ensures EndOfLifeFor(m, version).Some? ==>
      EndOfLifeFor(m, version).value in EntriesFor(m, version) && Covers(EndOfLifeFor(m, version).value, version)
    ensures EndOfLifeFor(m, version).Some? ==>
      forall e :: e in EntriesFor(m, version) && Covers(e, version) ==>
        EndOfLifeFor(m, version).value.endsAt <= e.endsAt
  {
    var entries := EntriesFor(m, version);
    CoveringIs(entries, version);
    var covering := Covering(entries, version);
    if covering != [] { assert covering[0] in entries && Covers(covering[0], version); }
  }

  /** A lower version of the channel is covered whenever a higher one is, and ends no later. */
  lemma EndOfLifeMonotone(m: Manifest, lower: string, higher: string)
    requires ChannelOf(lower) == ChannelOf(higher) && Compare(lower, higher) != Greater && EndOfLifeFor(m, higher).Some?
    ensures EndOfLifeFor(m, lower).Some? && EndOfLifeFor(m, lower).value.endsAt <= EndOfLifeFor(m, higher).value.endsAt
  {
    EndOfLifeExact(m, lower);
    EndOfLifeExact(m, higher);
    var e := EndOfLifeFor(m, higher).value;
    Transitive(lower, higher, e.version);
    assert Covers(e, lower);
  }

  // ------------------------------------------------------------------ the gate and the check

  datatype GateError =
    | AppTooOld(current: string, required: string, candidate: string)
    | AlreadyInstalled(candidate: string)
    | Downgrade(current: string, candidate: string)

  /** A release of another channel is never gated: the schemes do not compare. */
  function EnsureInstallable(release: ChannelRelease, current: string, target: Channel, allowDowngrade: bool)
    : Result<Ordering, GateError> {
    var ordering := Compare(release.version, current);
    if ChannelOf(current) != target then Ok(ordering)
    else if Compare(current, release.minAppVersion) ==
      Less then Err(AppTooOld(current, release.minAppVersion, release.version))
    else if ordering == Equal then Err(AlreadyInstalled(release.version))
    else if ordering == Less && !allowDowngrade then Err(Downgrade(current, release.version))
    else Ok(ordering)
  }

  datatype CheckOutcome =
    | NoReleaseForChannel
    | Available(release: ChannelRelease)
    | UpToDate
    | CheckError(error: GateError)

  function Decide(m: Manifest, channel: Channel, current: string): CheckOutcome {
    match Pick(m, channel)
    case None => NoReleaseForChannel
    case Some(release) =>
      match EnsureInstallable(release, current, channel, false)
      case Ok(_) => Available(release)
      case Err(AlreadyInstalled(_)) => UpToDate
      case Err(Downgrade(_, _)) => UpToDate
      case Err(e) => CheckError(e)
  }

  /** On its own channel a version may be replaced exactly by something newer that accepts it. */
  lemma GateExact(release: ChannelRelease, current: string, channel: Channel)
    requires ChannelOf(current) == channel
    ensures EnsureInstallable(release, current, channel, false).Ok? <==>
            Compare(current, release.version) == Less && Compare(release.minAppVersion, current) != Greater
    ensures EnsureInstallable(release, current, channel, true).Ok? <==>
            Compare(current, release.version) != Equal && Compare(release.minAppVersion, current) != Greater
  {
    SignSymmetric(current, release.version);
    SignSymmetric(current, release.minAppVersion);
  }

  /** A sequence of installs on one channel: each release passed the gate over the version before it. */
  ghost predicate Climb(versions: seq<string>, releases: seq<ChannelRelease>, channel: Channel) {
    && |versions| == |releases| + 1
    && (forall k :: 0 <= k < |versions| ==> ChannelOf(versions[k]) == channel)
    && forall k :: 0 <= k < |releases| ==>
      versions[k + 1] == releases[k].version && EnsureInstallable(releases[k], versions[k], channel, false).Ok?
  }

  lemma ClimbStep(versions: seq<string>, releases: seq<ChannelRelease>, channel: Channel, k: nat)
    requires Climb(versions, releases, channel) && k + 1 < |versions|
    ensures Compare(versions[k], versions[k + 1]) == Less
  {
    hide Compare, ChannelOf, EnsureInstallable;
    GateExact(releases[k], versions[k], channel);
  }

  /** Without `allow_downgrade` versions only rise, so none comes twice. */
  lemma {:induction false} VersionsClimb(versions: seq<string>, releases: seq<ChannelRelease>, channel: Channel, i: nat,
                                         j: nat)
    requires Climb(versions, releases, channel) && i < j < |versions|
    ensures Compare(versions[i], versions[j]) == Less && versions[i] != versions[j]
    decreases j - i
  {
    hide Compare, Climb;
    var k := j - 1;
    ClimbStep(versions, releases, channel, k);
    if i < k {
      VersionsClimb(versions, releases, channel, i, k);
      Transitive(versions[i], versions[k], versions[j]);
    }
    Reflexive(versions[i]);
  }

  /** After installing what a channel offers, the check is satisfied exactly if the release's version belongs to the
      channel and the release would accept itself; otherwise it keeps offering the same release, or keeps failing. */
  lemma Settles(m: Manifest, channel: Channel, release: ChannelRelease)
    requires Pick(m, channel) == Some(release)
    ensures Decide(m, channel, release.version) == UpToDate <==>
            ChannelOf(release.version) == channel && Compare(release.version, release.minAppVersion) != Less
    ensures ChannelOf(release.version) != channel ==> Decide(m, channel, release.version) == Available(release)
    ensures ChannelOf(release.version) == channel && Compare(release.version, release.minAppVersion) == Less ==>
      Decide(m, channel, release.version).CheckError?
  {
    Reflexive(release.version);
  }
}
