/** How versions are written, and what the decisions taken from them say about versions written as numbers. */
module Spelling {
  import opened Decimals
  import opened Kernel
  import opened Versions

  // ------------------------------------------------------------------ pieces

  predicate IsSeps(seps: string) {
    forall i :: 0 <= i < |seps| ==> seps[i] == '.' || seps[i] == '-' || seps[i] == '+'
  }

  predicate Plain(piece: string) {
    forall i :: 0 <= i < |piece| ==> piece[i] != '.' && piece[i] != '-' && piece[i] != '+'
  }

  predicate AllPlain(pieces: seq<string>) {
    forall i :: 0 <= i < |pieces| ==> Plain(pieces[i])
  }

  /** The pieces with the separators between them. */
  function Joined(pieces: seq<string>, seps: string): string
    requires |pieces| == |seps| + 1
  {
    if seps == "" then pieces[0] else pieces[0] + ([seps[0]] + Joined(pieces[1..], seps[1..]))
  }

  lemma {:induction false} PiecesHead(p: string, c: char, rest: string)
    requires Plain(p) && (c == '.' || c == '-' || c == '+')
    ensures Pieces(p + ([c] + rest)) == [p] + Pieces(rest)
    decreases |p|
  {
    var s := p + ([c] + rest);
    if p == "" {
      assert s[0] == c && s[1..] == rest;
    } else {
      assert s[0] == p[0] && s[1..] == p[1..] + ([c] + rest);
      PiecesHead(p[1..], c, rest);
      assert [p[0]] + p[1..] == p;
    }
  }

  lemma {:induction false} PiecesOne(p: string)
    requires Plain(p)
    ensures Pieces(p) == [p]
    decreases |p|
  {
    if p != "" {
      PiecesOne(p[1..]);
      assert [p[0]] + p[1..] == p;
    }
  }

  /** Splitting gives back what was joined. */
  lemma {:induction false} PiecesJoined(pieces: seq<string>, seps: string)
    requires |pieces| == |seps| + 1 && AllPlain(pieces) && IsSeps(seps)
    ensures Pieces(Joined(pieces, seps)) == pieces
    decreases |seps|
  {
    if seps == "" {
      PiecesOne(pieces[0]);
    } else {
      PiecesJoined(pieces[1..], seps[1..]);
      PiecesHead(pieces[0], seps[0], Joined(pieces[1..], seps[1..]));
    }
  }

  /** Every string is joined from the pieces it splits into. */
  lemma {:induction false} JoinedPieces(s: string) returns (seps: string)
    ensures |Pieces(s)| == |seps| + 1 && AllPlain(Pieces(s)) && IsSeps(seps) && Joined(Pieces(s), seps) == s
    decreases |s|
  {
    if s == "" {
      seps := "";
    } else {
      var rest := JoinedPieces(s[1..]);
      var tail := Pieces(s[1..]);
      assert s == [s[0]] + s[1..];
      if IsSeparator(s[0]) {
        seps := [s[0]] + rest;
        assert seps[1..] == rest && Pieces(s)[1..] == tail;
      } else {
        seps := rest;
        assert Pieces(s)[1..] == tail[1..];
      }
    }
  }

  // ------------------------------------------------------------------ components

  const LARGEST: nat := 0xFFFF_FFFF_FFFF_FFFF

  /** A component in decimal is that number if it fits 64 bits, however many zeros are in front; everything else counts
      as zero. */
  lemma ComponentDecimal(zeros: string, n: nat)
    requires Zeros(zeros)
    ensures Component(zeros + Decimal(n)) == if n <= LARGEST then n else 0
  {
    LeadingZeros(zeros, Decimal(n));
    DecimalValue(n);
  }

  lemma ComponentOther(s: string)
    requires s == "" || exists i :: 0 <= i < |s| && !('0' <= s[i] <= '9')
    ensures Component(s) == 0
  {
  }

  /** A version of nothing but numbers. */
  function Spelled(numbers: seq<nat>): seq<string> {
    seq(|numbers|, i requires 0 <= i < |numbers| => Decimal(numbers[i]))
  }

  function Written(numbers: seq<nat>, seps: string): string
    requires |numbers| == |seps| + 1
  {
    Joined(Spelled(numbers), seps)
  }

  predicate Fit(numbers: seq<nat>) {
    forall i :: 0 <= i < |numbers| ==> numbers[i] <= LARGEST
  }

  lemma DigitsPlain(s: string)
    requires AllDigits(s)
    ensures Plain(s)
  {
  }

  /** What a piece counts as: the number it writes, if that fits; anything else is zero. */
  ghost predicate Counts(piece: string, n: nat) {
    || (exists zeros: string, k: nat ::
         Zeros(zeros) && piece == zeros + Decimal(k) && n == if k <= LARGEST then k else 0)
    || ((piece == "" || exists i :: 0 <= i < |piece| && !('0' <= piece[i] <= '9')) && n == 0)
  }

  predicate Zeros(zeros: string) {
    forall i :: 0 <= i < |zeros| ==> zeros[i] == '0'
  }

  lemma ComponentCounts(piece: string, n: nat)
    requires Counts(piece, n)
    ensures Component(piece) == n
  {
    hide Component;
    if zeros: string, k: nat :|
      Zeros(zeros) && piece == zeros + Decimal(k) && n == if k <= LARGEST then k else 0
    {
      ComponentDecimal(zeros, k);
    } else {
      ComponentOther(piece);
    }
  }

  /** The components of any version. */
  lemma ComponentsJoined(pieces: seq<string>, seps: string, numbers: seq<nat>)
    requires |pieces| == |seps| + 1 == |numbers| && AllPlain(pieces) && IsSeps(seps)
    requires forall i :: 0 <= i < |pieces| ==> Counts(pieces[i], numbers[i])
    ensures Components(Joined(pieces, seps)) == numbers
  {
    hide Component, Pieces, Counts;
    PiecesJoined(pieces, seps);
    forall i | 0 <= i < |pieces| ensures Component(pieces[i]) == numbers[i] { ComponentCounts(pieces[i], numbers[i]); }
  }

  lemma ComponentsWritten(numbers: seq<nat>, seps: string)
    requires |numbers| == |seps| + 1 && IsSeps(seps) && Fit(numbers)
    ensures Components(Written(numbers, seps)) == numbers
  {
    hide Components, Joined;
    var pieces := Spelled(numbers);
    forall i | 0 <= i < |numbers| ensures Plain(pieces[i]) && Counts(pieces[i], numbers[i]) {
      DigitsPlain(Decimal(numbers[i]));
      assert Zeros("") && "" + Decimal(numbers[i]) == pieces[i];
    }
    ComponentsJoined(pieces, seps, numbers);
  }

  // ------------------------------------------------------------------ the order

  /** Lists of numbers in order, a shorter one followed by zeros. */
  predicate Lower(a: seq<nat>, b: seq<nat>) {
    if b == [] then false
    else if a == [] then b[0] > 0 || Lower([], b[1..])
    else a[0] < b[0] || (a[0] == b[0] && Lower(a[1..], b[1..]))
  }

  function Tail(a: seq<nat>): seq<nat> {
    if a == [] then [] else a[1..]
  }

  lemma BeforeHead(a: seq<nat>, b: seq<nat>)
    ensures At(a, 0) < At(b, 0) ==> Before(a, b)
    ensures At(a, 0) > At(b, 0) ==> !Before(a, b)
    ensures At(a, 0) == At(b, 0) ==> (Before(a, b) <==> Before(Tail(a), Tail(b)))
  {
    assert forall i: nat :: At(Tail(a), i) == At(a, i + 1) && At(Tail(b), i) == At(b, i + 1);
    hide At;
    if At(a, 0) < At(b, 0) { assert FirstDiffers(a, b, 0); }
    if At(a, 0) == At(b, 0) {
      if Before(a, b) {
        var k: nat :| FirstDiffers(a, b, k) && At(a, k) < At(b, k);
        assert FirstDiffers(Tail(a), Tail(b), k - 1);
      }
      if Before(Tail(a), Tail(b)) {
        var k: nat :| FirstDiffers(Tail(a), Tail(b), k) && At(Tail(a), k) < At(Tail(b), k);
        forall i: nat | i < k + 1 ensures At(a, i) == At(b, i) {
          if i > 0 { assert At(Tail(a), i - 1) == At(Tail(b), i - 1); }
        }
        assert FirstDiffers(a, b, k + 1);
      }
    }
  }

  lemma {:induction false} BeforeIsLower(a: seq<nat>, b: seq<nat>)
    ensures Before(a, b) <==> Lower(a, b)
    decreases |a| + |b|
  {
    BeforeHead(a, b);
    if b == [] {
      assert forall k: nat :: At(b, k) == 0;
    } else {
      hide Before;
      BeforeIsLower(Tail(a), Tail(b));
    }
  }

  /** Any two versions compare as the numbers their pieces count as, whatever the separators. */
  lemma CompareJoined(p: seq<string>, s: string, a: seq<nat>, q: seq<string>, t: string, b: seq<nat>)
    requires |p| == |s| + 1 == |a| && AllPlain(p) && IsSeps(s) && forall i :: 0 <= i < |p| ==> Counts(p[i], a[i])
    requires |q| == |t| + 1 == |b| && AllPlain(q) && IsSeps(t) && forall i :: 0 <= i < |q| ==> Counts(q[i], b[i])
    ensures Compare(Joined(p, s), Joined(q, t)) == Less <==> Lower(a, b)
    ensures Compare(Joined(p, s), Joined(q, t)) == Greater <==> Lower(b, a)
  {
    hide Components, Joined, Before, CompareFrom, Counts;
    ComponentsJoined(p, s, a);
    ComponentsJoined(q, t, b);
    CompareMeans(a, b);
    BeforeIsLower(a, b);
    BeforeIsLower(b, a);
  }

  /** So versions written as numbers compare as those lists of numbers. */
  lemma CompareWritten(a: seq<nat>, s: string, b: seq<nat>, t: string)
    requires |a| == |s| + 1 && IsSeps(s) && Fit(a) && |b| == |t| + 1 && IsSeps(t) && Fit(b)
    ensures Compare(Written(a, s), Written(b, t)) == Less <==> Lower(a, b)
    ensures Compare(Written(a, s), Written(b, t)) == Greater <==> Lower(b, a)
  {
    hide Components, Written, Before, CompareFrom;
    ComponentsWritten(a, s);
    ComponentsWritten(b, t);
    CompareMeans(a, b);
    BeforeIsLower(a, b);
    BeforeIsLower(b, a);
  }

  // ------------------------------------------------------------------ channels

  predicate Dots(seps: string) {
    forall i :: 0 <= i < |seps| ==> seps[i] == '.'
  }

  predicate Digits(pieces: seq<string>) {
    forall i :: 0 <= i < |pieces| ==> pieces[i] != "" && forall j :: 0 <= j < |pieces[i]| ==> '0' <= pieces[i][j] <= '9'
  }

  lemma {:induction false} DottedHead(p: string, rest: string)
    requires Plain(p)
    ensures Dotted(p + (['.'] + rest)) == [p] + Dotted(rest)
    decreases |p|
  {
    var s := p + (['.'] + rest);
    if p == "" {
      assert s[0] == '.' && s[1..] == rest;
    } else {
      assert s[0] == p[0] && s[1..] == p[1..] + (['.'] + rest);
      DottedHead(p[1..], rest);
      assert [p[0]] + p[1..] == p;
    }
  }

  lemma {:induction false} DottedOne(p: string)
    requires Plain(p)
    ensures Dotted(p) == [p]
    decreases |p|
  {
    if p != "" {
      DottedOne(p[1..]);
      assert [p[0]] + p[1..] == p;
    }
  }

  lemma {:induction false} DottedJoined(pieces: seq<string>, seps: string)
    requires |pieces| == |seps| + 1 && AllPlain(pieces) && Dots(seps)
    ensures Dotted(Joined(pieces, seps)) == pieces
    decreases |seps|
  {
    if seps == "" {
      DottedOne(pieces[0]);
    } else {
      DottedJoined(pieces[1..], seps[1..]);
      DottedHead(pieces[0], Joined(pieces[1..], seps[1..]));
    }
  }

  /** Whatever is no dot is in one of the pieces between dots. */
  lemma {:induction false} DottedHolds(s: string, k: nat)
    requires k < |s| && s[k] != '.'
    ensures exists i :: 0 <= i < |Dotted(s)| && s[k] in Dotted(s)[i]
    decreases |s|
  {
    var rest := Dotted(s[1..]);
    if k == 0 {
      assert s[0] in ([s[0]] + rest[0]) && Dotted(s)[0] == [s[0]] + rest[0];
    } else {
      DottedHolds(s[1..], k - 1);
      var i :| 0 <= i < |rest| && s[k] in rest[i];
      if s[0] == '.' {
        assert Dotted(s)[i + 1] == rest[i];
      } else if i == 0 {
        assert Dotted(s)[0] == [s[0]] + rest[0];
      } else {
        assert Dotted(s)[i] == rest[i];
      }
    }
  }

  lemma {:induction false} SepInside(pieces: seq<string>, seps: string, i: nat) returns (k: nat)
    requires |pieces| == |seps| + 1 && i < |seps|
    ensures k < |Joined(pieces, seps)| && Joined(pieces, seps)[k] == seps[i]
    decreases i
  {
    if i == 0 {
      k := |pieces[0]|;
    } else {
      var rest := SepInside(pieces[1..], seps[1..], i - 1);
      k := |pieces[0]| + 1 + rest;
    }
  }

  lemma DigitsAre(pieces: seq<string>)
    ensures Digits(pieces) <==> forall i :: 0 <= i < |pieces| ==> pieces[i] != "" && AllDigits(pieces[i])
  {
  }

  /** A dash or a plus makes a version no plain release. */
  lemma NotPlain(pieces: seq<string>, seps: string, i: nat)
    requires |pieces| == |seps| + 1 && IsSeps(seps) && i < |seps| && seps[i] != '.'
    ensures !Digits(Dotted(Joined(pieces, seps)))
  {
    var s := Joined(pieces, seps);
    var k := SepInside(pieces, seps, i);
    DottedHolds(s, k);
    var j :| 0 <= j < |Dotted(s)| && s[k] in Dotted(s)[j];
  }

  /** The channel of any version: experimental with such a segment anywhere, stable if it is numbers between dots,
      snapshot otherwise. */
  lemma ChannelExact(pieces: seq<string>, seps: string)
    requires |pieces| == |seps| + 1 && AllPlain(pieces) && IsSeps(seps)
    ensures ChannelOf(Joined(pieces, seps)) ==
      if "experimental" in pieces then Experimental else if Dots(seps) && Digits(pieces) then Stable else Snapshot
  {
    hide Joined, Digits, Pieces, Dotted;
    var version := Joined(pieces, seps);
    PiecesJoined(pieces, seps);
    DigitsAre(Dotted(version));
    EmptyDotted();
    if Dots(seps) {
      DottedJoined(pieces, seps);
    } else {
      var i: nat :| i < |seps| && seps[i] != '.';
      NotPlain(pieces, seps, i);
    }
  }

  lemma EmptyDotted()
    ensures !Digits(Dotted(""))
  {
    assert Dotted("")[0] == "";
  }

  lemma WrittenIsStable(numbers: seq<nat>, seps: string)
    requires |numbers| == |seps| + 1 && Dots(seps)
    ensures ChannelOf(Written(numbers, seps)) == Stable
  {
    hide ChannelOf;
    var pieces := Spelled(numbers);
    forall i | 0 <= i < |pieces| ensures Plain(pieces[i]) && pieces[i] != "" && pieces[i] != "experimental" {
      DigitsPlain(pieces[i]);
      assert "experimental"[0] == 'e';
    }
    DigitsAre(pieces);
    ChannelExact(pieces, seps);
  }

  // ------------------------------------------------------------------ decisions

  /** A version of plain numbers between dots. */
  ghost predicate Release(version: string, numbers: seq<nat>) {
    numbers != [] && Fit(numbers) && exists seps: string ::
      |numbers| == |seps| + 1 && Dots(seps) && version == Written(numbers, seps)
  }

  lemma ReleaseIs(version: string, numbers: seq<nat>) returns (seps: string)
    requires Release(version, numbers)
    ensures |numbers| == |seps| + 1 && IsSeps(seps) && version == Written(numbers, seps)
    ensures ChannelOf(version) == Stable
  {
    hide Written, ChannelOf;
    seps :| |numbers| == |seps| + 1 && Dots(seps) && version == Written(numbers, seps);
    WrittenIsStable(numbers, seps);
  }

  lemma CompareReleases(v: string, a: seq<nat>, w: string, b: seq<nat>)
    requires Release(v, a) && Release(w, b)
    ensures Compare(v, w) == Less <==> Lower(a, b)
    ensures Compare(v, w) == Greater <==> Lower(b, a)
    ensures ChannelOf(v) == ChannelOf(w) == Stable
  {
    hide Release, Written, Compare, ChannelOf, IsSeps, Lower;
    var s := ReleaseIs(v, a);
    var t := ReleaseIs(w, b);
    FitReleases(v, a);
    FitReleases(w, b);
    CompareWritten(a, s, b, t);
  }

  lemma FitReleases(v: string, a: seq<nat>)
    requires Release(v, a)
    ensures Fit(a)
  {
  }

  /** The gate on the stable channel, in numbers: too old comes first, then the same version, then a downgrade, which
      permission lets through. */
  lemma GateInNumbers(release: ChannelRelease, a: seq<nat>, b: seq<nat>, least: seq<nat>, current: string, allow: bool)
    requires Release(current, a) && Release(release.version, b) && Release(release.minAppVersion, least)
    ensures EnsureInstallable(release, current, Stable, allow) ==
      if Lower(a, least) then Err(AppTooOld(current, release.minAppVersion, release.version))
      else if Lower(a, b) then Ok(Greater)
      else if !Lower(b, a) then Err(AlreadyInstalled(release.version))
      else if allow then Ok(Less)
      else Err(Downgrade(current, release.version))
  {
    hide Release, Compare, ChannelOf, Lower;
    CompareReleases(current, a, release.minAppVersion, least);
    CompareReleases(release.version, b, current, a);
  }

  /** From another channel everything is let through. */
  lemma OtherChannel(release: ChannelRelease, a: seq<nat>, current: string, target: Channel, allow: bool)
    requires Release(current, a) && target != Stable
    ensures EnsureInstallable(release, current, target, allow).Ok?
  {
    hide Release, Compare, ChannelOf;
    var seps := ReleaseIs(current, a);
  }

  /** The check on the stable channel, in numbers. */
  lemma CheckInNumbers(m: Manifest, a: seq<nat>, b: seq<nat>, least: seq<nat>, current: string)
    requires Release(current, a)
    requires m.stable.Some? ==> Release(m.stable.value.version, b) && Release(m.stable.value.minAppVersion, least)
    ensures Decide(m, Stable, current) ==
      if m.stable == None then NoReleaseForChannel
      else if Lower(a, least) then
        CheckError(AppTooOld(current, m.stable.value.minAppVersion, m.stable.value.version))
      else if Lower(a, b) then Available(m.stable.value)
      else UpToDate
  {
    hide Release, Compare, ChannelOf, Lower, EnsureInstallable;
    if m.stable.Some? { GateInNumbers(m.stable.value, a, b, least, current, false); }
  }

  /** Each channel has its own release. */
  lemma ChannelsApart(m: Manifest, current: string, release: ChannelRelease)
    ensures Decide(m, Stable, current) == NoReleaseForChannel <==> m.stable == None
    ensures Decide(m, Snapshot, current) == NoReleaseForChannel <==> m.snapshot == None
    ensures Decide(m, Experimental, current) == NoReleaseForChannel <==> m.experimental == None
    ensures Decide(m, Stable, current) == Available(release) ==> m.stable == Some(release)
    ensures Decide(m, Snapshot, current) == Available(release) ==> m.snapshot == Some(release)
    ensures Decide(m, Experimental, current) == Available(release) ==> m.experimental == Some(release)
  {
  }

  /** What ends for an installed stable version: the first of the earliest-ending entries of the stable release that are
      plain versions, its own or higher ones. */
  lemma EndsInNumbers(m: Manifest, current: string, a: seq<nat>, entries: seq<seq<nat>>, k: nat)
    requires m.stable.Some? && Release(current, a) && |entries| == |m.stable.value.endOfLife| && k < |entries|
    requires forall i :: 0 <= i < |entries| ==> Release(m.stable.value.endOfLife[i].version, entries[i])
    requires !Lower(entries[k], a)
    requires forall i :: 0 <= i < |entries| && !Lower(entries[i], a) ==>
      var e, least := m.stable.value.endOfLife[i], m.stable.value.endOfLife[k];
      least.endsAt < e.endsAt || (least.endsAt == e.endsAt && k <= i)
    ensures EndOfLifeFor(m, current) == Some(m.stable.value.endOfLife[k])
  {
    hide Release, Compare, ChannelOf, Lower, Earliest, Covering;
    var seps := ReleaseIs(current, a);
    var all := m.stable.value.endOfLife;
    forall i | 0 <= i < |all| ensures Covers(all[i], current) <==> !Lower(entries[i], a) {
      CompareReleases(current, a, all[i].version, entries[i]);
    }
    FirstOfEarliest(all, current, k);
  }

  lemma {:induction false} FirstOfEarliest(all: seq<EndOfLife>, version: string, k: nat)
    requires k < |all| && Covers(all[k], version)
    requires forall i :: 0 <= i < |all| && Covers(all[i], version) ==>
      all[k].endsAt < all[i].endsAt || (all[k].endsAt == all[i].endsAt && k <= i)
    ensures Earliest(Covering(all, version)) == Some(all[k])
  {
    hide Covers;
    var rest := all[1..];
    if k > 0 {
      FirstOfEarliest(rest, version, k - 1);
      if Covers(all[0], version) { ConsCovering(all, version); } else { SkipCovering(all, version); }
    } else {
      ConsCovering(all, version);
      CoveringIs(rest, version);
      if Earliest(Covering(rest, version)).Some? {
        var e := Earliest(Covering(rest, version)).value;
        assert e in rest && Covers(e, version);
        var i :| 0 <= i < |rest| && rest[i] == e;
        assert all[i + 1] == e;
      }
    }
  }

  lemma ConsCovering(all: seq<EndOfLife>, version: string)
    requires all != [] && Covers(all[0], version)
    ensures Covering(all, version) != [] && Covering(all, version)[0] == all[0]
    ensures Covering(all, version)[1..] == Covering(all[1..], version)
  {
    hide Covers;
    assert ([all[0]] + Covering(all[1..], version))[1..] == Covering(all[1..], version);
  }

  lemma SkipCovering(all: seq<EndOfLife>, version: string)
    requires all != [] && !Covers(all[0], version)
    ensures Covering(all, version) == Covering(all[1..], version)
  {
    hide Covers;
  }

  predicate Listed(release: Option<ChannelRelease>, e: EndOfLife) {
    release.Some? && e in release.value.endOfLife
  }

  /** An installed version of any channel is covered by an entry of that channel's release for that very version. */
  lemma OwnEntry(m: Manifest, current: string, e: EndOfLife)
    requires ChannelOf(current) == Stable ==> Listed(m.stable, e)
    requires ChannelOf(current) == Snapshot ==> Listed(m.snapshot, e)
    requires ChannelOf(current) == Experimental ==> Listed(m.experimental, e)
    requires e.version == current
    ensures EndOfLifeFor(m, current).Some? && EndOfLifeFor(m, current).value.endsAt <= e.endsAt
  {
    hide Compare, ChannelOf, Earliest, Covering, EndOfLifeFor;
    Reflexive(current);
    EndOfLifeExact(m, current);
    assert e in EntriesFor(m, current) && Covers(e, current);
  }
}
