/** How long the download client keeps trying: only as long as it is made to start over. */
module Retries {
  import opened Kernel
  import opened Rounds
  import opened Download

  // ------------------------------------------------------------------ what rounds cost

  function Times(x: nat, y: nat): nat {
    x * y
  }

  lemma TimesMore(x: nat, y: nat, k: nat)
    requires x <= y
    ensures Times(x, k) <= Times(y, k)
  {
    assert y * k == x * k + (y - x) * k;
  }

  lemma TimesNext(x: nat, k: nat)
    ensures Times(x + 1, k) == Times(x, k) + k
  {
  }

  /** What the client has used up: the bytes of every start but the present one, the present ones, and the patience
      gone. */
  function Spent(restarts: nat, c: Client, clock: nat, longest: nat, policy: RetryPolicy): nat {
    Times(Times(restarts, longest) + c.bytesDone, policy.reconnectBudget + 2) + Impatience(clock, c.outage, policy)
  }

  function Impatience(clock: nat, outage: Option<Outage>, policy: RetryPolicy): (n: nat)
    ensures n <= policy.reconnectBudget + 1
  {
    var left := PatienceRank(clock, outage, policy);
    if left <= policy.reconnectBudget + 1 then policy.reconnectBudget + 1 - left else 0
  }

  /** No release is longer. */
  predicate UpTo(rounds: seq<Round>, longest: nat) {
    || rounds == []
    || (UpTo(rounds[..|rounds| - 1], longest) && Reached(rounds).bytesDone <= longest
        && NoEmptyChunks(rounds[|rounds| - 1]))
  }

  predicate NoEmptyChunks(e: Round) {
    e.Heard? && e.flowed ==> e.got > 0
  }

  lemma Grows(x: nat, y: nat, i: nat, j: nat, k: nat)
    requires (x < y && i <= k + 1) || (x == y && i < j) || (x <= y && i < j)
    ensures Times(x, k + 2) + i < Times(y, k + 2) + j
  {
    if x < y {
      TimesMore(x + 1, y, k + 2);
      TimesNext(x, k + 2);
    }
  }

  /** Every round costs something: bytes, a start, or patience. */
  lemma RoundCosts(restarts: nat, c: Client, e: Round, clock: nat, longest: nat, policy: RetryPolicy)
    requires Follows(c, clock, e, policy) && NoEmptyChunks(e) && policy.retryInterval > 0 && c.bytesDone <= longest
    ensures Spent(restarts, c, clock, longest, policy) <
            Spent(if Restarted(c, e) then restarts + 1 else restarts, After(c, e), e.now, longest, policy)
  {
    var after, more := After(c, e), if Restarted(c, e) then restarts + 1 else restarts;
    TimesNext(restarts, longest);
    hide StrongValidator, Times, Impatience;
    if !(e.Heard? && e.flowed) { Stalled(c, e, clock, policy); }
    Grows(Times(restarts, longest) + c.bytesDone, Times(more, longest) + after.bytesDone,
          Impatience(clock, c.outage, policy), Impatience(e.now, after.outage, policy), policy.reconnectBudget);
  }

  /** Patience goes where nothing came. */
  lemma Stalled(c: Client, e: Round, clock: nat, policy: RetryPolicy)
    requires Follows(c, clock, e, policy) && !(e.Heard? && e.flowed) && policy.retryInterval > 0
    ensures Impatience(clock, c.outage, policy) < Impatience(e.now, After(c, e).outage, policy)
  {
    LessPatience(policy, clock, c.outage, e.now, After(c, e).outage.value);
  }

  lemma {:induction false} RoundsCost(start: nat, rounds: seq<Round>, expected: nat, longest: nat, policy: RetryPolicy)
    requires Chain(start, rounds, expected, policy) && UpTo(rounds, longest) && policy.retryInterval > 0
    ensures |rounds| <= Spent(Restarts(rounds), Reached(rounds), ClockAt(start, rounds), longest, policy)
    ensures rounds != [] ==> Reached(rounds).bytesDone <= longest
  {
    hide Spent, Follows, After;
    if rounds != [] {
      var sofar, e := rounds[..|rounds| - 1], rounds[|rounds| - 1];
      RoundsCost(start, sofar, expected, longest, policy);
      RoundCosts(Restarts(sofar), Reached(sofar), e, ClockAt(start, sofar), longest, policy);
    }
  }

  /** The client goes through a bounded number of rounds for every time it is made to start over. */
  lemma RoundsBounded(start: nat, rounds: seq<Round>, expected: nat, longest: nat, policy: RetryPolicy)
    requires Chain(start, rounds, expected, policy) && UpTo(rounds, longest) && policy.retryInterval > 0
    ensures |rounds| <= ((Restarts(rounds) + 1) * longest + 1) * (policy.reconnectBudget + 2)
  {
    hide Chain, UpTo, Restarts, Times;
    RoundsCost(start, rounds, expected, longest, policy);
    Bill(Restarts(rounds), Reached(rounds).bytesDone, longest, policy.reconnectBudget);
  }

  lemma Bill(restarts: nat, bytes: nat, longest: nat, budget: nat)
    requires bytes <= longest
    ensures
      Times(Times(restarts, longest) + bytes, budget + 2) + budget + 1 <= ((restarts + 1) * longest + 1) * (budget + 2)
  {
    TimesNext(restarts, longest);
    TimesMore(Times(restarts, longest) + bytes, Times(restarts + 1, longest), budget + 2);
    TimesNext(Times(restarts + 1, longest), budget + 2);
    assert ((restarts + 1) * longest + 1) * (budget + 2) == Times(Times(restarts + 1, longest) + 1, budget + 2);
  }

  // ------------------------------------------------------------------ who makes it start over

  /** An honest origin makes it start over once for every range it ignores and once for every release that comes in
      between. */
  lemma {:induction false} StartsCounted(published: seq<Release>, rounds: seq<Round>)
    requires FromReleases(published, rounds)
    ensures Restarts(rounds) <= Ignored(rounds) + AtRelease(rounds)
    ensures published != [] ==> AtRelease(rounds) < |published|
  {
    AlwaysSourced(published, rounds);
    if rounds != [] && !rounds[|rounds| - 1].Heard? { StartsCounted(published, rounds[..|rounds| - 1]); }
  }

  lemma {:induction false} FairUpTo(published: seq<Release>, rounds: seq<Round>, longest: nat)
    requires FromReleases(published, rounds) && forall k :: 0 <= k < |published| ==> |published[k].data| <= longest
    ensures UpTo(rounds, longest) && Reached(rounds).bytesDone <= longest
  {
    if rounds != [] { FairUpTo(published, rounds[..|rounds| - 1], longest); }
  }

  /** So with an honest origin the number of rounds is bounded by the number of ranges it ignores. */
  lemma HonestBounded(published: seq<Release>, start: nat, rounds: seq<Round>, expected: nat, longest: nat,
                      policy: RetryPolicy)
    requires Chain(start, rounds, expected, policy) && policy.retryInterval > 0 && published != []
    requires FromReleases(published, rounds) && forall k :: 0 <= k < |published| ==> |published[k].data| <= longest
    ensures |rounds| <= ((Ignored(rounds) + |published|) * longest + 1) * (policy.reconnectBudget + 2)
  {
    hide Chain, FromReleases, UpTo;
    FairUpTo(published, rounds, longest);
    StartsCounted(published, rounds);
    RoundsBounded(start, rounds, expected, longest, policy);
    LargerBill(Restarts(rounds) + 1, Ignored(rounds) + |published|, longest, policy.reconnectBudget);
  }

  lemma LargerBill(r: nat, i: nat, longest: nat, budget: nat)
    requires r <= i
    ensures (r * longest + 1) * (budget + 2) <= (i * longest + 1) * (budget + 2)
  {
    TimesMore(r, i, longest);
    TimesMore(Times(r, longest) + 1, Times(i, longest) + 1, budget + 2);
  }

  // ------------------------------------------------------------------ an origin that never stops ignoring ranges

  /** `n` rounds of it: every answer is full and breaks off after a byte, a tick after the pause. */
  function Stubborn(headers: Headers, policy: RetryPolicy, n: nat): seq<Round> {
    seq(n, (k: nat) => Heard(Full, headers, true, 1, BreakTime(policy, k), 0))
  }

  /** A tick after the pause that follows the break before. */
  function BreakTime(policy: RetryPolicy, k: nat): nat {
    k * (policy.retryInterval + 1) + 1
  }

  lemma StubbornLast(headers: Headers, policy: RetryPolicy, n: nat)
    requires n > 0
    ensures var rounds := Stubborn(headers, policy, n);
      && rounds[..n - 1] == Stubborn(headers, policy, n - 1) && ClockAt(0, rounds) == BreakTime(policy, n - 1)
      && rounds[n - 1] == Heard(Full, headers, true, 1, BreakTime(policy, n - 1), 0)
  {
  }

  /** Where the client stands after them: all but the first ignored a range. */
  lemma {:induction false} StubbornReached(headers: Headers, policy: RetryPolicy, n: nat)
    ensures var rounds := Stubborn(headers, policy, n);
      && ClockAt(0, rounds) == (if n == 0 then 0 else BreakTime(policy, n - 1)) && AtRelease(rounds) == 0
      && Ignored(rounds) == (if n == 0 then 0 else n - 1)
      && Reached(rounds) ==
         if n == 0 then FRESH else Client(1, StrongValidator(headers), Some(Outage(BreakTime(policy, n - 1), 1)))
  {
    if n > 0 {
      StubbornReached(headers, policy, n - 1);
      StubbornLast(headers, policy, n);
      hide StrongValidator, Stubborn;
      OneMoreCounts(Stubborn(headers, policy, n - 1), Stubborn(headers, policy, n)[n - 1]);
      assert Stubborn(headers, policy, n) ==
        Stubborn(headers, policy, n)[..n - 1] + [Stubborn(headers, policy, n)[n - 1]];
    }
  }

  /** All of it can happen, if the release has more than a byte, the policy a budget and the origin enough ranges to
      ignore. */
  lemma StubbornFeasible(release: Release, policy: RetryPolicy, readTimeout: nat, expected: nat, n: nat)
    requires |release.data| > 1 && expected != 1 && policy.reconnectBudget > 0 && readTimeout > 0
    ensures Feasible([release], readTimeout, n, 0, Stubborn(release.headers, policy, n), expected, policy)
  {
    var script := Stubborn(release.headers, policy, n);
    forall k | 0 <= k < n ensures Happens([release], readTimeout, n, 0, script[..k], script[k], expected, policy) {
      assert script[..k] == Stubborn(release.headers, policy, k);
      assert script[k] == Heard(Full, release.headers, true, 1, BreakTime(policy, k), 0);
      StubbornHappens(release, policy, readTimeout, expected, n, k);
    }
  }

  lemma StubbornHappens(release: Release, policy: RetryPolicy, readTimeout: nat, expected: nat, n: nat, k: nat)
    requires |release.data| > 1 && expected != 1 && policy.reconnectBudget > 0 && readTimeout > 0 && k < n
    ensures Happens([release], readTimeout, n, 0, Stubborn(release.headers, policy, k),
                    Heard(Full, release.headers, true, 1, BreakTime(policy, k), 0), expected, policy)
  {
    hide StrongValidator, Stubborn, Reached, Ignored, AtRelease, ClockAt, Limit;
    StubbornReached(release.headers, policy, k);
    if k > 0 { StubbornNext(policy, k); }
    assert [release][0] == release;
  }

  lemma StubbornNext(policy: RetryPolicy, k: nat)
    requires k > 0
    ensures BreakTime(policy, k) == BreakTime(policy, k - 1) + policy.retryInterval + 1
  {
  }

  /** So nothing bounds the attempts of a client whose origin keeps ignoring ranges: here is an origin that makes it
      retry more than `n` times, whatever the release and the policy. */
  method KeepsGoing(release: Release, policy: RetryPolicy, expected: nat, n: nat) returns (ghost rounds: seq<Round>)
    requires |release.data| > 1 && expected != 1 && policy.reconnectBudget > 0
    ensures |rounds| >= n && rounds[..n] == Stubborn(release.headers, policy, n)
  {
    hide Feasible, Stubborn;
    var net := new Origin([release], true, READ_TIMEOUT, n, 0, 0, Stubborn(release.headers, policy, n), false);
    var file := new Disk(false);
    StubbornFeasible(release, policy, READ_TIMEOUT, expected, n);
    var r;
    ghost var version;
    r, version, rounds := FetchWithResume(net, file, expected, policy);
    StubbornLength(release.headers, policy, n);
  }

  lemma StubbornLength(headers: Headers, policy: RetryPolicy, n: nat)
    ensures |Stubborn(headers, policy, n)| == n
  {
  }

  // ------------------------------------------------------------------ an origin that lets it succeed

  function Sum(pieces: seq<nat>): nat {
    if pieces == [] then 0 else Sum(pieces[..|pieces| - 1]) + pieces[|pieces| - 1]
  }

  /** A body that comes in these pieces: a full answer, then one partial answer after the other. */
  function Cuts(headers: Headers, policy: RetryPolicy, pieces: seq<nat>): seq<Round> {
    seq(|pieces|, (k: nat) requires k < |pieces| =>
      Heard(if k == 0 then Full else Partial, headers, pieces[k] > 0, pieces[k], BreakTime(policy, k), 0))
  }

  /** Every piece has bytes in it, unless there are none at all. */
  predicate Pieces(pieces: seq<nat>) {
    pieces == [0] || (pieces != [] && forall k :: 0 <= k < |pieces| ==> pieces[k] > 0)
  }

  lemma CutsLast(headers: Headers, policy: RetryPolicy, pieces: seq<nat>)
    requires pieces != []
    ensures var n, rounds := |pieces| - 1, Cuts(headers, policy, pieces);
      && rounds[..n] == Cuts(headers, policy, pieces[..n])
      && rounds[n] ==
         Heard(if n == 0 then Full else Partial, headers, pieces[n] > 0, pieces[n], BreakTime(policy, n), 0)
      && rounds == rounds[..n] + [rounds[n]]
  {
  }

  lemma {:induction false} CutsReached(headers: Headers, policy: RetryPolicy, pieces: seq<nat>)
    requires forall k :: 0 <= k < |pieces| ==> pieces[k] > 0
    ensures var n, rounds := |pieces|, Cuts(headers, policy, pieces);
      && ClockAt(0, rounds) == (if n == 0 then 0 else BreakTime(policy, n - 1)) && AtRelease(rounds) == 0
      && Ignored(rounds) == 0 && Sum(pieces) >= n
      && Reached(rounds) ==
         if n == 0 then FRESH
         else Client(Sum(pieces), StrongValidator(headers), Some(Outage(BreakTime(policy, n - 1), 1)))
  {
    if pieces != [] {
      CutsReached(headers, policy, pieces[..|pieces| - 1]);
      CutsLast(headers, policy, pieces);
      hide StrongValidator, Cuts;
      var rounds := Cuts(headers, policy, pieces);
      OneMoreCounts(rounds[..|rounds| - 1], rounds[|rounds| - 1]);
    }
  }

  lemma {:induction false} SumGrows(pieces: seq<nat>, k: nat)
    requires k <= |pieces|
    ensures Sum(pieces[..k]) <= Sum(pieces) && (k < |pieces| ==> Sum(pieces[..k]) + pieces[k] <= Sum(pieces))
    decreases |pieces| - k
  {
    if k == |pieces| {
      assert pieces[..k] == pieces;
    } else {
      SumGrows(pieces, k + 1);
      assert pieces[..k + 1][..k] == pieces[..k];
    }
  }

  /** The file holds as much of the release as has come. */
  lemma {:induction false} CutsStored(release: Release, policy: RetryPolicy, pieces: seq<nat>)
    requires Sum(pieces) <= |release.data|
    ensures Assembled([release], Cuts(release.headers, policy, pieces)) == release.data[..Sum(pieces)]
  {
    if pieces != [] {
      var n, rounds := |pieces| - 1, Cuts(release.headers, policy, pieces);
      SumGrows(pieces, n);
      CutsStored(release, policy, pieces[..n]);
      CutsLast(release.headers, policy, pieces);
      hide Cuts;
      var done := Sum(pieces[..n]);
      if n == 0 { assert pieces[..n] == []; }
      assert release.data[..done] + release.data[done..done + pieces[n]] == release.data[..done + pieces[n]];
    }
  }

  lemma CutsHappen(release: Release, policy: RetryPolicy, expected: nat, pieces: seq<nat>, k: nat)
    requires Pieces(pieces) && Sum(pieces) == |release.data| && policy.reconnectBudget > 0 && k < |pieces|
    requires expected == 0 || expected > Sum(pieces[..|pieces| - 1])
    ensures var script := Cuts(release.headers, policy, pieces);
      Happens([release], READ_TIMEOUT, 0, 0, script[..k], script[k], expected, policy)
  {
    hide Sum, One;
    var script := Cuts(release.headers, policy, pieces);
    var sofar := pieces[..k];
    assert script[..k] == Cuts(release.headers, policy, sofar);
    CutsReached(release.headers, policy, sofar);
    SumGrows(pieces, k);
    SumGrows(pieces[..|pieces| - 1], if k < |pieces| then k else 0);
    assert k < |pieces| ==> pieces[..|pieces| - 1][..k] == sofar;
    if k > 0 { StubbornNext(policy, k); }
    assert [release][0] == release;
  }

  /** A download succeeds: whatever the release and the policy, and however the body is cut into pieces, the client that
      is answered with them, the last to its end, has all of the release. */
  method Arrives(release: Release, policy: RetryPolicy, expected: nat, pieces: seq<nat>)
    returns (file: Disk, r: Result<nat, DownloadError>)
    requires Pieces(pieces) && Sum(pieces) == |release.data| && policy.reconnectBudget > 0
    requires expected == 0 || expected > Sum(pieces[..|pieces| - 1])
    ensures fresh(file) && r == Ok(|release.data|) && file.content == release.data
  {
    hide Cuts, Feasible, Completes, Reached, Happens, Assembled, AtRelease;
    var script := Cuts(release.headers, policy, pieces);
    var net := new Origin([release], true, READ_TIMEOUT, 0, 0, 0, script, true);
    file := new Disk(false);
    CutsFeasible(release, policy, expected, pieces);
    CutsComplete(release, policy, pieces);
    CutsStored(release, policy, pieces);
    assert release.data[..|release.data|] == release.data;
    ghost var version, rounds;
    r, version, rounds := FetchWithResume(net, file, expected, policy);
  }

  lemma CutsFeasible(release: Release, policy: RetryPolicy, expected: nat, pieces: seq<nat>)
    requires Pieces(pieces) && Sum(pieces) == |release.data| && policy.reconnectBudget > 0
    requires expected == 0 || expected > Sum(pieces[..|pieces| - 1])
    ensures Feasible([release], READ_TIMEOUT, 0, 0, Cuts(release.headers, policy, pieces), expected, policy)
  {
    hide Happens, Sum, Pieces;
    var script := Cuts(release.headers, policy, pieces);
    forall k | 0 <= k < |script|
      ensures Happens([release], READ_TIMEOUT, 0, 0, script[..k], script[k], expected, policy)
    {
      CutsHappen(release, policy, expected, pieces, k);
    }
  }

  lemma CutsComplete(release: Release, policy: RetryPolicy, pieces: seq<nat>)
    requires Pieces(pieces) && Sum(pieces) == |release.data|
    ensures Completes([release], true, Cuts(release.headers, policy, pieces))
    ensures AtRelease(Cuts(release.headers, policy, pieces)) == 0
  {
    var rounds := Cuts(release.headers, policy, pieces);
    CutsLast(release.headers, policy, pieces);
    if pieces == [0] {
      assert rounds[..0] == [] && pieces[..0] == [];
    } else {
      CutsReached(release.headers, policy, pieces);
    }
    assert [release][0] == release;
  }

  // ------------------------------------------------------------------ releases that nothing tells apart

  lemma MixFeasible(date: Option<HeaderValue>)
    ensures var headers := Headers(None, date);
      Feasible(Twins(headers), READ_TIMEOUT, 0, 0, Mix(headers), 2, PROD)
  {
    var headers := Headers(None, date);
    MixReached(headers);
    forall k | 0 <= k < 2
      ensures Happens(Twins(headers), READ_TIMEOUT, 0, 0, Mix(headers)[..k], Mix(headers)[k], 2, PROD)
    {
    }
  }

  /** Two releases under the same modification date, or without a validator: the download succeeds with a file that is
      the start of neither. */
  method Splices(date: Option<HeaderValue>) returns (file: Disk, r: Result<nat, DownloadError>)
    ensures fresh(file) && r == Ok(2) && file.content == [1, 4] && !Whole(Twins(Headers(None, date)), file.content)
    ensures !Identified(Twins(Headers(None, date)))
  {
    hide Feasible, Mix, Assembled, Reached, FromReleases, Identified;
    var headers := Headers(None, date);
    var net := new Origin(Twins(headers), true, READ_TIMEOUT, 0, 0, 0, Mix(headers), false);
    file := new Disk(false);
    MixFeasible(date);
    NotIdentified(headers);
    ghost var version, rounds;
    r, version, rounds := FetchWithResume(net, file, 2, PROD);
    MixEnds(headers, rounds);
    MixStored(headers);
    NoStart(headers);
  }

  /** With both bytes there the loop is over. */
  lemma MixEnds(headers: Headers, rounds: seq<Round>)
    requires Chain(0, rounds, 2, PROD) && Mix(headers) <= rounds
    ensures rounds == Mix(headers) && Reached(rounds).bytesDone == 2
  {
    MixReached(headers);
    hide StrongValidator;
    assert Reached(Mix(headers)).bytesDone == 2 && rounds[..2] == Mix(headers);
    if |rounds| != 2 { ShortBefore(0, rounds, 2, PROD, 2); }
  }

  lemma {:induction false} ShortBefore(start: nat, rounds: seq<Round>, expected: nat, policy: RetryPolicy, k: nat)
    requires Chain(start, rounds, expected, policy) && k < |rounds| && expected != 0
    ensures Reached(rounds[..k]).bytesDone < expected
  {
    if k < |rounds| - 1 {
      assert rounds[..|rounds| - 1][..k] == rounds[..k];
      ShortBefore(start, rounds[..|rounds| - 1], expected, policy, k);
    }
  }
}
