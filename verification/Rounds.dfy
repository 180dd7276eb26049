/** The client between two attempts, as values: what an attempt may be like, what it leaves, and what the file then
    holds. Nothing here depends on how the attempts are made. */
module Rounds {
  import opened Kernel

  // ------------------------------------------------------------------ what goes over the wire

  type HeaderValue = string

  datatype Headers = Headers(etag: Option<HeaderValue>, lastModified: Option<HeaderValue>)

  datatype Status = Full | Partial | ErrorStatus | OtherStatus

  predicate Weak(tag: HeaderValue) {
    "W/" <= tag
  }

  /** What may stand in If-Range by section 13.1.5 of RFC 9110: an ETag that is not weak, or else the modification
      date. */
  function StrongValidator(h: Headers): (v: Option<HeaderValue>)
    ensures v.Some? ==>
      (v == h.etag && !("W/" <= v.value)) || (v == h.lastModified && (h.etag.None? || "W/" <= h.etag.value))
    ensures v == None ==> h.lastModified == None && (h.etag.None? || "W/" <= h.etag.value)
  {
    if h.etag.Some? && !Weak(h.etag.value) then h.etag else h.lastModified
  }

  /** One published artifact and the headers its responses carry. */
  datatype Release = Release(data: Bytes, headers: Headers)

  /** Every release has a strong validator and no two share one. */
  predicate Identified(published: seq<Release>) {
    && (forall i :: 0 <= i < |published| ==> StrongValidator(published[i].headers).Some?)
    && forall i, j :: 0 <= i < j < |published| ==>
         StrongValidator(published[i].headers) != StrongValidator(published[j].headers)
  }

  lemma SameValidator(published: seq<Release>, v: nat, w: nat)
    requires Identified(published) && v < |published| && w < |published|
    requires StrongValidator(published[v].headers) == StrongValidator(published[w].headers)
    ensures v == w
  {
  }

  lemma Identifies(published: seq<Release>, version: nat)
    requires Identified(published) && version < |published|
    ensures StrongValidator(published[version].headers).Some?
  {
  }

  // ------------------------------------------------------------------ retrying

  datatype RetryPolicy = RetryPolicy(retryInterval: nat, reconnectBudget: nat)

  // a tick is a second
  const PROD := RetryPolicy(1, 120)
  const READ_TIMEOUT: nat := 30

  /** By how much, or less, an attempt may start or end late because of the pause before it. */
  function Pause(policy: RetryPolicy): nat {
    if policy.retryInterval == 0 then 1 else policy.retryInterval
  }

  /** When a stretch of failed attempts began and how many there were; any chunk of a body ends it. */
  datatype Outage = Outage(since: nat, attempts: nat)

  function RecordFailure(outage: Option<Outage>, now: nat): Outage {
    match outage
    case None => Outage(now, 1)
    case Some(o) => o.(attempts := o.attempts + 1)
  }

  // ------------------------------------------------------------------ one round

  /** What the loop carries from attempt to attempt. */
  datatype Client = Client(bytesDone: nat, validator: Option<HeaderValue>, outage: Option<Outage>)

  const FRESH := Client(0, None, None)

  /** An attempt that ended in a retry, at `now`: nobody answered, or a body of `release` broke off after `got` bytes.
      `flowed` says whether any chunk of it came. */
  datatype Round =
    | Silent(now: nat)
    | Heard(status: Status, headers: Headers, flowed: bool, got: nat, now: nat, release: nat)

  /** When the next attempt sends its request, if the last one ended at `clock`. */
  function SendTime(c: Client, clock: nat, policy: RetryPolicy): nat {
    clock + if c.outage.Some? then policy.retryInterval else 0
  }

  /** How long it may wait for the answer. */
  function Limit(outage: Option<Outage>, clock: nat, policy: RetryPolicy): Option<nat> {
    match outage
    case None => None
    case Some(o) =>
      var end := o.since + policy.reconnectBudget;
      Some(if clock < end then (if o.since <= clock then end - clock else policy.reconnectBudget) else 0)
  }

  function IfRange(c: Client): Option<HeaderValue> {
    if c.bytesDone > 0 then c.validator else None
  }

  /** A full answer to a ranged request: the client starts over. */
  predicate Restarted(c: Client, e: Round) {
    e.Heard? && e.status == Full && c.bytesDone > 0
  }

  /** It did so although nothing told the client's bytes from the release: the origin ignored the range. */
  predicate RangeIgnored(c: Client, e: Round) {
    Restarted(c, e) && Unguarded(IfRange(c), e.headers)
  }

  predicate Unguarded(ifRange: Option<HeaderValue>, headers: Headers) {
    ifRange == None || ifRange == StrongValidator(headers)
  }

  function After(c: Client, e: Round): Client {
    match e
    case Silent(now) => c.(outage := Some(RecordFailure(c.outage, now)))
    case Heard(status, headers, flowed, got, now, _) =>
      Client((if status == Full then 0 else c.bytesDone) + got,
             if Restarted(c, e) || c.validator == None then StrongValidator(headers) else c.validator,
             Some(if flowed then Outage(now, 1) else RecordFailure(c.outage, now)))
  }

  /** A round the client can go through when it makes its next attempt after `clock`. */
  predicate Follows(c: Client, clock: nat, e: Round, policy: RetryPolicy) {
    && SendTime(c, clock, policy) <= e.now
    && (c.outage.Some? ==> c.outage.value.since <= clock < c.outage.value.since + policy.reconnectBudget)
    && (e.Heard? ==>
      (e.status == Full || (e.status == Partial && c.bytesDone > 0)) && (!e.flowed ==> e.got == 0))
  }

  /** A round an honest origin takes part in. */
  predicate FairRound(published: seq<Release>, c: Client, e: Round) {
    e.Heard? ==>
      && e.release < |published| && e.headers == published[e.release].headers && (e.flowed <==> e.got > 0)
      && (e.status == Full || (e.status == Partial && c.bytesDone > 0))
      && After(c, e).bytesDone <= |published[e.release].data|
      && (e.status == Partial ==> Unguarded(IfRange(c), e.headers))
  }

  /** What a round leaves in a file that held `content`. */
  function Stored(published: seq<Release>, content: Bytes, e: Round): Bytes {
    if e.Silent? || e.release >= |published| then content
    else
      var base := if e.status == Full then [] else content;
      var data := published[e.release].data;
      if |base| + e.got <= |data| then base + data[|base|..|base| + e.got] else base
  }

  // ------------------------------------------------------------------ many rounds

  /** Where the client stands after `rounds`. */
  function Reached(rounds: seq<Round>): Client {
    if rounds == [] then FRESH else After(Reached(rounds[..|rounds| - 1]), rounds[|rounds| - 1])
  }

  function ClockAt(start: nat, rounds: seq<Round>): nat {
    if rounds == [] then start else rounds[|rounds| - 1].now
  }

  /** The file by then, with an honest origin. */
  function Assembled(published: seq<Release>, rounds: seq<Round>): Bytes {
    if rounds == [] then []
    else Stored(published, Assembled(published, rounds[..|rounds| - 1]), rounds[|rounds| - 1])
  }

  /** A run of the loop that has not ended: before each round the count is short of what is expected. */
  predicate Chain(start: nat, rounds: seq<Round>, expected: nat, policy: RetryPolicy) {
    rounds == [] ||
    var sofar := rounds[..|rounds| - 1];
    && Chain(start, sofar, expected, policy) && (expected != 0 ==> Reached(sofar).bytesDone < expected)
    && Follows(Reached(sofar), ClockAt(start, sofar), rounds[|rounds| - 1], policy)
  }

  /** The release the last response belonged to. */
  function AtRelease(rounds: seq<Round>): nat {
    if rounds == [] then 0
    else if rounds[|rounds| - 1].Heard? then rounds[|rounds| - 1].release
    else AtRelease(rounds[..|rounds| - 1])
  }

  /** All of it with an honest origin, whose releases only get newer. */
  predicate FromReleases(published: seq<Release>, rounds: seq<Round>) {
    rounds == [] ||
    var sofar := rounds[..|rounds| - 1];
    && FromReleases(published, sofar) && FairRound(published, Reached(sofar), rounds[|rounds| - 1])
    && (rounds[|rounds| - 1].Heard? ==> AtRelease(sofar) <= rounds[|rounds| - 1].release)
  }

  function One(b: bool): nat {
    if b then 1 else 0
  }

  /** How often the client started over, and how often of those because a range was ignored. */
  function Restarts(rounds: seq<Round>): nat {
    if rounds == [] then 0
    else
      var sofar := rounds[..|rounds| - 1];
      Restarts(sofar) + One(Restarted(Reached(sofar), rounds[|rounds| - 1]))
  }

  function Ignored(rounds: seq<Round>): nat {
    if rounds == [] then 0
    else
      var sofar := rounds[..|rounds| - 1];
      Ignored(sofar) + One(RangeIgnored(Reached(sofar), rounds[|rounds| - 1]))
  }

  lemma OneMore(start: nat, rounds: seq<Round>, e: Round, expected: nat, policy: RetryPolicy)
    requires Chain(start, rounds, expected, policy) && (expected != 0 ==> Reached(rounds).bytesDone < expected)
    requires Follows(Reached(rounds), ClockAt(start, rounds), e, policy)
    ensures Chain(start, rounds + [e], expected, policy)
    ensures Reached(rounds + [e]) == After(Reached(rounds), e) && ClockAt(start, rounds + [e]) == e.now
  {
    assert (rounds + [e])[..|rounds + [e]| - 1] == rounds;
  }

  lemma OneMoreCounts(rounds: seq<Round>, e: Round)
    ensures Ignored(rounds + [e]) == Ignored(rounds) + One(RangeIgnored(Reached(rounds), e))
    ensures Restarts(rounds + [e]) == Restarts(rounds) + One(Restarted(Reached(rounds), e))
    ensures AtRelease(rounds + [e]) == if e.Heard? then e.release else AtRelease(rounds)
    ensures Reached(rounds + [e]) == After(Reached(rounds), e)
  {
    assert (rounds + [e])[..|rounds + [e]| - 1] == rounds;
  }

  lemma OneMoreFair(published: seq<Release>, rounds: seq<Round>, e: Round)
    requires FromReleases(published, rounds) && FairRound(published, Reached(rounds), e)
    requires e.Heard? ==> AtRelease(rounds) <= e.release
    ensures FromReleases(published, rounds + [e])
    ensures Assembled(published, rounds + [e]) == Stored(published, Assembled(published, rounds), e)
  {
    assert (rounds + [e])[..|rounds + [e]| - 1] == rounds;
  }

  // ------------------------------------------------------------------ whether releases are ever mixed

  /** The first `n` bytes of release `version`. */
  predicate PrefixOf(published: seq<Release>, version: nat, content: Bytes, n: nat) {
    version < |published| && n <= |published[version].data| && content == published[version].data[..n]
  }

  /** The start of one release. */
  ghost predicate Whole(published: seq<Release>, content: Bytes) {
    exists v, n: nat :: PrefixOf(published, v, content, n)
  }

  lemma {:induction false} AssembledLength(published: seq<Release>, rounds: seq<Round>)
    requires FromReleases(published, rounds)
    ensures |Assembled(published, rounds)| == Reached(rounds).bytesDone
  {
    if rounds != [] { AssembledLength(published, rounds[..|rounds| - 1]); }
  }

  /** The release whose response set the validator. */
  function SetBy(rounds: seq<Round>): nat {
    if rounds == [] then 0
    else
      var sofar, e := rounds[..|rounds| - 1], rounds[|rounds| - 1];
      if e.Heard? && (Restarted(Reached(sofar), e) || Reached(sofar).validator == None) then e.release else SetBy(sofar)
  }

  /** Where the validator comes from; it is never newer than the last response. A restart that no ignored range
      explains met a newer release. */
  ghost predicate Sourced(published: seq<Release>, rounds: seq<Round>) {
    var v := Reached(rounds).validator;
    && (v.Some? ==> SetBy(rounds) < |published| && v == StrongValidator(published[SetBy(rounds)].headers))
    && SetBy(rounds) <= AtRelease(rounds) && Restarts(rounds) <= Ignored(rounds) + SetBy(rounds)
  }

  lemma {:induction false} AlwaysSourced(published: seq<Release>, rounds: seq<Round>)
    requires FromReleases(published, rounds)
    ensures Sourced(published, rounds)
  {
    hide StrongValidator;
    if rounds != [] { AlwaysSourced(published, rounds[..|rounds| - 1]); }
  }

  /** With identified releases the client has a validator as soon as it has bytes. */
  lemma {:induction false} ValidatorKnown(published: seq<Release>, rounds: seq<Round>)
    requires Identified(published) && FromReleases(published, rounds)
    ensures Reached(rounds).validator == None ==> Reached(rounds).bytesDone == 0 && SetBy(rounds) == 0
  {
    hide StrongValidator;
    if rounds != [] {
      var e := rounds[|rounds| - 1];
      ValidatorKnown(published, rounds[..|rounds| - 1]);
      if e.Heard? { Identifies(published, e.release); }
    }
  }

  /** While validators identify releases, whatever is in the file is the start of the release the last response belonged
      to: a partial answer continues the very release the file has the start of. */
  lemma {:induction false} NeverMixed(published: seq<Release>, rounds: seq<Round>)
    requires Identified(published) && FromReleases(published, rounds)
    ensures Assembled(published, rounds) != [] ==>
      PrefixOf(published, AtRelease(rounds), Assembled(published, rounds), |Assembled(published, rounds)|)
  {
    hide StrongValidator, Identified;
    if rounds != [] {
      var sofar, e := rounds[..|rounds| - 1], rounds[|rounds| - 1];
      NeverMixed(published, sofar);
      ValidatorKnown(published, sofar);
      AlwaysSourced(published, sofar);
      AssembledLength(published, sofar);
      if e.Heard? && e.status == Partial {
        Continued(published, sofar, e);
        Longer(published, e.release, Assembled(published, sofar), e.got);
      }
    }
  }

  lemma Continued(published: seq<Release>, sofar: seq<Round>, e: Round)
    requires Identified(published) && Sourced(published, sofar) && FairRound(published, Reached(sofar), e)
    requires e.Heard? && e.status == Partial && AtRelease(sofar) <= e.release && Reached(sofar).validator.Some?
    ensures e.release == AtRelease(sofar)
  {
    hide StrongValidator, Identified;
    SameValidator(published, SetBy(sofar), e.release);
  }

  lemma Longer(published: seq<Release>, version: nat, content: Bytes, more: nat)
    requires PrefixOf(published, version, content, |content|) && |content| + more <= |published[version].data|
    ensures var all := content + published[version].data[|content|..|content| + more];
      PrefixOf(published, version, all, |all|)
  {
  }

  /** Two releases that differ from the first byte on and carry the same headers. */
  function Twins(headers: Headers): seq<Release> {
    [Release([1, 2], headers), Release([3, 4], headers)]
  }

  /** The first byte of the one, and then the rest of the other. */
  function Mix(headers: Headers): seq<Round> {
    [Heard(Full, headers, true, 1, 1, 0), Heard(Partial, headers, true, 1, 3, 1)]
  }

  lemma MixReached(headers: Headers)
    ensures var sofar, rounds := Mix(headers)[..1], Mix(headers);
      && Mix(headers)[..0] == [] && rounds[..|rounds| - 1] == sofar && sofar[..|sofar| - 1] == []
      && Reached(sofar) == Client(1, StrongValidator(headers), Some(Outage(1, 1)))
      && AtRelease(sofar) == 0 && Ignored(sofar) == 0
  {
    hide StrongValidator;
  }

  lemma MixStored(headers: Headers)
    ensures Assembled(Twins(headers), Mix(headers)) == [1, 4]
  {
    MixReached(headers);
    hide StrongValidator;
    var published, sofar := Twins(headers), Mix(headers)[..1];
    assert published[0].data[0..1] == [1] && published[1].data[1..2] == [4];
    assert Assembled(published, []) == [];
    assert Assembled(published, sofar) == [1];
  }

  lemma NoStart(headers: Headers)
    ensures !Whole(Twins(headers), [1, 4])
  {
    var published, mixed: Bytes := Twins(headers), [1, 4];
    assert |mixed| == 2 && mixed[0] == 1 && mixed[1] == 4;
    assert |published| == 2 && published[0].data[..2][1] == 2 && published[1].data[..2][0] == 3;
    forall v: nat, n: nat ensures !PrefixOf(published, v, mixed, n) {
      if v < 2 && n <= |published[v].data| && n != 2 { assert |published[v].data[..n]| == n; }
    }
  }

  lemma NotIdentified(headers: Headers)
    ensures !Identified(Twins(headers))
  {
    assert Twins(headers)[0].headers == Twins(headers)[1].headers;
  }
}
