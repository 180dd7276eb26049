/** The resumable artifact download: a client that reconnects and continues, against an origin that drops, stalls,
    ignores ranges or publishes something newer. Time is counted in ticks of an ideal clock. */
module Download {
  import opened Kernel
  import opened Rounds

  datatype Reply = Response(status: Status, headers: Headers) | TimedOut | Failed(retryable: bool)

  datatype ChunkReply = Got(bytes: Bytes) | End | Broken(retryable: bool)

  /** What an origin did: it answered a request for the bytes from `from` on, or went on with a body. */
  datatype Said = Replied(from: nat, reply: Reply) | Piece(chunk: ChunkReply)

  // ------------------------------------------------------------------ the origin

  /** Whether a request sent at `clock` may have `e` as its outcome: a failure that takes time but not too long, or a
      response in which what is got comes at once and the break within the read timeout. */
  predicate Possible(published: seq<Release>, readTimeout: nat, cur: nat, ignores: nat, clock: nat, e: Round, from: nat,
                     ifRange: Option<HeaderValue>, limit: Option<nat>)
  {
    match e
    case Silent(now) => clock < now && (limit.Some? ==> now <= clock + limit.value)
    case Heard(status, headers, flowed, got, now, release) =>
      && clock < now <= clock + readTimeout && cur <= release < |published| && headers == published[release].headers
      && (flowed <==> got > 0)
      && ((status == Full && got <= |published[release].data|
           && (from > 0 && Unguarded(ifRange, headers) ==> ignores > 0))
          || (status == Partial && 0 < from && from + got <= |published[release].data| && Unguarded(ifRange, headers)))
  }

  /** The origin, the path to it and the clock. Releases are offered in order and never taken back. An origin that is
      not `honest` may answer anything, for `events` more calls; an honest one may still ignore `ignores` ranges.
`instants` failures may take no time at all. What an honest one does next is as `script` says, as far as that is
      possible, and open after that; with `finish` the script's last body does not break off if all of it was got, but
      ends. */
  class Origin {
    const published: seq<Release>
    const honest: bool
    const readTimeout: nat
    const finish: bool
    var cur: nat
    var ignores: nat
    var events: nat
    var instants: nat
    var body: Bytes
    var clock: nat
    var lastData: nat
    var script: seq<Round>
    var served: bool
    ghost var said: seq<Said>

    ghost predicate Valid()
      reads this
    {
      cur < |published| && lastData <= clock
    }

    /** A full answer carries the current release; a partial one (section 15.3.7 of RFC 9110) continues it from the
        asked offset. */
    ghost predicate Fair(from: nat, ifRange: Option<HeaderValue>, status: Status, headers: Headers)
      reads this
      requires Valid()
    {
      && (status == Full || status == Partial ==> headers == published[cur].headers)
      && (status == Full ==> body == published[cur].data)
      && (status == Partial ==>
        0 < from <= |published[cur].data| && body == published[cur].data[from..] && Unguarded(ifRange, headers))
    }

    constructor (published: seq<Release>, honest: bool, readTimeout: nat, ignores: nat, events: nat, instants: nat,
                 script: seq<Round>, finish: bool)
      requires |published| > 0
      ensures Valid() && this.published == published && this.honest == honest && this.readTimeout == readTimeout
      ensures cur == 0 && this.ignores == ignores && this.events == events && this.instants == instants
      ensures this.script == script && this.finish == finish && clock == 0 && said == []
    {
      this.published, this.honest, this.readTimeout := published, honest, readTimeout;
      this.ignores, this.events, this.instants, this.script, this.finish := ignores, events, instants, script, finish;
      cur, body, clock, lastData, served, said := 0, [], 0, 0, false, [];
    }

    /** Time passes, and something newer may be published meanwhile. */
    method Pass(limit: nat)
      requires Valid()
      modifies this`clock, this`cur
      ensures Valid() && old(clock) <= clock <= old(clock) + limit && old(cur) <= cur
    {
      var t: nat :| t <= limit;
      var v: nat :| cur <= v < |published|;
      clock, cur := clock + t, v;
    }

    method Sleep(d: nat)
      requires Valid()
      modifies this`clock
      ensures Valid() && clock == old(clock) + d
    {
      clock := clock + d;
    }

    /** A failure takes time or is one of the instant ones; `false` if it can be neither. */
    method Fails(since: nat) returns (may: bool)
      requires since <= clock
      modifies this`instants
      ensures instants <= old(instants) && (may ==> since < clock || instants < old(instants))
    {
      may := since < clock || instants > 0;
      if may && since == clock { instants := instants - 1; }
    }

    /** What any answer to a request keeps to. By section 14.2 of RFC 9110 an origin may ignore Range; by section
        13.1.5 it must when If-Range does not match. */
    twostate predicate Answered(from: nat, ifRange: Option<HeaderValue>, limit: Option<nat>, r: Reply)
      reads this
    {
      && Valid() && old(clock) <= clock && old(cur) <= cur && ignores <= old(ignores) && events <= old(events)
      && instants <= old(instants) && lastData == old(lastData)
      && (limit.Some? ==> clock <= old(clock) + limit.value)
      && (r.TimedOut? ==> limit.Some? && clock == old(clock) + limit.value)
      && (r == Failed(true) ==> old(clock) < clock || instants < old(instants))
      && (!honest ==> events < old(events) || r == Failed(false))
      && (honest && r.Response? ==> Fair(from, ifRange, r.status, r.headers))
      && (honest && r.Response? && r.status == Full && from > 0 && Unguarded(ifRange, r.headers) ==>
        ignores < old(ignores))
    }

    /** Whether the script settles the next request. */
    predicate Settled(from: nat, ifRange: Option<HeaderValue>, limit: Option<nat>)
      reads this
    {
      honest && script != [] && Possible(published, readTimeout, cur, ignores, clock, script[0], from, ifRange, limit)
    }

    /** Whether it settles the next piece of a body. */
    predicate Serving()
      reads this
    {
      && honest && script != [] && script[0].Heard? && clock < script[0].now <= clock + readTimeout
      && (served || script[0].got <= |body|)
    }

    /** Whether that is the last body and all of it is got. */
    predicate Finishing()
      reads this
    {
      finish && |script| == 1 && script[0].Heard? && (if served then body == [] else script[0].got == |body|)
    }

    /** A GET, with `Range: bytes=from-` unless `from` is zero; only with it may there be an If-Range (section 13.1.5 of
        RFC 9110). A `limit` bounds how long it may take. */
    method Send(from: nat, ifRange: Option<HeaderValue>, limit: Option<nat>) returns (r: Reply)
      requires ifRange.Some? ==> from > 0
      requires Valid()
      modifies this
      ensures Answered(from, ifRange, limit, r) && said == old(said) + [Replied(from, r)]
      ensures old(Settled(from, ifRange, limit)) && old(script[0]).Silent? ==>
        && r == Failed(true) && clock == old(script[0]).now && cur == old(cur) && ignores == old(ignores)
        && script == old(script[1..])
      ensures old(Settled(from, ifRange, limit)) && old(script[0]).Heard? ==>
        && r == Response(old(script[0]).status, old(script[0]).headers) && clock == old(clock)
        && cur == old(script[0]).release
        && ignores == old(ignores) - One(r.status == Full && from > 0 && Unguarded(ifRange, r.headers))
        && script == old(script) && Serving() && !served
        && body == (if r.status == Full then published[cur].data else published[cur].data[from..])
    {
      if Settled(from, ifRange, limit) {
        r := Perform(from, ifRange, limit);
      } else {
        script := [];
        r := Improvise(from, ifRange, limit);
      }
      said := said + [Replied(from, r)];
    }

    method Perform(from: nat, ifRange: Option<HeaderValue>, limit: Option<nat>) returns (r: Reply)
      requires Valid() && Settled(from, ifRange, limit)
      modifies this`cur, this`served, this`body, this`ignores, this`clock, this`script
      ensures Answered(from, ifRange, limit, r)
      ensures old(script[0]).Silent? ==>
        && r == Failed(true) && clock == old(script[0]).now && cur == old(cur) && ignores == old(ignores)
        && script == old(script[1..])
      ensures old(script[0]).Heard? ==>
        && r == Response(old(script[0]).status, old(script[0]).headers) && clock == old(clock)
        && cur == old(script[0]).release
        && ignores == old(ignores) - One(r.status == Full && from > 0 && Unguarded(ifRange, r.headers))
        && script == old(script) && Serving() && !served
        && body == (if r.status == Full then published[cur].data else published[cur].data[from..])
    {
      match script[0]
      case Silent(now) =>
        clock, script := now, script[1..];
        r := Failed(true);
      case Heard(status, headers, flowed, got, now, release) =>
        cur, served := release, false;
        body := if status == Full then published[release].data else published[release].data[from..];
        if status == Full && from > 0 && Unguarded(ifRange, headers) { ignores := ignores - 1; }
        r := Response(status, headers);
    }

    method Improvise(from: nat, ifRange: Option<HeaderValue>, limit: Option<nat>) returns (r: Reply)
      requires Valid()
      modifies this`clock, this`cur, this`ignores, this`events, this`instants, this`body
      ensures Answered(from, ifRange, limit, r)
    {
      var longest: nat :| 0 <= longest;
      var start := clock;
      Pass(if limit.Some? then limit.value else longest);
      if limit.Some? && clock == start + limit.value {
        var expired: bool := *;
        if expired && (honest || events > 0) {
          if !honest { events := events - 1; }
          return TimedOut;
        }
      }
      var may := Fails(start);
      if !honest {
        if events == 0 { return Failed(false); }
        events := events - 1;
        body := *;
        r := *;
        if r.TimedOut? || (r == Failed(true) && !may) { r := Failed(false); }
        return;
      }
      var data, headers := published[cur].data, published[cur].headers;
      var trouble: nat := *;
      if trouble == 0 {
        var again: bool := *;
        r := Failed(again && may);
      } else if trouble == 2 {
        var any: Headers := *;
        r := Response(ErrorStatus, any);
      } else if trouble == 3 {
        r := Response(OtherStatus, headers);
      } else if from == 0 || !Unguarded(ifRange, headers) {
        body := data;
        r := Response(Full, headers);
      } else if trouble == 4 && ignores > 0 {
        ignores := ignores - 1;
        body := data;
        r := Response(Full, headers);
      } else if from <= |data| {
        body := data[from..];
        r := Response(Partial, headers);
      } else {
        r := Response(ErrorStatus, headers);
      }
    }

    /** What any piece of a body keeps to. A silent path breaks after the read timeout. */
    twostate predicate Delivered(c: ChunkReply)
      reads this
    {
      && Valid() && old(clock) <= clock <= old(clock) + readTimeout && old(cur) <= cur && instants <= old(instants)
      && ignores == old(ignores) && events <= old(events)
      && (c == Broken(true) ==> old(clock) < clock || instants < old(instants))
      && lastData == (if c.Got? then clock else old(lastData))
      && (!honest ==> events < old(events) || c == Broken(false))
      && (honest && c.Got? ==> c.bytes != [] && old(body) == c.bytes + body)
      && (honest && c.End? ==> old(body) == [])
    }

    /** The next piece of the body, its clean end, or a break. */
    method Chunk() returns (c: ChunkReply)
      requires Valid()
      modifies this
      ensures Delivered(c) && said == old(said) + [Piece(c)]
      ensures old(Serving()) && !old(served) && old(script[0]).got > 0 ==>
        && c == Got(old(body)[..old(script[0]).got]) && clock == old(clock) && cur == old(cur)
        && script == old(script) && served && (Finishing() <==> old(Finishing()))
      ensures old(Serving()) && !(!old(served) && old(script[0]).got > 0) ==>
        && c == (if old(Finishing()) then End else Broken(true))
        && clock == old(script[0]).now && cur == old(cur) && script == old(script[1..])
    {
      if Serving() {
        if !served && script[0].got > 0 {
          var got := script[0].got;
          c := Got(body[..got]);
          body, served, lastData := body[got..], true, clock;
        } else {
          c := if Finishing() then End else Broken(true);
          clock, script := script[0].now, script[1..];
        }
      } else {
        script := [];
        c := AnyChunk();
      }
      said := said + [Piece(c)];
    }

    method AnyChunk() returns (c: ChunkReply)
      requires Valid()
      modifies this`clock, this`cur, this`events, this`instants, this`body, this`lastData
      ensures Delivered(c)
    {
      var start := clock;
      Pass(readTimeout);
      var breaks: bool := *;
      var may := false;
      if breaks { may := Fails(start); }
      if !honest {
        if events == 0 { return Broken(false); }
        events := events - 1;
        c := *;
        if c == Broken(true) && !may { c := Broken(false); }
        if c.Got? { lastData := clock; }
        return;
      }
      if breaks {
        var again: bool := *;
        c := Broken(again && may);
      } else if body == [] {
        c := End;
      } else {
        var n: nat :| 0 < n <= |body|;
        c := Got(body[..n]);
        body := body[n..];
        lastData := clock;
      }
    }
  }

  // ------------------------------------------------------------------ the file

  /** An open file: its bytes, the position writes go to, and every content it ever had. On a `faulty` one calls may
      fail, also part way. */
  class Disk {
    var content: Bytes
    var pos: nat
    var faults: nat
    ghost var seen: seq<Bytes>
    const faulty: bool

    constructor (faulty: bool)
      ensures content == [] && pos == 0 && seen == [] && this.faulty == faulty && faults == 0
    {
      content, pos, seen, this.faulty, faults := [], 0, [], faulty, 0;
    }

    method Works() returns (ok: bool)
      modifies this`faults
      ensures (!faulty ==> ok) && faults == old(faults) + One(!ok)
    {
      ok := true;
      if faulty { ok := *; }
      if !ok { faults := faults + 1; }
    }

    /** Bytes go to the position; a failing call may have stored some of them. */
    method WriteAll(bytes: Bytes) returns (ok: bool)
      modifies this
      ensures seen == old(seen) + [content] && (!faulty ==> ok) && faults == old(faults) + One(!ok)
      ensures exists n: nat :: (
        && n <= |bytes| && (ok ==> n == |bytes|) && pos == old(pos) + n
        && content == Overwritten(old(content), old(pos), bytes[..n]))
    {
      ok := Works();
      var n: nat := |bytes|;
      if !ok { n :| 0 <= n <= |bytes|; }
      content := Overwritten(content, pos, bytes[..n]);
      pos := pos + n;
      seen := seen + [content];
    }

    /** The position stays where it is. */
    method Truncate() returns (ok: bool)
      modifies this`content, this`seen, this`faults
      ensures content == (if ok then [] else old(content)) && seen == old(seen) + [content] && (!faulty ==> ok)
      ensures faults == old(faults) + One(!ok)
    {
      ok := Works();
      if ok { content := []; }
      seen := seen + [content];
    }

    method Rewind() returns (ok: bool)
      modifies this`pos, this`faults
      ensures pos == (if ok then 0 else old(pos)) && (!faulty ==> ok) && faults == old(faults) + One(!ok)
    {
      ok := Works();
      if ok { pos := 0; }
    }
  }

  /** What a write at `pos` leaves; a gap before it reads as zeros. */
  function Overwritten(content: Bytes, pos: nat, bytes: Bytes): Bytes {
    var padded := if pos <= |content| then content else content + seq(pos - |content|, _ => 0 as byte);
    padded[..pos] + bytes + (if pos + |bytes| <= |content| then content[pos + |bytes|..] else [])
  }

  // ------------------------------------------------------------------ reading a body

  datatype DownloadError =
    | ConnectionLost(offline: nat, bytesDone: nat, expected: nat)
    | Http
    | UnexpectedStatus
    | FileError

  /** What the loop keeps: the file is as long as the count, and the next write goes to its end. */
  ghost predicate Loaded(net: Origin, file: Disk, bytesDone: nat)
    reads net, file
  {
    net.Valid() && |file.content| == bytesDone && file.pos == bytesDone
  }

  /** How long the path may have been silent, since the outage began. */
  ghost predicate Offline(net: Origin, outage: Option<Outage>, bound: nat)
    reads net
  {
    outage.Some? ==> net.lastData <= outage.value.since <= net.clock && net.clock - outage.value.since < bound
  }

  datatype BodyEnd = Complete | Dropped | GaveUp(error: DownloadError)

  // ------------------------------------------------------------------ what ends a download

  /** A refusal or a failure that trying again cannot mend. */
  predicate Refusal(s: Said) {
    || s == Piece(Broken(false))
    || (s.Replied? && (s.reply == Failed(false) || (s.reply.Response? && s.reply.status == ErrorStatus)))
  }

  /** An answer to another question. */
  predicate Odd(s: Said) {
    && s.Replied? && s.reply.Response?
    && (s.reply.status == OtherStatus || (s.reply.status == Partial && s.from == 0))
  }

  predicate Final(s: Said) {
    Refusal(s) || Odd(s) || s == Piece(End)
  }

  /** Nothing since `from` ended the download. */
  ghost predicate Open(said: seq<Said>, from: nat) {
    forall k :: from <= k < |said| ==> !Final(said[k])
  }

  /** The last thing said did. */
  ghost predicate Closed(said: seq<Said>, from: nat) {
    from < |said| && Final(said[|said| - 1]) && Open(said[..|said| - 1], from)
  }

  /** The client's answer is the one that what it was last told calls for, and it listened to nothing after that; `hit`
      says whether a call on the file failed. */
  ghost predicate Justified(said: seq<Said>, from: nat, hit: bool, r: Result<nat, DownloadError>) {
    match r
    case Ok(_) => !hit && Closed(said, from) && said[|said| - 1] == Piece(End)
    case Err(Http) => !hit && Closed(said, from) && Refusal(said[|said| - 1])
    case Err(UnexpectedStatus) => !hit && Closed(said, from) && Odd(said[|said| - 1])
    case Err(FileError) => hit && Open(said, from)
    case Err(ConnectionLost(_, _, _)) => false
  }

  lemma OpenMore(said: seq<Said>, from: nat, s: Said)
    requires Open(said, from) && from <= |said|
    ensures !Final(s) ==> Open(said + [s], from)
    ensures Final(s) ==> Closed(said + [s], from)
  {
    assert (said + [s])[..|said + [s]| - 1] == said;
  }

  lemma OpenJoined(said: seq<Said>, from: nat, more: seq<Said>, hit: bool, r: Result<nat, DownloadError>)
    requires Open(said, from) && from <= |said| && said <= more
    ensures Open(more, |said|) ==> Open(more, from)
    ensures Justified(more, |said|, hit, r) ==> Justified(more, from, hit, r)
  {
    assert forall k :: 0 <= k < |said| ==> more[k] == said[k];
    if Closed(more, |said|) {
      var rest := more[..|more| - 1];
      assert forall k :: 0 <= k < |said| ==> rest[k] == said[k];
      assert Open(rest, from);
    }
  }

  lemma Extended(content: Bytes, bytes: Bytes, n: nat)
    requires n <= |bytes|
    ensures Overwritten(content, |content|, bytes[..n]) == content + bytes[..n]
  {
  }

  /** `content` is the base with the bytes of `data` from `start` to `end`. */
  ghost predicate Extends(base: Bytes, data: Bytes, start: nat, end: nat, content: Bytes) {
    start <= end <= |data| && content == base + data[start..end]
  }

  ghost predicate SomeExtended(base: Bytes, data: Bytes, start: nat, content: Bytes) {
    exists end: nat :: Extends(base, data, start, end, content)
  }

  /** Every content since `from` is the base so extended. */
  ghost predicate OnlyExtended(base: Bytes, data: Bytes, start: nat, seen: seq<Bytes>, from: nat) {
    forall k :: from <= k < |seen| ==> SomeExtended(base, data, start, seen[k])
  }

  lemma OneExtended(base: Bytes, data: Bytes, start: nat, seen: seq<Bytes>, from: nat, content: Bytes)
    requires OnlyExtended(base, data, start, seen, from) && SomeExtended(base, data, start, content)
    ensures OnlyExtended(base, data, start, seen + [content], from)
  {
    hide SomeExtended;
  }

  lemma NoneExtended(base: Bytes, data: Bytes, start: nat, seen: seq<Bytes>)
    ensures OnlyExtended(base, data, start, seen, |seen|)
  {
  }

  lemma StartExtended(base: Bytes, data: Bytes, start: nat)
    requires start <= |data|
    ensures Extends(base, data, start, start, base)
  {
  }

  lemma EndExtended(base: Bytes, data: Bytes, start: nat, end: nat, content: Bytes)
    requires Extends(base, data, start, end, content) && data[end..] == []
    ensures end == |data|
  {
  }

  lemma NextBytes(base: Bytes, data: Bytes, start: nat, done: nat, content: Bytes, got: Bytes, rest: Bytes, n: nat)
    requires Extends(base, data, start, done, content) && data[done..] == got + rest && n <= |got|
    ensures Extends(base, data, start, done + n, content + got[..n])
    ensures n == |got| ==> data[done + n..] == rest
  {
    assert |data| - done == |got| + |rest|;
    assert data[done..done + n] == data[done..][..n] == got[..n];
    assert data[start..done + n] == data[start..done] + data[done..done + n];
    if n == |got| { assert data[done + n..] == data[done..][n..]; }
  }

  /** Stores the next piece of a body. */
  method Store(file: Disk, ghost honest: bool, ghost base: Bytes, ghost data: Bytes, ghost start: nat, done: nat,
               bytes: Bytes, ghost rest: Bytes)
    returns (ok: bool)
    requires |file.content| == done && file.pos == done
    requires honest ==> Extends(base, data, start, done, file.content) && data[done..] == bytes + rest
    modifies file
    ensures ok ==> |file.content| == done + |bytes| && file.pos == done + |bytes|
    ensures ok && honest ==> Extends(base, data, start, done + |bytes|, file.content) && data[done + |bytes|..] == rest
    ensures |file.seen| == |old(file.seen)| + 1 && file.seen[..|old(file.seen)|] == old(file.seen)
    ensures honest ==> SomeExtended(base, data, start, file.seen[|old(file.seen)|])
    ensures (!file.faulty ==> ok) && file.faults == old(file.faults) + One(!ok)
  {
    ghost var content := file.content;
    ok := file.WriteAll(bytes);
    ghost var n: nat :| n <= |bytes| && (ok ==> n == |bytes|) && file.pos == done + n
      && file.content == Overwritten(content, done, bytes[..n]);
    Extended(content, bytes, n);
    if honest {
      NextBytes(base, data, start, done, content, bytes, rest, n);
      assert Extends(base, data, start, done + n, file.content);
    }
  }

  /** The next piece of a body, stored. */
  method Receive(net: Origin, file: Disk, ghost base: Bytes, ghost data: Bytes, ghost start: nat, ghost from: nat,
                 done: nat)
    returns (c: ChunkReply, ok: bool, now: nat)
    requires Loaded(net, file, done) && from <= |file.seen|
    requires net.honest ==> Extends(base, data, start, done, file.content) && net.body == data[done..]
    requires net.honest ==> OnlyExtended(base, data, start, file.seen, from)
    modifies net, file
    ensures net.Delivered(c) && old(file.seen) <= file.seen && net.said == old(net.said) + [Piece(c)]
    ensures file.faults == old(file.faults) + One(!ok)
    ensures net.honest ==> OnlyExtended(base, data, start, file.seen, from)
    ensures c.Got? && ok ==> now == done + |c.bytes|
    ensures !c.Got? ==> ok && now == done && (net.honest && c.End? ==> done == |data|)
    ensures ok ==> Loaded(net, file, now)
    ensures ok && net.honest ==>
      Extends(base, data, start, now, file.content) && (c.Got? ==> net.body == data[now..] && now > done)
    ensures !file.faulty ==> ok
    ensures old(net.Serving()) && !old(net.served) && old(net.script[0]).got > 0 ==>
      && c.Got? && |c.bytes| == old(net.script[0]).got && net.clock == old(net.clock) && net.cur == old(net.cur)
      && net.script == old(net.script) && net.served && (net.Finishing() <==> old(net.Finishing()))
    ensures old(net.Serving()) && !(!old(net.served) && old(net.script[0]).got > 0) ==>
      && c == (if old(net.Finishing()) then End else Broken(true)) && net.clock == old(net.script[0]).now
      && net.cur == old(net.cur) && net.script == old(net.script[1..])
  {
    hide Extends, OnlyExtended, SomeExtended;
    ghost var sofar := file.seen;
    c := net.Chunk();
    ok, now := true, done;
    if c.Got? {
      ok := Store(file, net.honest, base, data, start, done, c.bytes, net.body);
      assert file.seen == sofar + [file.seen[|sofar|]];
      if net.honest { OneExtended(base, data, start, sofar, from, file.seen[|sofar|]); }
      now := done + |c.bytes|;
    } else if c.End? && net.honest {
      EndExtended(base, data, start, done, file.content);
    }
  }

  /** Streams one response body into the file until it ends, breaks or cannot be stored. */
  method ReadBody(net: Origin, file: Disk, start: nat, before: Option<Outage>, policy: RetryPolicy, ghost data: Bytes)
    returns (r: BodyEnd, bytesDone: nat, outage: Option<Outage>, ghost flowed: bool)
    requires Loaded(net, file, start)
    requires net.honest ==> start <= |data| && net.body == data[start..]
    requires Offline(net, before, policy.reconnectBudget + Pause(policy))
    modifies net, file
    ensures net.Valid() && old(net.clock) <= net.clock && old(net.cur) <= net.cur && net.ignores == old(net.ignores)
    ensures r.Complete? || r.Dropped? ==> Loaded(net, file, bytesDone) && start <= bytesDone
    ensures net.honest && !r.GaveUp? ==> Extends(old(file.content), data, start, bytesDone, file.content)
    ensures net.honest && r.Complete? ==> bytesDone == |data|
    ensures r.Dropped? ==>
      outage.Some? && Offline(net, outage, policy.reconnectBudget + Pause(policy) + net.readTimeout)
    ensures r.Dropped? ==> outage == Some(if flowed then Outage(net.clock, 1) else RecordFailure(before, net.clock))
    ensures !r.GaveUp? ==> (!flowed ==> bytesDone == start) && (net.honest ==> (flowed <==> bytesDone > start))
    ensures net.instants <= old(net.instants)
    ensures r.Dropped? ==> old(net.clock) < net.clock || net.instants < old(net.instants)
    ensures r.GaveUp? ==> Justified(net.said, old(|net.said|), old(file.faults) < file.faults, Err(r.error))
    ensures r.Complete? ==> Justified(net.said, old(|net.said|), old(file.faults) < file.faults, Ok(bytesDone))
    ensures r.Dropped? ==> Open(net.said, old(|net.said|)) && file.faults == old(file.faults)
    ensures !net.honest && r.Dropped? ==> net.events < old(net.events)
    ensures old(file.seen) <= file.seen && old(net.said) <= net.said && old(file.faults) <= file.faults
    ensures net.honest ==> OnlyExtended(old(file.content), data, start, file.seen, old(|file.seen|))
    ensures old(net.Serving()) && !old(net.served) && !file.faulty ==>
      && r == (if old(net.Finishing()) then Complete else Dropped) && bytesDone == start + old(net.script[0]).got
      && net.clock == old(net.script[0]).now && net.cur == old(net.cur) && net.script == old(net.script[1..])
  {
    hide SomeExtended, Open, Closed, Final, Refusal;
    ghost var base, from, settled := file.content, |file.seen|, net.Serving() && !net.served && !file.faulty;
    ghost var finishing, silence := net.Finishing(), |net.said|;
    ghost var got := if net.script != [] && net.script[0].Heard? then net.script[0].got else 0;
    bytesDone, outage, flowed := start, before, false;
    if net.honest { StartExtended(base, data, start); }
    NoneExtended(base, data, start, file.seen);
    NothingYet(net.said);
    while true
      invariant Loaded(net, file, bytesDone) && start <= bytesDone
      invariant old(net.clock) <= net.clock && old(net.cur) <= net.cur && net.events <= old(net.events)
      invariant net.ignores == old(net.ignores) && net.instants <= old(net.instants)
      invariant net.honest ==> Extends(base, data, start, bytesDone, file.content) && net.body == data[bytesDone..]
      invariant Offline(net, outage, policy.reconnectBudget + Pause(policy))
      invariant outage == (if flowed then None else before) && (!flowed ==> bytesDone == start)
      invariant net.honest ==> (flowed <==> bytesDone > start)
      invariant old(file.seen) <= file.seen && (net.honest ==> OnlyExtended(base, data, start, file.seen, from))
      invariant settled ==>
        net.Serving() && net.script == old(net.script) && net.clock == old(net.clock) && net.cur == old(net.cur)
      invariant settled ==> bytesDone == start + (if net.served then got else 0) && (net.served ==> got > 0)
      invariant settled ==> (net.Finishing() <==> finishing)
      invariant old(net.said) <= net.said && Open(net.said, silence) && file.faults == old(file.faults)
      decreases if net.honest then 0 else net.events, |net.body|
    {
      ghost var told := net.said;
      var chunk, ok, now := Receive(net, file, base, data, start, from, bytesDone);
      OpenMore(told, silence, Piece(chunk));
      FinalPiece(chunk);
      if !ok { return GaveUp(FileError), bytesDone, outage, flowed; }
      match chunk {
        case Got(_) =>
          bytesDone, outage, flowed := now, None, true;
        case End =>
          return Complete, bytesDone, outage, flowed;
        case Broken(retryable) =>
          if !retryable { return GaveUp(Http), bytesDone, outage, flowed; }
          outage := Some(RecordFailure(outage, net.clock));
          return Dropped, bytesDone, outage, flowed;
      }
    }
  }

  lemma NothingYet(said: seq<Said>)
    ensures Open(said, |said|)
  {
  }

  lemma FinalPiece(c: ChunkReply)
    ensures Final(Piece(c)) <==> c == End || c == Broken(false)
    ensures Refusal(Piece(c)) <==> c == Broken(false)
  {
  }

  // ------------------------------------------------------------------ one response

  /** Starting over: the file and the position go back to zero. */
  method StartOver(file: Disk) returns (ok: bool)
    modifies file
    ensures ok ==> file.content == [] && file.pos == 0
    ensures file.seen == old(file.seen) + [file.content] && (file.content == [] || file.content == old(file.content))
    ensures (!file.faulty ==> ok) && file.faults == old(file.faults) + One(!ok)
  {
    ok := file.Truncate();
    if !ok { return; }
    ok := file.Rewind();
  }

  /** What the status means for the file: go on, start over, or give up. */
  method Accept(net: Origin, file: Disk, status: Status, headers: Headers, start: nat, before: Option<HeaderValue>)
    returns (r: Result<(), DownloadError>, bytesDone: nat, validator: Option<HeaderValue>)
    requires Loaded(net, file, start)
    requires net.honest ==> net.Fair(start, if start > 0 then before else None, status, headers)
    modifies file
    ensures r.Ok? ==> Loaded(net, file, bytesDone)
    ensures r.Ok? ==> file.content == if status == Full then [] else old(file.content)
    ensures r.Ok? && net.honest ==>
      bytesDone <= |net.published[net.cur].data| && net.body == net.published[net.cur].data[bytesDone..]
    ensures r.Ok? ==> (status == Full && bytesDone == 0) || (status == Partial && 0 < bytesDone == start)
    ensures r.Ok? ==>
      validator == if (status == Full && start > 0) || before == None then StrongValidator(headers) else before
    ensures r.Err? ==>
      if old(file.faults) < file.faults then r.error == FileError
      else if status == ErrorStatus then r.error == Http
      else r.error == UnexpectedStatus && (status == OtherStatus || (status == Partial && start == 0))
    ensures r.Ok? ==> file.faults == old(file.faults)
    ensures old(file.seen) <= file.seen && old(file.faults) <= file.faults
    ensures old(file.faults) < file.faults ==> status == Full
    ensures forall k :: |old(file.seen)| <= k < |file.seen| ==>
      file.seen[k] == old(file.content) || (status == Full && file.seen[k] == [])
    ensures !file.faulty && (status == Full || (status == Partial && start > 0)) ==> r.Ok?
  {
    bytesDone, validator := start, before;
    if status == Partial && bytesDone > 0 {
    } else if status == Full {
      if bytesDone > 0 {
        var ok := StartOver(file);
        if !ok { return Err(FileError), bytesDone, validator; }
        bytesDone, validator := 0, None;
      }
    } else if status == ErrorStatus {
      return Err(Http), bytesDone, validator;
    } else {
      return Err(UnexpectedStatus), bytesDone, validator;
    }
    if validator.None? { validator := StrongValidator(headers); }
    r := Ok(());
  }

  /** A content the file may have in the middle of a fair round. */
  ghost predicate Halfway(published: seq<Release>, base: Bytes, c: Client, cur: nat, content: Bytes) {
    || content == base
    || exists e: Round ::
      e.Heard? && e.release == cur && FairRound(published, c, e) && content == Stored(published, base, e)
  }

  ghost predicate AllHalfway(published: seq<Release>, base: Bytes, c: Client, cur: nat, seen: seq<Bytes>, from: nat) {
    forall k :: from <= k < |seen| ==> Halfway(published, base, c, cur, seen[k])
  }

  /** An answer of that kind, read as far as `got`. */
  function ReadSoFar(status: Status, headers: Headers, got: nat, release: nat): Round {
    Heard(status, headers, got > 0, got, 0, release)
  }

  lemma ExtendsHalfway(published: seq<Release>, base: Bytes, c: Client, cur: nat, status: Status, end: nat,
                       content: Bytes)
    requires cur < |published| && |base| == c.bytesDone && (status == Full || (status == Partial && c.bytesDone > 0))
    requires status == Partial ==> Unguarded(IfRange(c), published[cur].headers)
    requires
      var first := if status == Full then [] else base; Extends(first, published[cur].data, |first|, end, content)
    ensures Halfway(published, base, c, cur, content)
  {
    var first := if status == Full then [] else base;
    var e := ReadSoFar(status, published[cur].headers, end - |first|, cur);
    assert FairRound(published, c, e) && content == Stored(published, base, e);
  }

  /** The script's next round is such a response. */
  predicate Fits(e: Round, status: Status, headers: Headers, cur: nat, start: nat) {
    && e.Heard? && status == e.status && headers == e.headers && cur == e.release && (e.flowed <==> e.got > 0)
    && (status == Full || (status == Partial && start > 0))
  }

  /** What a response alone decides. */
  lemma AnswerCloses(said: seq<Said>, from: nat, status: Status, headers: Headers)
    requires said != [] && said[|said| - 1] == Replied(from, Response(status, headers))
    ensures status == ErrorStatus ==> Justified(said, |said| - 1, false, Err(Http))
    ensures status == OtherStatus || (status == Partial && from == 0) ==>
      Justified(said, |said| - 1, false, Err(UnexpectedStatus))
    ensures status == Full || (status == Partial && from > 0) ==> Open(said, |said| - 1)
    ensures status == Full ==> Justified(said, |said| - 1, true, Err(FileError))
  {
  }

  /** A response: judged by its status, then read as far as it goes. `round` tells it as what it was; a body that was
      read to its end counts as one that broke off there. */
  method Answered(net: Origin, file: Disk, policy: RetryPolicy, status: Status, headers: Headers, c: Client)
    returns (r: Option<Result<nat, DownloadError>>, after: Client, ghost round: Round)
    requires Loaded(net, file, c.bytesDone)
    requires net.honest ==> net.Fair(c.bytesDone, IfRange(c), status, headers)
    requires Offline(net, c.outage, policy.reconnectBudget + Pause(policy))
    requires net.said != [] && net.said[|net.said| - 1] == Replied(c.bytesDone, Response(status, headers))
    modifies net, file
    ensures net.Valid() && old(net.cur) <= net.cur && old(net.clock) <= net.clock && net.instants <= old(net.instants)
    ensures net.ignores == old(net.ignores) && old(file.seen) <= file.seen
    ensures net.honest ==>
      AllHalfway(net.published, old(file.content), c, old(net.cur), file.seen, old(|file.seen|))
    ensures r.None? ==> Loaded(net, file, after.bytesDone) && after == After(c, round)
    ensures r.None? ==> Offline(net, after.outage, policy.reconnectBudget + Pause(policy) + net.readTimeout)
    ensures r.None? || r.value.Ok? ==>
      && round.Heard? && round.status == status && round.headers == headers && round.now == net.clock
      && round.release == old(net.cur)
      && (status == Full || (status == Partial && c.bytesDone > 0)) && (!round.flowed ==> round.got == 0)
    ensures (r.None? || r.value.Ok?) && net.honest ==>
      FairRound(net.published, c, round) && file.content == Stored(net.published, old(file.content), round)
    ensures r.None? ==> old(net.clock) < net.clock || net.instants < old(net.instants)
    ensures r.None? && !net.honest ==> net.events < old(net.events)
    ensures r.Some? && r.value.Ok? ==> Loaded(net, file, r.value.value)
    ensures r.Some? && r.value.Ok? && net.honest ==> |file.content| == |net.published[round.release].data|
    ensures old(net.said) <= net.said && old(file.faults) <= file.faults
    ensures r.Some? ==> Justified(net.said, old(|net.said|) - 1, old(file.faults) < file.faults, r.value)
    ensures r.None? ==> Open(net.said, old(|net.said|) - 1) && file.faults == old(file.faults)
    ensures old(net.Serving()) && !old(net.served) && !file.faulty ==>
      Fits(old(net.script[0]), status, headers, old(net.cur), c.bytesDone) ==>
      && (if old(net.Finishing()) then r.Some? && r.value.Ok? else r.None?)
      && round == old(net.script[0]) && net.cur == old(net.cur) && net.script == old(net.script[1..])
  {
    hide StrongValidator, Stored, Open, Closed, Final, Refusal, Odd;
    ghost var told := net.said;
    AnswerCloses(told, c.bytesDone, status, headers);
    after, round := c, Silent(0);
    ghost var base, cur := file.content, net.cur;
    ghost var data := net.published[cur].data;
    var accepted, bytesDone, validator;
    accepted, bytesDone, validator := Accept(net, file, status, headers, c.bytesDone, c.validator);
    ghost var first, sofar := bytesDone, file.seen;
    if net.honest { KeptHalfway(net.published, base, c, cur, status, file.seen, old(|file.seen|)); }
    if accepted.Err? { return Some(Err(accepted.error)), after, round; }
    var body, outage;
    ghost var flowed;
    body, bytesDone, outage, flowed := ReadBody(net, file, bytesDone, c.outage, policy, data);
    if net.honest { MoreHalfway(net.published, base, c, cur, status, sofar, file.seen, old(|file.seen|)); }
    match body {
      case Complete => r := Some(Ok(bytesDone));
      case GaveUp(e) => r := Some(Err(e));
      case Dropped => r := None;
    }
    OpenJoined(told, |told| - 1, net.said, old(file.faults) < file.faults, if r.Some? then r.value else Ok(0));
    after := Client(bytesDone, validator, outage);
    if !body.GaveUp? {
      round := Heard(status, headers, flowed, bytesDone - first, net.clock, cur);
      if net.honest { StoredBy(net.published, base, round, bytesDone, file.content); }
    }
  }

  lemma StoredBy(published: seq<Release>, base: Bytes, e: Round, end: nat, content: Bytes)
    requires e.Heard? && e.release < |published|
    requires var first := if e.status == Full then [] else base;
      end == |first| + e.got && Extends(first, published[e.release].data, |first|, end, content)
    ensures content == Stored(published, base, e)
  {
  }

  lemma KeptHalfway(published: seq<Release>, base: Bytes, c: Client, cur: nat, status: Status, seen: seq<Bytes>,
                    from: nat)
    requires cur < |published| && |base| == c.bytesDone
    requires forall k :: from <= k < |seen| ==> seen[k] == base || (status == Full && seen[k] == [])
    ensures AllHalfway(published, base, c, cur, seen, from)
  {
    forall k | from <= k < |seen| ensures Halfway(published, base, c, cur, seen[k]) {
      if seen[k] != base {
        assert Extends([], published[cur].data, 0, 0, []);
        ExtendsHalfway(published, base, c, cur, Full, 0, []);
      }
    }
  }

  lemma MoreHalfway(published: seq<Release>, base: Bytes, c: Client, cur: nat, status: Status, sofar: seq<Bytes>,
                    seen: seq<Bytes>, from: nat)
    requires cur < |published| && |base| == c.bytesDone && (status == Full || (status == Partial && c.bytesDone > 0))
    requires status == Partial ==> Unguarded(IfRange(c), published[cur].headers)
    requires AllHalfway(published, base, c, cur, sofar, from) && sofar <= seen
    requires var first := if status == Full then [] else base;
      OnlyExtended(first, published[cur].data, |first|, seen, |sofar|)
    ensures AllHalfway(published, base, c, cur, seen, from)
  {
    var first := if status == Full then [] else base;
    hide Halfway;
    forall k | from <= k < |seen| ensures Halfway(published, base, c, cur, seen[k]) {
      if k < |sofar| {
        assert seen[k] == sofar[k];
      } else {
        assert SomeExtended(first, published[cur].data, |first|, seen[k]);
        var end: nat :| Extends(first, published[cur].data, |first|, end, seen[k]);
        ExtendsHalfway(published, base, c, cur, status, end, seen[k]);
      }
    }
  }

  // ------------------------------------------------------------------ why it ends

  /** What is left before the client must stop: publications, ignored ranges, an outdated validator, bytes, instant
      failures, patience. */
  datatype Rank = Rank(events: nat, releases: nat, ignores: nat, stale: nat, bytes: nat, instants: nat, patience: nat)

  predicate Below(a: Rank, b: Rank) {
    || a.events < b.events
    || (a.events == b.events &&
        (a.releases < b.releases
         || (a.releases == b.releases &&
             (a.ignores < b.ignores
              || (a.ignores == b.ignores &&
                  (a.stale < b.stale
                   || (a.stale == b.stale && (a.bytes < b.bytes || (a.bytes == b.bytes && BelowInTime(a, b))))))))))
  }

  predicate BelowInTime(a: Rank, b: Rank) {
    a.instants < b.instants || (a.instants == b.instants && a.patience < b.patience)
  }

  function StaleRank(published: seq<Release>, cur: nat, validator: Option<HeaderValue>): nat
    requires cur < |published|
  {
    One(validator.Some? && validator != StrongValidator(published[cur].headers))
  }

  function BytesRank(published: seq<Release>, cur: nat, bytesDone: nat): nat
    requires cur < |published|
  {
    if bytesDone <= |published[cur].data| then |published[cur].data| - bytesDone else 0
  }

  function PatienceRank(clock: nat, outage: Option<Outage>, policy: RetryPolicy): nat {
    match outage
    case None => policy.reconnectBudget + 1
    case Some(o) => if clock < o.since + policy.reconnectBudget then o.since + policy.reconnectBudget - clock else 0
  }

  function RankAt(published: seq<Release>, cur: nat, events: nat, ignores: nat, instants: nat, clock: nat, c: Client,
                  policy: RetryPolicy): Rank
    requires cur < |published|
  {
    Rank(events, |published| - cur, ignores, StaleRank(published, cur, c.validator),
         BytesRank(published, cur, c.bytesDone), instants, PatienceRank(clock, c.outage, policy))
  }

  ghost function RankOf(net: Origin, c: Client, policy: RetryPolicy): Rank
    reads net
    requires net.Valid()
  {
    RankAt(net.published, net.cur, if net.honest then 0 else net.events, net.ignores, net.instants, net.clock, c,
           policy)
  }

  /** Patience shrinks from attempt to attempt while no bytes arrive, unless no time passes. */
  lemma LessPatience(policy: RetryPolicy, clock: nat, since: Option<Outage>, later: nat, outage: Outage)
    requires clock <= later && outage.since <= later
    requires since.Some? ==> since.value.since <= clock < since.value.since + policy.reconnectBudget
    requires since.Some? ==> outage.since == since.value.since && clock + policy.retryInterval <= later
    ensures PatienceRank(later, Some(outage), policy) < PatienceRank(clock, since, policy)
      || (since.Some? && later == clock && policy.retryInterval == 0)
    ensures PatienceRank(later, Some(outage), policy) <= PatienceRank(clock, since, policy)
  {
  }

  /** Bytes stored, or a restart with the current validator, bring the end closer; a stall leaves all but the
      patience. */
  lemma BodyRank(published: seq<Release>, c: Client, e: Round)
    requires FairRound(published, c, e) && e.Heard? && !RangeIgnored(c, e)
    ensures
      var stale, left := StaleRank(published, e.release, c.validator), BytesRank(published, e.release, c.bytesDone);
      var staleAfter := StaleRank(published, e.release, After(c, e).validator);
      var leftAfter := BytesRank(published, e.release, After(c, e).bytesDone);
      if Restarted(c, e) then staleAfter < stale
      else staleAfter == stale && (if e.got > 0 then leftAfter < left else leftAfter == left)
  {
    hide StrongValidator;
  }

  /** Every round of an honest origin brings the end closer. */
  lemma RoundRank(published: seq<Release>, cur: nat, later: nat, ignores: nat, fewer: nat, instants: nat, left: nat,
                  clock: nat, c: Client, e: Round, policy: RetryPolicy)
    requires cur <= later < |published| && fewer <= ignores && left <= instants
    requires Follows(c, clock, e, policy) && FairRound(published, c, e)
    requires e.Heard? ==> cur <= e.release <= later
    requires RangeIgnored(c, e) ==> fewer < ignores
    requires c.outage.Some? && e.now == clock && !(e.Heard? && e.flowed) ==> left < instants
    ensures Below(RankAt(published, later, 0, fewer, left, e.now, After(c, e), policy),
                  RankAt(published, cur, 0, ignores, instants, clock, c, policy))
  {
    hide StrongValidator, StaleRank, BytesRank, PatienceRank;
    if e.Silent? || !e.flowed { LessPatience(policy, clock, c.outage, e.now, After(c, e).outage.value); }
    if e.Heard? && cur == later && !RangeIgnored(c, e) { BodyRank(published, c, e); }
  }

  lemma EventsFell(published: seq<Release>, cur: nat, later: nat, events: nat, fewer: nat, ignores: nat, now: nat,
                   instants: nat, left: nat, clock: nat, end: nat, c: Client, after: Client, policy: RetryPolicy)
    requires cur < |published| && later < |published| && fewer < events
    ensures Below(RankAt(published, later, fewer, now, left, end, after, policy),
                  RankAt(published, cur, events, ignores, instants, clock, c, policy))
  {
  }

  /** Either way the rank falls. */
  lemma RankFell(published: seq<Release>, honest: bool, cur: nat, later: nat, events: nat, fewer: nat, ignores: nat,
                 now: nat, instants: nat, left: nat, clock: nat, end: nat, c: Client, after: Client, e: Round,
                 policy: RetryPolicy)
    requires cur <= later < |published| && now <= ignores && left <= instants && after == After(c, e) && e.now == end
    requires Follows(c, clock, e, policy) && (honest ==> FairRound(published, c, e))
    requires honest && e.Heard? ==> cur <= e.release <= later
    requires honest && RangeIgnored(c, e) ==> now < ignores
    requires c.outage.Some? && end == clock && !(e.Heard? && e.flowed) ==> left < instants
    requires !honest ==> fewer < events
    ensures Below(RankAt(published, later, if honest then 0 else fewer, now, left, end, after, policy),
                  RankAt(published, cur, if honest then 0 else events, ignores, instants, clock, c, policy))
  {
    hide Below, RankAt, FairRound, Follows, RangeIgnored;
    if honest {
      RoundRank(published, cur, later, ignores, now, instants, left, clock, c, e, policy);
    } else {
      EventsFell(published, cur, later, events, fewer, ignores, now, instants, left, clock, end, c, after, policy);
    }
  }

  /** Nobody answered: nothing but the outage changes. */
  lemma QuietRound(published: seq<Release>, c: Client, e: Round, content: Bytes)
    requires e.Silent?
    ensures After(c, e) == c.(outage := Some(RecordFailure(c.outage, e.now))) && FairRound(published, c, e)
    ensures Stored(published, content, e) == content && !RangeIgnored(c, e)
  {
  }

  // ------------------------------------------------------------------ one attempt

  lemma PossibleFits(published: seq<Release>, readTimeout: nat, cur: nat, ignores: nat, clock: nat, e: Round, from: nat,
                     ifRange: Option<HeaderValue>, limit: Option<nat>)
    requires Possible(published, readTimeout, cur, ignores, clock, e, from, ifRange, limit)
    ensures e.Heard? ==> Fits(e, e.status, e.headers, e.release, from)
  {
  }

  /** Whether the script settles the next attempt. */
  ghost predicate Scripted(net: Origin, c: Client, policy: RetryPolicy)
    reads net
  {
    && net.honest && net.script != []
    && var t := SendTime(c, net.clock, policy);
       Possible(net.published, net.readTimeout, net.cur, net.ignores, t, net.script[0], c.bytesDone, IfRange(c),
                Limit(c.outage, t, policy))
  }

  function Later(a: nat, b: nat): nat {
    if a < b then b else a
  }

  /** The pause, if the last attempt failed, and the request. While offline it may take exactly what is left of the
      budget. */
  method Ask(net: Origin, policy: RetryPolicy, c: Client) returns (r: Reply)
    requires net.Valid()
    requires c.outage.Some? ==>
      net.lastData <= c.outage.value.since <= net.clock < c.outage.value.since + policy.reconnectBudget
    modifies net
    ensures net.Valid() && old(net.cur) <= net.cur && net.ignores <= old(net.ignores)
    ensures net.instants <= old(net.instants)
    ensures net.events <= old(net.events) && SendTime(c, old(net.clock), policy) <= net.clock
    ensures Offline(net, c.outage, policy.reconnectBudget + Pause(policy)) && net.lastData == old(net.lastData)
    ensures net.said == old(net.said) + [Replied(c.bytesDone, r)]
    ensures r.TimedOut? ==>
      && c.outage.Some?
      && net.clock == Later(c.outage.value.since + policy.reconnectBudget, SendTime(c, old(net.clock), policy))
    ensures !r.Response? && r != Failed(false) && c.outage.Some? ==>
      old(net.clock) < net.clock || net.instants < old(net.instants)
    ensures !net.honest ==> net.events < old(net.events) || r == Failed(false)
    ensures net.honest && r.Response? ==> net.Fair(c.bytesDone, IfRange(c), r.status, r.headers)
    ensures net.honest && r.Response? && r.status == Full && c.bytesDone > 0 && Unguarded(IfRange(c), r.headers) ==>
      net.ignores < old(net.ignores)
    ensures old(Scripted(net, c, policy)) && old(net.script[0]).Silent? ==>
      && r == Failed(true) && net.clock == old(net.script[0]).now && net.cur == old(net.cur)
      && net.ignores == old(net.ignores) && net.script == old(net.script[1..])
    ensures old(Scripted(net, c, policy)) && old(net.script[0]).Heard? ==>
      && r.Response? && Fits(old(net.script[0]), r.status, r.headers, net.cur, c.bytesDone)
      && net.ignores == old(net.ignores) - One(RangeIgnored(c, old(net.script[0])))
      && net.script == old(net.script) && net.Serving() && !net.served
      && net.body == (if r.status == Full then net.published[net.cur].data
                      else net.published[net.cur].data[c.bytesDone..])
  {
    hide StrongValidator, Possible;
    ghost var e, t := if net.script != [] then net.script[0] else Silent(0), SendTime(c, net.clock, policy);
    if Scripted(net, c, policy) {
      PossibleFits(net.published, net.readTimeout, net.cur, net.ignores, t, e, c.bytesDone, IfRange(c),
                   Limit(c.outage, t, policy));
    }
    if c.outage.Some? { net.Sleep(policy.retryInterval); }
    r := net.Send(c.bytesDone, IfRange(c), Limit(c.outage, net.clock, policy));
  }

  lemma NoAnswer(from: nat, r: Reply)
    requires !r.Response?
    ensures Final(Replied(from, r)) <==> r == Failed(false)
    ensures Refusal(Replied(from, r)) <==> r == Failed(false)
  {
  }

  /** Whether the script's next round is its last and the whole rest of a body, served to its end. */
  ghost predicate Ends(net: Origin, c: Client)
    reads net
  {
    && net.finish && |net.script| == 1 && net.script[0].Heard? && net.script[0].release < |net.published|
    && After(c, net.script[0]).bytesDone == |net.published[net.script[0].release].data|
  }

  /** One attempt: a request and as much of its body as arrives. `None` means try again, after `round`. */
  method Attempt(net: Origin, file: Disk, policy: RetryPolicy, c: Client)
    returns (r: Option<Result<nat, DownloadError>>, after: Client, ghost round: Round)
    requires Loaded(net, file, c.bytesDone)
    requires c.outage.Some? ==>
      net.lastData <= c.outage.value.since <= net.clock < c.outage.value.since + policy.reconnectBudget
    modifies net, file
    ensures net.Valid() && old(net.cur) <= net.cur && net.ignores <= old(net.ignores) && old(file.seen) <= file.seen
    ensures net.instants <= old(net.instants)
    ensures net.honest ==> SomeHalfway(net.published, old(file.content), c, old(net.cur), file.seen, old(|file.seen|))
    ensures r.None? ==> Loaded(net, file, after.bytesDone) && after == After(c, round)
    ensures r.None? ==> Offline(net, after.outage, policy.reconnectBudget + Pause(policy) + net.readTimeout)
    ensures r.None? ==> round.now == net.clock && Follows(c, old(net.clock), round, policy)
    ensures (r.None? || r.value.Ok?) && net.honest ==>
      && FairRound(net.published, c, round) && file.content == Stored(net.published, old(file.content), round)
      && (round.Heard? ==> old(net.cur) <= round.release <= net.cur)
    ensures (r.None? || r.value.Ok?) && net.honest && RangeIgnored(c, round) ==> net.ignores < old(net.ignores)
    ensures r.None? && c.outage.Some? && round.now == old(net.clock) && !(round.Heard? && round.flowed) ==>
      net.instants < old(net.instants)
    ensures r.None? && !net.honest ==> net.events < old(net.events)
    ensures r.None? ==> Below(RankOf(net, after, policy), old(RankOf(net, c, policy)))
    ensures r.Some? && r.value.Ok? ==> Loaded(net, file, r.value.value)
    ensures r.Some? && r.value.Ok? && net.honest ==>
      round.Heard? && |file.content| == |net.published[round.release].data|
    ensures old(net.said) <= net.said && old(file.faults) <= file.faults
    ensures r.Some? ==> Justified(net.said, old(|net.said|), old(file.faults) < file.faults, r.value)
    ensures r.None? ==> Open(net.said, old(|net.said|)) && file.faults == old(file.faults)
    ensures old(Scripted(net, c, policy)) && !file.faulty ==>
      && (if old(Ends(net, c)) then r.Some? && r.value.Ok? else r.None?)
      && round == old(net.script[0]) && net.script == old(net.script[1..])
      && net.cur == (if round.Heard? then round.release else old(net.cur))
      && net.ignores == old(net.ignores) - One(RangeIgnored(c, round))
  {
    hide StrongValidator, FairRound, Stored, AllHalfway, Possible, Limit, RangeIgnored, Below, RankAt, Open, Closed,
      Final, Halfway, IfRange, Refusal, Odd, Restarted, Unguarded;
    ghost var told := net.said;
    NothingYet(told);
    ghost var cur, clock, left, instants, events := net.cur, net.clock, net.ignores, net.instants, net.events;
    ghost var base := file.content;
    after, round := c, Silent(0);
    var sent := Ask(net, policy, c);
    ghost var at := net.cur;
    if sent.Response? {
      r, after, round := Answered(net, file, policy, sent.status, sent.headers, c);
      IgnoredThen(c, round);
    } else {
      NoneHalfway(net.published, base, c, at, file.seen);
      OpenMore(told, |told|, Replied(c.bytesDone, sent));
      NoAnswer(c.bytesDone, sent);
      if sent == Failed(false) { return Some(Err(Http)), after, round; }
      after := c.(outage := Some(RecordFailure(c.outage, net.clock)));
      round := Silent(net.clock);
      QuietRound(net.published, c, round, base);
      r := None;
    }
    if r.None? {
      RankFell(net.published, net.honest, cur, net.cur, events, net.events, left, net.ignores, instants, net.instants,
               clock, net.clock, c, after, round, policy);
    }
  }

  lemma IgnoredThen(c: Client, e: Round)
    ensures e.Heard? ==>
      (RangeIgnored(c, e) <==> e.status == Full && c.bytesDone > 0 && Unguarded(IfRange(c), e.headers))
  {
  }

  /** For some release that was on offer since `from`. */
  ghost predicate SomeHalfway(published: seq<Release>, base: Bytes, c: Client, since: nat, seen: seq<Bytes>, from: nat)
    {
    exists cur: nat :: since <= cur < |published| && AllHalfway(published, base, c, cur, seen, from)
  }

  lemma NoneHalfway(published: seq<Release>, base: Bytes, c: Client, cur: nat, seen: seq<Bytes>)
    ensures AllHalfway(published, base, c, cur, seen, |seen|)
  {
  }

  // ------------------------------------------------------------------ the whole download

  /** Every content since `from` is the start of one release. */
  ghost predicate NeverSpliced(published: seq<Release>, seen: seq<Bytes>, from: nat) {
    forall k :: from <= k < |seen| ==> Whole(published, seen[k])
  }

  /** A content that fair rounds lead to. */
  ghost predicate Receivable(published: seq<Release>, content: Bytes) {
    exists rounds: seq<Round> :: FromReleases(published, rounds) && content == Assembled(published, rounds)
  }

  ghost predicate AllReceivable(published: seq<Release>, seen: seq<Bytes>, from: nat) {
    forall k :: from <= k < |seen| ==> Receivable(published, seen[k])
  }

  lemma MoreReceivable(published: seq<Release>, rounds: seq<Round>, since: nat, sofar: seq<Bytes>, seen: seq<Bytes>,
                       from: nat)
    requires FromReleases(published, rounds) && AtRelease(rounds) <= since && AllReceivable(published, sofar, from)
    requires sofar <= seen
    requires SomeHalfway(published, Assembled(published, rounds), Reached(rounds), since, seen, |sofar|)
    ensures AllReceivable(published, seen, from)
  {
    hide FromReleases, Assembled, Reached, FairRound, Stored, AtRelease;
    var base, c := Assembled(published, rounds), Reached(rounds);
    var cur: nat :| since <= cur < |published| && AllHalfway(published, base, c, cur, seen, |sofar|);
    forall k | from <= k < |seen| ensures Receivable(published, seen[k]) {
      if k < |sofar| {
        assert seen[k] == sofar[k];
      } else {
        assert Halfway(published, base, c, cur, seen[k]);
        if seen[k] != base {
          var e: Round :| e.Heard? && e.release == cur && FairRound(published, c, e) && seen[k] == Stored(published,
              base, e);
          OneMoreFair(published, rounds, e);
        }
      }
    }
  }

  /** While validators identify releases, everything receivable is the start of one. */
  lemma ReceivableWhole(published: seq<Release>, seen: seq<Bytes>, from: nat)
    requires Identified(published) && published != [] && AllReceivable(published, seen, from)
    ensures NeverSpliced(published, seen, from)
  {
    hide Identified, FromReleases, Assembled, AtRelease, PrefixOf;
    forall k | from <= k < |seen| ensures Whole(published, seen[k]) {
      assert Receivable(published, seen[k]);
      var rounds :| FromReleases(published, rounds) && seen[k] == Assembled(published, rounds);
      NeverMixed(published, rounds);
      if seen[k] == [] { EmptyPrefix(published, 0); }
    }
  }

  lemma EmptyPrefix(published: seq<Release>, version: nat)
    requires version < |published|
    ensures PrefixOf(published, version, [], 0)
  {
  }

  /** The file after fair rounds, with its release. */
  lemma AssembledPrefix(published: seq<Release>, rounds: seq<Round>)
    requires Identified(published) && FromReleases(published, rounds) && AtRelease(rounds) < |published|
    ensures var content := Assembled(published, rounds); PrefixOf(published, AtRelease(rounds), content, |content|)
  {
    NeverMixed(published, rounds);
    EmptyPrefix(published, AtRelease(rounds));
  }

  /** Whether `e` can be the next round after `sofar`, for an origin that starts at its first release and may ignore
      `ignores` ranges. */
  predicate Happens(published: seq<Release>, readTimeout: nat, ignores: nat, start: nat, sofar: seq<Round>, e: Round,
                    expected: nat, policy: RetryPolicy)
  {
    var c, clock := Reached(sofar), ClockAt(start, sofar);
    var t := SendTime(c, clock, policy);
    && (expected != 0 ==> c.bytesDone < expected)
    && (c.outage.Some? ==> c.outage.value.since <= clock < c.outage.value.since + policy.reconnectBudget)
    && Ignored(sofar) <= ignores
    && Possible(published, readTimeout, AtRelease(sofar), ignores - Ignored(sofar), t, e, c.bytesDone, IfRange(c),
                Limit(c.outage, t, policy))
  }

  /** Whether all of a script can happen. */
  predicate Feasible(published: seq<Release>, readTimeout: nat, ignores: nat, start: nat, script: seq<Round>,
                     expected: nat, policy: RetryPolicy)
  {
    forall k :: 0 <= k < |script| ==>
      Happens(published, readTimeout, ignores, start, script[..k], script[k], expected, policy)
  }

  /** A script that can happen, with everything that is needed for it. */
  ghost predicate Attainable(net: Origin, faulty: bool, expected: nat, policy: RetryPolicy)
    reads net
  {
    && net.honest && !faulty && net.cur == 0
    && Feasible(net.published, net.readTimeout, net.ignores, net.clock, net.script, expected, policy)
  }

  /** A run that has followed the script so far, and has some of it left. */
  ghost predicate OnScript(net: Origin, script: seq<Round>, ignores: nat, rounds: seq<Round>)
    reads net
  {
    && |rounds| < |script| && rounds == script[..|rounds|] && net.script == script[|rounds|..]
    && net.cur == AtRelease(rounds) && Ignored(rounds) <= ignores && net.ignores == ignores - Ignored(rounds)
  }

  lemma NextHappens(net: Origin, script: seq<Round>, ignores: nat, start: nat, rounds: seq<Round>, expected: nat,
                    policy: RetryPolicy)
    requires OnScript(net, script, ignores, rounds) && net.honest && net.clock == ClockAt(start, rounds)
    requires Feasible(net.published, net.readTimeout, ignores, start, script, expected, policy)
    ensures Scripted(net, Reached(rounds), policy) && (expected != 0 ==> Reached(rounds).bytesDone < expected)
    ensures var o := Reached(rounds).outage; o.Some? ==> net.clock < o.value.since + policy.reconnectBudget
    ensures |rounds| < |script| && rounds == script[..|rounds|] && net.script == script[|rounds|..]
    ensures net.cur == AtRelease(rounds) && Ignored(rounds) <= ignores && net.ignores == ignores - Ignored(rounds)
  {
    hide Possible, Limit, Reached, ClockAt, Ignored, AtRelease;
    assert Happens(net.published, net.readTimeout, ignores, start, script[..|rounds|], script[|rounds|], expected,
                   policy);
  }

  lemma ScriptMoved(net: Origin, script: seq<Round>, ignores: nat, rounds: seq<Round>, e: Round)
    requires |rounds| < |script| && rounds == script[..|rounds|] && e == script[|rounds|]
    requires net.script == script[|rounds|..][1..]
    requires net.cur == (if e.Heard? then e.release else AtRelease(rounds)) && Ignored(rounds) <= ignores
    requires net.ignores == ignores - Ignored(rounds) - One(RangeIgnored(Reached(rounds), e))
    ensures script <= rounds + [e] || OnScript(net, script, ignores, rounds + [e])
  {
    hide Reached, Ignored, AtRelease, RangeIgnored;
    OneMoreCounts(rounds, e);
    OneOn(script, |rounds|);
    assert |rounds + [e]| == |rounds| + 1;
  }

  /** The script ends with the whole rest of a release, served to its end. */
  predicate Completes(published: seq<Release>, finish: bool, script: seq<Round>) {
    && finish && script != [] && script[|script| - 1].Heard? && AtRelease(script) < |published|
    && Reached(script).bytesDone == |published[AtRelease(script)].data|
  }

  lemma EndsOrNot(net: Origin, c: Client, script: seq<Round>, ignores: nat, rounds: seq<Round>)
    requires OnScript(net, script, ignores, rounds) && c == Reached(rounds)
    ensures Ends(net, c) <==> Completes(net.published, net.finish, script) && |rounds| + 1 == |script|
  {
    if |rounds| + 1 == |script| {
      OneOn(script, |rounds|);
      OneMoreCounts(rounds, script[|rounds|]);
      assert net.script[0] == script[|rounds|];
    }
  }

  lemma LastOnScript(script: seq<Round>, rounds: seq<Round>, e: Round)
    requires |rounds| < |script| && rounds == script[..|rounds|] && e == script[|rounds|]
    ensures |rounds| + 1 == |script| ==> rounds + [e] == script && rounds == script[..|script| - 1]
  {
  }

  lemma OneOn(s: seq<Round>, n: nat)
    requires n < |s|
    ensures s[..n] + [s[n]] == s[..n + 1] && s[n..][1..] == s[n + 1..] && (n + 1 == |s| ==> s[..n + 1] == s)
  {
  }

  /** What a download started from. */
  datatype Run = Run(script: seq<Round>, scripted: bool, ignores: nat, start: nat, seen: seq<Bytes>, said: seq<Said>,
                     faults: nat)

  /** What the loop keeps: the client stands where its rounds took it, nothing has ended the download yet, and a script
      that can happen has happened as far as it goes. */
  ghost predicate Going(net: Origin, file: Disk, run: Run, expected: nat, policy: RetryPolicy, c: Client,
                        rounds: seq<Round>)
    reads net, file
  {
    && Loaded(net, file, c.bytesDone)
    && Offline(net, c.outage, policy.reconnectBudget + Pause(policy) + net.readTimeout)
    && c == Reached(rounds) && net.clock == ClockAt(run.start, rounds) && Chain(run.start, rounds, expected, policy)
    && run.seen <= file.seen && run.said <= net.said && Open(net.said, |run.said|) && file.faults == run.faults
    && (net.honest ==>
      Kept(net.published, file.content, net.cur, net.ignores, file.seen, run.ignores, |run.seen|, rounds))
    && (run.scripted ==> Following(net, file, run, expected, policy, rounds))
  }

  ghost predicate Following(net: Origin, file: Disk, run: Run, expected: nat, policy: RetryPolicy, rounds: seq<Round>)
    reads net, file
  {
    && net.honest && !file.faulty
    && Feasible(net.published, net.readTimeout, run.ignores, run.start, run.script, expected, policy)
    && (OnScript(net, run.script, run.ignores, rounds)
        || (run.script <= rounds && !Completes(net.published, net.finish, run.script)))
  }

  /** How it ended: the answer is what the origin or the file called for, enough bytes, or patience run out. */
  ghost predicate Reason(net: Origin, file: Disk, run: Run, expected: nat, policy: RetryPolicy,
                         r: Result<nat, DownloadError>)
    reads net, file
  {
    && run.said <= net.said
    && (|| Justified(net.said, |run.said|, run.faults < file.faults, r)
        || (Open(net.said, |run.said|) && file.faults == run.faults
            && (if r.Ok? then expected != 0 && r.value >= expected else r.error.ConnectionLost?)))
    && (r.Err? && r.error.ConnectionLost? ==>
      && policy.reconnectBudget <= r.error.offline < policy.reconnectBudget + Pause(policy) + net.readTimeout
      && net.lastData + r.error.offline <= net.clock && r.error.bytesDone == |file.content|
      && r.error.expected == expected)
  }

  /** What the file holds by then. */
  ghost predicate Outcome(net: Origin, file: Disk, run: Run, expected: nat, r: Result<nat, DownloadError>, version: nat,
                          rounds: seq<Round>)
    reads net, file
  {
    && run.seen <= file.seen && (r.Ok? ==> |file.content| == r.value && file.pos == r.value)
    && (net.honest && Identified(net.published) ==> NeverSpliced(net.published, file.seen, |run.seen|))
    && (r.Ok? && net.honest && Identified(net.published) ==>
      && PrefixOf(net.published, version, file.content, r.value) && version <= net.cur
      && ((expected != 0 && r.value >= expected) || file.content == net.published[version].data))
    && (net.honest ==> FromReleases(net.published, rounds) && Ignored(rounds) + net.ignores <= run.ignores)
    && (net.honest && expected != 0 && Reached(rounds).bytesDone >= expected ==>
      r == Ok(Reached(rounds).bytesDone) && file.content == Assembled(net.published, rounds))
  }

  /** A script that can happen did. */
  ghost predicate Scenario(net: Origin, file: Disk, run: Run, r: Result<nat, DownloadError>, version: nat,
                           rounds: seq<Round>)
    reads net, file
  {
    run.scripted ==>
      if Completes(net.published, net.finish, run.script) then
        && rounds == run.script[..|run.script| - 1] && version == AtRelease(run.script)
        && r == Ok(|net.published[version].data|) && file.content == Assembled(net.published, run.script)
      else run.script <= rounds
  }

  lemma AtOnce(net: Origin, file: Disk, run: Run, expected: nat, policy: RetryPolicy, c: Client, rounds: seq<Round>)
    requires Going(net, file, run, expected, policy, c, rounds)
    requires (expected != 0 && c.bytesDone >= expected)
      || (c.outage.Some? && net.clock - c.outage.value.since >= policy.reconnectBudget)
    ensures var r := if expected != 0 && c.bytesDone >= expected then Ok(c.bytesDone)
                     else Err(ConnectionLost(net.clock - c.outage.value.since, c.bytesDone, expected));
      && Reason(net, file, run, expected, policy, r) && Outcome(net, file, run, expected, r, AtRelease(rounds), rounds)
      && Scenario(net, file, run, r, AtRelease(rounds), rounds)
  {
    hide Open, Closed, Final, Identified, FromReleases, Assembled, Reached, AtRelease, Ignored, Chain, ClockAt,
        Feasible, NeverSpliced, OnScript, Kept, PrefixOf, Pause, Scripted;
    if net.honest {
      Conclude(net.published, file.content, net.cur, net.ignores, file.seen, run.ignores, |run.seen|, rounds);
    }
    if run.scripted && OnScript(net, run.script, run.ignores, rounds) {
      NextHappens(net, run.script, run.ignores, run.start, rounds, expected, policy);
    }
  }

  /** One turn of the loop: done, out of patience, or one more attempt. */
  method Turn(net: Origin, file: Disk, expected: nat, policy: RetryPolicy, c: Client, ghost run: Run,
              ghost rounds: seq<Round>)
    returns (stop: Option<Result<nat, DownloadError>>, after: Client, ghost version: nat, ghost round: Round)
    requires Going(net, file, run, expected, policy, c, rounds)
    modifies net, file
    ensures net.Valid()
    ensures stop.None? ==>
      && Going(net, file, run, expected, policy, after, rounds + [round])
      && Below(RankOf(net, after, policy), old(RankOf(net, c, policy)))
    ensures stop.Some? ==>
      && Reason(net, file, run, expected, policy, stop.value) && Chain(run.start, rounds, expected, policy)
      && Outcome(net, file, run, expected, stop.value, version, rounds)
      && Scenario(net, file, run, stop.value, version, rounds)
  {
    hide Open, Closed, Final, Identified, RankAt, Follows, FairRound, After, Stored, Happens, FromReleases,
      Assembled, Reached, AtRelease, Ignored, Chain, ClockAt, Feasible, NeverSpliced, OnScript, Kept, PrefixOf,
      SomeHalfway, RangeIgnored, StrongValidator, Limit, Possible, Pause, Completes, Ends, Scripted, Below, Refusal,
      Odd, One;
    after, version, round := c, AtRelease(rounds), Silent(0);
    if expected != 0 && c.bytesDone >= expected {
      AtOnce(net, file, run, expected, policy, c, rounds);
      return Some(Ok(c.bytesDone)), after, version, round;
    }
    if c.outage.Some? && net.clock - c.outage.value.since >= policy.reconnectBudget {
      AtOnce(net, file, run, expected, policy, c, rounds);
      return Some(Err(ConnectionLost(net.clock - c.outage.value.since, c.bytesDone, expected))), after, version, round;
    }
    ghost var onScript, told := run.scripted && OnScript(net, run.script, run.ignores, rounds), net.said;
    if onScript {
      EndsOrNot(net, c, run.script, run.ignores, rounds);
      NextHappens(net, run.script, run.ignores, run.start, rounds, expected, policy);
    }
    ghost var sofar, base, cur, left := file.seen, file.content, net.cur, net.ignores;
    stop, after, round := Attempt(net, file, policy, c);
    OpenJoined(told, |run.said|, net.said, run.faults < file.faults, if stop.Some? then stop.value else Ok(0));
    if onScript { LastOnScript(run.script, rounds, round); }
    if net.honest && (stop.None? || stop.value.Ok?) {
      KeptOn(net.published, base, cur, left, sofar, run.ignores, |run.seen|, rounds, round, file.content, net.cur,
             net.ignores, file.seen);
    }
    if stop.Some? {
      if net.honest {
        KeptToTheEnd(net.published, base, cur, left, sofar, run.ignores, |run.seen|, rounds, net.ignores, file.seen);
        if stop.value.Ok? {
          Conclude(net.published, file.content, net.cur, net.ignores, file.seen, run.ignores, |run.seen|,
                   rounds + [round]);
          OneMoreCounts(rounds, round);
          version := round.release;
          if Identified(net.published) { AllOfIt(net.published, version, file.content); }
        }
      }
    } else {
      OneMore(run.start, rounds, round, expected, policy);
      if onScript { ScriptMoved(net, run.script, run.ignores, rounds, round); }
    }
  }

  /** Whatever the origin does, the loop ends. `rounds` are the attempts that ended in a retry. The answer is the one
      that the last thing the origin said calls for, unless there were enough bytes or patience ran out. With an honest
      origin whose validators identify its releases, every content of the file is the start of one release. And whatever
      can happen does, with some origin: any feasible script is gone through, to a clean end if it has one. */
  method FetchWithResume(net: Origin, file: Disk, expected: nat, policy: RetryPolicy)
    returns (r: Result<nat, DownloadError>, ghost version: nat, ghost rounds: seq<Round>)
    requires net.Valid() && file.content == [] && file.pos == 0
    modifies net, file
    ensures net.Valid() && old(file.seen) <= file.seen
    ensures net.honest && Identified(net.published) ==> NeverSpliced(net.published, file.seen, old(|file.seen|))
    ensures r.Ok? ==> |file.content| == r.value && file.pos == r.value
    ensures r.Ok? && net.honest && Identified(net.published) ==>
      PrefixOf(net.published, version, file.content, r.value) && version <= net.cur
      && ((expected != 0 && r.value >= expected) || file.content == net.published[version].data)
    ensures r.Err? && r.error.ConnectionLost? ==>
      policy.reconnectBudget <= r.error.offline < policy.reconnectBudget + Pause(policy) + net.readTimeout
    ensures r.Err? && r.error.ConnectionLost? ==>
      net.lastData + r.error.offline <= net.clock && r.error.bytesDone == |file.content| && r.error.expected == expected
    ensures Chain(old(net.clock), rounds, expected, policy)
    ensures net.honest ==> FromReleases(net.published, rounds) && Ignored(rounds) + net.ignores <= old(net.ignores)
    ensures net.honest && expected != 0 && Reached(rounds).bytesDone >= expected ==>
      r == Ok(Reached(rounds).bytesDone) && file.content == Assembled(net.published, rounds)
    ensures old(net.said) <= net.said
    ensures
      || Justified(net.said, old(|net.said|), old(file.faults) < file.faults, r)
      || (Open(net.said, old(|net.said|)) && file.faults == old(file.faults)
          && (if r.Ok? then expected != 0 && r.value >= expected else r.error.ConnectionLost?))
    ensures old(Attainable(net, file.faulty, expected, policy)) ==>
      if Completes(net.published, net.finish, old(net.script)) then
        && rounds == old(net.script[..|net.script| - 1]) && version == AtRelease(old(net.script))
        && r == Ok(|net.published[version].data|) && file.content == Assembled(net.published, old(net.script))
      else old(net.script) <= rounds
  {
    hide Open, Closed, Final, Identified, RankAt, FromReleases, Assembled, Reached, AtRelease, Ignored, Chain, Feasible,
      NeverSpliced, Attainable, PrefixOf, Pause, Completes, Going;
    ghost var run := Run(net.script, Attainable(net, file.faulty, expected, policy), net.ignores, net.clock, file.seen,
                         net.said, file.faults);
    var c := FRESH;
    rounds, version := [], 0;
    Start(net, file, expected, policy, run);
    while true
      invariant net.Valid() && Going(net, file, run, expected, policy, c, rounds)
      decreases RankOf(net, c, policy).events, RankOf(net, c, policy).releases, RankOf(net, c, policy).ignores,
        RankOf(net, c, policy).stale, RankOf(net, c, policy).bytes, RankOf(net, c, policy).instants,
        RankOf(net, c, policy).patience
    {
      var stop;
      ghost var round;
      stop, c, version, round := Turn(net, file, expected, policy, c, run, rounds);
      if stop.Some? { return stop.value, version, rounds; }
      rounds := rounds + [round];
    }
  }

  /** What the loop keeps with an honest origin, which could ignore `ignores` ranges at first and can ignore `left`
      now. */
  ghost predicate Kept(published: seq<Release>, content: Bytes, cur: nat, left: nat, seen: seq<Bytes>, ignores: nat,
                       from: nat, rounds: seq<Round>)
  {
    && FromReleases(published, rounds) && content == Assembled(published, rounds)
    && Ignored(rounds) + left <= ignores && AtRelease(rounds) <= cur && AllReceivable(published, seen, from)
  }

  lemma Start(net: Origin, file: Disk, expected: nat, policy: RetryPolicy, run: Run)
    requires net.Valid() && file.content == [] && file.pos == 0
    requires run == Run(net.script, Attainable(net, file.faulty, expected, policy), net.ignores, net.clock, file.seen,
                        net.said, file.faults)
    ensures Going(net, file, run, expected, policy, FRESH, [])
  {
    hide Happens;
    assert net.script[..0] == [] && net.script[0..] == net.script;
    NothingYet(net.said);
  }

  lemma KeptOn(published: seq<Release>, base: Bytes, cur: nat, left: nat, sofar: seq<Bytes>, ignores: nat, from: nat,
               rounds: seq<Round>, e: Round, content: Bytes, later: nat, fewer: nat, seen: seq<Bytes>)
    requires Kept(published, base, cur, left, sofar, ignores, from, rounds) && cur <= later && sofar <= seen
    requires FairRound(published, Reached(rounds), e) && content == Stored(published, base, e)
    requires e.Heard? ==> cur <= e.release <= later
    requires fewer <= left && (RangeIgnored(Reached(rounds), e) ==> fewer < left)
    requires SomeHalfway(published, base, Reached(rounds), cur, seen, |sofar|)
    ensures Kept(published, content, later, fewer, seen, ignores, from, rounds + [e])
  {
    hide FromReleases, Assembled, Reached, FairRound, Stored, AtRelease, Ignored, RangeIgnored, AllReceivable,
        SomeHalfway;
    OneMoreFair(published, rounds, e);
    OneMoreCounts(rounds, e);
    MoreReceivable(published, rounds, cur, sofar, seen, from);
  }

  lemma KeptToTheEnd(published: seq<Release>, base: Bytes, cur: nat, left: nat, sofar: seq<Bytes>, ignores: nat,
                     from: nat, rounds: seq<Round>, fewer: nat, seen: seq<Bytes>)
    requires Kept(published, base, cur, left, sofar, ignores, from, rounds) && fewer <= left && sofar <= seen
    requires published != [] && SomeHalfway(published, base, Reached(rounds), cur, seen, |sofar|)
    ensures FromReleases(published, rounds) && Ignored(rounds) + fewer <= ignores
    ensures Identified(published) ==> NeverSpliced(published, seen, from)
  {
    hide FromReleases, Assembled, Reached, AtRelease, Ignored, AllReceivable, SomeHalfway, Identified, NeverSpliced;
    MoreReceivable(published, rounds, cur, sofar, seen, from);
    if Identified(published) { ReceivableWhole(published, seen, from); }
  }

  lemma Conclude(published: seq<Release>, content: Bytes, cur: nat, left: nat, seen: seq<Bytes>, ignores: nat,
                 from: nat, rounds: seq<Round>)
    requires Kept(published, content, cur, left, seen, ignores, from, rounds) && cur < |published|
    ensures FromReleases(published, rounds) && Ignored(rounds) + left <= ignores && AtRelease(rounds) <= cur
    ensures content == Assembled(published, rounds)
    ensures Identified(published) ==>
      NeverSpliced(published, seen, from) && PrefixOf(published, AtRelease(rounds), content, |content|)
  {
    hide FromReleases, Identified, Assembled, PrefixOf, AtRelease, Ignored, AllReceivable, NeverSpliced;
    if Identified(published) {
      ReceivableWhole(published, seen, from);
      AssembledPrefix(published, rounds);
    }
  }

  lemma AllOfIt(published: seq<Release>, version: nat, content: Bytes)
    requires PrefixOf(published, version, content, |content|) && |content| == |published[version].data|
    ensures content == published[version].data
  {
  }
}
