/** The streaming client of benchmarks/bench_serving_preprocessing.py: reassembly of server-sent
    event frames from network chunks, and the timings derived from token arrivals. */
module SseClient {
  import opened Wrappers

  newtype byte = x: int | 0 <= x < 256
  type bytes = seq<byte>

  const LF: byte := 10
  const CR: byte := 13
  const DATA: bytes := [100, 97, 116, 97, 58, 32]  // "data: "

  // ----- frames

  /** `b"\n\n" in pending`, and where it starts first */
  function Delimiter(s: bytes): (i: Option<nat>)
    ensures i.Some? ==> i.value + 1 < |s| && s[i.value] == LF && s[i.value + 1] == LF
    ensures forall k :: 0 <= k < (if i.Some? then i.value else |s| - 1) ==> !(s[k] == LF && s[k + 1] == LF)
  {
    if |s| < 2 then None
    else if s[0] == LF && s[1] == LF then Some(0)
    else match Delimiter(s[1..]) case None => None case Some(k) => Some(k + 1)
  }

  /** All complete frames of a byte stream. */
  function Frames(s: bytes): seq<bytes> {
    match Delimiter(s)
    case None => []
    case Some(i) => [s[..i]] + Frames(s[i + 2..])
  }

  /** What remains after the last complete frame. */
  function Leftover(s: bytes): bytes {
    match Delimiter(s)
    case None => s
    case Some(i) => Leftover(s[i + 2..])
  }

  function Unframe(frames: seq<bytes>, rest: bytes): bytes {
    if frames == [] then rest else frames[0] + [LF, LF] + Unframe(frames[1..], rest)
  }

  /** A frame that the delimiter ends and no earlier delimiter cuts. */
  predicate Plain(frame: bytes) { Delimiter(frame + [LF, LF]) == Some(|frame|) }

  /** The frames and the leftover spell the stream, with nothing lost. */
  lemma {:induction false} FramesSpellStream(s: bytes)
    ensures Unframe(Frames(s), Leftover(s)) == s && Delimiter(Leftover(s)).None?
    ensures forall f :: f in Frames(s) ==> Plain(f)
  {
    match Delimiter(s)
    case None =>
    case Some(i) =>
      FramesSpellStream(s[i + 2..]);
      assert s == s[..i] + [LF, LF] + s[i + 2..];
      assert Plain(s[..i]) by {
        var t := s[..i] + [LF, LF];
        assert t == s[..i + 2];
        assert t[i] == LF && t[i + 1] == LF;
      }
  }

  /** The first delimiter stays first when more bytes arrive. */
  lemma DelimiterStays(s: bytes, more: bytes)
    requires Delimiter(s).Some?
    ensures Delimiter(s + more) == Delimiter(s)
  {
    var i := Delimiter(s).value;
    var t := s + more;
    assert t[i] == LF && t[i + 1] == LF;
  }

  /** Conversely any plain frames are read back: framing is unambiguous. */
  lemma {:induction false} UnframeFrames(frames: seq<bytes>, rest: bytes)
    requires forall f :: f in frames ==> Plain(f)
    requires Delimiter(rest).None?
    ensures Frames(Unframe(frames, rest)) == frames && Leftover(Unframe(frames, rest)) == rest
  {
    if frames != [] {
      var tail := Unframe(frames[1..], rest);
      var s := frames[0] + [LF, LF] + tail;
      assert frames[0] in frames;
      DelimiterStays(frames[0] + [LF, LF], tail);
      assert s[..|frames[0]|] == frames[0] && s[|frames[0]| + 2..] == tail;
      UnframeFrames(frames[1..], rest);
    }
  }

  /** Cutting off the first frame commutes with the arrival of more bytes. */
  lemma FirstFrame(s: bytes, more: bytes, i: nat)
    requires Delimiter(s) == Some(i)
    ensures Frames(s + more) == [s[..i]] + Frames(s[i + 2..] + more)
    ensures Leftover(s + more) == Leftover(s[i + 2..] + more)
  {
    DelimiterStays(s, more);
    assert (s + more)[..i] == s[..i] && (s + more)[i + 2..] == s[i + 2..] + more;
  }

  /** Frames are found the same way when a prefix of the stream was already consumed. */
  lemma {:induction false} FramesContinue(s: bytes, more: bytes)
    ensures Frames(s + more) == Frames(s) + Frames(Leftover(s) + more)
    ensures Leftover(s + more) == Leftover(Leftover(s) + more)
  {
    match Delimiter(s)
    case None =>
      assert Frames(s) == [] && Leftover(s) == s;
    case Some(i) =>
      FirstFrame(s, more, i);
      FramesContinue(s[i + 2..], more);
      Regroup([s[..i]], Frames(s[i + 2..]), Frames(Leftover(s[i + 2..]) + more));
  }

  lemma Regroup<T>(a: seq<T>, b: seq<T>, c: seq<T>)
    ensures a + (b + c) == (a + b) + c
  {
  }

  // ----- the payload of one frame

  /** bytes.splitlines: a line ends at LF, CR or CR LF. */
  function Lines(s: bytes, line: bytes): seq<bytes> {
    if s == [] then (if line == [] then [] else [line])
    else if s[0] == CR && |s| > 1 && s[1] == LF then [line] + Lines(s[2..], [])
    else if s[0] == LF || s[0] == CR then [line] + Lines(s[1..], [])
    else Lines(s[1..], line + [s[0]])
  }

  function DataLines(lines: seq<bytes>): seq<bytes> {
    if lines == [] then []
    else (if DATA <= lines[0] then [lines[0][6..]] else []) + DataLines(lines[1..])
  }

  function Join(parts: seq<bytes>): bytes {
    if parts == [] then []
    else if |parts| == 1 then parts[0]
    else parts[0] + [LF] + Join(parts[1..])
  }

  function Data(frame: bytes): bytes { Join(DataLines(Lines(frame, []))) }

  /** A server writes each payload line behind "data: ". */
  function Encode(payload: seq<bytes>): bytes {
    if payload == [] then []
    else if |payload| == 1 then DATA + payload[0]
    else DATA + payload[0] + [LF] + Encode(payload[1..])
  }

  predicate OneLine(line: bytes) { LF !in line && CR !in line }

  lemma {:induction false} LinesOfLine(line: bytes, prefix: bytes, rest: bytes)
    requires OneLine(line)
    ensures Lines(line + rest, prefix) == Lines(rest, prefix + line)
  {
    if line == [] {
      assert line + rest == rest && prefix + line == prefix;
    } else {
      assert line[0] in line;
      assert (line + rest)[1..] == line[1..] + rest;
      assert prefix + line == prefix + [line[0]] + line[1..];
      forall c | c in line[1..] ensures c in line { }
      LinesOfLine(line[1..], prefix + [line[0]], rest);
    }
  }

  /** A line behind "data: " is read back, whatever follows its line feed. */
  lemma DataLineRead(line: bytes, rest: bytes)
    requires OneLine(line)
    ensures DataLines(Lines(DATA + line + [LF] + rest, [])) == [line] + DataLines(Lines(rest, []))
    ensures DataLines(Lines(DATA + line, [])) == [line]
  {
    var first := DATA + line;
    assert OneLine(first) && first[6..] == line && [] + first == first && first + [] == first;
    assert ([LF] + rest)[1..] == rest;
    LinesOfLine(first, [], [LF] + rest);
    LinesOfLine(first, [], []);
    assert first + ([LF] + rest) == DATA + line + [LF] + rest;
    var lines := [first] + Lines(rest, []);
    assert lines[1..] == Lines(rest, []);
  }

  /** Decoding a frame gives back the payload lines, joined by line feeds. */
  lemma {:induction false} DataOfEncoded(payload: seq<bytes>)
    requires forall l :: l in payload ==> OneLine(l)
    ensures DataLines(Lines(Encode(payload), [])) == payload
    ensures Data(Encode(payload)) == Join(payload)
  {
    if payload != [] {
      assert payload[0] in payload;
      assert payload == [payload[0]] + payload[1..];
      if |payload| == 1 {
        DataLineRead(payload[0], []);
      } else {
        DataLineRead(payload[0], Encode(payload[1..]));
        DataOfEncoded(payload[1..]);
      }
    }
  }

  // ----- events and the request row

  datatype Event =
    | TokenEvent(id: int) | DoneEvent(ids: seq<int>, reason: int) | ErrorEvent(message: int)
    | OtherEvent | Malformed

  datatype StreamError = ServerError(message: int) | BadPayload | Incomplete
  datatype Finish = Finish(at: int, ids: seq<int>, reason: int)
  datatype Row = Row(tokenIds: seq<int>, arrivals: seq<int>, finish: Option<Finish>, failure: Option<StreamError>)

  const NEW_ROW := Row([], [], None, None)

  function Apply(row: Row, e: Event, now: int): Row {
    match e
    case TokenEvent(id) => row.(tokenIds := row.tokenIds + [id], arrivals := row.arrivals + [now])
    case DoneEvent(ids, reason) => row.(finish := Some(Finish(now, ids, reason)))
    case ErrorEvent(message) => row.(failure := Some(ServerError(message)))
    case OtherEvent => row
    case Malformed => row.(failure := Some(BadPayload))
  }

  function HandleFrame(parse: bytes -> Event, row: Row, frame: bytes, now: int): Row {
    if Data(frame) == [] then row else Apply(row, parse(Data(frame)), now)
  }

  /** The inner loop on one observation: handle frames until none is complete or one raises. */
  function Drain(parse: bytes -> Event, row: Row, pending: bytes, now: int): (Row, bytes)
    decreases |pending|
  {
    match Delimiter(pending)
    case None => (row, pending)
    case Some(i) =>
      if row.failure.Some? then (row, pending)
      else Drain(parse, HandleFrame(parse, row, pending[..i], now), pending[i + 2..], now)
  }

  /** The whole stream: each chunk is observed at the clock reading of the same position. */
  function Feed(parse: bytes -> Event, row: Row, pending: bytes, chunks: seq<bytes>, clock: seq<int>): (Row, bytes)
    requires |chunks| == |clock|
    decreases |chunks|
  {
    if chunks == [] || row.failure.Some? then (row, pending)
    else
      var next := Drain(parse, row, pending + chunks[0], clock[0]);
      Feed(parse, next.0, next.1, chunks[1..], clock[1..])
  }

  class Client {
    const parse: bytes -> Event
    var row: Row
    var pending: bytes

    constructor (parse: bytes -> Event)
      ensures this.parse == parse && row == NEW_ROW && pending == []
    {
      this.parse, row, pending := parse, NEW_ROW, [];
    }

    method Receive(chunk: bytes, now: int)
      requires row.failure.None?
      modifies this
      ensures (row, pending) == Drain(parse, old(row), old(pending) + chunk, now)
    {
      pending := pending + chunk;
      while Delimiter(pending).Some? && row.failure.None?
        invariant Drain(parse, row, pending, now) == Drain(parse, old(row), old(pending) + chunk, now)
        decreases |pending|
      {
        var i := Delimiter(pending).value;
        var frame := pending[..i];
        pending := pending[i + 2..];
        var data := Data(frame);
        if data != [] {
          row := Apply(row, parse(data), now);
        }
      }
    }

    /** Read the response to its end; an incomplete generation is an error. */
    method Request(chunks: seq<bytes>, clock: seq<int>)
      requires |chunks| == |clock| && row == NEW_ROW && pending == []
      modifies this
      ensures var (streamed, rest) := Feed(parse, NEW_ROW, [], chunks, clock);
              && pending == rest
              && row == if streamed.failure.None? && (streamed.finish.None? || |streamed.tokenIds| < 2)
                        then streamed.(failure := Some(Incomplete)) else streamed
    {
      var i := 0;
      while i < |chunks| && row.failure.None?
        invariant i <= |chunks|
        invariant Feed(parse, row, pending, chunks[i..], clock[i..]) == Feed(parse, NEW_ROW, [], chunks, clock)
      {
        assert chunks[i..][1..] == chunks[i + 1..] && clock[i..][1..] == clock[i + 1..];
        Receive(chunks[i], clock[i]);
        i := i + 1;
      }
      if row.failure.None? && (row.finish.None? || |row.tokenIds| < 2) {
        row := row.(failure := Some(Incomplete));
      }
    }
  }

  // ----- chunking does not matter

  /** What a row says apart from clock readings. */
  datatype View = View(tokenIds: seq<int>, finish: Option<(seq<int>, int)>, failure: Option<StreamError>)

  function ViewOf(row: Row): View {
    View(row.tokenIds,
         if row.finish.Some? then Some((row.finish.value.ids, row.finish.value.reason)) else None,
         row.failure)
  }

  /** The stream parsed at once: handle its frames in order up to the first one that raises. */
  function Parsed(parse: bytes -> Event, row: Row, frames: seq<bytes>): Row
    decreases |frames|
  {
    if frames == [] || row.failure.Some? then row
    else Parsed(parse, HandleFrame(parse, row, frames[0], 0), frames[1..])
  }

  function Concat(chunks: seq<bytes>): bytes {
    if chunks == [] then [] else chunks[0] + Concat(chunks[1..])
  }

  lemma HandleFrameView(parse: bytes -> Event, a: Row, b: Row, frame: bytes, now: int, later: int)
    requires ViewOf(a) == ViewOf(b)
    ensures ViewOf(HandleFrame(parse, a, frame, now)) == ViewOf(HandleFrame(parse, b, frame, later))
  {
  }

  lemma {:induction false} ParsedView(parse: bytes -> Event, a: Row, b: Row, frames: seq<bytes>)
    requires ViewOf(a) == ViewOf(b)
    ensures ViewOf(Parsed(parse, a, frames)) == ViewOf(Parsed(parse, b, frames))
    decreases |frames|
  {
    if frames != [] && a.failure.None? {
      HandleFrameView(parse, a, b, frames[0], 0, 0);
      ParsedView(parse, HandleFrame(parse, a, frames[0], 0), HandleFrame(parse, b, frames[0], 0), frames[1..]);
    }
  }

  lemma {:induction false} ParsedConcat(parse: bytes -> Event, row: Row, a: seq<bytes>, b: seq<bytes>)
    ensures Parsed(parse, row, a + b) == Parsed(parse, Parsed(parse, row, a), b)
    decreases |a|
  {
    if a == [] {
      assert a + b == b;
    } else if row.failure.None? {
      assert (a + b)[0] == a[0] && (a + b)[1..] == a[1..] + b;
      ParsedConcat(parse, HandleFrame(parse, row, a[0], 0), a[1..], b);
    }
  }

  lemma {:induction false} DrainParses(parse: bytes -> Event, row: Row, pending: bytes, now: int)
    requires row.failure.None?
    ensures ViewOf(Drain(parse, row, pending, now).0) == ViewOf(Parsed(parse, row, Frames(pending)))
    ensures Drain(parse, row, pending, now).0.failure.None? ==> Drain(parse, row, pending, now).1 == Leftover(pending)
    decreases |pending|
  {
    match Delimiter(pending)
    case None =>
    case Some(i) =>
      var next := HandleFrame(parse, row, pending[..i], now);
      var untimed := HandleFrame(parse, row, pending[..i], 0);
      HandleFrameView(parse, row, row, pending[..i], now, 0);
      ParsedView(parse, next, untimed, Frames(pending[i + 2..]));
      assert Parsed(parse, row, Frames(pending)) == Parsed(parse, untimed, Frames(pending[i + 2..]));
      if next.failure.None? {
        DrainParses(parse, next, pending[i + 2..], now);
      }
  }

  lemma {:induction false} FeedParses(parse: bytes -> Event, row: Row, pending: bytes, chunks: seq<bytes>,
                                      clock: seq<int>)
    requires |chunks| == |clock| && row.failure.None? && Delimiter(pending).None?
    ensures var (after, rest) := Feed(parse, row, pending, chunks, clock);
            && ViewOf(after) == ViewOf(Parsed(parse, row, Frames(pending + Concat(chunks))))
            && (after.failure.None? ==> rest == Leftover(pending + Concat(chunks)))
    decreases |chunks|
  {
    if chunks == [] {
      assert pending + Concat(chunks) == pending;
    } else {
      var s := pending + chunks[0];
      var (after, rest) := Drain(parse, row, s, clock[0]);
      var more := Concat(chunks[1..]);
      assert pending + Concat(chunks) == s + more;
      DrainParses(parse, row, s, clock[0]);
      FramesContinue(s, more);
      FramesSpellStream(s);
      var parsed := Parsed(parse, row, Frames(s));
      ParsedConcat(parse, row, Frames(s), Frames(Leftover(s) + more));
      ParsedView(parse, after, parsed, Frames(Leftover(s) + more));
      if after.failure.None? {
        FeedParses(parse, after, rest, chunks[1..], clock[1..]);
      }
    }
  }

  /** The outcome of a chunked stream: that of parsing all its bytes at once. */
  lemma FeedIsParse(parse: bytes -> Event, chunks: seq<bytes>, clock: seq<int>)
    requires |chunks| == |clock|
    ensures ViewOf(Feed(parse, NEW_ROW, [], chunks, clock).0) == ViewOf(Parsed(parse, NEW_ROW, Frames(Concat(chunks))))
    ensures Feed(parse, NEW_ROW, [], chunks, clock).0.failure.None? ==>
              Feed(parse, NEW_ROW, [], chunks, clock).1 == Leftover(Concat(chunks))
  {
    assert [] + Concat(chunks) == Concat(chunks);
    FeedParses(parse, NEW_ROW, [], chunks, clock);
  }

  /** Chunk invariance: however a byte stream is cut into chunks, even inside a delimiter, token
      ids, final ids, finish reason, error and leftover are the same. */
  lemma ChunkInvariance(parse: bytes -> Event, a: seq<bytes>, b: seq<bytes>, clockA: seq<int>, clockB: seq<int>)
    requires |a| == |clockA| && |b| == |clockB| && Concat(a) == Concat(b)
    ensures ViewOf(Feed(parse, NEW_ROW, [], a, clockA).0) == ViewOf(Feed(parse, NEW_ROW, [], b, clockB).0)
    ensures Feed(parse, NEW_ROW, [], a, clockA).0.failure.None? ==>
              Feed(parse, NEW_ROW, [], a, clockA).1 == Feed(parse, NEW_ROW, [], b, clockB).1
  {
    FeedIsParse(parse, a, clockA);
    FeedIsParse(parse, b, clockB);
    assert ViewOf(Feed(parse, NEW_ROW, [], a, clockA).0).failure
      == ViewOf(Feed(parse, NEW_ROW, [], b, clockB).0).failure;
  }

  // ----- arrivals and derived timings

  predicate Monotone(times: seq<int>) {
    forall i, j :: 0 <= i < j < |times| ==> times[i] <= times[j]
  }

  /** One arrival per token, in clock order, none before `start` and none later than `now`. */
  predicate ArrivalsOk(row: Row, start: int, now: int) {
    && |row.arrivals| == |row.tokenIds| && Monotone(row.arrivals)
    && (forall t :: t in row.arrivals ==> start <= t <= now)
    && (row.finish.Some? ==> start <= row.finish.value.at <= now)
  }

  lemma HandleFrameKeepsArrivals(parse: bytes -> Event, row: Row, frame: bytes, start: int, now: int)
    requires start <= now && ArrivalsOk(row, start, now)
    ensures ArrivalsOk(HandleFrame(parse, row, frame, now), start, now)
  {
    var after := HandleFrame(parse, row, frame, now);
    forall i, j | 0 <= i < j < |after.arrivals| ensures after.arrivals[i] <= after.arrivals[j] {
      assert after.arrivals[i] == row.arrivals[i] && row.arrivals[i] in row.arrivals;
    }
  }

  lemma {:induction false} DrainKeepsArrivals(parse: bytes -> Event, row: Row, pending: bytes, start: int, now: int)
    requires start <= now && ArrivalsOk(row, start, now)
    ensures ArrivalsOk(Drain(parse, row, pending, now).0, start, now)
    decreases |pending|
  {
    match Delimiter(pending)
    case None =>
    case Some(i) =>
      if row.failure.None? {
        HandleFrameKeepsArrivals(parse, row, pending[..i], start, now);
        DrainKeepsArrivals(parse, HandleFrame(parse, row, pending[..i], now), pending[i + 2..], start, now);
      }
  }

  /** The clock never goes back, starting from `start`. */
  predicate MonotoneFrom(start: int, clock: seq<int>)
    decreases |clock|
  {
    clock == [] || (start <= clock[0] && MonotoneFrom(clock[0], clock[1..]))
  }

  function LastReading(start: int, clock: seq<int>): int
    decreases |clock|
  {
    if clock == [] then start else LastReading(clock[0], clock[1..])
  }

  lemma {:induction false} ReadingsGrow(start: int, clock: seq<int>)
    requires MonotoneFrom(start, clock)
    ensures start <= LastReading(start, clock)
    decreases |clock|
  {
    if clock != [] {
      ReadingsGrow(clock[0], clock[1..]);
    }
  }

  lemma {:induction false} FeedKeepsArrivals(parse: bytes -> Event, row: Row, pending: bytes, chunks: seq<bytes>,
                                             clock: seq<int>, start: int, now: int)
    requires |chunks| == |clock| && start <= now && MonotoneFrom(now, clock) && ArrivalsOk(row, start, now)
    ensures ArrivalsOk(Feed(parse, row, pending, chunks, clock).0, start, LastReading(now, clock))
    decreases |chunks|
  {
    ReadingsGrow(now, clock);
    if chunks != [] && row.failure.None? {
      var next := Drain(parse, row, pending + chunks[0], clock[0]);
      DrainKeepsArrivals(parse, row, pending + chunks[0], start, clock[0]);
      FeedKeepsArrivals(parse, next.0, next.1, chunks[1..], clock[1..], start, clock[0]);
    }
  }

  function Itl(arrivals: seq<int>): (itl: seq<real>)
    ensures |itl| == if arrivals == [] then 0 else |arrivals| - 1
  {
    if |arrivals| < 2 then []
    else [(arrivals[1] - arrivals[0]) as real / 1000000.0] + Itl(arrivals[1..])
  }

  function Sum(xs: seq<real>): real {
    if xs == [] then 0.0 else xs[0] + Sum(xs[1..])
  }

  function Tpot(arrivals: seq<int>): real
    requires |arrivals| >= 2
  {
    Sum(Itl(arrivals)) / (|arrivals| - 1) as real
  }

  lemma {:induction false} ItlTelescopes(arrivals: seq<int>)
    requires |arrivals| >= 1
    ensures Sum(Itl(arrivals)) == (arrivals[|arrivals| - 1] - arrivals[0]) as real / 1000000.0
  {
    if |arrivals| > 1 {
      ItlTelescopes(arrivals[1..]);
    }
  }

  /** The mean token interval is last minus first over N - 1, and it is not negative. */
  lemma TimingsOfArrivals(arrivals: seq<int>)
    requires |arrivals| >= 2 && Monotone(arrivals)
    ensures var span := (arrivals[|arrivals| - 1] - arrivals[0]) as real / 1000000.0;
            Sum(Itl(arrivals)) == span >= 0.0 && Tpot(arrivals) == span / (|arrivals| - 1) as real
  {
    ItlTelescopes(arrivals);
    var nanoseconds := arrivals[|arrivals| - 1] - arrivals[0];
    assert nanoseconds >= 0;
  }

  /** In every stream under a clock that never goes back, there is one arrival per token, in clock
      order and not before the request started. */
  lemma ArrivalsOfStream(parse: bytes -> Event, chunks: seq<bytes>, clock: seq<int>, start: int)
    requires |chunks| == |clock| && MonotoneFrom(start, clock)
    ensures ArrivalsOk(Feed(parse, NEW_ROW, [], chunks, clock).0, start, LastReading(start, clock))
  {
    FeedKeepsArrivals(parse, NEW_ROW, [], chunks, clock, start, start);
  }
}
