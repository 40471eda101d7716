/** Reading newline-terminated messages from the app-server's output
    (spikes/codex-running-settled-fork.py), however the output is cut into chunks. */
module Framer {
  import opened Bytes

  const NL: Byte := 10
  const MAX_APP_SERVER_OUTPUT: nat := 8 * 1024 * 1024

  /** What waiting for output yields: nothing in time, or the bytes that could be read. No bytes
      means that the output was closed. */
  datatype Reading = Late | Chunk(bytes: Bytes)

  datatype Reason = TimedOut | Closed | TooMuch

  datatype Frame = Line(text: Bytes) | Stopped(reason: Reason)

  /** What the parser makes of a line. */
  datatype Json = Malformed | NotAnObject | Message(id: Option<int>, error: bool, hasResult: bool)

  datatype Received = Got(message: Json) | InvalidJson | NonObject | Failed(reason: Reason)

  datatype Response = Result(message: Json) | Rejected | InvalidResult | NoResponse(r: Received)

  datatype Stream = Stream(buffer: Bytes, received: nat, pending: seq<Reading>)

  predicate IsSpace(b: Byte) {
    9 <= b <= 13 || b == 32
  }

  predicate Blank(line: Bytes) {
    forall i :: 0 <= i < |line| ==> IsSpace(line[i])
  }

  /** A line is blank exactly when it holds nothing but blanks, tabs, line ends and feeds. */
  lemma BlankExactly(line: Bytes)
    ensures Blank(line) <==> forall i :: 0 <= i < |line| ==> line[i] in [32, 9, 10, 13, 11, 12]
  {
    if forall i :: 0 <= i < |line| ==> line[i] in [32, 9, 10, 13, 11, 12] {
      forall i | 0 <= i < |line| ensures IsSpace(line[i]) {
        assert line[i] in [32, 9, 10, 13, 11, 12];
      }
    }
    if Blank(line) {
      forall i | 0 <= i < |line| ensures line[i] in [32, 9, 10, 13, 11, 12] {
        assert IsSpace(line[i]);
      }
    }
  }

  /** Where the first newline is; the length when there is none. */
  function Newline(b: Bytes): (i: nat)
    ensures i <= |b| && (i < |b| ==> b[i] == NL) && forall j :: 0 <= j < i ==> b[j] != NL
  {
    if b == [] || b[0] == NL then 0 else 1 + Newline(b[1..])
  }

  class AppServer {
    const parse: Bytes -> Json
    var buffer: Bytes
    var received: nat
    var pending: seq<Reading>

    constructor (parse: Bytes -> Json, output: seq<Reading>)
      ensures this.parse == parse && View() == Stream([], 0, output)
    {
      this.parse, buffer, received, pending := parse, [], 0, output;
    }

    ghost function View(): Stream
      reads this
    {
      Stream(buffer, received, pending)
    }

    /** Cuts a line off the buffer or reads a chunk; None when the caller has to go on. */
    method TakeTurn() returns (frame: Option<Frame>)
      modifies this
      ensures View() == Advance(old(View())).rest
      ensures frame == if Advance(old(View())).On? then None else Some(Advance(old(View())).frame)
    {
      var i := Newline(buffer);
      if i < |buffer| {
        var line := buffer[..i];
        buffer := buffer[i + 1..];
        return if Blank(line) then None else Some(Line(line));
      }
      if pending == [] {
        return Some(Stopped(TimedOut));
      }
      var event := pending[0];
      pending := pending[1..];
      if event.Late? {
        return Some(Stopped(TimedOut));
      }
      var chunk := event.bytes;
      if chunk == [] {
        return Some(Stopped(Closed));
      }
      received := received + |chunk|;
      if received > MAX_APP_SERVER_OUTPUT {
        return Some(Stopped(TooMuch));
      }
      buffer := buffer + chunk;
      frame := None;
    }

    /** The next message, reading as much output as it takes. */
    method Receive() returns (r: Received)
      modifies this
      ensures r == Parsed(parse, Next(old(View())).0) && View() == Next(old(View())).1
    {
      while true
        invariant Next(View()) == Next(old(View()))
        decreases |pending|, |buffer|
      {
        var frame := TakeTurn();
        if frame.None? {
          continue;
        }
        return Parsed(parse, frame.value);
      }
    }

    /** The answer to one request; messages about anything else are passed over. */
    method ReceiveResponse(id: int) returns (r: Response)
      modifies this
      ensures r == Answer(parse, old(View()), id)
    {
      while true
        invariant Answer(parse, View(), id) == Answer(parse, old(View()), id)
        decreases |pending|, |buffer|
      {
        var message := Receive();
        if !message.Got? {
          return NoResponse(message);
        }
        if message.message.id != Some(id) {
          continue;
        }
        return Reply(message.message);
      }
    }
  }

  // One call

  /** One turn of the loop: it goes on, or it is over. */
  datatype Turn = On(rest: Stream) | Over(frame: Frame, rest: Stream)

  function Advance(s: Stream): Turn {
    var i := Newline(s.buffer);
    if i < |s.buffer| then
      var rest := s.(buffer := s.buffer[i + 1..]);
      if Blank(s.buffer[..i]) then On(rest) else Over(Line(s.buffer[..i]), rest)
    else if s.pending == [] then Over(Stopped(TimedOut), s)
    else
      var rest := s.(pending := s.pending[1..]);
      match s.pending[0]
      case Late => Over(Stopped(TimedOut), rest)
      case Chunk(bytes) =>
        var counted := rest.(received := s.received + |bytes|);
        if bytes == [] then Over(Stopped(Closed), rest)
        else if counted.received > MAX_APP_SERVER_OUTPUT then Over(Stopped(TooMuch), counted)
        else On(counted.(buffer := s.buffer + bytes))
  }

  /** The next line that is not blank, and the stream after it. */
  function Next(s: Stream): (r: (Frame, Stream))
    ensures |r.1.pending| <= |s.pending|
    ensures r.0.Line? && |r.1.pending| == |s.pending| ==> |r.1.buffer| < |s.buffer|
    decreases |s.pending|, |s.buffer|
  {
    match Advance(s)
    case On(rest) => Next(rest)
    case Over(frame, rest) => (frame, rest)
  }

  function Parsed(parse: Bytes -> Json, frame: Frame): Received {
    match frame
    case Stopped(reason) => Failed(reason)
    case Line(text) =>
      match parse(text)
      case Malformed => InvalidJson
      case NotAnObject => NonObject
      case Message(_, _, _) => Got(parse(text))
  }

  function Reply(message: Json): Response
    requires message.Message?
  {
    if message.error then Rejected else if message.hasResult then Result(message) else InvalidResult
  }

  function Answer(parse: Bytes -> Json, s: Stream, id: int): Response
    decreases |s.pending|, |s.buffer|
  {
    var (frame, rest) := Next(s);
    var r := Parsed(parse, frame);
    if !r.Got? then NoResponse(r)
    else if r.message.id != Some(id) then Answer(parse, rest, id)
    else Reply(r.message)
  }

  // Framing, declaratively

  /** The newline-terminated lines of a byte string that are not blank, in order. */
  function Lines(b: Bytes): seq<Bytes>
    decreases |b|
  {
    var i := Newline(b);
    if i == |b| then []
    else (if Blank(b[..i]) then [] else [b[..i]]) + Lines(b[i + 1..])
  }

  /** The output a stream still delivers: all chunks up to a pause, the end, or the chunk that would
      exceed the bound. */
  function Deliverable(received: nat, pending: seq<Reading>): Bytes
    decreases |pending|
  {
    if pending == [] || pending[0].Late? || pending[0].bytes == []
      || received + |pending[0].bytes| > MAX_APP_SERVER_OUTPUT then []
    else pending[0].bytes + Deliverable(received + |pending[0].bytes|, pending[1..])
  }

  /** The readings behind the deliverable ones. */
  function Beyond(received: nat, pending: seq<Reading>): seq<Reading>
    decreases |pending|
  {
    if pending == [] || pending[0].Late? || pending[0].bytes == []
      || received + |pending[0].bytes| > MAX_APP_SERVER_OUTPUT then pending
    else Beyond(received + |pending[0].bytes|, pending[1..])
  }

  function Content(s: Stream): Bytes {
    s.buffer + Deliverable(s.received, s.pending)
  }

  /** The lines that repeated calls return until one does not. */
  function Collect(s: Stream): seq<Bytes>
    decreases |s.pending|, |s.buffer|
  {
    var (frame, rest) := Next(s);
    if frame.Line? then [frame.text] + Collect(rest) else []
  }

  lemma NewlineIn(a: Bytes, b: Bytes)
    requires Newline(a) < |a|
    ensures var i := Newline(a);
      Newline(a + b) == i && (a + b)[..i] == a[..i] && (a + b)[i + 1..] == a[i + 1..] + b
  {
    var i, j := Newline(a), Newline(a + b);
    assert (a + b)[i] == NL;
    assert forall k :: 0 <= k < i ==> (a + b)[k] == a[k];
  }

  /** What one turn takes off the front: a whole line with its newline, or nothing. */
  function Taken(s: Stream): Bytes {
    var i := Newline(s.buffer);
    if i < |s.buffer| then s.buffer[..i + 1] else []
  }

  lemma TurnContent(s: Stream)
    ensures Newline(s.buffer) < |s.buffer| ==> Content(s) == Taken(s) + Content(Advance(s).rest)
    ensures Newline(s.buffer) == |s.buffer| && Advance(s).On? ==> Content(s) == Content(Advance(s).rest)
    ensures Advance(s).Over? && Advance(s).frame.Stopped? ==> Content(s) == s.buffer == Advance(s).rest.buffer
  {
    var i, rest := Newline(s.buffer), Advance(s).rest;
    if i < |s.buffer| {
      assert Content(s) == s.buffer[..i + 1] + Content(rest);
    } else if Advance(s).On? {
      ConsumedJoins(s.buffer, s.pending[0].bytes, Deliverable(rest.received, rest.pending));
    }
  }

  lemma TurnLines(s: Stream)
    ensures match Advance(s)
      case On(rest) => Lines(Content(s)) == Lines(Content(rest))
      case Over(Line(text), rest) => Lines(Content(s)) == [text] + Lines(Content(rest))
      case Over(Stopped(_), _) => Lines(Content(s)) == []
  {
    TurnContent(s);
    var i := Newline(s.buffer);
    if i < |s.buffer| {
      var later := Deliverable(s.received, s.pending);
      NewlineIn(s.buffer, later);
      assert Content(s)[i + 1..] == Content(Advance(s).rest);
    }
  }

  lemma {:induction false} NextFrames(s: Stream)
    ensures match Next(s).0
      case Line(text) => Lines(Content(s)) == [text] + Lines(Content(Next(s).1))
      case Stopped(_) => Lines(Content(s)) == []
    decreases |s.pending|, |s.buffer|
  {
    TurnLines(s);
    if Advance(s).On? {
      NextFrames(Advance(s).rest);
    }
  }

  /** Repeated calls return exactly the lines of what was buffered and is still delivered. */
  lemma {:induction false} CollectIsLines(s: Stream)
    ensures Collect(s) == Lines(Content(s))
    decreases |s.pending|, |s.buffer|
  {
    NextFrames(s);
    var (frame, rest) := Next(s);
    if frame.Line? {
      CollectIsLines(rest);
    }
  }

  function Joined(lines: seq<Bytes>): Bytes {
    if lines == [] then [] else lines[0] + [10] + Joined(lines[1..])
  }

  predicate Sendable(line: Bytes) {
    !Blank(line) && Newline(line) == |line|
  }

  /** Messages that were written one to a line, with an unfinished one behind them, are read back. */
  lemma {:induction false} JoinedLines(lines: seq<Bytes>, tail: Bytes)
    requires Newline(tail) == |tail| && forall i :: 0 <= i < |lines| ==> Sendable(lines[i])
    ensures Lines(Joined(lines) + tail) == lines
    decreases |lines|
  {
    if lines == [] {
      assert Joined(lines) + tail == tail;
    } else {
      var line, rest := lines[0], Joined(lines[1..]) + tail;
      assert Joined(lines) + tail == line + [NL] + rest;
      FirstLine(line, rest);
      JoinedLines(lines[1..], tail);
    }
  }

  lemma FirstLine(line: Bytes, rest: Bytes)
    requires Sendable(line)
    ensures Lines(line + [NL] + rest) == [line] + Lines(rest)
  {
    var whole := line + [NL] + rest;
    assert whole[|line|] == NL && forall j :: 0 <= j < |line| ==> whole[j] == line[j];
    assert Newline(whole) == |line|;
    assert whole[..|line|] == line && whole[|line| + 1..] == rest;
  }

  function Flat(chunks: seq<Bytes>): Bytes {
    if chunks == [] then [] else chunks[0] + Flat(chunks[1..])
  }

  function AsReadings(chunks: seq<Bytes>): seq<Reading> {
    seq(|chunks|, i requires 0 <= i < |chunks| => Chunk(chunks[i]))
  }

  lemma {:induction false} AllDelivered(received: nat, chunks: seq<Bytes>)
    requires received + |Flat(chunks)| <= MAX_APP_SERVER_OUTPUT
    requires forall i :: 0 <= i < |chunks| ==> chunks[i] != []
    ensures Deliverable(received, AsReadings(chunks)) == Flat(chunks)
    decreases |chunks|
  {
    if chunks != [] {
      assert AsReadings(chunks)[1..] == AsReadings(chunks[1..]);
      AllDelivered(received + |chunks[0]|, chunks[1..]);
    }
  }

  /** Within the bound, how the output is cut does not matter: the lines are those of the whole. */
  lemma ChunkingDoesNotMatter(output: Bytes, chunks: seq<Bytes>)
    requires Flat(chunks) == output && |output| <= 8_388_608
    requires forall i :: 0 <= i < |chunks| ==> chunks[i] != []
    ensures Collect(Stream([], 0, AsReadings(chunks))) == Lines(output)
  {
    AllDelivered(0, chunks);
    CollectIsLines(Stream([], 0, AsReadings(chunks)));
    assert [] + output == output;
  }

  // Conservation

  /** The bytes one call takes off the front of the stream. */
  function Consumed(s: Stream): Bytes
    decreases |s.pending|, |s.buffer|
  {
    Taken(s) + if Advance(s).On? then Consumed(Advance(s).rest) else []
  }

  lemma TakenAndMore(s: Stream, more: Bytes)
    ensures Lines(Taken(s) + more)
         == (if Advance(s).Over? && Advance(s).frame.Line? then [Advance(s).frame.text] else []) + Lines(more)
  {
    var i := Newline(s.buffer);
    if i < |s.buffer| {
      TakenLine(s.buffer, i, more);
    } else {
      NothingTaken(more);
    }
  }

  lemma NothingTaken(more: Bytes)
    ensures [] + more == more
  {
  }

  /** What a call consumes is the line it returns and the blank lines before it. */
  lemma {:induction false} ConsumedLines(s: Stream)
    ensures Lines(Consumed(s)) == if Next(s).0.Line? then [Next(s).0.text] else []
    decreases |s.pending|, |s.buffer|
  {
    if Advance(s).On? {
      ConsumedLines(Advance(s).rest);
      TakenAndMore(s, Consumed(Advance(s).rest));
    } else {
      TakenAndMore(s, []);
    }
  }

  lemma TakenLine(buffer: Bytes, i: nat, more: Bytes)
    requires i == Newline(buffer) < |buffer|
    ensures Lines(buffer[..i + 1] + more) == (if Blank(buffer[..i]) then [] else [buffer[..i]]) + Lines(more)
  {
    var whole := buffer[..i + 1] + more;
    assert whole[i] == NL && forall j :: 0 <= j < i ==> whole[j] == buffer[j];
    assert Newline(whole) == i;
    assert whole[..i] == buffer[..i] && whole[i + 1..] == more;
  }

  /** Nothing is invented, reordered or lost: what the stream held is what one call consumed and
      what is left. */
  lemma {:induction false} Conservation(s: Stream)
    ensures Content(s) == Consumed(s) + if Next(s).0.Line? then Content(Next(s).1) else Next(s).1.buffer
    decreases |s.pending|, |s.buffer|
  {
    TurnContent(s);
    if Advance(s).On? {
      var rest := Advance(s).rest;
      Conservation(rest);
      ConsumedJoins(Taken(s), Consumed(rest), if Next(s).0.Line? then Content(Next(s).1) else Next(s).1.buffer);
    }
  }

  /** The stream holds no line, and what comes next is a chunk that exceeds the bound. */
  predicate Overruns(s: Stream) {
    var beyond := Beyond(s.received, s.pending);
    Lines(Content(s)) == [] && beyond != [] && beyond[0].Chunk? && beyond[0].bytes != []
  }

  /** What the next call returns, told from the stream alone. */
  function Expected(s: Stream): Frame {
    var lines, beyond := Lines(Content(s)), Beyond(s.received, s.pending);
    if lines != [] then Line(lines[0])
    else if Overruns(s) then Stopped(TooMuch)
    else if beyond == [] || beyond[0].Late? then Stopped(TimedOut)
    else Stopped(Closed)
  }

  lemma TurnBeyond(s: Stream)
    ensures Advance(s).On? || Advance(s).frame.Line? ==>
      Beyond(Advance(s).rest.received, Advance(s).rest.pending) == Beyond(s.received, s.pending)
    ensures Advance(s).Over? && Advance(s).frame.Stopped? ==> Beyond(s.received, s.pending) == s.pending
  {
  }

  lemma TurnExpected(s: Stream)
    ensures Expected(s) == if Advance(s).On? then Expected(Advance(s).rest) else Advance(s).frame
  {
    TurnLines(s);
    TurnBeyond(s);
  }

  /** A call returns the first line the stream holds; without one, the reading behind what the bound
      lets through says why not. */
  lemma {:induction false} NextIsExpected(s: Stream)
    ensures Next(s).0 == Expected(s)
    decreases |s.pending|, |s.buffer|
  {
    TurnExpected(s);
    if Advance(s).On? {
      NextIsExpected(Advance(s).rest);
    }
  }

  lemma {:induction false} CountByFrame(s: Stream)
    ensures Next(s).1.received - |Next(s).1.buffer| == s.received - |s.buffer| + |Consumed(s)|
       <==> Next(s).0 != Stopped(TooMuch)
    ensures Next(s).0 == Stopped(TooMuch) ==>
      Next(s).1.received - |Next(s).1.buffer| > s.received - |s.buffer| + |Consumed(s)|
    decreases |s.pending|, |s.buffer|
  {
    if Advance(s).On? {
      CountByFrame(Advance(s).rest);
    }
  }

  /** The count of received bytes stays in step with what is buffered and consumed, exactly unless the
      stream overruns the bound: then the chunk is counted and dropped. */
  lemma CountStaysInStep(s: Stream)
    ensures Next(s).1.received - |Next(s).1.buffer| == s.received - |s.buffer| + |Consumed(s)| <==> !Overruns(s)
  {
    CountByFrame(s);
    NextIsExpected(s);
  }

  // Any number of calls

  /** The bytes of a number of readings. */
  function BytesOf(readings: seq<Reading>): Bytes {
    if readings == [] then []
    else (if readings[0].Late? then [] else readings[0].bytes) + BytesOf(readings[1..])
  }

  /** The bytes one call reads, kept or not. */
  function ReadBy(s: Stream): Bytes
    decreases |s.pending|, |s.buffer|
  {
    BytesOf(s.pending[..|s.pending| - |Advance(s).rest.pending|])
    + if Advance(s).On? then ReadBy(Advance(s).rest) else []
  }

  function Calls(s: Stream, n: nat): Stream
    decreases n
  {
    if n == 0 then s else Calls(Next(s).1, n - 1)
  }

  function ConsumedIn(s: Stream, n: nat): Bytes
    decreases n
  {
    if n == 0 then [] else Consumed(s) + ConsumedIn(Next(s).1, n - 1)
  }

  function ReadIn(s: Stream, n: nat): Bytes
    decreases n
  {
    if n == 0 then [] else ReadBy(s) + ReadIn(Next(s).1, n - 1)
  }

  /** The books after some calls: within the bound nothing is missing, beyond it something is. */
  predicate Ledger(s: Stream, consumed: Bytes, read: Bytes) {
    && s.received == |read|
    && if |read| <= 8_388_608 then consumed + s.buffer == read
       else |consumed| + |s.buffer| < |read|
  }

  lemma TurnKeepsLedger(s: Stream, consumed: Bytes, read: Bytes)
    requires Ledger(s, consumed, read)
    ensures var rest := Advance(s).rest;
      Ledger(rest, consumed + Taken(s), read + BytesOf(s.pending[..|s.pending| - |rest.pending|]))
  {
    var i, rest := Newline(s.buffer), Advance(s).rest;
    if i < |s.buffer| {
      assert s.buffer == s.buffer[..i + 1] + s.buffer[i + 1..];
      ConsumedJoins(consumed, s.buffer[..i + 1], s.buffer[i + 1..]);
    } else if s.pending != [] {
      var taken := s.pending[..1];
      assert taken == [s.pending[0]] && taken[1..] == [];
      assert BytesOf(taken) == if s.pending[0].Late? then [] else s.pending[0].bytes;
      ConsumedJoins(consumed, s.buffer, BytesOf(taken));
    }
  }

  lemma {:induction false} CallKeepsLedger(s: Stream, consumed: Bytes, read: Bytes)
    requires Ledger(s, consumed, read)
    ensures Ledger(Next(s).1, consumed + Consumed(s), read + ReadBy(s))
    decreases |s.pending|, |s.buffer|
  {
    TurnKeepsLedger(s, consumed, read);
    var rest := Advance(s).rest;
    var got := BytesOf(s.pending[..|s.pending| - |rest.pending|]);
    if Advance(s).On? {
      CallKeepsLedger(rest, consumed + Taken(s), read + got);
      ConsumedJoins(consumed, Taken(s), Consumed(rest));
      ConsumedJoins(read, got, ReadBy(rest));
    }
  }

  lemma {:induction false} CallsKeepLedger(s: Stream, n: nat, consumed: Bytes, read: Bytes)
    requires Ledger(s, consumed, read)
    ensures Ledger(Calls(s, n), consumed + ConsumedIn(s, n), read + ReadIn(s, n))
    decreases n
  {
    if n > 0 {
      CallKeepsLedger(s, consumed, read);
      CallsKeepLedger(Next(s).1, n - 1, consumed + Consumed(s), read + ReadBy(s));
      ConsumedJoins(consumed, Consumed(s), ConsumedIn(Next(s).1, n - 1));
      ConsumedJoins(read, ReadBy(s), ReadIn(Next(s).1, n - 1));
    }
  }

  /** What is left of the readings after a call or after many, and what they amounted to. */
  predicate ReadsOff(before: seq<Reading>, after: seq<Reading>, read: Bytes) {
    exists k :: 0 <= k <= |before| && before[k..] == after && BytesOf(before[..k]) == read
  }

  lemma {:induction false} BytesOfParts(a: seq<Reading>, b: seq<Reading>)
    ensures BytesOf(a + b) == BytesOf(a) + BytesOf(b)
  {
    if a == [] {
      assert a + b == b;
    } else {
      assert (a + b)[1..] == a[1..] + b;
      BytesOfParts(a[1..], b);
    }
  }

  lemma PartsJoin(a: seq<Reading>, k: nat, l: nat)
    requires k + l <= |a|
    ensures a[..k] + a[k..][..l] == a[..k + l] && a[k..][l..] == a[k + l..]
  {
  }

  lemma ReadsOffAgain(a: seq<Reading>, b: seq<Reading>, c: seq<Reading>, first: Bytes, second: Bytes)
    requires ReadsOff(a, b, first) && ReadsOff(b, c, second)
    ensures ReadsOff(a, c, first + second)
  {
    var k :| 0 <= k <= |a| && a[k..] == b && BytesOf(a[..k]) == first;
    var l :| 0 <= l <= |b| && b[l..] == c && BytesOf(b[..l]) == second;
    BytesOfParts(a[..k], b[..l]);
    PartsJoin(a, k, l);
  }

  lemma {:induction false} CallReadsOff(s: Stream)
    ensures ReadsOff(s.pending, Next(s).1.pending, ReadBy(s))
    decreases |s.pending|, |s.buffer|
  {
    var rest := Advance(s).rest;
    var k := |s.pending| - |rest.pending|;
    assert s.pending[k..] == rest.pending;
    assert ReadsOff(s.pending, rest.pending, BytesOf(s.pending[..k]));
    if Advance(s).On? {
      CallReadsOff(rest);
      ReadsOffAgain(s.pending, rest.pending, Next(s).1.pending, BytesOf(s.pending[..k]), ReadBy(rest));
    }
  }

  lemma {:induction false} CallsReadOff(s: Stream, n: nat)
    ensures ReadsOff(s.pending, Calls(s, n).pending, ReadIn(s, n))
    decreases n
  {
    if n == 0 {
      assert s.pending[0..] == s.pending && BytesOf(s.pending[..0]) == [];
    } else {
      CallReadsOff(s);
      CallsReadOff(Next(s).1, n - 1);
      ReadsOffAgain(s.pending, Next(s).1.pending, Calls(s, n).pending, ReadBy(s), ReadIn(Next(s).1, n - 1));
    }
  }

  /** After any number of calls on a fresh server, pauses included, the bytes read off its output are
      those of a number of readings; all of them are counted; and everything consumed plus the buffer
      is what was read, exactly while that stays within the bound. */
  lemma ConservedOverRuns(output: seq<Reading>, n: nat)
    ensures var s := Stream([], 0, output);
      && ReadsOff(output, Calls(s, n).pending, ReadIn(s, n))
      && Calls(s, n).received == |ReadIn(s, n)|
      && (ConsumedIn(s, n) + Calls(s, n).buffer == ReadIn(s, n) <==> |ReadIn(s, n)| <= 8_388_608)
  {
    var s := Stream([], 0, output);
    CallsKeepLedger(s, n, [], []);
    assert [] + ConsumedIn(s, n) == ConsumedIn(s, n) && [] + ReadIn(s, n) == ReadIn(s, n);
    CallsReadOff(s, n);
  }

  /** Such an output exists: one chunk that is a byte too long is read, counted and gone. */
  lemma OverrunHappens()
    ensures var chunk: Bytes := seq(8_388_609, i => 0);
      var s := Stream([], 0, [Chunk(chunk)]);
      && Overruns(s) && Next(s) == (Stopped(TooMuch), Stream([], |chunk|, []))
      && ConsumedIn(s, 1) + Calls(s, 1).buffer == [] && ReadIn(s, 1) == chunk
  {
    var chunk: Bytes := seq(8_388_609, i => 0);
    var s := Stream([], 0, [Chunk(chunk)]);
    var t := Stream([], |chunk|, []);
    assert s.pending[1..] == [] && Advance(s) == Over(Stopped(TooMuch), t);
    assert s.pending[..1] == s.pending;
    assert BytesOf(s.pending) == chunk + BytesOf([]);
    assert Calls(s, 1) == Calls(t, 0) && ConsumedIn(s, 1) == Consumed(s) + ConsumedIn(t, 0);
    assert ReadIn(s, 1) == ReadBy(s) + ReadIn(t, 0);
  }

  lemma ConsumedJoins(a: Bytes, b: Bytes, c: Bytes)
    ensures a + (b + c) == (a + b) + c
  {
  }

  /** After the bound was exceeded no call returns a line again. */
  lemma OverTheBoundIsTheEnd(s: Stream)
    requires Overruns(s)
    ensures Collect(Next(s).1) == []
  {
    NextIsExpected(s);
    StoppedHasNoLine(s);
    var rest := Next(s).1;
    CollectIsLines(rest);
    assert Content(rest) == rest.buffer;
  }

  lemma {:induction false} StoppedHasNoLine(s: Stream)
    requires Next(s).0 == Stopped(TooMuch)
    ensures Next(s).1.received > MAX_APP_SERVER_OUTPUT && Newline(Next(s).1.buffer) == |Next(s).1.buffer|
    decreases |s.pending|, |s.buffer|
  {
    if Advance(s).On? {
      StoppedHasNoLine(Advance(s).rest);
    }
  }

  // Responses

  /** What the lines alone say the answer to a request is. */
  function FirstAnswer(parse: Bytes -> Json, lines: seq<Bytes>, id: int): Option<Response> {
    if lines == [] then None
    else
      var r := Parsed(parse, Line(lines[0]));
      if !r.Got? then Some(NoResponse(r))
      else if r.message.id == Some(id) then Some(Reply(r.message))
      else FirstAnswer(parse, lines[1..], id)
  }

  /** A response depends only on the lines of the output: it is the first message with the id, unless
      an unreadable line comes before it or the output stops. */
  lemma {:induction false} AnswerIsFirst(parse: Bytes -> Json, s: Stream, id: int)
    ensures match FirstAnswer(parse, Lines(Content(s)), id)
      case Some(r) => Answer(parse, s, id) == r
      case None => Answer(parse, s, id).NoResponse? && Answer(parse, s, id).r.Failed?
    decreases |s.pending|, |s.buffer|
  {
    NextFrames(s);
    var (frame, rest) := Next(s);
    if frame.Line? {
      var lines := Lines(Content(s));
      assert lines[0] == frame.text && lines[1..] == Lines(Content(rest));
      AnswerIsFirst(parse, rest, id);
    }
  }

  /** Line k decides: the lines before it are messages about something else, and it is not. */
  predicate Decides(parse: Bytes -> Json, lines: seq<Bytes>, id: int, k: nat) {
    && k < |lines| && (parse(lines[k]).Message? ==> parse(lines[k]).id == Some(id))
    && forall j :: 0 <= j < k ==> parse(lines[j]).Message? && parse(lines[j]).id != Some(id)
  }

  lemma {:induction false} FirstDecides(parse: Bytes -> Json, lines: seq<Bytes>, id: int, k: nat)
    requires Decides(parse, lines, id, k)
    ensures FirstAnswer(parse, lines, id) == FirstAnswer(parse, lines[k..], id)
    decreases k
  {
    if k > 0 {
      assert parse(lines[0]).Message? && lines[1..][k - 1..] == lines[k..];
      FirstDecides(parse, lines[1..], id, k - 1);
    } else {
      assert lines[0..] == lines;
    }
  }

  /** What the deciding line says is the answer: an error or a missing result is never taken for one, and
      a line that is no message ends the wait. */
  lemma AnswerExactly(parse: Bytes -> Json, s: Stream, id: int, k: nat)
    requires Decides(parse, Lines(Content(s)), id, k)
    ensures Answer(parse, s, id) == match parse(Lines(Content(s))[k])
      case Malformed => NoResponse(InvalidJson)
      case NotAnObject => NoResponse(NonObject)
      case Message(_, error, hasResult) =>
        if error then Rejected else if hasResult then Result(parse(Lines(Content(s))[k])) else InvalidResult
  {
    AnswerIsFirst(parse, s, id);
    FirstDecides(parse, Lines(Content(s)), id, k);
  }
}
