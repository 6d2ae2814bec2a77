/** The buffered receiver `Connection::recv_one` (src/transport.rs), and why the way a stream
    is cut into reads does not matter. */
module Receiver {
  import opened Base
  import opened Wire
  import opened Envelope

  const READ_SIZE := 8192
  const BUFFER_LIMIT := HEADER + MAX_PROTOCOL_MESSAGE_LENGTH

  /** Milliseconds after which an incomplete envelope is given up. */
  const ENVELOPE_HARD_TIMEOUT := 120_000

  /** The kinds of I/O error callers tell apart. */
  datatype IoKind = ConnectionLost | IoTimedOut | OtherIo

  datatype RecvError =
    | Framing(error: EnvelopeError) | HardDeadline | ReadFailed(kind: IoKind) | PeerClosed | BufferLimitExceeded

  /** How one wait on the socket ends: an empty chunk is the end of the stream. */
  datatype Arrival = Silence | Failure(kind: IoKind) | Chunk(bytes: seq<byte>)

  /** What the socket does next, and the clock when it has done it. */
  datatype Tick = Tick(at: nat, arrival: Arrival)

  /** What one call returns; `Waiting` is a call that has not returned yet. */
  datatype Received = Got(message: Message) | Nothing | Waiting | Failed(error: RecvError)

  datatype Buffered = Buffered(buf: seq<byte>, started: Option<nat>)

  datatype Outcome = Outcome(result: Received, state: Buffered, clock: nat, ticks: seq<Tick>)

  predicate Expired(s: Buffered, clock: nat) {
    s.started.Some? && clock >= s.started.value + ENVELOPE_HARD_TIMEOUT
  }

  function Taken(m: Message, rest: seq<byte>, clock: nat, ticks: seq<Tick>): Outcome {
    Outcome(Got(m), Buffered(rest, if rest == [] then None else Some(clock)), clock, ticks)
  }

  function Append(s: Buffered, bytes: seq<byte>, at: nat): Buffered {
    Buffered(s.buf + bytes, if s.buf == [] then Some(at) else s.started)
  }

  /** One call. */
  function Receive(ck: Checksum, s: Buffered, clock: nat, deadline: nat, ticks: seq<Tick>): Outcome
    decreases |ticks|
  {
    match TryParse(ck, s.buf)
    case Complete(m, rest) => Taken(m, rest, clock, ticks)
    case Broken(e) => Outcome(Failed(Framing(e)), s, clock, ticks)
    case Incomplete =>
      if Expired(s, clock) then Outcome(Failed(HardDeadline), s, clock, ticks)
      else if clock >= deadline then Outcome(Nothing, s, clock, ticks)
      else if ticks == [] then Outcome(Waiting, s, clock, ticks)
      else
        var at, left := ticks[0].at, ticks[1..];
        match ticks[0].arrival
        case Silence => Outcome(Nothing, s, at, left)
        case Failure(kind) => Outcome(Failed(ReadFailed(kind)), s, at, left)
        case Chunk(bytes) =>
          if bytes == [] then Outcome(Failed(PeerClosed), s, at, left)
          else
            var s' := Append(s, bytes, at);
            if |s'.buf| > BUFFER_LIMIT then Outcome(Failed(BufferLimitExceeded), s', at, left)
            else Receive(ck, s', at, deadline, left)
  }

  class Connection {
    var recvBuf: seq<byte>
    var frameStarted: Option<nat>

    function State(): Buffered
      reads this
    { Buffered(recvBuf, frameStarted) }

    constructor ()
      ensures State() == Buffered([], None)
    {
      recvBuf, frameStarted := [], None;
    }

    /** Takes a complete envelope off the buffer; otherwise the buffer is left alone. */
    method TryParseEnvelope(ck: Checksum) returns (r: Result<Option<Message>, EnvelopeError>)
      modifies this`recvBuf
      ensures match TryParse(ck, old(recvBuf))
              case Complete(m, rest) => r == Ok(Some(m)) && recvBuf == rest
              case Incomplete => r == Ok(None) && recvBuf == old(recvBuf)
              case Broken(e) => r == Err(e) && recvBuf == old(recvBuf)
    {
      if |recvBuf| < HEADER { return Ok(None); }
      var header := recvBuf[..HEADER];
      if header[0..4] != MAGIC { return Err(MagicMismatch); }
      assert header[4..16] == recvBuf[4..16] && header[16..20] == recvBuf[16..20] && header[20..24] == recvBuf[20..24];
      var command := ParseCommand(header[4..16]);
      if command == None { return Err(InvalidCommand); }
      var length := FromLe(header[16..20]);
      if length > MAX_PROTOCOL_MESSAGE_LENGTH { return Err(Oversize(length)); }
      if |recvBuf| < HEADER + length { return Ok(None); }
      var payload := recvBuf[HEADER..HEADER + length];
      if ck(payload) != header[20..24] { return Err(ChecksumMismatch); }
      recvBuf := recvBuf[HEADER + length..];
      return Ok(Some(Message(command.value, payload)));
    }

    method RecvOne(ck: Checksum, start: nat, perTimeout: nat, ticks: seq<Tick>)
      returns (r: Received, clock: nat, left: seq<Tick>)
      modifies this
      ensures Outcome(r, State(), clock, left) == Receive(ck, old(State()), start, start + perTimeout, ticks)
    {
      var deadline := start + perTimeout;
      clock, left := start, ticks;
      while true
        invariant Receive(ck, State(), clock, deadline, left) == Receive(ck, old(State()), start, deadline, ticks)
        decreases |left|
      {
        var parsed := TryParseEnvelope(ck);
        match parsed {
          case Err(e) => return Failed(Framing(e)), clock, left;
          case Ok(Some(m)) =>
            frameStarted := if recvBuf == [] then None else Some(clock);
            return Got(m), clock, left;
          case Ok(None) =>
        }
        if frameStarted.Some? && clock >= frameStarted.value + ENVELOPE_HARD_TIMEOUT {
          return Failed(HardDeadline), clock, left;
        }
        if clock >= deadline { return Nothing, clock, left; }
        if left == [] { return Waiting, clock, left; }
        var tick := left[0];
        clock, left := tick.at, left[1..];
        match tick.arrival {
          case Silence => return Nothing, clock, left;
          case Failure(kind) => return Failed(ReadFailed(kind)), clock, left;
          case Chunk(bytes) =>
            if bytes == [] { return Failed(PeerClosed), clock, left; }
            if recvBuf == [] { frameStarted := Some(clock); }
            recvBuf := recvBuf + bytes;
            if |recvBuf| > BUFFER_LIMIT { return Failed(BufferLimitExceeded), clock, left; }
        }
      }
    }
  }

  // ---- the whole connection --------------------------------------------------------------------------

  /** One call: how long after the previous one it is made, and how long it may wait. */
  datatype Call = Call(gap: nat, timeout: nat)

  /** A connection's history: every message handed out, and what the last call returned. */
  datatype Log = Log(delivered: seq<Message>, last: Option<Received>, state: Buffered, ticks: seq<Tick>)

  ghost function Prepend(r: Received, log: Log): Log {
    log.(delivered := (if r.Got? then [r.message] else []) + log.delivered,
         last := if log.last == None then Some(r) else log.last)
  }

  /** Calls one after another, up to the first that fails or does not return. */
  ghost function Session(ck: Checksum, s: Buffered, clock: nat, calls: seq<Call>, ticks: seq<Tick>): Log
    decreases |calls|
  {
    if calls == [] then Log([], None, s, ticks)
    else
      var start := clock + calls[0].gap;
      var o := Receive(ck, s, start, start + calls[0].timeout, ticks);
      match o.result
      case Got(_) => Prepend(o.result, Session(ck, o.state, o.clock, calls[1..], o.ticks))
      case Nothing => Prepend(o.result, Session(ck, o.state, o.clock, calls[1..], o.ticks))
      case _ => Log([], Some(o.result), o.state, o.ticks)
  }

  /** The bytes the socket yields over `ticks`. */
  ghost function Stream(ticks: seq<Tick>): seq<byte> {
    if ticks == [] then []
    else (if ticks[0].arrival.Chunk? then ticks[0].arrival.bytes else []) + Stream(ticks[1..])
  }

  /** No read returns more than the read buffer holds. */
  ghost predicate Sized(ticks: seq<Tick>) {
    forall i :: 0 <= i < |ticks| && ticks[i].arrival.Chunk? ==> |ticks[i].arrival.bytes| <= READ_SIZE
  }

  // ---- the reference: parsing the whole stream at once ------------------------------------------------------

  datatype Reading = Reading(messages: seq<Message>, rest: seq<byte>, error: Option<EnvelopeError>)

  ghost function Reference(ck: Checksum, bytes: seq<byte>): Reading
    decreases |bytes|
  {
    match TryParse(ck, bytes)
    case Incomplete => Reading([], bytes, None)
    case Broken(e) => Reading([], bytes, Some(e))
    case Complete(m, rest) =>
      var r := Reference(ck, rest);
      r.(messages := [m] + r.messages)
  }

  /** Reading more goes on from where reading less stopped. */
  lemma {:induction false} ReadOn(ck: Checksum, bytes: seq<byte>, more: seq<byte>)
    ensures var r, all := Reference(ck, bytes), Reference(ck, bytes + more);
            if r.error.Some? then all.messages == r.messages && all.error == r.error
            else all.messages == r.messages + Reference(ck, r.rest + more).messages &&
                 all.error == Reference(ck, r.rest + more).error
    decreases |bytes|
  {
    hide TryParse;
    VerdictStands(ck, bytes, more);
    match TryParse(ck, bytes)
    case Complete(m, rest) =>
      Shorter(ck, bytes);
      ReadOn(ck, rest, more);
    case _ =>
  }

  lemma Shorter(ck: Checksum, bytes: seq<byte>)
    requires TryParse(ck, bytes).Complete?
    ensures |TryParse(ck, bytes).rest| < |bytes|
  {}

  // ---- which streams fit the buffer ----------------------------------------------------------------------

  /** The first header is in order and what it announces may still be on its way. */
  predicate Announces(bytes: seq<byte>) {
    |bytes| >= HEADER && bytes[0..4] == MAGIC && ParseCommand(bytes[4..16]).Some? &&
    DeclaredLength(bytes) <= MAX_PROTOCOL_MESSAGE_LENGTH
  }

  /** The bound up to which no cut of the stream can overflow the buffer. */
  const SAFE_LENGTH := MAX_PROTOCOL_MESSAGE_LENGTH - READ_SIZE + 1

  /** A message that announces more than that begins here, and more bytes follow than the buffer holds. */
  predicate HeavyHere(bytes: seq<byte>) {
    Announces(bytes) && DeclaredLength(bytes) > SAFE_LENGTH && |bytes| > BUFFER_LIMIT
  }

  /** Where some message begins, in order, one does. */
  ghost predicate Heavy(ck: Checksum, bytes: seq<byte>)
    decreases |bytes|
  {
    HeavyHere(bytes) ||
    match TryParse(ck, bytes)
    case Complete(_, rest) => Heavy(ck, rest)
    case _ => false
  }

  lemma AnnouncesMore(bytes: seq<byte>, more: seq<byte>)
    requires |bytes| >= HEADER
    ensures Announces(bytes + more) <==> Announces(bytes)
    ensures DeclaredLength(bytes + more) == DeclaredLength(bytes)
  {
    hide ParseCommand, FromLe;
    var all := bytes + more;
    assert all[0..4] == bytes[0..4] && all[4..16] == bytes[4..16] && all[16..20] == bytes[16..20];
  }

  lemma HeavyHereMore(bytes: seq<byte>, more: seq<byte>)
    requires HeavyHere(bytes)
    ensures HeavyHere(bytes + more)
  {
    AnnouncesMore(bytes, more);
    hide ParseCommand, FromLe;
  }

  lemma {:induction false} HeavyMore(ck: Checksum, bytes: seq<byte>, more: seq<byte>)
    requires Heavy(ck, bytes)
    ensures Heavy(ck, bytes + more)
    decreases |bytes|
  {
    hide TryParse, HeavyHere;
    if HeavyHere(bytes) {
      HeavyHereMore(bytes, more);
    } else {
      VerdictStands(ck, bytes, more);
      Shorter(ck, bytes);
      HeavyMore(ck, TryParse(ck, bytes).rest, more);
    }
  }

  /** A buffer with a whole header that is not yet a message announces more than it has. */
  lemma IncompleteAnnounces(ck: Checksum, buf: seq<byte>)
    requires TryParse(ck, buf) == Incomplete && |buf| >= HEADER
    ensures Announces(buf) && |buf| < HEADER + DeclaredLength(buf)
  {
    hide ParseCommand, FromLe;
  }

  /** A read overflows the buffer only where a message begins that is too long. */
  lemma ReadFits(ck: Checksum, buf: seq<byte>, bytes: seq<byte>, more: seq<byte>)
    requires TryParse(ck, buf) == Incomplete && |bytes| <= READ_SIZE && !Heavy(ck, buf + (bytes + more))
    ensures |buf + bytes| <= BUFFER_LIMIT
  {
    hide TryParse, Announces, DeclaredLength;
    if |buf + bytes| > BUFFER_LIMIT {
      IncompleteAnnounces(ck, buf);
      AnnouncesMore(buf, bytes + more);
    }
  }

  // ---- one call against the reference --------------------------------------------------------------------------

  /** What one call did agrees with reading at once the bytes it started with and those it read, `all`. */
  ghost predicate Agrees(ck: Checksum, all: seq<byte>, out: Outcome) {
    match out.result
    case Got(m) => TryParse(ck, all) == Complete(m, out.state.buf)
    case Failed(Framing(e)) => TryParse(ck, all) == Broken(e)
    case Failed(BufferLimitExceeded) => out.state.buf == all && |all| > BUFFER_LIMIT
    case _ => out.state.buf == all && TryParse(ck, all) == Incomplete
  }

  /** The call goes round its loop: it reads some bytes and tries again. */
  ghost predicate Rounds(ck: Checksum, s: Buffered, clock: nat, deadline: nat, ticks: seq<Tick>) {
    TryParse(ck, s.buf) == Incomplete && !Expired(s, clock) && clock < deadline && ticks != [] &&
    ticks[0].arrival.Chunk? && ticks[0].arrival.bytes != [] && |s.buf + ticks[0].arrival.bytes| <= BUFFER_LIMIT
  }

  lemma GoRound(ck: Checksum, s: Buffered, clock: nat, deadline: nat, ticks: seq<Tick>)
    requires Rounds(ck, s, clock, deadline, ticks)
    ensures var s', at := Append(s, ticks[0].arrival.bytes, ticks[0].at), ticks[0].at;
            Receive(ck, s, clock, deadline, ticks) == Receive(ck, s', at, deadline, ticks[1..])
    ensures Stream(ticks) == ticks[0].arrival.bytes + Stream(ticks[1..])
  {
    hide TryParse;
  }

  /** The last time round, no byte is taken up, but for a read that overflows the buffer. */
  lemma LastStep(ck: Checksum, s: Buffered, clock: nat, deadline: nat, ticks: seq<Tick>)
    requires !Rounds(ck, s, clock, deadline, ticks)
    ensures var out := Receive(ck, s, clock, deadline, ticks);
            if out.result == Failed(BufferLimitExceeded) then
              ticks != [] && ticks[0].arrival.Chunk? && out.ticks == ticks[1..] &&
                  Agrees(ck, s.buf + ticks[0].arrival.bytes, out)
            else Agrees(ck, s.buf, out) && Stream(ticks) == Stream(out.ticks)
  {
    hide TryParse;
  }

  lemma LastRound(ck: Checksum, s: Buffered, clock: nat, deadline: nat, ticks: seq<Tick>) returns (got: seq<byte>)
    requires !Rounds(ck, s, clock, deadline, ticks)
    ensures var out := Receive(ck, s, clock, deadline, ticks);
            Stream(ticks) == got + Stream(out.ticks) && Agrees(ck, s.buf + got, out)
  {
    LastStep(ck, s, clock, deadline, ticks);
    hide TryParse, Receive, Agrees;
    var out := Receive(ck, s, clock, deadline, ticks);
    if out.result == Failed(BufferLimitExceeded) {
      got := ticks[0].arrival.bytes;
    } else {
      got := [];
      assert s.buf + got == s.buf && got + Stream(out.ticks) == Stream(out.ticks);
    }
  }

  lemma {:induction false} ReceiveAgrees(ck: Checksum, s: Buffered, clock: nat, deadline: nat, ticks: seq<Tick>)
    returns (got: seq<byte>)
    ensures var out := Receive(ck, s, clock, deadline, ticks);
            Stream(ticks) == got + Stream(out.ticks) && Agrees(ck, s.buf + got, out)
    decreases |ticks|
  {
    hide TryParse, Agrees, Receive, Stream;
    if !Rounds(ck, s, clock, deadline, ticks) {
      got := LastRound(ck, s, clock, deadline, ticks);
    } else {
      GoRound(ck, s, clock, deadline, ticks);
      var bytes := ticks[0].arrival.bytes;
      var s' := Append(s, bytes, ticks[0].at);
      var got' := ReceiveAgrees(ck, s', ticks[0].at, deadline, ticks[1..]);
      got := bytes + got';
      assert s.buf + got == s'.buf + got' by { Assoc(s.buf, bytes, got'); }
      var out := Receive(ck, s, clock, deadline, ticks);
      Assoc(bytes, got', Stream(out.ticks));
    }
  }

  lemma SizedTail(ticks: seq<Tick>)
    requires Sized(ticks) && ticks != []
    ensures Sized(ticks[1..])
    ensures ticks[0].arrival.Chunk? ==> |ticks[0].arrival.bytes| <= READ_SIZE
  {}

  lemma {:induction false} NoOverflow(ck: Checksum, s: Buffered, clock: nat, deadline: nat, ticks: seq<Tick>)
    requires Sized(ticks) && !Heavy(ck, s.buf + Stream(ticks))
    ensures var out := Receive(ck, s, clock, deadline, ticks);
            out.result != Failed(BufferLimitExceeded) && Sized(out.ticks)
    decreases |ticks|
  {
    hide TryParse, Heavy, Sized;
    if TryParse(ck, s.buf) == Incomplete && !Expired(s, clock) && clock < deadline && ticks != [] {
      SizedTail(ticks);
      if ticks[0].arrival.Chunk? {
        ReadFits(ck, s.buf, ticks[0].arrival.bytes, Stream(ticks[1..]));
      }
      if Rounds(ck, s, clock, deadline, ticks) {
        GoRound(ck, s, clock, deadline, ticks);
        hide Receive, Stream;
        var bytes := ticks[0].arrival.bytes;
        Assoc(s.buf, bytes, Stream(ticks[1..]));
        NoOverflow(ck, Append(s, bytes, ticks[0].at), ticks[0].at, deadline, ticks[1..]);
      }
    }
  }

  // ---- the whole connection against the reference ------------------------------------------------------------------

  /** What a session did agrees with reading at once the bytes it started with and those it read, `all`. */
  ghost predicate Faithful(ck: Checksum, all: seq<byte>, log: Log) {
    var r := Reference(ck, all);
    match log.last
    case Some(Failed(Framing(e))) => r.messages == log.delivered && r.error == Some(e)
    case Some(Failed(BufferLimitExceeded)) => log.delivered <= r.messages
    case Some(Got(_)) => r.messages == log.delivered + Reference(ck, log.state.buf).messages
    case None => log.delivered == [] && log.state.buf == all
    case _ => r.messages == log.delivered && r.error == None
  }

  lemma FaithfulFirst(ck: Checksum, all: seq<byte>, got: seq<byte>, out: Outcome, log: Log)
    requires Agrees(ck, all, out) && out.result.Got?
    requires Faithful(ck, out.state.buf + got, log)
    ensures Faithful(ck, all + got, Prepend(out.result, log))
  {
    hide TryParse;
    VerdictStands(ck, all, got);
  }

  lemma ReadsNone(ck: Checksum, all: seq<byte>)
    requires TryParse(ck, all) == Incomplete
    ensures Reference(ck, all) == Reading([], all, None)
  {}

  lemma NoMessages(messages: seq<Message>)
    ensures [] + messages == messages
  {}

  lemma FaithfulNothing(ck: Checksum, all: seq<byte>, got: seq<byte>, out: Outcome, log: Log)
    requires Agrees(ck, all, out) && out.result.Nothing?
    requires Faithful(ck, out.state.buf + got, log) && (log.last == None ==> got == [])
    ensures Faithful(ck, all + got, Prepend(out.result, log))
  {
    hide TryParse, Reference;
    if log.last == None {
      assert all + got == all;
      ReadsNone(ck, all);
    }
    NoMessages(log.delivered);
  }

  lemma FaithfulEnd(ck: Checksum, all: seq<byte>, out: Outcome)
    requires Agrees(ck, all, out) && !out.result.Got? && !out.result.Nothing?
    ensures Faithful(ck, all, Log([], Some(out.result), out.state, out.ticks))
  {
    hide TryParse;
  }

  /** The call, or the session, read `got` off the socket and did what reading all it had at once would do. */
  ghost predicate CallTells(ck: Checksum, s: Buffered, ticks: seq<Tick>, got: seq<byte>, o: Outcome) {
    Stream(ticks) == got + Stream(o.ticks) && Agrees(ck, s.buf + got, o)
  }

  ghost predicate Tells(ck: Checksum, s: Buffered, ticks: seq<Tick>, got: seq<byte>, log: Log) {
    Stream(ticks) == got + Stream(log.ticks) && Faithful(ck, s.buf + got, log) && (log.last == None ==> got == [])
  }

  lemma CallFaithful(ck: Checksum, s: Buffered, clock: nat, deadline: nat, ticks: seq<Tick>) returns (got: seq<byte>)
    ensures CallTells(ck, s, ticks, got, Receive(ck, s, clock, deadline, ticks))
  {
    hide Receive, Stream, Agrees;
    got := ReceiveAgrees(ck, s, clock, deadline, ticks);
  }

  lemma TellsNothing(ck: Checksum, s: Buffered, ticks: seq<Tick>)
    ensures Tells(ck, s, ticks, [], Log([], None, s, ticks))
  {
    hide Stream;
    assert s.buf + [] == s.buf && [] + Stream(ticks) == Stream(ticks);
  }

  lemma {:induction false} SessionFaithful(ck: Checksum, s: Buffered, clock: nat, calls: seq<Call>, ticks: seq<Tick>)
    returns (got: seq<byte>)
    ensures Tells(ck, s, ticks, got, Session(ck, s, clock, calls, ticks))
    decreases |calls|
  {
    hide CallTells, Tells, Receive, Prepend;
    if calls == [] {
      got := [];
      TellsNothing(ck, s, ticks);
    } else {
      var start := clock + calls[0].gap;
      var o := Receive(ck, s, start, start + calls[0].timeout, ticks);
      var got1 := CallFaithful(ck, s, start, start + calls[0].timeout, ticks);
      if o.result.Got? || o.result.Nothing? {
        var got2 := SessionFaithful(ck, o.state, o.clock, calls[1..], o.ticks);
        got := got1 + got2;
        TellsNext(ck, s, ticks, got1, o, got2, Session(ck, o.state, o.clock, calls[1..], o.ticks));
      } else {
        got := got1;
        TellsEnd(ck, s, ticks, got1, o);
      }
    }
  }

  lemma TellsEnd(ck: Checksum, s: Buffered, ticks: seq<Tick>, got: seq<byte>, o: Outcome)
    requires CallTells(ck, s, ticks, got, o) && !o.result.Got? && !o.result.Nothing?
    ensures Tells(ck, s, ticks, got, Log([], Some(o.result), o.state, o.ticks))
  {
    hide Agrees, Faithful, Stream;
    FaithfulEnd(ck, s.buf + got, o);
  }

  /** One call that returned before the rest of the session. */
  lemma TellsNext(ck: Checksum, s: Buffered, ticks: seq<Tick>, got1: seq<byte>, o: Outcome, got2: seq<byte>, log: Log)
    requires CallTells(ck, s, ticks, got1, o) && (o.result.Got? || o.result.Nothing?)
    requires Tells(ck, o.state, o.ticks, got2, log)
    ensures Tells(ck, s, ticks, got1 + got2, Prepend(o.result, log))
  {
    hide TryParse, Agrees, Stream, Faithful;
    Assoc(s.buf, got1, got2);
    Assoc(got1, got2, Stream(log.ticks));
    if o.result.Got? {
      FaithfulFirst(ck, s.buf + got1, got2, o, log);
    } else {
      FaithfulNothing(ck, s.buf + got1, got2, o, log);
    }
  }

  lemma {:induction false} SessionFits(ck: Checksum, s: Buffered, clock: nat, calls: seq<Call>, ticks: seq<Tick>)
    requires Sized(ticks) && !Heavy(ck, s.buf + Stream(ticks))
    ensures Session(ck, s, clock, calls, ticks).last != Some(Failed(BufferLimitExceeded))
    decreases |calls|
  {
    hide TryParse, Receive, Stream, Sized, Heavy, Agrees;
    if calls != [] {
      var start := clock + calls[0].gap;
      var o := Receive(ck, s, start, start + calls[0].timeout, ticks);
      NoOverflow(ck, s, start, start + calls[0].timeout, ticks);
      var got := ReceiveAgrees(ck, s, start, start + calls[0].timeout, ticks);
      if o.result.Got? || o.result.Nothing? {
        Remainder(ck, s, got, o);
        SessionFits(ck, o.state, o.clock, calls[1..], o.ticks);
      }
    }
  }

  /** What is left of a stream that fits, once a call has returned, fits. */
  lemma Remainder(ck: Checksum, s: Buffered, got: seq<byte>, o: Outcome)
    requires Agrees(ck, s.buf + got, o) && (o.result.Got? || o.result.Nothing?)
    requires !Heavy(ck, s.buf + (got + Stream(o.ticks)))
    ensures !Heavy(ck, o.state.buf + Stream(o.ticks))
  {
    hide TryParse, Announces, Stream;
    Assoc(s.buf, got, Stream(o.ticks));
    VerdictStands(ck, s.buf + got, Stream(o.ticks));
  }

  /** What agrees with the bytes read so far agrees with the whole stream. */
  lemma FaithfulPrefix(ck: Checksum, read: seq<byte>, unread: seq<byte>, stream: seq<byte>, log: Log)
    requires Faithful(ck, read, log) && stream == read + unread
    ensures log.delivered <= Reference(ck, stream).messages
    ensures forall e :: log.last == Some(Failed(Framing(e))) ==>
              Reference(ck, stream).messages == log.delivered && Reference(ck, stream).error == Some(e)
  {
    hide TryParse, Reference;
    ReadOn(ck, read, unread);
  }

  lemma NoBytes(bytes: seq<byte>)
    ensures [] + bytes == bytes
  {}

  /** A framing error is the one the whole stream has, after all its messages; and when the last call ended
      otherwise than with a message, all the messages that had been read were handed out. */
  ghost predicate EndsRight(ck: Checksum, read: seq<byte>, stream: seq<byte>, log: Log) {
    match log.last
    case Some(Failed(Framing(e))) =>
      Reference(ck, stream).messages == log.delivered && Reference(ck, stream).error == Some(e)
    case Some(Failed(BufferLimitExceeded)) => true
    case Some(Got(_)) => true
    case None => true
    case _ => Reference(ck, read).messages == log.delivered && Reference(ck, read).error == None
  }

  /** What a session that began with an empty buffer says of the whole stream. */
  lemma RunTells(ck: Checksum, ticks: seq<Tick>, read: seq<byte>, log: Log, more: seq<byte>, stream: seq<byte>)
    requires Tells(ck, Buffered([], None), ticks, read, log) && stream == Stream(ticks) + more
    ensures Stream(ticks) == read + Stream(log.ticks) && log.delivered <= Reference(ck, stream).messages
    ensures EndsRight(ck, read, stream, log)
  {
    hide Reference, Stream;
    NoBytes(read);
    Assoc(read, Stream(log.ticks), more);
    FaithfulPrefix(ck, read, Stream(log.ticks) + more, stream, log);
  }

  // ---- the main results --------------------------------------------------------------------------------------------

  /** Everything a new connection does with a socket. */
  ghost function Run(ck: Checksum, calls: seq<Call>, ticks: seq<Tick>): Log {
    Session(ck, Buffered([], None), 0, calls, ticks)
  }

  /** Whatever the reads and the timeouts between them, a connection hands out the messages of the stream
      in order, none missing and none invented; it reports a framing error exactly where the stream has it;
      and when a call ends otherwise than with a message, all that had arrived has been handed out. */
  lemma ChunkingIndependence(ck: Checksum, calls: seq<Call>, ticks: seq<Tick>, stream: seq<byte>)
    returns (read: seq<byte>)
    requires Sized(ticks) && Stream(ticks) <= stream && !Heavy(ck, stream)
    ensures var log := Run(ck, calls, ticks);
            log.last != Some(Failed(BufferLimitExceeded)) && log.delivered <= Reference(ck, stream).messages &&
            Stream(ticks) == read + Stream(log.ticks) && EndsRight(ck, read, stream, log)
  {
    hide Heavy, Session, Stream, Sized, Reference, Tells, EndsRight;
    var more := RunFits(ck, calls, ticks, stream);
    read := SessionFaithful(ck, Buffered([], None), 0, calls, ticks);
    RunTells(ck, ticks, read, Run(ck, calls, ticks), more, stream);
  }

  lemma RunFits(ck: Checksum, calls: seq<Call>, ticks: seq<Tick>, stream: seq<byte>) returns (more: seq<byte>)
    requires Sized(ticks) && Stream(ticks) <= stream && !Heavy(ck, stream)
    ensures Run(ck, calls, ticks).last != Some(Failed(BufferLimitExceeded)) && stream == Stream(ticks) + more
  {
    hide Heavy, Session, Stream, Sized;
    more := Rest(Stream(ticks), stream);
    var s := Buffered([], None);
    NoBytes(Stream(ticks));
    assert s.buf + Stream(ticks) == Stream(ticks);
    if Heavy(ck, Stream(ticks)) {
      HeavyMore(ck, Stream(ticks), more);
    }
    SessionFits(ck, s, 0, calls, ticks);
  }

  lemma Rest(bytes: seq<byte>, stream: seq<byte>) returns (more: seq<byte>)
    requires bytes <= stream
    ensures stream == bytes + more
  {
    more := stream[|bytes|..];
  }

  // ---- the hard deadline -------------------------------------------------------------------------------------------

  /** The clock runs exactly while part of an envelope is held. */
  predicate TimerRuns(s: Buffered) { s.started.Some? <==> s.buf != [] }

  /** The timer keeps to the buffer, and a call gives up on an envelope only when part of one has been held
      for the whole deadline: since it began to arrive, or since the message before it was taken. */
  lemma {:induction false} DeadlineIsForPartials(ck: Checksum, s: Buffered, clock: nat, deadline: nat, ticks: seq<Tick>)
    requires TimerRuns(s)
    ensures var out := Receive(ck, s, clock, deadline, ticks);
            TimerRuns(out.state) &&
            (out.result == Failed(HardDeadline) ==>
              out.state.buf != [] && TryParse(ck, out.state.buf) == Incomplete &&
              out.clock >= out.state.started.value + ENVELOPE_HARD_TIMEOUT)
    decreases |ticks|
  {
    hide TryParse;
    if Rounds(ck, s, clock, deadline, ticks) {
      DeadlineIsForPartials(ck, Append(s, ticks[0].arrival.bytes, ticks[0].at), ticks[0].at, deadline, ticks[1..]);
    }
  }

  /** Every call that returns uses up some of the stream, unless its time was up before it began. */
  lemma {:induction false} ReceiveProgress(ck: Checksum, s: Buffered, clock: nat, deadline: nat, ticks: seq<Tick>)
    ensures var out := Receive(ck, s, clock, deadline, ticks);
            |out.ticks| <= |ticks| &&
            (out.result.Got? ==> |out.ticks| < |ticks| || |out.state.buf| < |s.buf|) &&
            (out.result.Nothing? && clock < deadline ==> |out.ticks| < |ticks|) &&
            (out.result.Nothing? ==> TryParse(ck, out.state.buf) == Incomplete)
    decreases |ticks|
  {
    if TryParse(ck, s.buf).Complete? {
      Shorter(ck, s.buf);
    }
    hide TryParse;
    if Rounds(ck, s, clock, deadline, ticks) {
      ReceiveProgress(ck, Append(s, ticks[0].arrival.bytes, ticks[0].at), ticks[0].at, deadline, ticks[1..]);
    }
  }
}
