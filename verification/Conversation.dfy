/** One peer conversation (src/crawler.rs): the link it is held over, the wait for one command, and the handshake. */
module Conversation {
  import opened Base
  import opened NodeStore
  import opened Addresses
  import opened Envelope
  import opened Receiver
  import Version

  const VERSION: seq<byte> := [0x76, 0x65, 0x72, 0x73, 0x69, 0x6F, 0x6E]
  const VERACK: seq<byte> := [0x76, 0x65, 0x72, 0x61, 0x63, 0x6B]
  const SENDADDRV2: seq<byte> := [0x73, 0x65, 0x6E, 0x64, 0x61, 0x64, 0x64, 0x72, 0x76, 0x32]
  const PING: seq<byte> := [0x70, 0x69, 0x6E, 0x67]
  const PONG: seq<byte> := [0x70, 0x6F, 0x6E, 0x67]
  const GETADDR: seq<byte> := [0x67, 0x65, 0x74, 0x61, 0x64, 0x64, 0x72]
  const ADDR: seq<byte> := [0x61, 0x64, 0x64, 0x72]
  const ADDRV2: seq<byte> := [0x61, 0x64, 0x64, 0x72, 0x76, 0x32]

  // ---- what happens on the wire -------------------------------------------------------------------------

  datatype Act =
    | Sent(message: Message)
    | Refused(message: Message, kind: IoKind)
    | Heard(message: Message)
    | Idled
    | Broke(error: RecvError)

  function ActsOf(r: Received): seq<Act> {
    match r
    case Got(m) => [Heard(m)]
    case Nothing => [Idled]
    case Failed(e) => [Broke(e)]
    case Waiting => []
  }

  /** How the socket takes one of our writes, for how long, and how much of it when it fails. */
  datatype Write = Write(failure: Option<IoKind>, takes: nat, taken: nat)

  /** A message is written as its frame, whole, or in part when the socket fails; one that cannot be framed is
      refused before anything is written. */
  predicate Wrote(ck: Checksum, m: Message, failure: Option<IoKind>, before: seq<byte>, after: seq<byte>) {
    match Frame(ck, m)
    case Err(_) => failure == Some(OtherIo) && after == before
    case Ok(frame) => if failure == None then after == before + frame else before <= after <= before + frame
  }

  /** The peer as seen through one connection: what the socket still does, and what has happened. */
  class Link {
    const ck: Checksum
    const conn: Connection
    var ticks: seq<Tick>
    var writes: seq<Write>
    var outbox: seq<byte>
    var clock: nat
    var trace: seq<Act>

    constructor (ck: Checksum, ticks: seq<Tick>, writes: seq<Write>, clock: nat)
      ensures this.ck == ck && this.ticks == ticks && this.writes == writes && this.clock == clock && trace == [] &&
          outbox == []
      ensures fresh(conn) && conn.State() == Buffered([], None)
    {
      this.ck, this.ticks, this.writes, this.clock, outbox, trace := ck, ticks, writes, clock, [], [];
      conn := new Connection();
    }

    /** Writes the message's frame; a message that cannot be framed is refused and nothing is written. */
    method Send(command: seq<byte>, payload: seq<byte>) returns (failure: Option<IoKind>)
      modifies this`writes, this`outbox, this`clock, this`trace
      ensures clock >= old(clock)
      ensures trace == old(trace) + [match failure case None => Sent(Message(command, payload))
                                     case Some(kind) => Refused(Message(command, payload), kind)]
      ensures Wrote(ck, Message(command, payload), failure, old(outbox), outbox)
    {
      hide Frame;
      failure := None;
      var m := Message(command, payload);
      var framed := WriteFrame(ck, m);
      match framed {
        case Err(_) => failure := Some(OtherIo);
        case Ok(frame) =>
          if writes != [] {
            failure, clock := writes[0].failure, clock + writes[0].takes;
            if failure.Some? && writes[0].taken < |frame| {
              frame := frame[..writes[0].taken];
            }
            writes := writes[1..];
          }
          outbox := outbox + frame;
      }
      match failure {
        case None => trace := trace + [Sent(m)];
        case Some(kind) => trace := trace + [Refused(m, kind)];
      }
    }

    /** `Send`, of which the conversation itself only needs the trace. */
    method Say(command: seq<byte>, payload: seq<byte>) returns (failure: Option<IoKind>)
      modifies this`writes, this`outbox, this`clock, this`trace
      ensures clock >= old(clock)
      ensures trace == old(trace) + [match failure case None => Sent(Message(command, payload))
                                     case Some(kind) => Refused(Message(command, payload), kind)]
    {
      failure := Send(command, payload);
    }

    /** How the next call ends, given how long it may wait. */
    function Next(wait: nat): Outcome
      reads this, conn
    { Receive(ck, conn.State(), clock, clock + wait, ticks) }

    method RecvOne(wait: nat) returns (r: Received)
      modifies this`ticks, this`clock, this`trace, conn
      ensures trace == old(trace) + ActsOf(r)
      ensures Outcome(r, conn.State(), clock, ticks) == old(Next(wait))
      ensures |ticks| <= |old(ticks)|
      ensures r.Got? ==> |ticks| < |old(ticks)| || |conn.recvBuf| < |old(conn.recvBuf)|
      ensures r.Nothing? && wait > 0 ==> |ticks| < |old(ticks)|
    {
      ghost var next := Next(wait);
      Progress(next, wait);
      hide Receive, Next;
      var at, left;
      r, at, left := conn.RecvOne(ck, clock, wait, ticks);
      assert Outcome(r, conn.State(), at, left) == next;
      clock, ticks, trace := at, left, trace + ActsOf(r);
    }

    lemma Progress(next: Outcome, wait: nat)
      requires next == Next(wait)
      ensures next == Receive(ck, conn.State(), clock, clock + wait, ticks)
      ensures |next.ticks| <= |ticks|
      ensures next.result.Got? ==> |next.ticks| < |ticks| || |next.state.buf| < |conn.recvBuf|
      ensures next.result.Nothing? && wait > 0 ==> |next.ticks| < |ticks|
    {
      hide Receive, TryParse;
      ReceiveProgress(ck, conn.State(), clock, clock + wait, ticks);
    }

    /** Only peers of versions that put a nonce in their pings get an answer; it must be eight bytes. */
    method AnswerPing(payload: seq<byte>, version: int) returns (error: Option<TransportError>)
      modifies this`writes, this`outbox, this`clock, this`trace
      ensures match PingReply(payload, version)
              case BadPing => error == Some(InvalidPing) && trace == old(trace)
              case NoPong => error == None && trace == old(trace)
              case Pong =>
                (error == None && trace == old(trace) + [Sent(Message(PONG, payload))]) ||
                (error.Some? && error.value.WriteFailed? &&
                 trace == old(trace) + [Refused(Message(PONG, payload), error.value.kind)])
    {
      var expectsNonce := version > 60000;
      if !((expectsNonce && |payload| == 8) || (!expectsNonce && |payload| == 0)) {
        return Some(InvalidPing);
      }
      if !expectsNonce { return None; }
      var failure := Say(PONG, payload);
      match failure {
        case None => return None;
        case Some(kind) => return Some(WriteFailed(kind));
      }
    }
  }

  datatype TransportError = Io(error: RecvError) | InvalidPing | WriteFailed(kind: IoKind)

  datatype PingAnswer = BadPing | NoPong | Pong

  function PingReply(payload: seq<byte>, version: int): PingAnswer {
    if version > 60000 then (if |payload| == 8 then Pong else BadPing)
    else if payload == [] then NoPong else BadPing
  }

  function KindOf(e: IoKind): FailKind { if e == ConnectionLost then ConnectionClosed else HandshakeOther }

  /** `classify_handshake_error`. */
  function ClassifyHandshakeError(e: TransportError): FailKind {
    match e
    case InvalidPing => ProtocolDesync
    case WriteFailed(kind) => KindOf(kind)
    case Io(Framing(_)) => ProtocolDesync
    case Io(BufferLimitExceeded) => ProtocolDesync
    case Io(PeerClosed) => ConnectionClosed
    case Io(HardDeadline) => HandshakeOther
    case Io(ReadFailed(kind)) => KindOf(kind)
  }

  // ---- waiting for one command ------------------------------------------------------------------------------

  /** `Pending`: the call is still waiting. */
  datatype RecvResult = Matched(message: Message) | Timeout | Transport(error: TransportError) | Pending

  /** Nothing that ends the wait for `command`: another message that is no bad ping, a pause, a pong sent. */
  predicate Skips(act: Act, command: seq<byte>, version: Option<int>) {
    match act
    case Heard(m) =>
      m.command != command &&
      (m.command == PING && version.Some? ==> PingReply(m.payload, version.value) != BadPing)
    case Idled => true
    case Sent(m) => m.command == PONG
    case _ => false
  }

  /** The transport failed: the socket did, or a ping was bad, or its answer could not be written. */
  ghost predicate Ruptured(last: Act, e: TransportError, version: Option<int>) {
    match e
    case Io(error) => last == Broke(error)
    case InvalidPing =>
      version.Some? && last.Heard? && last.message.command == PING &&
      PingReply(last.message.payload, version.value) == BadPing
    case WriteFailed(kind) => last.Refused? && last.kind == kind && last.message.command == PONG
  }

  /** What a wait that began at `from` has left in the trace. */
  ghost predicate Waited(
    trace: seq<Act>, from: nat, command: seq<byte>, version: Option<int>, r: RecvResult)
  {
    from <= |trace| &&
    match r
    case Matched(m) => Ends(trace, from, command, version) && trace[|trace| - 1] == Heard(m) && m.command == command
    case Transport(e) => Ends(trace, from, command, version) && Ruptured(trace[|trace| - 1], e, version)
    case _ => forall i :: from <= i < |trace| ==> Skips(trace[i], command, version)
  }

  ghost predicate Ends(trace: seq<Act>, from: nat, command: seq<byte>, version: Option<int>) {
    from < |trace| && forall i :: from <= i < |trace| - 1 ==> Skips(trace[i], command, version)
  }

  lemma SocketFailed(e: RecvError, version: Option<int>)
    ensures Ruptured(Broke(e), Io(e), version)
  {}

  /** A ping met while waiting for something else. */
  method PassPing(link: Link, m: Message, version: int, command: seq<byte>) returns (error: Option<TransportError>)
    requires m.command == PING != command && link.trace != [] && link.trace[|link.trace| - 1] == Heard(m)
    modifies link`writes, link`outbox, link`clock, link`trace
    ensures old(link.trace) <= link.trace
    ensures error == None ==>
              forall i :: |old(link.trace)| - 1 <= i < |link.trace| ==> Skips(link.trace[i], command, Some(version))
    ensures error.Some? ==>
              Ruptured(link.trace[|link.trace| - 1], error.value, Some(version)) &&
              forall i :: |old(link.trace)| - 1 <= i < |link.trace| - 1 ==> Skips(link.trace[i], command, Some(version))
  {
    hide PING, PONG;
    error := link.AnswerPing(m.payload, version);
  }

  method RecvMatching(link: Link, command: seq<byte>, deadline: nat, perTimeout: nat, pingVersion: Option<int>)
    returns (r: RecvResult)
    requires perTimeout > 0 || deadline <= link.clock
    modifies link, link.conn
    ensures old(link.trace) <= link.trace && Waited(link.trace, |old(link.trace)|, command, pingVersion, r)
    ensures r.Matched? ==> perTimeout > 0
    ensures r.Timeout? ==> link.clock >= deadline
  {
    hide Link.Next, PING, Ruptured;
    while true
      invariant perTimeout > 0 || deadline <= link.clock
      invariant old(link.trace) <= link.trace
      invariant forall i :: |old(link.trace)| <= i < |link.trace| ==> Skips(link.trace[i], command, pingVersion)
      decreases |link.ticks|, |link.conn.recvBuf|
    {
      if link.clock >= deadline { return Timeout; }
      var wait := if deadline - link.clock < perTimeout then deadline - link.clock else perTimeout;
      var received := link.RecvOne(wait);
      match received {
        case Got(m) =>
          if m.command == command { return Matched(m); }
          if m.command == PING && pingVersion.Some? {
            var error := PassPing(link, m, pingVersion.value, command);
            if error.Some? { return Transport(error.value); }
          }
        case Nothing =>
        case Failed(e) =>
          SocketFailed(e, pingVersion);
          return Transport(Io(e));
        case Waiting => return Pending;
      }
    }
  }

  // ---- the handshake --------------------------------------------------------------------------------------------

  datatype HandshakeResult =
    | Completed(version: Version.VersionData)
    | TimedOut
    | HandshakeError(kind: FailKind)
    | Unfinished

  function Negotiates(v: Version.VersionData): bool { v.version >= 70016 }

  /** Our version was written at `from`. */
  ghost predicate Greeted(t: seq<Act>, from: nat) {
    from < |t| && t[from].Sent? && t[from].message.command == VERSION
  }

  /** The first version of the peer was heard at `i`. */
  ghost predicate Answered(t: seq<Act>, from: nat, i: nat) {
    Greeted(t, from) && from < i < |t| && t[i].Heard? && t[i].message.command == VERSION &&
    forall j :: from < j < i ==> Skips(t[j], VERSION, None)
  }

  function PeerVersion(lib: Lib, utf8: Version.Utf8, act: Act): Option<Version.VersionData>
    requires act.Heard?
  { Version.ParseVersion(lib, utf8, act.message.payload) }

  /** The peer's version was read at `i` and answered up to `j`: with `sendaddrv2` when both sides know it. */
  ghost predicate Negotiated(lib: Lib, utf8: Version.Utf8, t: seq<Act>, from: nat, i: nat, j: nat) {
    Answered(t, from, i) && PeerVersion(lib, utf8, t[i]).Some? && j <= |t| &&
    j == (if Negotiates(PeerVersion(lib, utf8, t[i]).value) then i + 2 else i + 1) &&
    (j == i + 2 ==> t[i + 1] == Sent(Message(SENDADDRV2, [])))
  }

  /** Then our verack was written, at `j`. */
  ghost predicate Acknowledged(lib: Lib, utf8: Version.Utf8, t: seq<Act>, from: nat, i: nat, j: nat) {
    Negotiated(lib, utf8, t, from, i, j) && j < |t| && t[j] == Sent(Message(VERACK, []))
  }

  /** After `j` and before `k` nothing ends the wait for the verack of the peer heard at `i`. */
  ghost predicate Quiet(lib: Lib, utf8: Version.Utf8, t: seq<Act>, i: nat, j: nat, k: nat)
    requires i < |t| && t[i].Heard? && PeerVersion(lib, utf8, t[i]).Some? && k <= |t|
  {
    forall l :: j < l < k ==> Skips(t[l], VERACK, Some(PeerVersion(lib, utf8, t[i]).value.version))
  }

  /** What the trace since `from` says of the handshake. */
  ghost predicate Justified(lib: Lib, utf8: Version.Utf8, t: seq<Act>, from: nat, r: HandshakeResult) {
    from < |t| &&
    var last := |t| - 1;
    match r
    case Completed(v) =>
      exists i: nat, j: nat ::
        Acknowledged(lib, utf8, t, from, i, j) && PeerVersion(lib, utf8, t[i]) == Some(v) && j < last &&
        t[last].Heard? && t[last].message.command == VERACK && Quiet(lib, utf8, t, i, j, last)
    case TimedOut => Greeted(t, from) && forall k :: from < k <= last ==> Skips(t[k], VERSION, None)
    case HandshakeError(VersionSendFailed) => last == from && t[from].Refused?
    case HandshakeError(MalformedVersion) => Answered(t, from, last) && PeerVersion(lib, utf8, t[last]) == None
    case HandshakeError(NegotiationSendFailed) =>
      last > 0 && Answered(t, from, last - 1) && PeerVersion(lib, utf8, t[last - 1]).Some? &&
      Negotiates(PeerVersion(lib, utf8, t[last - 1]).value) && t[last].Refused? && t[last].message.command == SENDADDRV2
    case HandshakeError(VerackSendFailed) =>
      t[last].Refused? && t[last].message.command == VERACK && exists i: nat :: Negotiated(lib, utf8, t, from, i, last)
    case HandshakeError(PeerVerackTimeout) =>
      exists i: nat, j: nat :: Acknowledged(lib, utf8, t, from, i, j) && Quiet(lib, utf8, t, i, j, |t|)
    case HandshakeError(kind) =>
      exists e :: kind == ClassifyHandshakeError(e) && Fails(lib, utf8, t, from, e)
    case Unfinished => true
  }

  /** The transport failed while one of the two answers was waited for. */
  ghost predicate Fails(lib: Lib, utf8: Version.Utf8, t: seq<Act>, from: nat, e: TransportError) {
    from < |t| - 1 &&
    var last := |t| - 1;
    (Greeted(t, from) && Ruptured(t[last], e, None) && forall k :: from < k < last ==> Skips(t[k], VERSION, None)) ||
    exists i: nat, j: nat :: Acknowledged(lib, utf8, t, from, i, j) && j < last &&
      Ruptured(t[last], e, Some(PeerVersion(lib, utf8, t[i]).value.version)) &&
      Quiet(lib, utf8, t, i, j, last)
  }

  lemma SpecificKinds(kind: FailKind)
    requires kind in SPECIFIC
    ensures kind == VersionSendFailed || IsHandshakeKind(kind)
  {}

  lemma ErrorKinds(e: TransportError)
    ensures IsHandshakeKind(ClassifyHandshakeError(e)) && ClassifyHandshakeError(e) !in SPECIFIC
  {}

  /** The failures that are reported as what they are. */
  const SPECIFIC: set<FailKind> :=
    {VersionSendFailed, MalformedVersion, NegotiationSendFailed, VerackSendFailed, PeerVerackTimeout}

  /** What the wait for the peer's version comes to, when it is not one. */
  function AfterVersion(answer: RecvResult): HandshakeResult {
    match answer
    case Timeout => TimedOut
    case Transport(e) => HandshakeError(ClassifyHandshakeError(e))
    case _ => Unfinished
  }

  lemma VersionJustified(lib: Lib, utf8: Version.Utf8, t: seq<Act>, from: nat, answer: RecvResult)
    requires Greeted(t, from) && Waited(t, from + 1, VERSION, None, answer) && !answer.Matched?
    ensures AfterVersion(answer) != Unfinished ==> Justified(lib, utf8, t, from, AfterVersion(answer))
  {
    hide Skips, Ruptured, Greeted;
    match answer
    case Transport(e) =>
      ErrorKinds(e);
      hide ClassifyHandshakeError, IsHandshakeKind;
      assert Fails(lib, utf8, t, from, e);
    case _ =>
  }

  /** What the wait for the peer's verack comes to. */
  function AfterVerack(v: Version.VersionData, answer: RecvResult): HandshakeResult {
    match answer
    case Matched(_) => Completed(v)
    case Timeout => HandshakeError(PeerVerackTimeout)
    case Transport(e) => HandshakeError(ClassifyHandshakeError(e))
    case Pending => Unfinished
  }

  lemma VerackJustified(
    lib: Lib, utf8: Version.Utf8, t: seq<Act>, from: nat, i: nat, j: nat, v: Version.VersionData, answer: RecvResult)
    requires Acknowledged(lib, utf8, t, from, i, j) && PeerVersion(lib, utf8, t[i]) == Some(v)
    requires Waited(t, j + 1, VERACK, Some(v.version), answer)
    ensures AfterVerack(v, answer) != Unfinished ==> Justified(lib, utf8, t, from, AfterVerack(v, answer))
  {
    hide Skips, Ruptured, PeerVersion;
    match answer
    case Transport(e) =>
      ErrorKinds(e);
      hide ClassifyHandshakeError, IsHandshakeKind;
      assert Fails(lib, utf8, t, from, e);
    case _ =>
  }

  lemma AcknowledgedStays(lib: Lib, utf8: Version.Utf8, t: seq<Act>, t': seq<Act>, from: nat, i: nat, j: nat)
    requires Acknowledged(lib, utf8, t, from, i, j) && t <= t'
    ensures Acknowledged(lib, utf8, t', from, i, j)
  {
    hide Skips, PeerVersion;
  }

  method Handshake(link: Link, lib: Lib, utf8: Version.Utf8, timestamp: int, nonce: nat, timeout: nat)
    returns (r: HandshakeResult)
    requires 0 <= 2 * timestamp + U64 < 2 * U64 && nonce < U64
    modifies link, link.conn
    ensures old(link.trace) <= link.trace
    ensures r != Unfinished ==> Justified(lib, utf8, link.trace, |old(link.trace)|, r)
    ensures r.TimedOut? || r == HandshakeError(PeerVerackTimeout) ==> link.clock >= old(link.clock) + timeout
    ensures r.HandshakeError? ==> r.kind == VersionSendFailed || IsHandshakeKind(r.kind)
  {
    hide Skips, Ruptured, Version.InRange;
    SpecificKinds(VersionSendFailed);
    ghost var from := |link.trace|;
    var deadline := link.clock + timeout;
    var payload := Version.BuildVersion(timestamp, nonce);
    var failure := link.Say(VERSION, payload);
    if failure.Some? { return HandshakeError(VersionSendFailed); }
    assert Greeted(link.trace, from);
    hide Justified, Answered, Greeted;
    var version;
    r, version := ReadVersion(link, lib, utf8, deadline, timeout, from);
    if version.Some? {
      r := Acknowledge(link, lib, utf8, version.value, deadline, timeout, from);
    }
  }

  /** The first half: the peer's version, or why there is none. */
  method ReadVersion(link: Link, lib: Lib, utf8: Version.Utf8, deadline: nat, timeout: nat, ghost from: nat)
    returns (r: HandshakeResult, version: Option<Version.VersionData>)
    requires (timeout > 0 || deadline <= link.clock) && Greeted(link.trace, from) && |link.trace| == from + 1
    modifies link, link.conn
    ensures old(link.trace) <= link.trace
    ensures version.Some? ==>
              timeout > 0 && link.trace != [] && Answered(link.trace, from, |link.trace| - 1) &&
              PeerVersion(lib, utf8, link.trace[|link.trace| - 1]) == version
    ensures version == None && r != Unfinished ==> Justified(lib, utf8, link.trace, from, r)
    ensures version == None && r.TimedOut? ==> link.clock >= deadline
    ensures version == None && r.HandshakeError? ==> r.kind != PeerVerackTimeout && IsHandshakeKind(r.kind)
  {
    SpecificKinds(MalformedVersion);
    hide Skips, Ruptured, ClassifyHandshakeError, IsHandshakeKind;
    var answer := RecvMatching(link, VERSION, deadline, timeout, None);
    if !answer.Matched? {
      VersionJustified(lib, utf8, link.trace, from, answer);
      if answer.Transport? { ErrorKinds(answer.error); }
      hide Justified, Waited;
      return AfterVersion(answer), None;
    }
    assert Answered(link.trace, from, |link.trace| - 1);
    version := Version.ParseVersionMessage(lib, utf8, answer.message.payload);
    r := HandshakeError(MalformedVersion);
  }

  /** The second half: our verack, then the peer's. */
  method Acknowledge(link: Link, lib: Lib, utf8: Version.Utf8, v: Version.VersionData, deadline: nat, timeout: nat,
                     ghost from: nat)
    returns (r: HandshakeResult)
    requires timeout > 0 && link.trace != [] && Answered(link.trace, from, |link.trace| - 1)
    requires PeerVersion(lib, utf8, link.trace[|link.trace| - 1]) == Some(v)
    modifies link, link.conn
    ensures old(link.trace) <= link.trace
    ensures r != Unfinished ==> Justified(lib, utf8, link.trace, from, r)
    ensures r == HandshakeError(PeerVerackTimeout) ==> link.clock >= deadline
    ensures r.HandshakeError? ==> IsHandshakeKind(r.kind)
    ensures !r.TimedOut?
  {
    hide Skips, Ruptured, ClassifyHandshakeError, PeerVersion;
    ghost var i := |link.trace| - 1;
    if Negotiates(v) {
      var failure := link.Say(SENDADDRV2, []);
      if failure.Some? {
        return HandshakeError(NegotiationSendFailed);
      }
    }
    var failure := link.Say(VERACK, []);
    ghost var j := |link.trace| - 1;
    assert Negotiated(lib, utf8, link.trace, from, i, j);
    if failure.Some? { return HandshakeError(VerackSendFailed); }
    assert Acknowledged(lib, utf8, link.trace, from, i, j);
    ghost var t := link.trace;
    hide Acknowledged, Negotiated, Answered, Justified;
    var answer := RecvMatching(link, VERACK, deadline, timeout, Some(v.version));
    AcknowledgedStays(lib, utf8, t, link.trace, from, i, j);
    VerackJustified(lib, utf8, link.trace, from, i, j, v, answer);
    if answer.Transport? { ErrorKinds(answer.error); }
    hide Waited;
    return AfterVerack(v, answer);
  }

  // ---- the trace decides ------------------------------------------------------------------------------------------

  lemma FirstVersionOnce(t: seq<Act>, from: nat, i: nat, i': nat)
    requires Answered(t, from, i) && Answered(t, from, i')
    ensures i == i'
  {}

  /** The failure an act stands for, when it ends a wait for anything but one command. */
  function RuptureOf(act: Act): FailKind {
    match act
    case Broke(e) => ClassifyHandshakeError(Io(e))
    case Refused(_, kind) => ClassifyHandshakeError(WriteFailed(kind))
    case _ => ClassifyHandshakeError(InvalidPing)
  }

  /** The verdict of the last act, once the peer's version `v` is known. */
  function LastVerdict(v: Version.VersionData, act: Act): HandshakeResult {
    match act
    case Refused(m, _) =>
      HandshakeError(if m.command == SENDADDRV2 then NegotiationSendFailed
                     else if m.command == VERACK then VerackSendFailed else RuptureOf(act))
    case Broke(_) => HandshakeError(RuptureOf(act))
    case Heard(m) =>
      if m.command == VERACK then Completed(v)
      else if m.command == PING && PingReply(m.payload, v.version) == BadPing then HandshakeError(RuptureOf(act))
      else HandshakeError(PeerVerackTimeout)
    case _ => HandshakeError(PeerVerackTimeout)
  }

  /** The verdict of a whole trace: of its first version, if it has one, and its last act. */
  ghost function Verdict(lib: Lib, utf8: Version.Utf8, t: seq<Act>, from: nat): HandshakeResult
    requires from < |t|
  {
    var last := t[|t| - 1];
    if exists i: nat :: Answered(t, from, i) then
      var i: nat :| Answered(t, from, i);
      match PeerVersion(lib, utf8, t[i])
      case None => HandshakeError(MalformedVersion)
      case Some(v) => LastVerdict(v, last)
    else if |t| == from + 1 && last.Refused? then HandshakeError(VersionSendFailed)
    else if |t| == from + 1 || Skips(last, VERSION, None) then TimedOut
    else HandshakeError(RuptureOf(last))
  }

  lemma VerdictAnswered(lib: Lib, utf8: Version.Utf8, t: seq<Act>, from: nat, i: nat)
    requires Answered(t, from, i)
    ensures Verdict(lib, utf8, t, from) ==
              match PeerVersion(lib, utf8, t[i])
              case None => HandshakeError(MalformedVersion)
              case Some(v) => LastVerdict(v, t[|t| - 1])
  {
    hide PeerVersion, LastVerdict, Skips;
    var i': nat :| Answered(t, from, i') && (Verdict(lib, utf8, t, from) ==
      match PeerVersion(lib, utf8, t[i'])
      case None => HandshakeError(MalformedVersion)
      case Some(v) => LastVerdict(v, t[|t| - 1]));
    FirstVersionOnce(t, from, i, i');
  }

  lemma VerdictUnanswered(lib: Lib, utf8: Version.Utf8, t: seq<Act>, from: nat)
    requires Greeted(t, from) && forall k :: from < k < |t| ==> !(t[k].Heard? && t[k].message.command == VERSION)
    ensures forall i: nat :: !Answered(t, from, i)
  {}

  lemma CompletedVerdict(lib: Lib, utf8: Version.Utf8, t: seq<Act>, from: nat, i: nat, j: nat)
    requires Acknowledged(lib, utf8, t, from, i, j)
    ensures Verdict(lib, utf8, t, from) == LastVerdict(PeerVersion(lib, utf8, t[i]).value, t[|t| - 1])
  {
    hide PeerVersion, LastVerdict, Verdict, Skips;
    VerdictAnswered(lib, utf8, t, from, i);
  }

  lemma RuptureTells(last: Act, e: TransportError, version: Option<int>)
    requires Ruptured(last, e, version)
    ensures RuptureOf(last) == ClassifyHandshakeError(e)
    ensures !(last.Heard? && last.message.command in {VERSION, VERACK})
    ensures last.Refused? ==> last.message.command !in {SENDADDRV2, VERACK, VERSION}
    ensures !last.Sent? && !last.Idled?
    ensures forall command :: !Skips(last, command, version)
  {
    hide ClassifyHandshakeError;
    assert PING != VERSION && PING != VERACK && PONG != VERACK && PONG != SENDADDRV2 && PONG != VERSION;
  }

  lemma RuptureVerdict(v: Version.VersionData, last: Act, e: TransportError)
    requires Ruptured(last, e, Some(v.version))
    ensures LastVerdict(v, last) == HandshakeError(ClassifyHandshakeError(e))
  {
    RuptureTells(last, e, Some(v.version));
    hide ClassifyHandshakeError;
  }

  lemma FailsVerdict(lib: Lib, utf8: Version.Utf8, t: seq<Act>, from: nat, e: TransportError)
    requires Fails(lib, utf8, t, from, e)
    ensures Verdict(lib, utf8, t, from) == HandshakeError(ClassifyHandshakeError(e))
  {
    hide PeerVersion, ClassifyHandshakeError, Skips, Ruptured, RuptureOf;
    var last := |t| - 1;
    if Greeted(t, from) && Ruptured(t[last], e, None) && forall k :: from < k < last ==> Skips(t[k], VERSION, None) {
      RuptureTells(t[last], e, None);
      SkipsNoVersion(t, from, last);
      VerdictUnanswered(lib, utf8, t, from);
    } else {
      var i: nat, j: nat :| Acknowledged(lib, utf8, t, from, i, j) && j < last &&
        Ruptured(t[last], e, Some(PeerVersion(lib, utf8, t[i]).value.version)) && Quiet(lib, utf8, t, i, j, last);
      RuptureVerdict(PeerVersion(lib, utf8, t[i]).value, t[last], e);
      CompletedVerdict(lib, utf8, t, from, i, j);
    }
  }

  lemma SkipsNoVersion(t: seq<Act>, from: nat, to: nat)
    requires to <= |t| && forall k :: from < k < to ==> Skips(t[k], VERSION, None)
    ensures forall k :: from < k < to ==> !(t[k].Heard? && t[k].message.command == VERSION)
  {
    forall k | from < k < to ensures !(t[k].Heard? && t[k].message.command == VERSION) {
      assert Skips(t[k], VERSION, None);
    }
  }

  /** A result the trace justifies is the verdict of the trace, so each trace justifies one result at most. */
  lemma TraceDecides(lib: Lib, utf8: Version.Utf8, t: seq<Act>, from: nat, r: HandshakeResult)
    requires Justified(lib, utf8, t, from, r) && r != Unfinished
    ensures r == Verdict(lib, utf8, t, from)
  {
    hide PeerVersion, Skips, Ruptured;
    var last := |t| - 1;
    match r
    case Completed(v) =>
      var i: nat, j: nat :| Acknowledged(lib, utf8, t, from, i, j) && PeerVersion(lib, utf8, t[i]) == Some(v) &&
          j < last;
      CompletedVerdict(lib, utf8, t, from, i, j);
    case TimedOut =>
      SkipsNoVersion(t, from, |t|);
      VerdictUnanswered(lib, utf8, t, from);
    case HandshakeError(VersionSendFailed) =>
    case HandshakeError(MalformedVersion) => VerdictAnswered(lib, utf8, t, from, last);
    case HandshakeError(NegotiationSendFailed) => VerdictAnswered(lib, utf8, t, from, last - 1);
    case HandshakeError(VerackSendFailed) =>
      var i: nat :| Negotiated(lib, utf8, t, from, i, last);
      VerdictAnswered(lib, utf8, t, from, i);
    case HandshakeError(PeerVerackTimeout) =>
      var i: nat, j: nat :| Acknowledged(lib, utf8, t, from, i, j) && Quiet(lib, utf8, t, i, j, |t|);
      CompletedVerdict(lib, utf8, t, from, i, j);
      QuietVerdict(PeerVersion(lib, utf8, t[i]).value, t[last]);
    case HandshakeError(kind) =>
      var e :| kind == ClassifyHandshakeError(e) && Fails(lib, utf8, t, from, e);
      FailsVerdict(lib, utf8, t, from, e);
  }

  lemma QuietVerdict(v: Version.VersionData, act: Act)
    requires Skips(act, VERACK, Some(v.version)) || act == Sent(Message(VERACK, []))
    ensures LastVerdict(v, act) == HandshakeError(PeerVerackTimeout)
  {}
}
