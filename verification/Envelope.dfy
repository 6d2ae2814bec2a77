/** The 24-byte message envelope: `frame` (src/protocol.rs) and `try_parse_envelope` (src/transport.rs). */
module Envelope {
  import opened Base
  import opened Wire

  const MAGIC: seq<byte> := [0xF9, 0xBE, 0xB4, 0xD9]
  const MAX_PROTOCOL_MESSAGE_LENGTH := 4_000_000
  const HEADER := 24

  /** Double-SHA256 cut to four bytes, any function of the payload here. */
  type Checksum = f: seq<byte> -> seq<byte> | forall p :: |f(p)| == 4 witness p => [0, 0, 0, 0]

  datatype Message = Message(command: seq<byte>, payload: seq<byte>)

  datatype FrameError = BadCommand | PayloadTooLarge

  datatype EnvelopeError = MagicMismatch | InvalidCommand | Oversize(length: nat) | ChecksumMismatch

  /** What the front of a receive buffer holds. */
  datatype Parse = Complete(message: Message, rest: seq<byte>) | Incomplete | Broken(error: EnvelopeError)

  predicate Printable(bytes: seq<byte>) { forall i :: 0 <= i < |bytes| ==> 0x20 <= bytes[i] <= 0x7e }

  predicate Zeros(bytes: seq<byte>) { forall i :: 0 <= i < |bytes| ==> bytes[i] == 0 }

  predicate ValidCommand(command: seq<byte>) { 1 <= |command| <= 12 && Printable(command) }

  function Padding(n: nat): (bytes: seq<byte>)
    ensures |bytes| == n && Zeros(bytes)
  { seq(n, _ => 0) }

  function Header(ck: Checksum, m: Message): (header: seq<byte>)
    requires ValidCommand(m.command)
    ensures |header| == HEADER
  {
    MAGIC + (m.command + Padding(12 - |m.command|)) + Le(4, |m.payload|) + ck(m.payload)
  }

  function Frame(ck: Checksum, m: Message): Result<seq<byte>, FrameError> {
    if !ValidCommand(m.command) then Err(BadCommand)
    else if |m.payload| > MAX_PROTOCOL_MESSAGE_LENGTH then Err(PayloadTooLarge)
    else Ok(Header(ck, m) + m.payload)
  }

  method WriteFrame(ck: Checksum, m: Message) returns (r: Result<seq<byte>, FrameError>)
    ensures r == Frame(ck, m)
  {
    hide Le, Padding, MAGIC;
    if !ValidCommand(m.command) { return Err(BadCommand); }
    if |m.payload| > MAX_PROTOCOL_MESSAGE_LENGTH { return Err(PayloadTooLarge); }
    var field := Padding(12);
    field := m.command + field[|m.command|..];
    PaddingTail(|m.command|);
    var out := MAGIC;
    out := out + field;
    out := out + Le(4, |m.payload|);
    out := out + ck(m.payload);
    out := out + m.payload;
    return Ok(out);
  }

  lemma PaddingTail(n: nat)
    requires n <= 12
    ensures Padding(12)[n..] == Padding(12 - n)
  {}

  /** Where the first zero byte is, or the length when there is none. */
  function FirstZero(bytes: seq<byte>): (n: nat)
    ensures n <= |bytes| && (n < |bytes| ==> bytes[n] == 0)
    ensures forall i :: 0 <= i < n ==> bytes[i] != 0
  {
    if bytes == [] || bytes[0] == 0 then 0 else 1 + FirstZero(bytes[1..])
  }

  function ParseCommand(field: seq<byte>): Option<seq<byte>> {
    if |field| != 12 then None
    else
      var end := FirstZero(field);
      if end == 0 || !Printable(field[..end]) || !Zeros(field[end..]) then None
      else Some(field[..end])
  }

  function DeclaredLength(buf: seq<byte>): nat
    requires |buf| >= HEADER
  { FromLe(buf[16..20]) }

  function TryParse(ck: Checksum, buf: seq<byte>): Parse {
    if |buf| < HEADER then Incomplete
    else if buf[0..4] != MAGIC then Broken(MagicMismatch)
    else
      match ParseCommand(buf[4..16])
      case None => Broken(InvalidCommand)
      case Some(command) =>
        var length := DeclaredLength(buf);
        if length > MAX_PROTOCOL_MESSAGE_LENGTH then Broken(Oversize(length))
        else if |buf| < HEADER + length then Incomplete
        else
          var payload := buf[HEADER..HEADER + length];
          if ck(payload) != buf[20..24] then Broken(ChecksumMismatch)
          else Complete(Message(command, payload), buf[HEADER + length..])
  }

  /** The command field holds a command exactly when it is that command, padded with zeros. */
  lemma CommandExactly(field: seq<byte>, command: seq<byte>)
    ensures ParseCommand(field) == Some(command) <==>
              ValidCommand(command) && field == command + Padding(12 - |command|)
  {
    if ParseCommand(field) == Some(command) {
      var end := FirstZero(field);
      assert field == field[..end] + field[end..];
      assert field[end..] == Padding(12 - end);
    }
    if ValidCommand(command) && field == command + Padding(12 - |command|) {
      var end := FirstZero(field);
      assert forall i :: 0 <= i < |command| ==> field[i] == command[i];
      if |command| < 12 {
        assert field[|command|] == 0;
      }
      assert end == |command| && field[..end] == command && field[end..] == Padding(12 - end);
    }
  }

  /** A complete header followed by `body`, taken apart again. */
  lemma HeaderFields(ck: Checksum, m: Message, body: seq<byte>, buf: seq<byte>)
    requires ValidCommand(m.command) && |m.payload| < U32
    requires buf == Header(ck, m) + body
    ensures buf[0..4] == MAGIC && ParseCommand(buf[4..16]) == Some(m.command)
    ensures DeclaredLength(buf) == |m.payload| && buf[20..24] == ck(m.payload) && buf[HEADER..] == body
  {
    hide FromLe, Le, ParseCommand;
    Powers();
    FromLeLe(4, |m.payload|);
    var field := m.command + Padding(12 - |m.command|);
    CommandExactly(field, m.command);
    assert buf[4..16] == field && buf[16..20] == Le(4, |m.payload|);
  }

  /** A frame is parsed back, and exactly the bytes after it stay. */
  lemma ParseFrame(ck: Checksum, m: Message, rest: seq<byte>)
    requires Frame(ck, m).Ok?
    ensures TryParse(ck, Frame(ck, m).value + rest) == Complete(m, rest)
  {
    hide Header, FromLe, ParseCommand;
    var buf := Frame(ck, m).value + rest;
    assert buf == Header(ck, m) + (m.payload + rest);
    HeaderFields(ck, m, m.payload + rest, buf);
    var n := HEADER + |m.payload|;
    assert buf[HEADER..n] == buf[HEADER..][..|m.payload|] == m.payload;
    assert buf[n..] == buf[HEADER..][|m.payload|..] == rest;
  }

  lemma HeaderRebuilt(ck: Checksum, m: Message, buf: seq<byte>)
    requires |buf| >= HEADER && buf[0..4] == MAGIC && ParseCommand(buf[4..16]) == Some(m.command)
    requires FromLe(buf[16..20]) == |m.payload| && buf[20..24] == ck(m.payload)
    ensures ValidCommand(m.command) && buf[..HEADER] == Header(ck, m)
  {
    hide FromLe, Le, ParseCommand, Padding;
    CommandExactly(buf[4..16], m.command);
    LeFromLe(buf[16..20]);
    assert buf[..HEADER] == buf[0..4] + buf[4..16] + buf[16..20] + buf[20..24];
  }

  /** An accepted envelope, framed again, is the bytes that were consumed. */
  lemma FrameParse(ck: Checksum, buf: seq<byte>)
    requires TryParse(ck, buf).Complete?
    ensures var p := TryParse(ck, buf); Frame(ck, p.message).Ok? && buf == Frame(ck, p.message).value + p.rest
  {
    hide FromLe, ParseCommand, Header, ValidCommand;
    var p := TryParse(ck, buf);
    HeaderRebuilt(ck, p.message, buf);
    assert buf == buf[..HEADER] + p.message.payload + p.rest;
  }

  /** `frame` and `try_parse_envelope` are exact inverses. */
  lemma CompleteExactly(ck: Checksum, buf: seq<byte>, m: Message, rest: seq<byte>)
    ensures TryParse(ck, buf) == Complete(m, rest) <==> Frame(ck, m).Ok? && buf == Frame(ck, m).value + rest
  {
    hide TryParse, Frame;
    if TryParse(ck, buf) == Complete(m, rest) {
      FrameParse(ck, buf);
    }
    if Frame(ck, m).Ok? && buf == Frame(ck, m).value + rest {
      ParseFrame(ck, m, rest);
    }
  }

  /** Bytes that arrive later change neither a message found nor an error found. */
  lemma VerdictStands(ck: Checksum, buf: seq<byte>, more: seq<byte>)
    ensures match TryParse(ck, buf)
            case Complete(m, rest) => TryParse(ck, buf + more) == Complete(m, rest + more)
            case Broken(e) => TryParse(ck, buf + more) == Broken(e)
            case Incomplete => true
  {
    hide FromLe, ParseCommand;
    if |buf| >= HEADER {
      var all := buf + more;
      assert all[0..4] == buf[0..4] && all[4..16] == buf[4..16] && all[16..20] == buf[16..20] &&
          all[20..24] == buf[20..24];
      var n := HEADER + DeclaredLength(buf);
      if |buf| >= n {
        assert all[HEADER..n] == buf[HEADER..n] && all[n..] == buf[n..] + more;
      }
    }
  }
}
