/** The `version` message (src/protocol.rs): which payloads are accepted, and our own. */
module Version {
  import opened Base
  import opened Wire
  import opened Addresses

  const PROTOCOL_VERSION := 70016
  const MAX_SUBVERSION_LENGTH := 256

  /** "/new-p2p-crawler:0.1.0/" */
  const USER_AGENT: seq<byte> :=
    [0x2F, 0x6E, 0x65, 0x77, 0x2D, 0x70, 0x32, 0x70, 0x2D, 0x63, 0x72, 0x61, 0x77, 0x6C, 0x65, 0x72, 0x3A, 0x30, 0x2E,
     0x31, 0x2E, 0x30, 0x2F]

  /** Strict UTF-8 decoding, any partial function here. */
  type Utf8 = seq<byte> -> Option<string>

  datatype VersionNetAddr = VersionNetAddr(services: nat, host: string, port: nat)

  datatype VersionData = VersionData(
    version: int, services: nat, timestamp: int, userAgent: string, latestBlock: int, relay: bool,
    addrRecv: VersionNetAddr, addrFrom: Option<VersionNetAddr>, nonce: Option<nat>)

  // ---- signed numbers ----------------------------------------------------------------------------------

  /** Two's complement: what an unsigned number below `modulus` stands for. */
  function Signed(v: nat, modulus: nat): int { if 2 * v < modulus then v else v - modulus }

  function Unsigned(v: int, modulus: nat): (r: nat)
    requires 2 * v + modulus >= 0
    ensures 2 * v < modulus ==> Signed(r, modulus) == v
  { if v < 0 then v + modulus else v }

  // ---- the fields of a payload ----------------------------------------------------------------------------

  datatype RawAddr = RawAddr(services: nat, ip: seq<byte>, port: nat)

  datatype RawTail = RawTail(from: RawAddr, nonce: nat, userAgent: seq<byte>, height: nat)

  datatype Raw = Raw(
    version: nat, services: nat, timestamp: nat, recv: RawAddr, tail: Option<RawTail>, relay: Option<byte>)

  predicate AddrInRange(a: RawAddr) { a.services < U64 && |a.ip| == 16 && a.port < U16 }

  predicate TailInRange(t: RawTail) {
    AddrInRange(t.from) && t.nonce < U64 && |t.userAgent| <= MAX_SUBVERSION_LENGTH && t.height < U32
  }

  function Number(version: nat): int { Signed(version, U32) }

  /** The fields a message of its version number has, each in its range. */
  predicate InRange(r: Raw) {
    r.version < U32 && r.services < U64 && r.timestamp < U64 && AddrInRange(r.recv) &&
    (r.tail.Some? <==> Number(r.version) >= 106) && (r.tail.Some? ==> TailInRange(r.tail.value)) &&
    (r.relay.Some? ==> Number(r.version) >= 70001)
  }

  function AddrBytes(a: RawAddr): seq<byte>
    requires AddrInRange(a)
  { Le(8, a.services) + (a.ip + Be16(a.port)) }

  function TailBytes(t: RawTail): seq<byte>
    requires TailInRange(t)
  {
    AddrBytes(t.from) + (Le(8, t.nonce) + (CompactSize(|t.userAgent|) + (t.userAgent + Le(4, t.height))))
  }

  function RelayBytes(relay: Option<byte>): seq<byte> { match relay case Some(b) => [b] case None => [] }

  function RawBytes(r: Raw): seq<byte>
    requires InRange(r)
  {
    var tail := match r.tail case Some(t) => TailBytes(t) case None => [];
    Le(4, r.version) + (Le(8, r.services) + (Le(8, r.timestamp) + (AddrBytes(r.recv) + (tail + RelayBytes(r.relay)))))
  }

  // ---- reading ------------------------------------------------------------------------------------------------

  function ReadAddr(bytes: seq<byte>): (r: Option<(RawAddr, seq<byte>)>)
    ensures r.Some? ==> AddrInRange(r.value.0)
  {
    if |bytes| < 26 then None
    else
      Powers(); LeFromLe(bytes[..8]);
      Some((RawAddr(FromLe(bytes[..8]), bytes[8..24], FromBe16(bytes[24..26])), bytes[26..]))
  }

  function ReadAgent(bytes: seq<byte>): (r: Option<(seq<byte>, seq<byte>)>)
    ensures r.Some? ==> |r.value.0| <= MAX_SUBVERSION_LENGTH
  {
    match ReadCompact(bytes)
    case None => None
    case Some((n, rest)) => if n > MAX_SUBVERSION_LENGTH || |rest| < n then None else Some((rest[..n], rest[n..]))
  }

  function ReadTail(bytes: seq<byte>): (r: Option<(RawTail, seq<byte>)>)
    ensures r.Some? ==> TailInRange(r.value.0)
  {
    match ReadAddr(bytes)
    case None => None
    case Some((from, b1)) =>
      if |b1| < 8 then None
      else
        match ReadAgent(b1[8..])
        case None => None
        case Some((agent, b2)) =>
          if |b2| < 4 then None
          else
            Powers(); LeFromLe(b1[..8]); LeFromLe(b2[..4]);
            Some((RawTail(from, FromLe(b1[..8]), agent, FromLe(b2[..4])), b2[4..]))
  }

  /** What is after the address of the receiver: the fields a version number calls for. */
  function ReadRest(version: nat, bytes: seq<byte>): (r: Option<(Option<RawTail>, Option<byte>, seq<byte>)>)
    ensures r.Some? ==>
              (r.value.0.Some? <==> Number(version) >= 106) && (r.value.0.Some? ==> TailInRange(r.value.0.value))
    ensures r.Some? && r.value.1.Some? ==> Number(version) >= 70001
  {
    if Number(version) < 106 then Some((None, None, bytes))
    else
      match ReadTail(bytes)
      case None => None
      case Some((tail, rest)) =>
        if Number(version) < 70001 || rest == [] then Some((Some(tail), None, rest))
        else Some((Some(tail), Some(rest[0]), rest[1..]))
  }

  /** The fields, and the bytes no field claims. */
  function ReadRaw(bytes: seq<byte>): (r: Option<(Raw, seq<byte>)>)
    ensures r.Some? ==> InRange(r.value.0)
  {
    if |bytes| < 20 then None
    else
      Powers(); LeFromLe(bytes[..4]); LeFromLe(bytes[4..12]); LeFromLe(bytes[12..20]);
      var version, services, timestamp := FromLe(bytes[..4]), FromLe(bytes[4..12]), FromLe(bytes[12..20]);
      match ReadAddr(bytes[20..])
      case None => None
      case Some((recv, b1)) =>
        match ReadRest(version, b1)
        case None => None
        case Some((tail, relay, b2)) => Some((Raw(version, services, timestamp, recv, tail, relay), b2))
  }

  // ---- reading is the inverse of writing -------------------------------------------------------------------------

  lemma Cut(a: seq<byte>, b: seq<byte>)
    ensures (a + b)[..|a|] == a && (a + b)[|a|..] == b
  {}

  lemma AddrThere(a: RawAddr, rest: seq<byte>)
    requires AddrInRange(a)
    ensures ReadAddr(AddrBytes(a) + rest) == Some((a, rest))
  {
    hide Le, FromLe;
    Powers();
    FromLeLe(8, a.services);
    var bytes := AddrBytes(a) + rest;
    assert bytes[..8] == Le(8, a.services) && bytes[8..24] == a.ip && bytes[24..26] == Be16(a.port) &&
        bytes[26..] == rest;
  }

  lemma AddrBack(bytes: seq<byte>)
    requires ReadAddr(bytes).Some?
    ensures var (a, rest) := ReadAddr(bytes).value; bytes == AddrBytes(a) + rest
  {
    hide Le, FromLe;
    LeFromLe(bytes[..8]);
    assert bytes == bytes[..8] + (bytes[8..24] + bytes[24..26]) + bytes[26..];
  }

  lemma AgentThere(agent: seq<byte>, rest: seq<byte>)
    requires |agent| <= MAX_SUBVERSION_LENGTH
    ensures ReadAgent(CompactSize(|agent|) + (agent + rest)) == Some((agent, rest))
  {
    hide CompactSize, ReadCompact;
    ReadWrite(|agent|, agent + rest);
    Cut(agent, rest);
  }

  lemma AgentBack(bytes: seq<byte>)
    requires ReadAgent(bytes).Some?
    ensures var (agent, rest) := ReadAgent(bytes).value; bytes == CompactSize(|agent|) + (agent + rest)
  {
    hide CompactSize, ReadCompact;
    WriteRead(bytes);
  }

  lemma TailThere(t: RawTail, rest: seq<byte>)
    requires TailInRange(t)
    ensures ReadTail(TailBytes(t) + rest) == Some((t, rest))
  {
    hide Le, FromLe, CompactSize, ReadAgent, ReadAddr, AddrBytes, AddrInRange;
    Powers();
    FromLeLe(8, t.nonce);
    FromLeLe(4, t.height);
    var b3 := Le(4, t.height) + rest;
    var b2 := CompactSize(|t.userAgent|) + (t.userAgent + b3);
    var b1 := Le(8, t.nonce) + b2;
    Assoc(t.userAgent, Le(4, t.height), rest);
    Assoc(CompactSize(|t.userAgent|), t.userAgent + Le(4, t.height), rest);
    Assoc(Le(8, t.nonce), CompactSize(|t.userAgent|) + (t.userAgent + Le(4, t.height)), rest);
    Assoc(AddrBytes(t.from), Le(8, t.nonce) + (CompactSize(|t.userAgent|) + (t.userAgent + Le(4, t.height))), rest);
    assert TailBytes(t) + rest == AddrBytes(t.from) + b1;
    AddrThere(t.from, b1);
    Cut(Le(8, t.nonce), b2);
    AgentThere(t.userAgent, b3);
    Cut(Le(4, t.height), rest);
  }

  lemma TailBack(bytes: seq<byte>)
    requires ReadTail(bytes).Some?
    ensures var (t, rest) := ReadTail(bytes).value; bytes == TailBytes(t) + rest
  {
    hide Le, FromLe, CompactSize, ReadAgent, ReadAddr, AddrBytes, AddrInRange;
    AddrBack(bytes);
    var (from, b1) := ReadAddr(bytes).value;
    LeFromLe(b1[..8]);
    AgentBack(b1[8..]);
    var (agent, b2) := ReadAgent(b1[8..]).value;
    LeFromLe(b2[..4]);
    var nonce, height, rest := b1[..8], b2[..4], b2[4..];
    assert b2 == height + rest && b1 == nonce + b1[8..];
    Assoc(agent, height, rest);
    Assoc(CompactSize(|agent|), agent + height, rest);
    Assoc(nonce, CompactSize(|agent|) + (agent + height), rest);
    Assoc(AddrBytes(from), nonce + (CompactSize(|agent|) + (agent + height)), rest);
  }

  function RestBytes(tail: Option<RawTail>, relay: Option<byte>): seq<byte>
    requires tail.Some? ==> TailInRange(tail.value)
  {
    (match tail case Some(t) => TailBytes(t) case None => []) + RelayBytes(relay)
  }

  /** The relay byte is only left out where the message ends, or where it has none. */
  predicate RelayRead(r: Raw, rest: seq<byte>) { Number(r.version) >= 70001 && r.relay == None ==> rest == [] }

  lemma RestThere(r: Raw, rest: seq<byte>)
    requires InRange(r) && RelayRead(r, rest)
    ensures ReadRest(r.version, RestBytes(r.tail, r.relay) + rest) == Some((r.tail, r.relay, rest))
  {
    hide ReadTail, TailBytes, TailInRange;
    var bytes := RestBytes(r.tail, r.relay) + rest;
    match r.tail
    case None => assert bytes == rest;
    case Some(t) =>
      assert bytes == TailBytes(t) + (RelayBytes(r.relay) + rest);
      TailThere(t, RelayBytes(r.relay) + rest);
      if r.relay.Some? {
        assert ([r.relay.value] + rest)[1..] == rest;
      } else {
        assert [] + rest == rest;
      }
  }

  lemma RestBack(version: nat, bytes: seq<byte>)
    requires ReadRest(version, bytes).Some?
    ensures var (tail, relay, rest) := ReadRest(version, bytes).value;
            (tail.Some? ==> TailInRange(tail.value)) && bytes == RestBytes(tail, relay) + rest
  {
    hide ReadTail, TailBytes, TailInRange;
    if Number(version) >= 106 {
      TailBack(bytes);
    }
  }

  lemma RawThere(r: Raw, rest: seq<byte>)
    requires InRange(r) && RelayRead(r, rest)
    ensures ReadRaw(RawBytes(r) + rest) == Some((r, rest))
  {
    hide Le, FromLe, AddrBytes, AddrInRange, ReadAddr, TailBytes, TailInRange, ReadTail;
    Powers();
    FromLeLe(4, r.version);
    FromLeLe(8, r.services);
    FromLeLe(8, r.timestamp);
    RestThere(r, rest);
    var b1 := RestBytes(r.tail, r.relay) + rest;
    var bytes := RawBytes(r) + rest;
    RawLayout(r, rest, b1);
    assert bytes[..4] == Le(4, r.version) && bytes[4..12] == Le(8, r.services) && bytes[12..20] == Le(8, r.timestamp);
    assert bytes[20..] == AddrBytes(r.recv) + b1;
    AddrThere(r.recv, b1);
  }

  lemma RawLayout(r: Raw, rest: seq<byte>, b1: seq<byte>)
    requires InRange(r) && b1 == RestBytes(r.tail, r.relay) + rest
    ensures RawBytes(r) + rest == Le(4, r.version) + Le(8, r.services) + Le(8, r.timestamp) + (AddrBytes(r.recv) + b1)
  {
    hide Le, AddrBytes, TailBytes, TailInRange, AddrInRange;
  }

  lemma RawBack(bytes: seq<byte>)
    requires ReadRaw(bytes).Some?
    ensures var (r, rest) := ReadRaw(bytes).value; bytes == RawBytes(r) + rest && RelayRead(r, rest)
  {
    hide Le, FromLe, AddrBytes, AddrInRange, ReadAddr, TailBytes, TailInRange, ReadTail;
    LeFromLe(bytes[..4]);
    LeFromLe(bytes[4..12]);
    LeFromLe(bytes[12..20]);
    var (r, rest) := ReadRaw(bytes).value;
    AddrBack(bytes[20..]);
    var b1 := ReadAddr(bytes[20..]).value.1;
    RestBack(r.version, b1);
    RawLayout(r, rest, b1);
    assert bytes == bytes[..4] + bytes[4..12] + bytes[12..20] + bytes[20..];
  }

  /** The fields of a payload are read exactly when the payload is those fields written out. */
  lemma ReadExactly(payload: seq<byte>, r: Raw, rest: seq<byte>)
    ensures ReadRaw(payload) == Some((r, rest)) <==> InRange(r) && RelayRead(r, rest) && payload == RawBytes(r) + rest
  {
    hide ReadRaw, RawBytes;
    if ReadRaw(payload) == Some((r, rest)) {
      RawBack(payload);
    }
    if InRange(r) && RelayRead(r, rest) && payload == RawBytes(r) + rest {
      RawThere(r, rest);
    }
  }

  // ---- what the fields mean -----------------------------------------------------------------------------------------

  function HexDigit(d: nat): char
    requires d < 16
  { if d < 10 then ('0' as int + d) as char else ('a' as int + d - 10) as char }

  function Hex(bytes: seq<byte>): string {
    if bytes == [] then ""
    else
      var n := |bytes| - 1;
      Hex(bytes[..n]) + [HexDigit(bytes[n] as nat / 16), HexDigit(bytes[n] as nat % 16)]
  }

  function AgentText(utf8: Utf8, agent: seq<byte>): string {
    match utf8(agent) case Some(s) => s case None => Hex(agent)
  }

  function AddrMeaning(lib: Lib, a: RawAddr): VersionNetAddr
    requires AddrInRange(a)
  { VersionNetAddr(a.services, DecodeLegacyIp(lib, a.ip).0, a.port) }

  /** Fields a message lacks take their defaults: relaying is on unless refused. */
  function Meaning(lib: Lib, utf8: Utf8, r: Raw): VersionData
    requires InRange(r)
  {
    var relay := match r.relay case Some(b) => b != 0 case None => true;
    var recv := AddrMeaning(lib, r.recv);
    var timestamp := Signed(r.timestamp, U64);
    match r.tail
    case None => VersionData(Number(r.version), r.services, timestamp, "", 0, relay, recv, None, None)
    case Some(t) =>
      VersionData(Number(r.version), r.services, timestamp, AgentText(utf8, t.userAgent), Signed(t.height, U32), relay,
                  recv, Some(AddrMeaning(lib, t.from)), Some(t.nonce))
  }

  function ParseVersion(lib: Lib, utf8: Utf8, payload: seq<byte>): Option<VersionData> {
    match ReadRaw(payload) case None => None case Some((r, _)) => Some(Meaning(lib, utf8, r))
  }

  /** A payload is accepted exactly when it begins with the fields its version number calls for. */
  lemma AcceptedExactly(lib: Lib, utf8: Utf8, payload: seq<byte>)
    ensures ParseVersion(lib, utf8, payload).Some? <==>
              exists r, rest :: InRange(r) && RelayRead(r, rest) && payload == RawBytes(r) + rest
    ensures forall r, rest :: InRange(r) && RelayRead(r, rest) && payload == RawBytes(r) + rest ==>
              ParseVersion(lib, utf8, payload) == Some(Meaning(lib, utf8, r))
  {
    hide ReadRaw, RawBytes, Meaning;
    forall r, rest | InRange(r) && RelayRead(r, rest) && payload == RawBytes(r) + rest
      ensures ReadRaw(payload) == Some((r, rest))
    {
      ReadExactly(payload, r, rest);
    }
    if ReadRaw(payload).Some? {
      var (r, rest) := ReadRaw(payload).value;
      ReadExactly(payload, r, rest);
    }
  }

  // ---- the parser, step by step -----------------------------------------------------------------------------------

  method NextAddr(c: Cursor) returns (r: Option<RawAddr>)
    requires c.Valid()
    modifies c`pos
    ensures c.Valid()
    ensures match ReadAddr(old(c.Rest()))
            case Some((a, rest)) => r == Some(a) && c.Rest() == rest
            case None => r == None
  {
    ghost var start := c.Rest();
    var services := c.ULe(8);
    if services == None { return None; }
    var ip := c.Take(16);
    if ip == None { return None; }
    var port := c.U16Be();
    if port == None { return None; }
    assert start[8..][..16] == start[8..24] && start[8..][16..] == start[24..];
    assert start[24..][..2] == start[24..26] && start[24..][2..] == start[26..];
    return Some(RawAddr(services.value, ip.value, port.value));
  }

  method NextAgent(c: Cursor) returns (r: Option<seq<byte>>)
    requires c.Valid()
    modifies c`pos
    ensures c.Valid()
    ensures match ReadAgent(old(c.Rest()))
            case Some((agent, rest)) => r == Some(agent) && c.Rest() == rest
            case None => r == None
  {
    var length := c.CompactSizeCanonical();
    if length == None || length.value > MAX_SUBVERSION_LENGTH { return None; }
    r := c.Take(length.value);
  }

  method NextTail(c: Cursor) returns (r: Option<RawTail>)
    requires c.Valid()
    modifies c`pos
    ensures c.Valid()
    ensures match ReadTail(old(c.Rest()))
            case Some((tail, rest)) => r == Some(tail) && c.Rest() == rest
            case None => r == None
  {
    hide ReadAddr, ReadAgent, FromLe;
    var from := NextAddr(c);
    if from == None { return None; }
    var nonce := c.ULe(8);
    if nonce == None { return None; }
    var agent := NextAgent(c);
    if agent == None { return None; }
    var height := c.ULe(4);
    if height == None { return None; }
    return Some(RawTail(from.value, nonce.value, agent.value, height.value));
  }

  method NextRest(c: Cursor, version: nat) returns (r: Option<(Option<RawTail>, Option<byte>)>)
    requires c.Valid()
    modifies c`pos
    ensures c.Valid()
    ensures match ReadRest(version, old(c.Rest()))
            case Some((tail, relay, rest)) => r == Some((tail, relay)) && c.Rest() == rest
            case None => r == None
  {
    hide ReadTail;
    if Number(version) < 106 { return Some((None, None)); }
    var tail := NextTail(c);
    if tail == None { return None; }
    var relay := None;
    if Number(version) >= 70001 {
      relay := c.U8();
    }
    return Some((tail, relay));
  }

  /** The three numbers every version message begins with. */
  method NextFixed(c: Cursor) returns (r: Option<(nat, nat, nat)>)
    requires c.Valid()
    modifies c`pos
    ensures c.Valid()
    ensures var start := old(c.Rest());
            if |start| < 20 then r == None
            else r == Some((FromLe(start[..4]), FromLe(start[4..12]), FromLe(start[12..20]))) && c.Rest() == start[20..]
  {
    hide FromLe;
    ghost var start := c.Rest();
    var version := c.ULe(4);
    if version == None { return None; }
    var services := c.ULe(8);
    if services == None { return None; }
    var timestamp := c.ULe(8);
    if timestamp == None { return None; }
    assert start[4..][..8] == start[4..12] && start[4..][8..] == start[12..];
    assert start[12..][..8] == start[12..20] && start[12..][8..] == start[20..];
    return Some((version.value, services.value, timestamp.value));
  }

  method ParseVersionMessage(lib: Lib, utf8: Utf8, payload: seq<byte>) returns (v: Option<VersionData>)
    ensures v == ParseVersion(lib, utf8, payload)
  {
    hide ReadAddr, ReadRest, FromLe, Meaning;
    var c := new Cursor(payload);
    var fixed := NextFixed(c);
    if fixed == None { return None; }
    var (version, services, timestamp) := fixed.value;
    var recv := NextAddr(c);
    if recv == None { return None; }
    var rest := NextRest(c, version);
    if rest == None { return None; }
    var raw := Raw(version, services, timestamp, recv.value, rest.value.0, rest.value.1);
    assert raw == ReadRaw(payload).value.0;
    return Some(Meaning(lib, utf8, raw));
  }

  // ---- our own version --------------------------------------------------------------------------------------------

  const ZERO_ADDR := RawAddr(0, [0, 0, 0, 0, 0, 0, 0, 0, 0, 0, 0xFF, 0xFF, 0, 0, 0, 0], 0)

  function OwnVersion(timestamp: int, nonce: nat): Raw
    requires 2 * timestamp + U64 >= 0
  {
    Raw(PROTOCOL_VERSION, 0, Unsigned(timestamp, U64), ZERO_ADDR, Some(RawTail(ZERO_ADDR, nonce, USER_AGENT, 0)),
        Some(0))
  }

  method WriteZeroNetAddr(buf: seq<byte>) returns (out: seq<byte>)
    ensures out == buf + AddrBytes(ZERO_ADDR)
  {
    out := buf + Le(8, 0);
    out := out + [0, 0, 0, 0, 0, 0, 0, 0, 0, 0, 0xFF, 0xFF, 0, 0, 0, 0];
    out := out + Be16(0);
    assert out == buf + (Le(8, 0) + (ZERO_ADDR.ip + Be16(0)));
  }

  /** Our own payload is the fields of our own version written out, so any node like ours accepts it. */
  method BuildVersion(timestamp: int, nonce: nat) returns (out: seq<byte>)
    requires 0 <= 2 * timestamp + U64 < 2 * U64 && nonce < U64
    ensures InRange(OwnVersion(timestamp, nonce)) && out == RawBytes(OwnVersion(timestamp, nonce))
  {
    hide Le, AddrBytes, CompactSize;
    var a := Le(4, PROTOCOL_VERSION);
    var b := Le(8, 0);
    var d := Le(8, Unsigned(timestamp, U64));
    out := a;
    out := out + b;
    out := out + d;
    out := WriteZeroNetAddr(out);
    out := WriteZeroNetAddr(out);
    out := out + Le(8, nonce);
    out := WriteCompactSize(out, |USER_AGENT|);
    out := out + USER_AGENT;
    out := out + Le(4, 0);
    out := out + [0x00];
    OwnLayout(timestamp, nonce, a, b, d, out);
  }

  lemma OwnLayout(timestamp: int, nonce: nat, a: seq<byte>, b: seq<byte>, d: seq<byte>, out: seq<byte>)
    requires 0 <= 2 * timestamp + U64 < 2 * U64 && nonce < U64
    requires a == Le(4, PROTOCOL_VERSION) && b == Le(8, 0) && d == Le(8, Unsigned(timestamp, U64))
    requires out == a + b + d + AddrBytes(ZERO_ADDR) + AddrBytes(ZERO_ADDR) + Le(8, nonce) + CompactSize(|USER_AGENT|) +
                    USER_AGENT + Le(4, 0) + [0x00]
    ensures InRange(OwnVersion(timestamp, nonce)) && out == RawBytes(OwnVersion(timestamp, nonce))
  {
    hide Le, AddrBytes, CompactSize;
    var x, n, u, g, h, r := AddrBytes(ZERO_ADDR), Le(8, nonce), CompactSize(|USER_AGENT|), USER_AGENT, Le(4, 0), [0x00];
    assert RawBytes(OwnVersion(timestamp, nonce)) == a + (b + (d + (x + ((x + (n + (u + (g + h)))) + r))));
    hide USER_AGENT, RawBytes;
    Nested(x, n, u, g, h);
    Nested(a, b, d, x, (x + (n + (u + (g + h)))) + r);
    var q := a + b + d + x;
    Appended(q, x, n, u, g, h, r);
  }

  lemma Nested(a: seq<byte>, b: seq<byte>, c: seq<byte>, d: seq<byte>, e: seq<byte>)
    ensures a + b + c + d + e == a + (b + (c + (d + e)))
  {
    Assoc(a, b, c);
    Assoc(a, b + c, d);
    Assoc(a, (b + c) + d, e);
    Assoc(b + c, d, e);
    Assoc(b, c, d + e);
  }

  lemma Appended(q: seq<byte>, x: seq<byte>, n: seq<byte>, u: seq<byte>, g: seq<byte>, h: seq<byte>, r: seq<byte>)
    ensures q + ((x + n + u + g + h) + r) == q + x + n + u + g + h + r
  {
    Assoc(q, x + n + u + g + h, r);
    Assoc(q, x + n + u + g, h);
    Assoc(q, x + n + u, g);
    Assoc(q, x + n, u);
    Assoc(q, x, n);
  }
}
