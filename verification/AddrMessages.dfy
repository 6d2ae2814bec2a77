/** The `addr` and `addrv2` messages (src/protocol.rs): which payloads are accepted, and what is kept. */
module AddrMessages {
  import opened Base
  import opened Network
  import opened Addresses
  import opened Wire

  const MAX_ADDR_TO_SEND := 1000

  datatype AddrParseError =
    | NonCanonicalOrTruncated
    | TooMany(count: nat)
    | WrongLength(networkId: byte, length: nat)
    | InvalidNetworkEncoding(networkId: byte)
    | TrailingBytes(count: nat)

  datatype AdvertisedAddr = AdvertisedAddr(
    host: string, port: nat, network: NetworkType, timestamp: nat, services: nat, wireNetworkId: byte)

  datatype ParsedAddrMessage = ParsedAddrMessage(
    declaredCount: nat, addrs: seq<AdvertisedAddr>, unknownEntries: nat)

  type Parsed = Result<ParsedAddrMessage, AddrParseError>

  // ---- the wire format ------------------------------------------------------------------------------

  /** `addr` entries are fixed-size; `addrv2` entries follow BIP155. */
  datatype Format = Legacy | V2

  datatype WireEntry = WireEntry(timestamp: nat, services: nat, netId: byte, addr: seq<byte>, port: nat)

  predicate WellFormed(lib: Lib, f: Format, e: WireEntry) {
    e.timestamp < U32 && e.services < U64 && e.port < U16 &&
    match f
    case Legacy => e.netId == 2 && |e.addr| == 16
    case V2 =>
      |e.addr| <= 512 && (KnownLength(e.netId).Some? ==> |e.addr| == KnownLength(e.netId).value) &&
      DecodeAddrV2(lib, e.netId, e.addr) != Invalid
  }

  function EncodeEntry(f: Format, e: WireEntry): seq<byte>
    requires e.port < U16
  {
    match f
    case Legacy => Le(4, e.timestamp) + Le(8, e.services) + e.addr + Be16(e.port)
    case V2 =>
      Le(4, e.timestamp) + CompactSize(e.services) + [e.netId] + CompactSize(|e.addr|) + e.addr + Be16(e.port)
  }

  ghost predicate AllWellFormed(lib: Lib, f: Format, es: seq<WireEntry>) {
    forall i :: 0 <= i < |es| ==> WellFormed(lib, f, es[i])
  }

  ghost function EncodeEntries(lib: Lib, f: Format, es: seq<WireEntry>): seq<byte>
    requires AllWellFormed(lib, f, es)
  {
    if es == [] then [] else EncodeEntries(lib, f, es[..|es| - 1]) + EncodeEntry(f, es[|es| - 1])
  }

  ghost function EncodeMessage(lib: Lib, f: Format, es: seq<WireEntry>): seq<byte>
    requires AllWellFormed(lib, f, es)
  {
    CompactSize(|es|) + EncodeEntries(lib, f, es)
  }

  // ---- what an accepted message means -------------------------------------------------------------------

  /** The address an entry advertises, or None when its network is not known. */
  function Meaning(lib: Lib, f: Format, e: WireEntry): Option<AdvertisedAddr>
    requires WellFormed(lib, f, e)
  {
    match f
    case Legacy =>
      var (host, network) := DecodeLegacyIp(lib, e.addr);
      Some(AdvertisedAddr(host, e.port, network, e.timestamp, e.services, 2))
    case V2 =>
      match DecodeAddrV2(lib, e.netId, e.addr)
      case Host(host, network) => Some(AdvertisedAddr(host, e.port, network, e.timestamp, e.services, e.netId))
      case Skip => None
  }

  /** The known addresses, in wire order. */
  ghost function Known(lib: Lib, f: Format, es: seq<WireEntry>): seq<AdvertisedAddr>
    requires AllWellFormed(lib, f, es)
  {
    if es == [] then []
    else
      var n := |es| - 1;
      Known(lib, f, es[..n]) + (match Meaning(lib, f, es[n]) case Some(a) => [a] case None => [])
  }

  ghost function Unknowns(lib: Lib, f: Format, es: seq<WireEntry>): nat
    requires AllWellFormed(lib, f, es)
  {
    if es == [] then 0
    else
      var n := |es| - 1;
      Unknowns(lib, f, es[..n]) + (if Meaning(lib, f, es[n]) == None then 1 else 0)
  }

  // ---- parsing as a function of the bytes -----------------------------------------------------------------

  /** One entry off the front. */
  function ReadEntry(lib: Lib, f: Format, bytes: seq<byte>): (r: Result<(WireEntry, seq<byte>), AddrParseError>)
    ensures r.Ok? ==> WellFormed(lib, f, r.value.0)
  {
    match f case Legacy => ReadLegacy(lib, bytes) case V2 => ReadV2(lib, bytes)
  }

  function ReadLegacy(lib: Lib, bytes: seq<byte>): (r: Result<(WireEntry, seq<byte>), AddrParseError>)
    ensures r.Ok? ==> WellFormed(lib, Legacy, r.value.0)
  {
    if |bytes| < 30 then Err(NonCanonicalOrTruncated)
    else
      Powers(); LeFromLe(bytes[..4]); LeFromLe(bytes[4..12]);
      Ok((WireEntry(FromLe(bytes[..4]), FromLe(bytes[4..12]), 2, bytes[12..28], FromBe16(bytes[28..30])), bytes[30..]))
  }

  function ReadV2(lib: Lib, bytes: seq<byte>): (r: Result<(WireEntry, seq<byte>), AddrParseError>)
    ensures r.Ok? ==> WellFormed(lib, V2, r.value.0)
  {
    if |bytes| < 4 then Err(NonCanonicalOrTruncated)
    else
      match ReadCompact(bytes[4..])
      case None => Err(NonCanonicalOrTruncated)
      case Some((services, b1)) =>
        if b1 == [] then Err(NonCanonicalOrTruncated)
        else
          match ReadCompact(b1[1..])
          case None => Err(NonCanonicalOrTruncated)
          case Some((length, b2)) =>
            Powers(); LeFromLe(bytes[..4]); WriteRead(bytes[4..]);
            ReadV2Address(lib, FromLe(bytes[..4]), services, b1[0], length, b2)
  }

  function ReadV2Address(lib: Lib, timestamp: nat, services: nat, netId: byte, length: nat, bytes: seq<byte>)
    : (r: Result<(WireEntry, seq<byte>), AddrParseError>)
    requires timestamp < U32 && services < U64
    ensures r.Ok? ==> WellFormed(lib, V2, r.value.0)
  {
    if length > 512 || (KnownLength(netId).Some? && length != KnownLength(netId).value) then
      Err(WrongLength(netId, length))
    else if |bytes| < length + 2 then Err(NonCanonicalOrTruncated)
    else
      var addr := bytes[..length];
      if DecodeAddrV2(lib, netId, addr) == Invalid then Err(InvalidNetworkEncoding(netId))
      else
        Ok((WireEntry(timestamp, services, netId, addr, FromBe16(bytes[length..length + 2])), bytes[length + 2..]))
  }

  /** The first `n` entries, or the first error on the way. */
  ghost function ReadEntries(lib: Lib, f: Format, n: nat, bytes: seq<byte>)
    : (r: Result<(seq<WireEntry>, seq<byte>), AddrParseError>)
    ensures r.Ok? ==> |r.value.0| == n && AllWellFormed(lib, f, r.value.0)
  {
    if n == 0 then Ok(([], bytes))
    else
      match ReadEntries(lib, f, n - 1, bytes)
      case Err(e) => Err(e)
      case Ok((es, rest)) =>
        match ReadEntry(lib, f, rest)
        case Err(e) => Err(e)
        case Ok((e, rest')) => Ok((es + [e], rest'))
  }

  ghost function Parse(lib: Lib, f: Format, payload: seq<byte>): Parsed {
    match ReadCompact(payload)
    case None => Err(NonCanonicalOrTruncated)
    case Some((count, body)) =>
      if count > MAX_ADDR_TO_SEND then Err(TooMany(count))
      else
        match ReadEntries(lib, f, count, body)
        case Err(e) => Err(e)
        case Ok((es, rest)) =>
          if rest != [] then Err(TrailingBytes(|rest|))
          else Ok(ParsedAddrMessage(count, Known(lib, f, es), Unknowns(lib, f, es)))
  }

  // ---- reading is the inverse of encoding --------------------------------------------------------------------

  lemma LegacyThere(lib: Lib, e: WireEntry, rest: seq<byte>)
    requires WellFormed(lib, Legacy, e)
    ensures ReadLegacy(lib, EncodeEntry(Legacy, e) + rest) == Ok((e, rest))
  {
    hide Le, FromLe;
    Powers();
    FromLeLe(4, e.timestamp);
    FromLeLe(8, e.services);
    var bytes := EncodeEntry(Legacy, e) + rest;
    assert bytes[..4] == Le(4, e.timestamp);
    assert bytes[4..12] == Le(8, e.services) && bytes[12..28] == e.addr;
    assert bytes[28..30] == Be16(e.port) && bytes[30..] == rest;
  }

  lemma AddressThere(lib: Lib, e: WireEntry, rest: seq<byte>)
    requires WellFormed(lib, V2, e)
    ensures ReadV2Address(lib, e.timestamp, e.services, e.netId, |e.addr|, e.addr + Be16(e.port) + rest) ==
        Ok((e, rest))
  {
    hide DecodeAddrV2;
    var tail := e.addr + Be16(e.port) + rest;
    assert tail[..|e.addr|] == e.addr && tail[|e.addr|..|e.addr| + 2] == Be16(e.port) && tail[|e.addr| + 2..] == rest;
  }

  lemma V2Layout(e: WireEntry, rest: seq<byte>)
    requires e.port < U16
    ensures var tail := e.addr + Be16(e.port) + rest;
            EncodeEntry(V2, e) + rest ==
              Le(4, e.timestamp) + (CompactSize(e.services) + ([e.netId] + (CompactSize(|e.addr|) + tail)))
  {
    hide Le, CompactSize, Be16;
  }

  lemma V2There(lib: Lib, e: WireEntry, rest: seq<byte>)
    requires WellFormed(lib, V2, e)
    ensures ReadV2(lib, EncodeEntry(V2, e) + rest) == Ok((e, rest))
  {
    AddressThere(lib, e, rest);
    V2Layout(e, rest);
    hide Le, FromLe, CompactSize, ReadCompact, ReadV2Address, DecodeAddrV2, EncodeEntry, Be16, KnownLength;
    Powers();
    FromLeLe(4, e.timestamp);
    var tail := e.addr + Be16(e.port) + rest;
    var b2 := CompactSize(|e.addr|) + tail;
    var b1 := [e.netId] + b2;
    var b0 := CompactSize(e.services) + b1;
    Cut(Le(4, e.timestamp), b0);
    ReadWrite(e.services, b1);
    Cut([e.netId], b2);
    ReadWrite(|e.addr|, tail);
  }

  lemma Cut(a: seq<byte>, b: seq<byte>)
    ensures (a + b)[..|a|] == a && (a + b)[|a|..] == b
  {}

  lemma EntryThere(lib: Lib, f: Format, e: WireEntry, rest: seq<byte>)
    requires WellFormed(lib, f, e)
    ensures ReadEntry(lib, f, EncodeEntry(f, e) + rest) == Ok((e, rest))
  {
    hide ReadLegacy, ReadV2, EncodeEntry;
    match f
    case Legacy => LegacyThere(lib, e, rest);
    case V2 => V2There(lib, e, rest);
  }

  lemma LegacyBack(lib: Lib, bytes: seq<byte>)
    requires ReadLegacy(lib, bytes).Ok?
    ensures var (e, rest) := ReadLegacy(lib, bytes).value; bytes == EncodeEntry(Legacy, e) + rest
  {
    hide Le, FromLe;
    LeFromLe(bytes[..4]);
    LeFromLe(bytes[4..12]);
    assert bytes == bytes[..4] + bytes[4..12] + bytes[12..28] + bytes[28..30] + bytes[30..];
  }

  lemma V2Back(lib: Lib, bytes: seq<byte>)
    requires ReadV2(lib, bytes).Ok?
    ensures var (e, rest) := ReadV2(lib, bytes).value; bytes == EncodeEntry(V2, e) + rest
  {
    hide Le, FromLe, CompactSize, ReadCompact, DecodeAddrV2;
    LeFromLe(bytes[..4]);
    WriteRead(bytes[4..]);
    var (services, b1) := ReadCompact(bytes[4..]).value;
    WriteRead(b1[1..]);
    var (length, b2) := ReadCompact(b1[1..]).value;
    assert bytes == bytes[..4] + (CompactSize(services) + ([b1[0]] + (CompactSize(length) + b2)));
    assert b2 == b2[..length] + b2[length..length + 2] + b2[length + 2..];
  }

  lemma EntryBack(lib: Lib, f: Format, bytes: seq<byte>)
    requires ReadEntry(lib, f, bytes).Ok?
    ensures var (e, rest) := ReadEntry(lib, f, bytes).value; bytes == EncodeEntry(f, e) + rest
  {
    hide ReadLegacy, ReadV2, EncodeEntry;
    match f
    case Legacy => LegacyBack(lib, bytes);
    case V2 => V2Back(lib, bytes);
  }

  lemma {:induction false} EntriesThere(lib: Lib, f: Format, es: seq<WireEntry>, rest: seq<byte>)
    requires AllWellFormed(lib, f, es)
    ensures ReadEntries(lib, f, |es|, EncodeEntries(lib, f, es) + rest) == Ok((es, rest))
    decreases |es|
  {
    hide ReadEntry, EncodeEntry, DecodeAddrV2;
    if es == [] {
      assert EncodeEntries(lib, f, es) + rest == rest;
    } else {
      var n := |es| - 1;
      var last := EncodeEntry(f, es[n]);
      EntriesThere(lib, f, es[..n], last + rest);
      EntryThere(lib, f, es[n], rest);
      assert EncodeEntries(lib, f, es) + rest == EncodeEntries(lib, f, es[..n]) + (last + rest);
      assert es == es[..n] + [es[n]];
    }
  }

  lemma {:induction false} EntriesBack(lib: Lib, f: Format, n: nat, bytes: seq<byte>)
    requires ReadEntries(lib, f, n, bytes).Ok?
    ensures var (es, rest) := ReadEntries(lib, f, n, bytes).value; bytes == EncodeEntries(lib, f, es) + rest
    decreases n
  {
    hide ReadEntry, EncodeEntry, DecodeAddrV2;
    if n > 0 {
      EntriesBack(lib, f, n - 1, bytes);
      var (es, rest) := ReadEntries(lib, f, n - 1, bytes).value;
      EntryBack(lib, f, rest);
      var (e, rest') := ReadEntry(lib, f, rest).value;
      assert (es + [e])[..n - 1] == es;
      assert bytes == EncodeEntries(lib, f, es) + EncodeEntry(f, e) + rest';
    }
  }

  // ---- the main results ---------------------------------------------------------------------------------------

  /** `es` is a list this program accepts, and `payload` is its one encoding. */
  ghost predicate Encodes(lib: Lib, f: Format, es: seq<WireEntry>, payload: seq<byte>) {
    |es| <= MAX_ADDR_TO_SEND && AllWellFormed(lib, f, es) && payload == EncodeMessage(lib, f, es)
  }

  /** The encoding of an acceptable list is accepted, with nothing lost or invented. */
  lemma EncodedIsAccepted(lib: Lib, f: Format, es: seq<WireEntry>, payload: seq<byte>)
    requires Encodes(lib, f, es, payload)
    ensures Parse(lib, f, payload) == Ok(ParsedAddrMessage(|es|, Known(lib, f, es), Unknowns(lib, f, es)))
    ensures |es| == |Known(lib, f, es)| + Unknowns(lib, f, es)
  {
    ReadWrite(|es|, EncodeEntries(lib, f, es));
    EntriesThere(lib, f, es, []);
    assert EncodeEntries(lib, f, es) + [] == EncodeEntries(lib, f, es);
    CountsAdd(lib, f, es);
  }

  lemma {:induction false} CountsAdd(lib: Lib, f: Format, es: seq<WireEntry>)
    requires AllWellFormed(lib, f, es)
    ensures |es| == |Known(lib, f, es)| + Unknowns(lib, f, es)
  {
    if es != [] {
      CountsAdd(lib, f, es[..|es| - 1]);
    }
  }

  /** Nothing else is accepted. */
  lemma AcceptedIsEncoded(lib: Lib, f: Format, payload: seq<byte>) returns (es: seq<WireEntry>)
    requires Parse(lib, f, payload).Ok?
    ensures Encodes(lib, f, es, payload)
  {
    WriteRead(payload);
    var (count, body) := ReadCompact(payload).value;
    EntriesBack(lib, f, count, body);
    es := ReadEntries(lib, f, count, body).value.0;
    assert EncodeEntries(lib, f, es) + [] == EncodeEntries(lib, f, es);
  }

  /** A payload is accepted exactly when it is the encoding of an acceptable list, of only one such list,
      and the result is what that list means: the known addresses in wire order, the rest counted. */
  lemma AcceptedExactly(lib: Lib, f: Format, payload: seq<byte>)
    ensures Parse(lib, f, payload).Ok? <==> exists es :: Encodes(lib, f, es, payload)
    ensures forall es :: Encodes(lib, f, es, payload) ==>
              Parse(lib, f, payload) == Ok(ParsedAddrMessage(|es|, Known(lib, f, es), Unknowns(lib, f, es))) &&
              |es| == |Known(lib, f, es)| + Unknowns(lib, f, es)
    ensures forall es, es' :: Encodes(lib, f, es, payload) && Encodes(lib, f, es', payload) ==> es == es'
  {
    hide Parse, Known, Unknowns, EncodeMessage;
    if Parse(lib, f, payload).Ok? {
      var es := AcceptedIsEncoded(lib, f, payload);
    }
    forall es | Encodes(lib, f, es, payload)
      ensures Parse(lib, f, payload) == Ok(ParsedAddrMessage(|es|, Known(lib, f, es), Unknowns(lib, f, es)))
      ensures |es| == |Known(lib, f, es)| + Unknowns(lib, f, es)
    {
      EncodedIsAccepted(lib, f, es, payload);
    }
    forall es, es' | Encodes(lib, f, es, payload) && Encodes(lib, f, es', payload) ensures es == es' {
      SameEncoding(lib, f, es, es', payload);
    }
  }

  /** Nothing a peer declares is lost: each declared entry is an address kept or an unknown one counted. */
  lemma DeclaredCounted(lib: Lib, f: Format, payload: seq<byte>)
    requires Parse(lib, f, payload).Ok?
    ensures var m := Parse(lib, f, payload).value; m.declaredCount == |m.addrs| + m.unknownEntries <= MAX_ADDR_TO_SEND
  {
    var es := AcceptedIsEncoded(lib, f, payload);
    EncodedIsAccepted(lib, f, es, payload);
  }

  lemma SameEncoding(lib: Lib, f: Format, es: seq<WireEntry>, es': seq<WireEntry>, payload: seq<byte>)
    requires Encodes(lib, f, es, payload) && Encodes(lib, f, es', payload)
    ensures es == es'
  {
    ReadWrite(|es|, EncodeEntries(lib, f, es));
    ReadWrite(|es'|, EncodeEntries(lib, f, es'));
    EntriesThere(lib, f, es, []);
    EntriesThere(lib, f, es', []);
    assert EncodeEntries(lib, f, es) + [] == EncodeEntries(lib, f, es);
    assert EncodeEntries(lib, f, es') + [] == EncodeEntries(lib, f, es');
  }

  /** `payload` is the encoding of an acceptable list with something after it. */
  ghost predicate EncodesThen(lib: Lib, f: Format, es: seq<WireEntry>, extra: seq<byte>, payload: seq<byte>) {
    |es| <= MAX_ADDR_TO_SEND && AllWellFormed(lib, f, es) && payload == EncodeMessage(lib, f, es) + extra
  }

  /** Left-over bytes are reported as such exactly when an encoding of an acceptable list precedes them. */
  lemma TrailingExactly(lib: Lib, f: Format, payload: seq<byte>, n: nat)
    ensures Parse(lib, f, payload) == Err(TrailingBytes(n)) <==>
              n > 0 && exists es, extra :: |extra| == n && EncodesThen(lib, f, es, extra, payload)
  {
    hide Parse, EncodesThen;
    if Parse(lib, f, payload) == Err(TrailingBytes(n)) {
      var es, extra := TrailingBack(lib, f, payload);
    }
    if n > 0 && exists es, extra :: |extra| == n && EncodesThen(lib, f, es, extra, payload) {
      var es, extra :| |extra| == n && EncodesThen(lib, f, es, extra, payload);
      TrailingThere(lib, f, es, extra, payload);
    }
  }

  lemma TrailingThere(lib: Lib, f: Format, es: seq<WireEntry>, extra: seq<byte>, payload: seq<byte>)
    requires EncodesThen(lib, f, es, extra, payload) && extra != []
    ensures Parse(lib, f, payload) == Err(TrailingBytes(|extra|))
  {
    hide ReadCompact, CompactSize, ReadEntries, EncodeEntries;
    assert payload == CompactSize(|es|) + (EncodeEntries(lib, f, es) + extra);
    ReadWrite(|es|, EncodeEntries(lib, f, es) + extra);
    EntriesThere(lib, f, es, extra);
  }

  lemma {:induction false} EntriesNeverTrail(lib: Lib, f: Format, n: nat, bytes: seq<byte>)
    ensures ReadEntries(lib, f, n, bytes).Err? ==>
              !ReadEntries(lib, f, n, bytes).error.TrailingBytes? && !ReadEntries(lib, f, n, bytes).error.TooMany?
    decreases n
  {
    hide DecodeAddrV2, ReadCompact;
    if n > 0 {
      EntriesNeverTrail(lib, f, n - 1, bytes);
    }
  }

  lemma TrailingBack(lib: Lib, f: Format, payload: seq<byte>) returns (es: seq<WireEntry>, extra: seq<byte>)
    requires Parse(lib, f, payload).Err? && Parse(lib, f, payload).error.TrailingBytes?
    ensures extra != [] && Parse(lib, f, payload) == Err(TrailingBytes(|extra|))
    ensures EncodesThen(lib, f, es, extra, payload)
  {
    hide ReadCompact, CompactSize, ReadEntries, EncodeEntries;
    WriteRead(payload);
    var (count, body) := ReadCompact(payload).value;
    EntriesNeverTrail(lib, f, count, body);
    EntriesBack(lib, f, count, body);
    es := ReadEntries(lib, f, count, body).value.0;
    extra := ReadEntries(lib, f, count, body).value.1;
    assert payload == EncodeMessage(lib, f, es) + extra;
  }

  /** A payload is refused for its count exactly when it begins with a canonical count above the maximum. */
  lemma TooManyExactly(lib: Lib, f: Format, payload: seq<byte>, n: nat)
    ensures Parse(lib, f, payload) == Err(TooMany(n)) <==>
              MAX_ADDR_TO_SEND < n < U64 && CompactSize(n) <= payload
  {
    hide ReadCompact, CompactSize, ReadEntries;
    if ReadCompact(payload).Some? {
      WriteRead(payload);
      var (count, body) := ReadCompact(payload).value;
      EntriesNeverTrail(lib, f, count, body);
      assert CompactSize(count) <= payload;
    }
    if n < U64 && CompactSize(n) <= payload {
      var rest := payload[|CompactSize(n)|..];
      assert payload == CompactSize(n) + rest;
      ReadWrite(n, rest);
    }
  }

  // ---- the two parsers, as loops over a cursor ----------------------------------------------------------------

  lemma {:induction false} ErrorSticks(lib: Lib, f: Format, i: nat, n: nat, bytes: seq<byte>)
    requires i <= n && ReadEntries(lib, f, i, bytes).Err?
    ensures ReadEntries(lib, f, n, bytes) == ReadEntries(lib, f, i, bytes)
    decreases n
  {
    hide ReadEntry;
    if i < n {
      ErrorSticks(lib, f, i, n - 1, bytes);
    }
  }

  method NextLegacy(lib: Lib, c: Cursor) returns (r: Result<WireEntry, AddrParseError>)
    requires c.Valid()
    modifies c`pos
    ensures c.Valid()
    ensures match ReadLegacy(lib, old(c.Rest()))
            case Ok((e, rest)) => r == Ok(e) && c.Rest() == rest
            case Err(e) => r == Err(e)
  {
    ghost var start := c.Rest();
    var timestamp := c.ULe(4);
    if timestamp == None { return Err(NonCanonicalOrTruncated); }
    var services := c.ULe(8);
    if services == None { return Err(NonCanonicalOrTruncated); }
    var ip := c.Take(16);
    if ip == None { return Err(NonCanonicalOrTruncated); }
    var port := c.U16Be();
    if port == None { return Err(NonCanonicalOrTruncated); }
    assert start[4..][..8] == start[4..12] && start[4..][8..] == start[12..];
    assert start[12..][..16] == start[12..28] && start[12..][16..] == start[28..];
    assert start[28..][..2] == start[28..30] && start[28..][2..] == start[30..];
    return Ok(WireEntry(timestamp.value, services.value, 2, ip.value, port.value));
  }

  method NextV2(lib: Lib, c: Cursor) returns (r: Result<WireEntry, AddrParseError>)
    requires c.Valid()
    modifies c`pos
    ensures c.Valid()
    ensures match ReadV2(lib, old(c.Rest()))
            case Ok((e, rest)) => r == Ok(e) && c.Rest() == rest
            case Err(e) => r == Err(e)
  {
    hide ReadV2Address, ReadCompact, FromLe;
    ghost var start := c.Rest();
    var timestamp := c.ULe(4);
    if timestamp == None { return Err(NonCanonicalOrTruncated); }
    var services := c.CompactSizeCanonical();
    if services == None { return Err(NonCanonicalOrTruncated); }
    var netId := c.U8();
    if netId == None { return Err(NonCanonicalOrTruncated); }
    var length := c.CompactSizeCanonical();
    if length == None { return Err(NonCanonicalOrTruncated); }
    Powers();
    LeFromLe(start[..4]);
    WriteRead(start[4..]);
    r := NextV2Address(lib, c, timestamp.value, services.value, netId.value, length.value);
  }

  method NextV2Address(lib: Lib, c: Cursor, timestamp: nat, services: nat, netId: byte, length: nat)
    returns (r: Result<WireEntry, AddrParseError>)
    requires c.Valid() && timestamp < U32 && services < U64
    modifies c`pos
    ensures c.Valid()
    ensures match ReadV2Address(lib, timestamp, services, netId, length, old(c.Rest()))
            case Ok((e, rest)) => r == Ok(e) && c.Rest() == rest
            case Err(e) => r == Err(e)
  {
    hide DecodeAddrV2;
    ghost var start := c.Rest();
    if length > 512 { return Err(WrongLength(netId, length)); }
    var expected := match KnownLength(netId) case Some(n) => n case None => length;
    if length != expected { return Err(WrongLength(netId, length)); }
    var addr := c.Take(length);
    if addr == None { return Err(NonCanonicalOrTruncated); }
    var port := c.U16Be();
    if port == None { return Err(NonCanonicalOrTruncated); }
    assert start[length..][..2] == start[length..length + 2] && start[length..][2..] == start[length + 2..];
    if DecodeAddrV2(lib, netId, addr.value) == Invalid { return Err(InvalidNetworkEncoding(netId)); }
    return Ok(WireEntry(timestamp, services, netId, addr.value, port.value));
  }

  method ParseMessage(lib: Lib, f: Format, payload: seq<byte>) returns (r: Parsed)
    ensures r == Parse(lib, f, payload)
  {
    var c := new Cursor(payload);
    var count := c.CompactSizeCanonical();
    if count == None { return Err(NonCanonicalOrTruncated); }
    if count.value > MAX_ADDR_TO_SEND { return Err(TooMany(count.value)); }
    var out: seq<AdvertisedAddr> := [];
    var unknown := 0;
    ghost var body := c.Rest();
    ghost var es: seq<WireEntry> := [];
    for i := 0 to count.value
      invariant c.Valid() && ReadEntries(lib, f, i, body) == Ok((es, c.Rest()))
      invariant AllWellFormed(lib, f, es) && out == Known(lib, f, es) && unknown == Unknowns(lib, f, es)
    {
      var next: Result<WireEntry, AddrParseError>;
      ghost var rest := c.Rest();
      match f {
        case Legacy => next := NextLegacy(lib, c);
        case V2 => next := NextV2(lib, c);
      }
      if next.Err? {
        assert ReadEntries(lib, f, i + 1, body) == Err(next.error);
        ErrorSticks(lib, f, i + 1, count.value, body);
        return Err(next.error);
      }
      assert ReadEntry(lib, f, rest) == Ok((next.value, c.Rest()));
      Snoc(lib, f, es, next.value);
      match Meaning(lib, f, next.value) {
        case Some(a) => out := out + [a];
        case None => unknown := unknown + 1;
      }
      es := es + [next.value];
    }
    if |c.Rest()| != 0 { return Err(TrailingBytes(|c.Rest()|)); }
    return Ok(ParsedAddrMessage(count.value, out, unknown));
  }

  lemma Snoc(lib: Lib, f: Format, es: seq<WireEntry>, e: WireEntry)
    requires AllWellFormed(lib, f, es) && WellFormed(lib, f, e)
    ensures AllWellFormed(lib, f, es + [e])
    ensures Known(lib, f, es + [e]) ==
        Known(lib, f, es) + (match Meaning(lib, f, e) case Some(a) => [a] case None => [])
    ensures Unknowns(lib, f, es + [e]) == Unknowns(lib, f, es) + (if Meaning(lib, f, e) == None then 1 else 0)
  {
    assert (es + [e])[..|es|] == es;
  }
}
