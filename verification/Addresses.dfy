/** Classifying, rendering and reading addresses (src/address.rs, the network decoders of
    src/protocol.rs, `parse_node` of src/bin/probe.rs). */
module Addresses {
  import opened Base
  import opened Network
  import opened Text
  import Base32

  /** Library code the crawler calls: SHA3-256 and the standard IPv6 printer and parser. */
  datatype Lib = Lib(
    sha3: seq<byte> -> seq<byte>,
    print6: seq<byte> -> string,
    parse6: string -> Option<seq<byte>>)

  function Count(s: string, ch: char): nat {
    if s == [] then 0 else (if s[0] == ch then 1 else 0) + Count(s[1..], ch)
  }

  predicate IsAddr6Char(ch: char) {
    '0' <= ch <= '9' || 'a' <= ch <= 'f' || 'A' <= ch <= 'F' || ch == ':' || ch == '.'
  }

  /** What the standard library guarantees: parsing undoes printing, and an IPv6 literal is sixteen bytes
      written in hexadecimal digits, colons and dots, with at least two colons. */
  ghost predicate Lawful(lib: Lib) {
    (forall x :: |lib.sha3(x)| == 32) &&
    (forall a :: |a| == 16 ==> lib.parse6(lib.print6(a)) == Some(a)) &&
    (forall s :: lib.parse6(s).Some? ==>
      |lib.parse6(s).value| == 16 && Count(s, ':') >= 2 && forall i :: 0 <= i < |s| ==> IsAddr6Char(s[i]))
  }

  // ---- classification -----------------------------------------------------------------------------

  const ONION := ".onion"
  const B32_I2P := ".b32.i2p"

  function ChecksumInput(pubkey: seq<byte>): seq<byte> {
    // ".onion checksum" || pubkey || 0x03
    [46, 111, 110, 105, 111, 110, 32, 99, 104, 101, 99, 107, 115, 117, 109] + pubkey + [3]
  }

  predicate DecodesTo(text: string, n: nat) {
    Base32.Decode(text).Some? && |Base32.Decode(text).value| == n
  }

  predicate ValidOnionV3(lib: Lib, text: string) {
    DecodesTo(text, 35) &&
    var decoded := Base32.Decode(text).value;
    var digest := lib.sha3(ChecksumInput(decoded[..32]));
    decoded[34] == 3 && |digest| >= 2 && decoded[32..34] == digest[..2]
  }

  predicate IsIpv4Dotted(host: string) {
    var parts := Split(host, '.');
    |parts| == 4 && forall i :: 0 <= i < 4 ==> parts[i] != [] && AllDigits(parts[i]) && Value(parts[i]) < 256
  }

  function Classify(lib: Lib, host: string): NetworkType {
    if ':' in host then
      match lib.parse6(host)
      case Some(octets) => if octets != [] && octets[0] == 0xfc then Cjdns else Ipv6
      case None => Unknown
    else
      match StripSuffix(host, ONION)
      case Some(text) =>
        if |text| == 16 && DecodesTo(text, 10) then OnionV2
        else if |text| == 56 && ValidOnionV3(lib, text) then OnionV3
        else Unknown
      case None =>
        match StripSuffix(host, B32_I2P)
        case Some(text) => if |text| == 52 && DecodesTo(text, 32) then I2p else Unknown
        case None => if IsIpv4Dotted(host) then Ipv4 else Unknown
  }

  // ---- decoding addresses off the wire ------------------------------------------------------------

  function Print4(b: seq<byte>): string
    requires |b| == 4
  {
    Decimal(b[0] as nat) + "." + Decimal(b[1] as nat) + "." + Decimal(b[2] as nat) + "." + Decimal(b[3] as nat)
  }

  const MAPPED_PREFIX: seq<byte> := [0, 0, 0, 0, 0, 0, 0, 0, 0, 0, 0xff, 0xff]

  predicate Ipv4Mapped(a: seq<byte>)
    requires |a| == 16
  { a[..12] == MAPPED_PREFIX }

  /** `decode_legacy_ip`: a 16-byte field, IPv4-mapped addresses shown as dotted quads. */
  function DecodeLegacyIp(lib: Lib, a: seq<byte>): (string, NetworkType)
    requires |a| == 16
  {
    if Ipv4Mapped(a) then (Print4(a[12..]), Ipv4) else (lib.print6(a), Ipv6)
  }

  function OnionV3Label(lib: Lib, pubkey: seq<byte>): seq<byte> {
    var digest := lib.sha3(ChecksumInput(pubkey));
    pubkey + (if |digest| >= 2 then digest[..2] else digest) + [3]
  }

  /** The fixed address length of each BIP155 network this program knows. */
  function KnownLength(netId: byte): Option<nat> {
    if netId == 1 then Some(4) else if netId == 2 then Some(16) else if netId == 3 then Some(10)
    else if netId == 4 then Some(32) else if netId == 5 then Some(32) else if netId == 6 then Some(16) else None
  }

  datatype Decoded = Host(host: string, network: NetworkType) | Skip | Invalid

  /** `decode_addrv2`, on an address of the length its network requires. */
  function DecodeAddrV2(lib: Lib, netId: byte, a: seq<byte>): Decoded
    requires KnownLength(netId).Some? ==> |a| == KnownLength(netId).value
  {
    if netId == 1 then Host(Print4(a), Ipv4)
    else if netId == 2 then (if Ipv4Mapped(a) || a[0] == 0xfc then Invalid else Host(lib.print6(a), Ipv6))
    else if netId == 3 then Host(Base32.Encode(a) + ONION, OnionV2)
    else if netId == 4 then Host(Base32.Encode(OnionV3Label(lib, a)) + ONION, OnionV3)
    else if netId == 5 then Host(Base32.Encode(a) + B32_I2P, I2p)
    else if netId == 6 then (if a[0] != 0xfc then Invalid else Host(lib.print6(a), Cjdns))
    else Skip
  }

  // ---- the two sides agree ----------------------------------------------------------------------------

  lemma {:induction false} CountIn(s: string, ch: char)
    ensures Count(s, ch) > 0 <==> ch in s
  {
    if s != [] {
      CountIn(s[1..], ch);
      assert s == [s[0]] + s[1..];
    }
  }

  lemma Suffixed(text: string, suffix: string)
    ensures StripSuffix(text + suffix, suffix) == Some(text)
  {
    assert (text + suffix)[|text|..] == suffix;
    assert (text + suffix)[..|text|] == text;
  }

  lemma LabelChars(text: string, ch: char)
    requires Base32.IsLabel(text) && ch in text
    ensures ch != ':' && ch != '.' && ch != '[' && ch != ']' && !IsSpace(ch)
  {
    var i :| 0 <= i < |text| && text[i] == ch;
    assert Base32.InAlphabet(text[i]);
  }

  lemma DecimalChars(n: nat)
    ensures '.' !in Decimal(n) && ':' !in Decimal(n)
  {
    DecimalValue(n);
  }

  /** A dotted quad reads back as the four octets it was printed from. */
  lemma Print4Parts(b: seq<byte>)
    requires |b| == 4
    ensures Split(Print4(b), '.') ==
        [Decimal(b[0] as nat), Decimal(b[1] as nat), Decimal(b[2] as nat), Decimal(b[3] as nat)]
    ensures ':' !in Print4(b)
  {
    var d0, d1, d2, d3 := Decimal(b[0] as nat), Decimal(b[1] as nat), Decimal(b[2] as nat), Decimal(b[3] as nat);
    DecimalChars(b[0] as nat);
    DecimalChars(b[1] as nat);
    DecimalChars(b[2] as nat);
    DecimalChars(b[3] as nat);
    hide Decimal, Split;
    var r2 := d2 + ['.'] + d3;
    var r1 := d1 + ['.'] + r2;
    SplitAt(d3, '.', "");
    SplitAt(d2, '.', d3);
    SplitAt(d1, '.', r2);
    SplitAt(d0, '.', r1);
    Nested(d0, d1, d2, d3);
    assert [d0] + ([d1] + ([d2] + [d3])) == [d0, d1, d2, d3];
    assert ':' !in r2 && ':' !in r1 && ':' !in d0 + ['.'] + r1;
  }

  lemma Nested(d0: string, d1: string, d2: string, d3: string)
    ensures d0 + "." + d1 + "." + d2 + "." + d3 == d0 + ['.'] + (d1 + ['.'] + (d2 + ['.'] + d3))
  {
    var l, r := d0 + "." + d1 + "." + d2 + "." + d3, d0 + ['.'] + (d1 + ['.'] + (d2 + ['.'] + d3));
    assert |l| == |r| && forall i :: 0 <= i < |l| ==> l[i] == r[i];
  }

  lemma Print4EndsInDigit(b: seq<byte>)
    requires |b| == 4
    ensures Print4(b) != [] && IsDigit(Print4(b)[|Print4(b)| - 1]) && IsDigit(Print4(b)[0])
  {
    DecimalValue(b[0] as nat);
    DecimalValue(b[3] as nat);
  }

  lemma Ipv4Agrees(lib: Lib, b: seq<byte>)
    requires |b| == 4
    ensures Classify(lib, Print4(b)) == Ipv4
  {
    Print4Parts(b);
    Print4EndsInDigit(b);
    var host := Print4(b);
    assert StripSuffix(host, ONION) == None by {
      assert |ONION| <= |host| ==> host[|host| - |ONION|..][|ONION| - 1] == host[|host| - 1];
    }
    assert StripSuffix(host, B32_I2P) == None by {
      assert |B32_I2P| <= |host| ==> host[|host| - |B32_I2P|..][|B32_I2P| - 1] == host[|host| - 1];
    }
    var parts := Split(host, '.');
    forall i | 0 <= i < 4 ensures parts[i] != [] && AllDigits(parts[i]) && Value(parts[i]) < 256 {
      DecimalValue(b[i] as nat);
    }
  }

  lemma Ipv6Agrees(lib: Lib, a: seq<byte>)
    requires Lawful(lib) && |a| == 16
    ensures Classify(lib, lib.print6(a)) == if a[0] == 0xfc then Cjdns else Ipv6
  {
    CountIn(lib.print6(a), ':');
  }

  lemma OnionAgrees(lib: Lib, text: string)
    requires Base32.IsLabel(text)
    ensures ':' !in text + ONION && StripSuffix(text + ONION, ONION) == Some(text)
    ensures ':' !in text + B32_I2P && StripSuffix(text + B32_I2P, B32_I2P) == Some(text)
    ensures StripSuffix(text + B32_I2P, ONION) == None
  {
    Suffixed(text, ONION);
    Suffixed(text, B32_I2P);
    assert ':' !in text by { if ':' in text { LabelChars(text, ':'); } }
    var host := text + B32_I2P;
    assert host[|host| - |ONION|..][|ONION| - 1] == 'p';
  }

  lemma OnionV3Valid(lib: Lib, pubkey: seq<byte>)
    requires Lawful(lib) && |pubkey| == 32
    ensures var text := Base32.Encode(OnionV3Label(lib, pubkey));
            Base32.IsLabel(text) && |text| == 56 && ValidOnionV3(lib, text) &&
            Base32.Decode(text) == Some(OnionV3Label(lib, pubkey)) && OnionV3Label(lib, pubkey)[..32] == pubkey
  {
    hide Base32.Encode, Base32.Decode;
    var bytes := OnionV3Label(lib, pubkey);
    Base32.DecodeEncode(bytes);
    var digest := lib.sha3(ChecksumInput(pubkey));
    assert bytes == pubkey + digest[..2] + [3];
    assert bytes[..32] == pubkey && bytes[32..34] == digest[..2] && bytes[34] == 3;
  }

  lemma LabelsAgree(lib: Lib, a: seq<byte>)
    ensures |a| == 10 ==> Classify(lib, Base32.Encode(a) + ONION) == OnionV2
    ensures |a| == 32 ==> Classify(lib, Base32.Encode(a) + B32_I2P) == I2p
    ensures |a| == 32 && Lawful(lib) ==> Classify(lib, Base32.Encode(OnionV3Label(lib, a)) + ONION) == OnionV3
  {
    hide IsIpv4Dotted, Lawful;
    Base32.DecodeEncode(a);
    OnionAgrees(lib, Base32.Encode(a));
    if |a| == 32 && Lawful(lib) {
      OnionV3Valid(lib, a);
      OnionAgrees(lib, Base32.Encode(OnionV3Label(lib, a)));
    }
  }

  /** Every address accepted off the wire is classified, as text, into the network it came in on. */
  lemma WireNetworkAgrees(lib: Lib, netId: byte, a: seq<byte>)
    requires Lawful(lib) && (KnownLength(netId).Some? ==> |a| == KnownLength(netId).value)
    requires DecodeAddrV2(lib, netId, a).Host?
    ensures Classify(lib, DecodeAddrV2(lib, netId, a).host) == DecodeAddrV2(lib, netId, a).network
  {
    hide Classify, Lawful, Print4, OnionV3Label;
    if netId == 1 {
      Ipv4Agrees(lib, a);
    } else if netId == 2 || netId == 6 {
      Ipv6Agrees(lib, a);
    } else {
      LabelsAgree(lib, a);
    }
  }

  /** Distinct addresses on the wire never share a host name. */
  lemma DistinctHosts(lib: Lib, id1: byte, a1: seq<byte>, id2: byte, a2: seq<byte>)
    requires Lawful(lib)
    requires KnownLength(id1).Some? ==> |a1| == KnownLength(id1).value
    requires KnownLength(id2).Some? ==> |a2| == KnownLength(id2).value
    requires DecodeAddrV2(lib, id1, a1).Host? && DecodeAddrV2(lib, id2, a2).Host?
    requires DecodeAddrV2(lib, id1, a1).host == DecodeAddrV2(lib, id2, a2).host
    ensures id1 == id2 && a1 == a2
  {
    WireNetworkAgrees(lib, id1, a1);
    WireNetworkAgrees(lib, id2, a2);
    SameIdSameNetwork(lib, id1, a1, id2, a2);
    if id1 == 1 {
      SameQuads(a1, a2);
    } else if id1 == 2 || id1 == 6 {
      assert lib.parse6(lib.print6(a1)) == Some(a1) && lib.parse6(lib.print6(a2)) == Some(a2);
    } else if id1 == 3 || id1 == 5 {
      Base32.DecodeEncode(a1);
      Base32.DecodeEncode(a2);
      OnionAgrees(lib, Base32.Encode(a1));
      OnionAgrees(lib, Base32.Encode(a2));
    } else {
      OnionV3Valid(lib, a1);
      OnionV3Valid(lib, a2);
      OnionAgrees(lib, Base32.Encode(OnionV3Label(lib, a1)));
      OnionAgrees(lib, Base32.Encode(OnionV3Label(lib, a2)));
    }
  }

  lemma SameIdSameNetwork(lib: Lib, id1: byte, a1: seq<byte>, id2: byte, a2: seq<byte>)
    requires KnownLength(id1).Some? ==> |a1| == KnownLength(id1).value
    requires KnownLength(id2).Some? ==> |a2| == KnownLength(id2).value
    requires DecodeAddrV2(lib, id1, a1).Host? && DecodeAddrV2(lib, id2, a2).Host?
    ensures DecodeAddrV2(lib, id1, a1).network == DecodeAddrV2(lib, id2, a2).network <==> id1 == id2
  {}

  lemma SameQuads(a: seq<byte>, b: seq<byte>)
    requires |a| == |b| == 4 && Print4(a) == Print4(b)
    ensures a == b
  {
    Print4Parts(a);
    Print4Parts(b);
    forall i | 0 <= i < 4 ensures a[i] == b[i] {
      DecimalInjective(a[i] as nat, b[i] as nat);
    }
  }

  /** The legacy decoder agrees with the textual classifier exactly outside fc00::/8. */
  lemma LegacyAgreement(lib: Lib, a: seq<byte>)
    requires Lawful(lib) && |a| == 16
    ensures Classify(lib, DecodeLegacyIp(lib, a).0) == DecodeLegacyIp(lib, a).1 <==> a[0] != 0xfc
  {
    if Ipv4Mapped(a) {
      Ipv4Agrees(lib, a[12..]);
      assert a[0] == a[..12][0];
    } else {
      Ipv6Agrees(lib, a);
    }
  }

  // ---- rendering and reading nodes --------------------------------------------------------------------

  /** `render_addr`. */
  function RenderAddr(host: string, port: nat): string {
    if ':' in host then "[" + host + "]:" + Decimal(port) else host + ":" + Decimal(port)
  }

  /** `parse_node` of the probe. */
  function ParseNode(lib: Lib, text: string, defaultPort: nat): Option<AddrKey> {
    var s := Trim(text);
    if s == [] then None
    else if s[0] == '[' then
      match SplitOnce(s[1..], ']')
      case None => None
      case Some((host, after)) =>
        if after != [] && after[0] == ':' then
          match ParseUnsigned(after[1..], U16)
          case Some(port) => Some(AddrKey(host, port))
          case None => None
        else if after == [] then Some(AddrKey(host, defaultPort))
        else None
    else if lib.parse6(s).Some? then Some(AddrKey(s, defaultPort))
    else
      match RSplitOnce(s, ':')
      case None => Some(AddrKey(s, defaultPort))
      case Some((host, portText)) =>
        match ParseUnsigned(portText, U16)
        case Some(port) => Some(AddrKey(host, port))
        case None => Some(AddrKey(s, defaultPort))
  }

  lemma TrimmedAlready(s: string)
    requires s != [] && !IsSpace(s[0]) && !IsSpace(s[|s| - 1])
    ensures Trim(s) == s
  {}

  lemma {:induction false} CountConcat(a: string, b: string, ch: char)
    ensures Count(a + b, ch) == Count(a, ch) + Count(b, ch)
  {
    if a == [] {
      assert a + b == b;
    } else {
      CountConcat(a[1..], b, ch);
      assert (a + b)[1..] == a[1..] + b;
    }
  }

  /** Hosts the crawler can name start with a character that is neither blank nor a bracket. */
  lemma HostStart(lib: Lib, host: string)
    requires Lawful(lib) && Classify(lib, host) != Unknown && ':' !in host
    ensures host != [] && !IsSpace(host[0]) && host[0] != '['
  {
    var onion, i2p := StripSuffix(host, ONION), StripSuffix(host, B32_I2P);
    if onion.Some? || i2p.Some? {
      var text := if onion.Some? then onion.value else i2p.value;
      assert Base32.IsLabel(text) && text[0] == host[0];
      LabelChars(text, text[0]);
    } else {
      var parts := Split(host, '.');
      SplitFirst(host, '.');
      assert IsDigit(parts[0][0]);
    }
  }

  lemma SplitFirst(s: string, sep: char)
    requires Split(s, sep)[0] != []
    ensures s != [] && s[0] == Split(s, sep)[0][0]
  {}

  lemma ParseBracketed(lib: Lib, host: string, port: nat, defaultPort: nat)
    requires ']' !in host && port < U16
    ensures ParseNode(lib, "[" + host + "]:" + Decimal(port), defaultPort) == Some(AddrKey(host, port))
  {
    hide Decimal, Value, ParseUnsigned;
    var digits := Decimal(port);
    var s := "[" + host + "]:" + digits;
    ParseDecimal(port, U16);
    DecimalValue(port);
    assert s[|s| - 1] == digits[|digits| - 1];
    TrimmedAlready(s);
    var after := ":" + digits;
    assert s[1..] == host + [']'] + after;
    SplitOnceAt(host, ']', after);
    assert after[1..] == digits;
  }

  lemma ParsePlain(lib: Lib, host: string, port: nat, defaultPort: nat)
    requires Lawful(lib) && Classify(lib, host) != Unknown && ':' !in host && port < U16
    ensures ParseNode(lib, host + ":" + Decimal(port), defaultPort) == Some(AddrKey(host, port))
  {
    HostStart(lib, host);
    DecimalChars(port);
    OneColon(lib, host, Decimal(port));
    hide Decimal, Value, ParseUnsigned, Lawful, Classify;
    var digits := Decimal(port);
    var s := host + ":" + digits;
    ParseDecimal(port, U16);
    DecimalValue(port);
    assert s == host + [':'] + digits;
    assert s[|s| - 1] == digits[|digits| - 1] && s[0] == host[0];
    TrimmedAlready(s);
    RSplitOnceAt(host, ':', digits);
  }

  /** Reading a rendered node gives back exactly its host and port, whatever the default port. */
  lemma ParseRender(lib: Lib, host: string, port: nat, defaultPort: nat)
    requires Lawful(lib) && Classify(lib, host) != Unknown && port < U16
    ensures ParseNode(lib, RenderAddr(host, port), defaultPort) == Some(AddrKey(host, port))
  {
    hide ParseNode, Decimal;
    if ':' in host {
      assert ']' !in host by {
        assert forall i :: 0 <= i < |host| ==> IsAddr6Char(host[i]);
      }
      ParseBracketed(lib, host, port, defaultPort);
    } else {
      ParsePlain(lib, host, port, defaultPort);
    }
  }

  /** A single colon is not enough for an IPv6 literal. */
  lemma OneColon(lib: Lib, host: string, digits: string)
    requires Lawful(lib) && ':' !in host && ':' !in digits
    ensures lib.parse6(host + [':'] + digits) == None
  {
    CountIn(host, ':');
    CountIn(digits, ':');
    CountConcat(host + [':'], digits, ':');
    CountConcat(host, [':'], ':');
    assert Count([':'], ':') == 1 + Count([':'][1..], ':');
  }
}
