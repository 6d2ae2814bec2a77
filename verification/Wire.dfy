/** Little-endian numbers, CompactSize and the reading cursor (src/protocol.rs). */
module Wire {
  import opened Base

  // ---- fixed-width numbers ----------------------------------------------------------------------

  function Power(n: nat): nat { if n == 0 then 1 else 256 * Power(n - 1) }

  /** `n` bytes, least significant first. */
  function Le(n: nat, v: nat): (bytes: seq<byte>)
    ensures |bytes| == n
  {
    if n == 0 then [] else [(v % 256) as byte] + Le(n - 1, v / 256)
  }

  function FromLe(bytes: seq<byte>): nat {
    if bytes == [] then 0 else bytes[0] as nat + 256 * FromLe(bytes[1..])
  }

  lemma {:induction false} FromLeLe(n: nat, v: nat)
    requires v < Power(n)
    ensures FromLe(Le(n, v)) == v
  {
    if n > 0 {
      FromLeLe(n - 1, v / 256);
      assert Le(n, v)[1..] == Le(n - 1, v / 256);
    }
  }

  lemma {:induction false} LeFromLe(bytes: seq<byte>)
    ensures FromLe(bytes) < Power(|bytes|) && Le(|bytes|, FromLe(bytes)) == bytes
  {
    if bytes != [] {
      LeFromLe(bytes[1..]);
      var low, high := bytes[0] as nat, FromLe(bytes[1..]);
      ByteOnTop(low, high);
      assert bytes == [bytes[0]] + bytes[1..];
    }
  }

  lemma ByteOnTop(low: nat, high: nat)
    requires low < 256
    ensures (low + 256 * high) % 256 == low && (low + 256 * high) / 256 == high
  {}

  lemma Powers()
    ensures Power(1) == 0x100 && Power(2) == U16 && Power(4) == U32 && Power(8) == U64
  {
    assert Power(2) == 0x10000 && Power(3) == 0x1000000 && Power(4) == 0x1_0000_0000;
    assert Power(5) == 0x100_0000_0000 && Power(6) == 0x1_0000_0000_0000;
    assert Power(7) == 0x100_0000_0000_0000;
  }

  /** Two bytes, most significant first. */
  function Be16(v: nat): (bytes: seq<byte>)
    requires v < U16
    ensures |bytes| == 2
  { [(v / 256) as byte, (v % 256) as byte] }

  function FromBe16(bytes: seq<byte>): (v: nat)
    requires |bytes| == 2
    ensures v < U16 && Be16(v) == bytes
  { bytes[0] as nat * 256 + bytes[1] as nat }

  // ---- CompactSize --------------------------------------------------------------------------------

  /** `write_compact_size`: the shortest of the four forms. */
  function CompactSize(v: nat): seq<byte> {
    if v <= 0xFC then [v as byte]
    else if v <= 0xFFFF then [0xFD] + Le(2, v)
    else if v <= 0xFFFF_FFFF then [0xFE] + Le(4, v)
    else [0xFF] + Le(8, v)
  }

  method WriteCompactSize(out: seq<byte>, value: nat) returns (r: seq<byte>)
    requires value < U64
    ensures r == out + CompactSize(value)
  {
    hide Le;
    if value <= 0xFC {
      r := out + [value as byte];
    } else if value <= 0xFFFF {
      Assoc(out, [0xFD], Le(2, value));
      r := out + [0xFD];
      r := r + Le(2, value % U16);
    } else if value <= 0xFFFF_FFFF {
      Assoc(out, [0xFE], Le(4, value));
      r := out + [0xFE];
      r := r + Le(4, value % U32);
    } else {
      Assoc(out, [0xFF], Le(8, value));
      r := out + [0xFF];
      r := r + Le(8, value);
    }
  }

  /** How many bytes follow a given first byte. */
  function TailLength(prefix: byte): nat {
    if prefix == 0xFF then 8 else if prefix == 0xFE then 4 else if prefix == 0xFD then 2 else 0
  }

  /** A value its prefix is not needlessly long for. */
  predicate Canonical(prefix: byte, value: nat) {
    if prefix == 0xFF then value > 0xFFFF_FFFF
    else if prefix == 0xFE then value > 0xFFFF
    else if prefix == 0xFD then value >= 0xFD
    else true
  }

  function CompactValue(prefix: byte, tail: seq<byte>): nat {
    if TailLength(prefix) == 0 then prefix as nat else FromLe(tail)
  }

  /** Reads one canonical CompactSize off the front: the value and the bytes left. */
  function ReadCompact(bytes: seq<byte>): Option<(nat, seq<byte>)> {
    if bytes == [] then None
    else
      var n := 1 + TailLength(bytes[0]);
      if |bytes| < n || !Canonical(bytes[0], CompactValue(bytes[0], bytes[1..n])) then None
      else Some((CompactValue(bytes[0], bytes[1..n]), bytes[n..]))
  }

  /** Reading undoes writing and leaves what follows. */
  lemma ReadWrite(v: nat, rest: seq<byte>)
    requires v < U64
    ensures ReadCompact(CompactSize(v) + rest) == Some((v, rest))
  {
    Powers();
    var bytes := CompactSize(v) + rest;
    var n := 1 + TailLength(bytes[0]);
    assert bytes[1..n] == CompactSize(v)[1..] && bytes[n..] == rest;
    if v > 0xFC {
      assert CompactSize(v)[1..] == Le(n - 1, v);
      FromLeLe(n - 1, v);
    }
  }

  /** What is read is exactly what writing would have written: each value has one accepted form. */
  lemma WriteRead(bytes: seq<byte>)
    requires ReadCompact(bytes).Some?
    ensures var (v, rest) := ReadCompact(bytes).value; v < U64 && bytes == CompactSize(v) + rest
  {
    Powers();
    var n := 1 + TailLength(bytes[0]);
    var tail := bytes[1..n];
    LeFromLe(tail);
    assert bytes == [bytes[0]] + tail + bytes[n..];
  }

  // ---- the cursor -----------------------------------------------------------------------------------

  /** A reading position in a byte string; short reads yield None. */
  class Cursor {
    const buf: seq<byte>
    var pos: nat

    ghost predicate Valid()
      reads this
    { pos <= |buf| }

    /** What is still to be read. */
    function Rest(): seq<byte>
      requires Valid()
      reads this
    { buf[pos..] }

    constructor (bytes: seq<byte>)
      ensures Valid() && buf == bytes && Rest() == bytes
    {
      buf, pos := bytes, 0;
    }

    method Take(n: nat) returns (r: Option<seq<byte>>)
      requires Valid()
      modifies this`pos
      ensures Valid()
      ensures if n <= |old(Rest())| then r == Some(old(Rest())[..n]) && Rest() == old(Rest())[n..]
              else r == None && Rest() == old(Rest())
    {
      if pos + n > |buf| {
        return None;
      }
      assert buf[pos..pos + n] == buf[pos..][..n] && buf[pos + n..] == buf[pos..][n..];
      r := Some(buf[pos..pos + n]);
      pos := pos + n;
    }

    method U8() returns (r: Option<byte>)
      requires Valid()
      modifies this`pos
      ensures Valid()
      ensures if old(Rest()) != [] then r == Some(old(Rest())[0]) && Rest() == old(Rest())[1..]
              else r == None && Rest() == old(Rest())
    {
      var b := Take(1);
      match b
      case Some(bytes) => r := Some(bytes[0]);
      case None => r := None;
    }

    method ULe(width: nat) returns (r: Option<nat>)
      requires Valid()
      modifies this`pos
      ensures Valid()
      ensures if width <= |old(Rest())| then r == Some(FromLe(old(Rest())[..width])) && Rest() == old(Rest())[width..]
              else r == None && Rest() == old(Rest())
    {
      var b := Take(width);
      match b
      case Some(bytes) => r := Some(FromLe(bytes));
      case None => r := None;
    }

    method U16Be() returns (r: Option<nat>)
      requires Valid()
      modifies this`pos
      ensures Valid()
      ensures if 2 <= |old(Rest())| then r == Some(FromBe16(old(Rest())[..2])) && Rest() == old(Rest())[2..]
              else r == None && Rest() == old(Rest())
    {
      var b := Take(2);
      match b
      case Some(bytes) => r := Some(FromBe16(bytes));
      case None => r := None;
    }

    method CompactSizeCanonical() returns (r: Option<nat>)
      requires Valid()
      modifies this`pos
      ensures Valid() && |Rest()| <= |old(Rest())|
      ensures match ReadCompact(old(Rest()))
              case Some((v, rest)) => r == Some(v) && Rest() == rest
              case None => r == None
    {
      ghost var start := Rest();
      var prefix := U8();
      if prefix == None {
        return None;
      }
      var p := prefix.value;
      var value := p as nat;
      if p == 0xFF || p == 0xFE || p == 0xFD {
        var tail := ULe(TailLength(p));
        if tail == None {
          return None;
        }
        value := tail.value;
        assert start[1..][..TailLength(p)] == start[1..1 + TailLength(p)];
      }
      if (p == 0xFF && value <= 0xFFFF_FFFF) || (p == 0xFE && value <= 0xFFFF) || (p == 0xFD && value < 0xFD) {
        return None;
      }
      assert Rest() == start[1 + TailLength(p)..];
      return Some(value);
    }
  }
}
