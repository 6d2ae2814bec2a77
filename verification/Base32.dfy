/** Base32 without padding (section 6 of RFC 4648), in the lower-case form the crawler prints and
    accepts: `BASE32_NOPAD` composed with the case conversions around it. */
module Base32 {
  import opened Base

  // ---- fixed-width groups of bits, most significant bit first ---------------------------------

  function Bits(width: nat, v: nat): (bits: seq<bool>)
    ensures |bits| == width
  {
    if width == 0 then [] else Bits(width - 1, v / 2) + [v % 2 == 1]
  }

  function FromBits(bits: seq<bool>): nat {
    if bits == [] then 0 else 2 * FromBits(bits[..|bits| - 1]) + (if bits[|bits| - 1] then 1 else 0)
  }

  function Pow2(n: nat): nat { if n == 0 then 1 else 2 * Pow2(n - 1) }

  lemma {:induction false} BitsThere(width: nat, v: nat)
    requires v < Pow2(width)
    ensures FromBits(Bits(width, v)) == v
  {
    if width > 0 {
      BitsThere(width - 1, v / 2);
      assert Bits(width, v)[..width - 1] == Bits(width - 1, v / 2);
    }
  }

  lemma {:induction false} BitsBack(bits: seq<bool>)
    ensures FromBits(bits) < Pow2(|bits|) && Bits(|bits|, FromBits(bits)) == bits
  {
    if bits != [] {
      BitsBack(bits[..|bits| - 1]);
    }
  }

  function Unpack(width: nat, groups: seq<nat>): (bits: seq<bool>)
    ensures |bits| == width * |groups|
  {
    if groups == [] then []
    else
      assert width * |groups| == width + width * |groups[1..]|;
      Bits(width, groups[0]) + Unpack(width, groups[1..])
  }

  function Pack(width: nat, bits: seq<bool>): seq<nat>
    requires width > 0
  {
    if |bits| < width then [] else [FromBits(bits[..width])] + Pack(width, bits[width..])
  }

  lemma {:induction false} PackUnpack(width: nat, groups: seq<nat>)
    requires width > 0 && forall i :: 0 <= i < |groups| ==> groups[i] < Pow2(width)
    ensures Pack(width, Unpack(width, groups)) == groups
  {
    if groups != [] {
      var bits := Unpack(width, groups);
      BitsThere(width, groups[0]);
      PackUnpack(width, groups[1..]);
      assert bits[..width] == Bits(width, groups[0]) && bits[width..] == Unpack(width, groups[1..]);
    }
  }

  lemma OneMore(width: nat, n: nat)
    requires n > 0
    ensures width * n == width + width * (n - 1) && width * (n - 1) >= 0
  {}

  lemma {:induction false} UnpackPack(width: nat, bits: seq<bool>, n: nat)
    requires width > 0 && |bits| == width * n
    ensures Unpack(width, Pack(width, bits)) == bits
    ensures |Pack(width, bits)| == n
    ensures forall i :: 0 <= i < n ==> Pack(width, bits)[i] < Pow2(width)
    decreases n
  {
    hide Bits, FromBits, Pow2;
    if n == 0 {
      assert |bits| == 0;
    } else {
      OneMore(width, n);
      var rest := Pack(width, bits[width..]);
      UnpackPack(width, bits[width..], n - 1);
      BitsBack(bits[..width]);
      assert Pack(width, bits) == [FromBits(bits[..width])] + rest;
      assert Pack(width, bits)[1..] == rest;
      assert bits == bits[..width] + bits[width..];
    }
  }

  // ---- the alphabet -----------------------------------------------------------------------------

  predicate InAlphabet(ch: char) { 'a' <= ch <= 'z' || '2' <= ch <= '7' }

  function Symbol(v: nat): (ch: char)
    requires v < 32
  {
    if v < 26 then ('a' as int + v) as char else ('2' as int + (v - 26)) as char
  }

  function SymbolValue(ch: char): (v: nat)
    requires InAlphabet(ch)
    ensures v < 32
  {
    if ch >= 'a' then ch as int - 'a' as int else ch as int - '2' as int + 26
  }

  lemma SymbolInverse(v: nat, ch: char)
    ensures v < 32 ==> InAlphabet(Symbol(v)) && SymbolValue(Symbol(v)) == v
    ensures InAlphabet(ch) ==> Symbol(SymbolValue(ch)) == ch
  {}

  predicate AllBelow(groups: seq<nat>, limit: nat) { forall i :: 0 <= i < |groups| ==> groups[i] < limit }

  predicate IsLabel(text: string) { forall i :: 0 <= i < |text| ==> InAlphabet(text[i]) }

  function Symbols(groups: seq<nat>): string
    requires AllBelow(groups, 32)
  { seq(|groups|, i requires 0 <= i < |groups| => Symbol(groups[i])) }

  function SymbolValues(text: string): seq<nat>
    requires IsLabel(text)
  { seq(|text|, i requires 0 <= i < |text| => SymbolValue(text[i])) }

  lemma SymbolsInverse(groups: seq<nat>, text: string)
    ensures AllBelow(groups, 32) ==> IsLabel(Symbols(groups)) && SymbolValues(Symbols(groups)) == groups
    ensures IsLabel(text) ==> AllBelow(SymbolValues(text), 32) && Symbols(SymbolValues(text)) == text
  {
    if AllBelow(groups, 32) {
      forall i | 0 <= i < |groups|
          ensures InAlphabet(Symbols(groups)[i]) && SymbolValue(Symbols(groups)[i]) == groups[i] {
        SymbolInverse(groups[i], 'a');
      }
    }
    if IsLabel(text) {
      forall i | 0 <= i < |text| ensures Symbols(SymbolValues(text))[i] == text[i] {
        SymbolInverse(0, text[i]);
      }
    }
  }

  function ToOctets(bytes: seq<byte>): (octets: seq<nat>)
    ensures AllBelow(octets, 256)
  { seq(|bytes|, i requires 0 <= i < |bytes| => bytes[i] as nat) }

  function FromOctets(octets: seq<nat>): seq<byte>
    requires AllBelow(octets, 256)
  { seq(|octets|, i requires 0 <= i < |octets| => octets[i] as byte) }

  // ---- regrouping eights into fives and back ------------------------------------------------------

  function Zeros(n: nat): seq<bool> { seq(n, _ => false) }

  function PadLength(n: nat): (p: nat)
    ensures p < 5 && (n + p) % 5 == 0
  { (5 - n % 5) % 5 }

  /** Eights to fives, the last group filled up with zeros. */
  function ToFives(octets: seq<nat>): seq<nat> {
    var bits := Unpack(8, octets);
    Pack(5, bits + Zeros(PadLength(|bits|)))
  }

  /** Fives to eights; the fill must be shorter than a group and zero. */
  function FromFives(fives: seq<nat>): Option<seq<nat>> {
    var bits := Unpack(5, fives);
    var whole := |bits| / 8 * 8;
    if |bits| - whole >= 5 || bits[whole..] != Zeros(|bits| - whole) then None
    else Some(Pack(8, bits[..whole]))
  }

  lemma ToFivesShape(octets: seq<nat>)
    ensures AllBelow(ToFives(octets), 32)
    ensures Unpack(5, ToFives(octets)) == Unpack(8, octets) + Zeros(PadLength(8 * |octets|))
    ensures |ToFives(octets)| == (8 * |octets| + 4) / 5
  {
    hide Bits, FromBits, Unpack, Pack;
    var padded := Unpack(8, octets) + Zeros(PadLength(8 * |octets|));
    UnpackPack(5, padded, |padded| / 5);
    assert Pow2(5) == 32;
  }

  lemma PadUnique(m: nat, p: nat, n: nat)
    requires p < 5 && m + p == 5 * n
    ensures p == PadLength(m)
  {
    assert m % 5 == (5 - p) % 5;
  }

  lemma FromFivesShape(fives: seq<nat>)
    requires FromFives(fives).Some?
    ensures var octets := FromFives(fives).value;
            AllBelow(octets, 256) && Unpack(5, fives) == Unpack(8, octets) + Zeros(PadLength(8 * |octets|))
  {
    hide Bits, FromBits, Unpack, Pack, PadLength;
    var bits := Unpack(5, fives);
    var n := |bits| / 8;
    var whole, spare := bits[..8 * n], bits[8 * n..];
    UnpackPack(8, whole, n);
    assert Pow2(8) == 256;
    PadUnique(8 * n, |spare|, |fives|);
    hide Zeros;
    assert bits == whole + spare;
  }

  lemma FivesThere(octets: seq<nat>)
    requires AllBelow(octets, 256)
    ensures FromFives(ToFives(octets)) == Some(octets)
  {
    hide Bits, FromBits, Unpack, Pack;
    ToFivesShape(octets);
    var bits := Unpack(8, octets);
    var p := PadLength(|bits|);
    var padded := bits + Zeros(p);
    assert |padded| / 8 * 8 == |bits|;
    assert padded[|bits|..] == Zeros(p) && padded[..|bits|] == bits;
    assert Pow2(8) == 256;
    PackUnpack(8, octets);
  }

  lemma FivesBack(fives: seq<nat>)
    requires AllBelow(fives, 32) && FromFives(fives).Some?
    ensures ToFives(FromFives(fives).value) == fives
  {
    hide Bits, FromBits, Unpack, Pack;
    FromFivesShape(fives);
    assert Pow2(5) == 32;
    PackUnpack(5, fives);
  }

  // ---- labels -----------------------------------------------------------------------------------------

  function Encode(bytes: seq<byte>): string {
    ToFivesShape(ToOctets(bytes));
    Symbols(ToFives(ToOctets(bytes)))
  }

  /** Strict decoding: only the alphabet, no impossible length, no stray bit in the fill. */
  function Decode(text: string): Option<seq<byte>> {
    if !IsLabel(text) then None
    else
      match FromFives(SymbolValues(text))
      case None => None
      case Some(octets) => FromFivesShape(SymbolValues(text)); Some(FromOctets(octets))
  }

  /** Every byte string is recovered from its label. */
  lemma DecodeEncode(bytes: seq<byte>)
    ensures IsLabel(Encode(bytes)) && Decode(Encode(bytes)) == Some(bytes)
    ensures |Encode(bytes)| == (8 * |bytes| + 4) / 5
  {
    hide ToFives, FromFives;
    var octets := ToOctets(bytes);
    ToFivesShape(octets);
    SymbolsInverse(ToFives(octets), "");
    FivesThere(octets);
    assert FromOctets(octets) == bytes;
  }

  /** Every accepted label is the label of what it decodes to. */
  lemma EncodeDecode(text: string)
    requires Decode(text).Some?
    ensures Encode(Decode(text).value) == text
  {
    hide ToFives, FromFives;
    var fives := SymbolValues(text);
    FromFivesShape(fives);
    SymbolsInverse([], text);
    FivesBack(fives);
    assert ToOctets(Decode(text).value) == FromFives(fives).value;
  }
}
