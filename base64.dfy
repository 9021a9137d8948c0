/**
 * The base 64 encoding of section 4 of RFC 4648, as PHP's `base64_encode`
 * produces it: the standard alphabet, `=` padding, no line breaks.
 * A decoder is given beside it so that the encoding can be shown lossless.
 */
module Base64 {
  import opened Wrappers
  import opened Php

  /** A 6-bit group: the index of one symbol of the alphabet. */
  type Sextet = v: int | 0 <= v < 64

  const PAD: char := '='

  /** The symbol for a 6-bit value (table 1 of RFC 4648). */
  function Symbol(v: Sextet): (c: char)
    ensures c != PAD
  {
    if v < 26 then ('A' as int + v) as char
    else if v < 52 then ('a' as int + (v - 26)) as char
    else if v < 62 then ('0' as int + (v - 52)) as char
    else if v == 62 then '+'
    else '/'
  }

  /** The 6-bit value of a symbol, or None for a character outside the alphabet. */
  function SymbolValue(c: char): Option<Sextet>
  {
    if 'A' <= c <= 'Z' then Some(c as int - 'A' as int)
    else if 'a' <= c <= 'z' then Some(c as int - 'a' as int + 26)
    else if '0' <= c <= '9' then Some(c as int - '0' as int + 52)
    else if c == '+' then Some(62)
    else if c == '/' then Some(63)
    else None
  }

  lemma SymbolValueOfSymbol(v: Sextet)
    ensures SymbolValue(Symbol(v)) == Some(v)
  {
  }

  /** True when `c` is a symbol of the alphabet or the pad character. */
  predicate IsEncodingChar(c: char)
  {
    SymbolValue(c).Some? || c == PAD
  }

  /** Three bytes become four symbols. */
  function EncodeGroup(b0: Byte, b1: Byte, b2: Byte): (r: string)
    ensures |r| == 4 && forall i :: 0 <= i < 4 ==> r[i] != PAD && IsEncodingChar(r[i])
  {
    SymbolValueOfSymbol(b0 / 4);
    SymbolValueOfSymbol((b0 % 4) * 16 + b1 / 16);
    SymbolValueOfSymbol((b1 % 16) * 4 + b2 / 64);
    SymbolValueOfSymbol(b2 % 64);
    [Symbol(b0 / 4), Symbol((b0 % 4) * 16 + b1 / 16), Symbol((b1 % 16) * 4 + b2 / 64), Symbol(b2 % 64)]
  }

  /**
   * `base64_encode`: full three-byte groups first; a final group of one or
   * two bytes is padded with `=` to four characters (section 4 of RFC 4648).
   */
  function Encode(b: seq<Byte>): (r: string)
    ensures |r| == 4 * ((|b| + 2) / 3)
    ensures forall i :: 0 <= i < |r| ==> IsEncodingChar(r[i])
    decreases |b|
  {
    if |b| == 0 then ""
    else if |b| == 1 then
      SymbolValueOfSymbol(b[0] / 4);
      SymbolValueOfSymbol((b[0] % 4) * 16); [Symbol(b[0] / 4), Symbol((b[0] % 4) * 16), PAD, PAD]
    else if |b| == 2 then
      SymbolValueOfSymbol(b[0] / 4);
      SymbolValueOfSymbol((b[0] % 4) * 16 + b[1] / 16);
      SymbolValueOfSymbol((b[1] % 16) * 4);
      [Symbol(b[0] / 4), Symbol((b[0] % 4) * 16 + b[1] / 16), Symbol((b[1] % 16) * 4), PAD]
    else
      var g := EncodeGroup(b[0], b[1], b[2]);
      var rest := Encode(b[3..]);
      assert forall i :: 0 <= i < |g + rest| ==> (g + rest)[i] == if i < 4 then g[i] else rest[i - 4];
      g + rest
  }

  /** The byte held by the first symbol and the top bits of the second. */
  function Byte0(v0: Sextet, v1: Sextet): Byte { (v0 as int) * 4 + (v1 as int) / 16 }

  /** The byte held by the low bits of the second symbol and the top bits of the third. */
  function Byte1(v1: Sextet, v2: Sextet): Byte { ((v1 as int) % 16) * 16 + (v2 as int) / 4 }

  /** The byte held by the low bits of the third symbol and the fourth. */
  function Byte2(v2: Sextet, v3: Sextet): Byte { ((v2 as int) % 4) * 64 + v3 as int }

  /** Four symbols without padding become three bytes. */
  function DecodeGroup(s: string): Option<seq<Byte>>
    requires |s| == 4
  {
    match (SymbolValue(s[0]), SymbolValue(s[1]), SymbolValue(s[2]), SymbolValue(s[3]))
    case (Some(v0), Some(v1), Some(v2), Some(v3)) =>
      Some([Byte0(v0, v1), Byte1(v1, v2), Byte2(v2, v3)])
    case _ => None
  }

  /** The last four characters, which may end in one or two pad characters. */
  function DecodeFinal(s: string): Option<seq<Byte>>
    requires |s| == 4
  {
    if s[2] == PAD && s[3] == PAD then
      match (SymbolValue(s[0]), SymbolValue(s[1]))
      case (Some(v0), Some(v1)) => Some([Byte0(v0, v1)])
      case _ => None
    else if s[3] == PAD then
      match (SymbolValue(s[0]), SymbolValue(s[1]), SymbolValue(s[2]))
      case (Some(v0), Some(v1), Some(v2)) => Some([Byte0(v0, v1), Byte1(v1, v2)])
      case _ => None
    else DecodeGroup(s)
  }

  /** Decoding: None for a length that is not a multiple of four or a stray character. */
  function Decode(s: string): Option<seq<Byte>>
    decreases |s|
  {
    if |s| == 0 then Some([])
    else if |s| < 4 then None
    else if |s| == 4 then DecodeFinal(s)
    else
      match (DecodeGroup(s[..4]), Decode(s[4..]))
      case (Some(g), Some(rest)) => Some(g + rest)
      case _ => None
  }

  /** The byte arithmetic of one group: the bits survive the regrouping into six. */
  lemma GroupBits(b0: Byte, b1: Byte, b2: Byte)
    ensures Byte0(b0 / 4, (b0 % 4) * 16 + b1 / 16) == b0
    ensures Byte1((b0 % 4) * 16 + b1 / 16, (b1 % 16) * 4 + b2 / 64) == b1
    ensures Byte2((b1 % 16) * 4 + b2 / 64, b2 % 64) == b2
  {
  }

  lemma DecodeEncodeGroup(b0: Byte, b1: Byte, b2: Byte)
    ensures DecodeGroup(EncodeGroup(b0, b1, b2)) == Some([b0, b1, b2])
  {
    SymbolValueOfSymbol(b0 / 4);
    SymbolValueOfSymbol((b0 % 4) * 16 + b1 / 16);
    SymbolValueOfSymbol((b1 % 16) * 4 + b2 / 64);
    SymbolValueOfSymbol(b2 % 64);
    GroupBits(b0, b1, b2);
  }

  lemma DecodeEncodeOne(b0: Byte)
    ensures Decode(Encode([b0])) == Some([b0])
  {
    var s := Encode([b0]);
    SymbolValueOfSymbol(b0 / 4);
    SymbolValueOfSymbol((b0 % 4) * 16);
    GroupBits(b0, 0, 0);
    assert DecodeFinal(s) == Some([Byte0(b0 / 4, (b0 % 4) * 16)]);
  }

  lemma DecodeEncodeTwo(b0: Byte, b1: Byte)
    ensures Decode(Encode([b0, b1])) == Some([b0, b1])
  {
    var s := Encode([b0, b1]);
    SymbolValueOfSymbol(b0 / 4);
    SymbolValueOfSymbol((b0 % 4) * 16 + b1 / 16);
    SymbolValueOfSymbol((b1 % 16) * 4);
    GroupBits(b0, b1, 0);
    assert DecodeFinal(s) == Some([Byte0(b0 / 4, (b0 % 4) * 16 + b1 / 16), Byte1((b0 % 4) * 16 + b1 / 16, (b1 % 16) * 4)]);
  }

  /** A full group in front of a non-empty valid rest decodes group by group. */
  lemma DecodeCons(g: string, rest: string, x: seq<Byte>, y: seq<Byte>)
    requires |g| == 4 && DecodeGroup(g) == Some(x)
    requires |rest| > 0 && Decode(rest) == Some(y)
    ensures Decode(g + rest) == Some(x + y)
  {
    var s := g + rest;
    assert s[..4] == g;
    assert s[4..] == rest;
  }

  lemma DecodeEncodeThree(b0: Byte, b1: Byte, b2: Byte)
    ensures Decode(Encode([b0, b1, b2])) == Some([b0, b1, b2])
  {
    var g := EncodeGroup(b0, b1, b2);
    DecodeEncodeGroup(b0, b1, b2);
    assert [b0, b1, b2][3..] == [];
    assert Encode([b0, b1, b2]) == g + "";
    assert g + "" == g;
  }

  /** Encoding at least three bytes starts with their full group. */
  lemma EncodeCons(b: seq<Byte>)
    requires |b| > 3
    ensures Encode(b) == EncodeGroup(b[0], b[1], b[2]) + Encode(b[3..])
    ensures |Encode(b[3..])| > 0
  {
  }

  /** Decoding undoes encoding: `base64_encode` loses nothing. */
  lemma {:induction false} DecodeEncode(b: seq<Byte>)
    ensures Decode(Encode(b)) == Some(b)
    decreases |b|
  {
    if |b| == 0 {
    } else if |b| == 1 {
      assert b == [b[0]];
      DecodeEncodeOne(b[0]);
    } else if |b| == 2 {
      assert b == [b[0], b[1]];
      DecodeEncodeTwo(b[0], b[1]);
    } else if |b| == 3 {
      assert b == [b[0], b[1], b[2]];
      DecodeEncodeThree(b[0], b[1], b[2]);
    } else {
      DecodeEncode(b[3..]);
      DecodeEncodeStep(b);
    }
  }

  /** One full group in front of a rest that round-trips. */
  lemma DecodeEncodeStep(b: seq<Byte>)
    requires |b| > 3
    requires Decode(Encode(b[3..])) == Some(b[3..])
    ensures Decode(Encode(b)) == Some(b)
  {
    EncodeCons(b);
    DecodeEncodeGroup(b[0], b[1], b[2]);
    DecodeCons(EncodeGroup(b[0], b[1], b[2]), Encode(b[3..]), [b[0], b[1], b[2]], b[3..]);
    SplitGroup(b);
  }

  lemma SplitGroup(b: seq<Byte>)
    requires |b| >= 3
    ensures [b[0], b[1], b[2]] + b[3..] == b
  {
  }

  /** Nine bytes are encoded as three full groups. */
  lemma EncodeNine(b: seq<Byte>)
    requires |b| == 9
    ensures Encode(b) == EncodeGroup(b[0], b[1], b[2]) + EncodeGroup(b[3], b[4], b[5]) + EncodeGroup(b[6], b[7], b[8])
  {
    EncodeCons(b);
    EncodeCons(b[3..]);
    var last := b[3..][3..];
    assert last == [b[6], b[7], b[8]];
    assert Encode(last) == EncodeGroup(b[6], b[7], b[8]) + "";
  }

  /** A group encodes to the four symbols its sextets name. */
  lemma GroupIs(b0: Byte, b1: Byte, b2: Byte, r: string)
    requires |r| == 4
    requires Symbol(b0 / 4) == r[0] && Symbol((b0 % 4) * 16 + b1 / 16) == r[1]
    requires Symbol((b1 % 16) * 4 + b2 / 64) == r[2] && Symbol(b2 % 64) == r[3]
    ensures EncodeGroup(b0, b1, b2) == r
  {
  }

  /** The three groups of the nine bytes of "id:secret". */
  lemma CredentialGroupsExample()
    ensures EncodeGroup(0x69, 0x64, 0x3A) == "aWQ6"
    ensures EncodeGroup(0x73, 0x65, 0x63) == "c2Vj"
    ensures EncodeGroup(0x72, 0x65, 0x74) == "cmV0"
  {
    GroupIs(0x69, 0x64, 0x3A, "aWQ6");
    GroupIs(0x73, 0x65, 0x63, "c2Vj");
    GroupIs(0x72, 0x65, 0x74, "cmV0");
  }

  /** The test vectors "f", "fo" and "foo" of section 10 of RFC 4648. */
  lemma EncodeTestVectors()
    ensures Encode([0x66]) == "Zg=="
    ensures Encode([0x66, 0x6F]) == "Zm8="
    ensures Encode([0x66, 0x6F, 0x6F]) == "Zm9v"
  {
    assert [0x66, 0x6F, 0x6F][3..] == [];
    GroupIs(0x66, 0x6F, 0x6F, "Zm9v");
  }

  /** Six bytes are encoded as two full groups. */
  lemma EncodeSix(b: seq<Byte>)
    requires |b| == 6
    ensures Encode(b) == EncodeGroup(b[0], b[1], b[2]) + EncodeGroup(b[3], b[4], b[5])
  {
    EncodeCons(b);
    var last := b[3..];
    assert last == [b[3], b[4], b[5]];
    assert Encode(last) == EncodeGroup(b[3], b[4], b[5]) + "";
  }

  /** The test vector "foobar" of section 10 of RFC 4648. */
  lemma EncodeFoobar()
    ensures Encode([0x66, 0x6F, 0x6F, 0x62, 0x61, 0x72]) == "Zm9vYmFy"
  {
    EncodeSix([0x66, 0x6F, 0x6F, 0x62, 0x61, 0x72]);
    GroupIs(0x66, 0x6F, 0x6F, "Zm9v");
    GroupIs(0x62, 0x61, 0x72, "YmFy");
  }
}
