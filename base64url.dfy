/** The URL- and filename-safe Base 64 encoding of section 5 of RFC 4648,
    without padding, which is what `Base64Url::encode($data)` produces when
    its padding flag is left at its default. The decoder is the encoder's
    partner: it accepts exactly the canonical unpadded encodings.

    Both directions go through six-bit groups: bytes to sextets is arithmetic,
    sextets to symbols is the alphabet, and each layer has its own round trip. */
module Base64Url {
  import opened Bytes
  import opened Wrappers

  /** A six-bit group, the value one output symbol carries. */
  type sextet = x: int | 0 <= x < 64

  // ---------------------------------------------------------------------------
  // The alphabet.

  /** The alphabet of Table 2 in section 5 of RFC 4648. */
  function Symbol(v: sextet): (c: char)
  {
    if v < 26 then ('A' as int + v) as char
    else if v < 52 then ('a' as int + (v - 26)) as char
    else if v < 62 then ('0' as int + (v - 52)) as char
    else if v == 62 then '-'
    else '_'
  }

  /** The value of an alphabet symbol, or None for any other character. */
  function SymbolValue(c: char): (r: Option<sextet>)
  {
    if 'A' <= c <= 'Z' then Some(c as int - 'A' as int)
    else if 'a' <= c <= 'z' then Some(c as int - 'a' as int + 26)
    else if '0' <= c <= '9' then Some(c as int - '0' as int + 52)
    else if c == '-' then Some(62)
    else if c == '_' then Some(63)
    else None
  }

  lemma SymbolValueOfSymbol(v: sextet)
    ensures SymbolValue(Symbol(v)) == Some(v)
  {
  }

  lemma SymbolOfSymbolValue(c: char)
    requires SymbolValue(c).Some?
    ensures Symbol(SymbolValue(c).value) == c
  {
  }

  /** Every character is in the URL-safe alphabet: no `+`, `/` or `=` padding. */
  predicate IsUrlSafe(s: string)
  {
    forall i :: 0 <= i < |s| ==> SymbolValue(s[i]).Some?
  }

  function Symbols(vs: seq<sextet>): (s: string)
  {
    seq(|vs|, i requires 0 <= i < |vs| => Symbol(vs[i]))
  }

  function Values(s: string): (vs: seq<sextet>)
    requires IsUrlSafe(s)
  {
    seq(|s|, i requires 0 <= i < |s| => SymbolValue(s[i]).value)
  }

  lemma ValuesOfSymbols(vs: seq<sextet>)
    ensures IsUrlSafe(Symbols(vs)) && Values(Symbols(vs)) == vs
  {
    forall i | 0 <= i < |vs|
      ensures SymbolValue(Symbols(vs)[i]) == Some(vs[i])
    {
      SymbolValueOfSymbol(vs[i]);
    }
  }

  lemma SymbolsOfValues(s: string)
    requires IsUrlSafe(s)
    ensures Symbols(Values(s)) == s
  {
    forall i | 0 <= i < |s|
      ensures Symbols(Values(s))[i] == s[i]
    {
      SymbolOfSymbolValue(s[i]);
    }
  }

  // ---------------------------------------------------------------------------
  // Bytes and sextets.

  /** Three bytes give four sextets; one or two trailing bytes give two or three. */
  function ToSextets(data: seq<byte>): (vs: seq<sextet>)
    ensures |vs| == (4 * |data| + 2) / 3
    decreases |data|
  {
    if |data| == 0 then []
    else if |data| == 1 then
      [data[0] / 4, data[0] % 4 * 16]
    else if |data| == 2 then
      [data[0] / 4, data[0] % 4 * 16 + data[1] / 16, data[1] % 16 * 4]
    else
      Quad(data[0], data[1], data[2]) + ToSextets(data[3..])
  }

  /** The four sextets of one full group of three bytes. */
  function Quad(b0: byte, b1: byte, b2: byte): (vs: seq<sextet>)
  {
    [b0 / 4, b0 % 4 * 16 + b1 / 16, b1 % 16 * 4 + b2 / 64, b2 % 64]
  }

  /** The bytes that consecutive sextets carry. */
  function Byte0(v0: sextet, v1: sextet): byte { v0 * 4 + v1 / 16 }
  function Byte1(v1: sextet, v2: sextet): byte { v1 % 16 * 16 + v2 / 4 }
  function Byte2(v2: sextet, v3: sextet): byte { v2 % 4 * 64 + v3 }

  /** The inverse of ToSextets. It rejects a length of 1 modulo 4 and a final
      sextet whose unused low bits are not zero. */
  function FromSextets(vs: seq<sextet>): (r: Option<seq<byte>>)
    decreases |vs|
  {
    if |vs| == 0 then Some([])
    else if |vs| == 1 then None
    else if |vs| == 2 then
      if vs[1] % 16 != 0 then None else Some([Byte0(vs[0], vs[1])])
    else if |vs| == 3 then
      if vs[2] % 4 != 0 then None else Some([Byte0(vs[0], vs[1]), Byte1(vs[1], vs[2])])
    else
      var rest := FromSextets(vs[4..]);
      if rest.None? then None
      else Some([Byte0(vs[0], vs[1]), Byte1(vs[1], vs[2]), Byte2(vs[2], vs[3])] + rest.value)
  }

  lemma DivMod4(x: int, q: int, r: int)
    requires 0 <= r < 4 && x == q * 4 + r
    ensures x / 4 == q && x % 4 == r
  {
  }

  lemma DivMod16(x: int, q: int, r: int)
    requires 0 <= r < 16 && x == q * 16 + r
    ensures x / 16 == q && x % 16 == r
  {
  }

  lemma DivMod64(x: int, q: int, r: int)
    requires 0 <= r < 64 && x == q * 64 + r
    ensures x / 64 == q && x % 64 == r
  {
  }

  /** Splitting three bytes into sextets and combining them again is the identity. */
  lemma BytesOfSextets(b0: byte, b1: byte, b2: byte)
    ensures Byte0(b0 / 4, b0 % 4 * 16 + b1 / 16) == b0
    ensures Byte1(b0 % 4 * 16 + b1 / 16, b1 % 16 * 4 + b2 / 64) == b1
    ensures Byte2(b1 % 16 * 4 + b2 / 64, b2 % 64) == b2
  {
    DivMod16(b0 % 4 * 16 + b1 / 16, b0 % 4, b1 / 16);
    DivMod4(b1 % 16 * 4 + b2 / 64, b1 % 16, b2 / 64);
  }

  /** Combining four sextets into bytes and splitting them again is the identity. */
  lemma SextetsOfBytes(v0: sextet, v1: sextet, v2: sextet, v3: sextet)
    ensures Byte0(v0, v1) / 4 == v0
    ensures Byte0(v0, v1) % 4 * 16 + Byte1(v1, v2) / 16 == v1
    ensures Byte1(v1, v2) % 16 * 4 + Byte2(v2, v3) / 64 == v2
    ensures Byte2(v2, v3) % 64 == v3
  {
    DivMod4(Byte0(v0, v1), v0, v1 / 16);
    DivMod16(Byte1(v1, v2), v1 % 16, v2 / 4);
    DivMod64(Byte2(v2, v3), v2 % 4, v3);
  }

  lemma FromSextetsSingle(b0: byte)
    ensures FromSextets(ToSextets([b0])) == Some([b0])
  {
    DivMod16(b0 % 4 * 16, b0 % 4, 0);
    BytesOfSextets(b0, 0, 0);
  }

  lemma FromSextetsPair(b0: byte, b1: byte)
    ensures FromSextets(ToSextets([b0, b1])) == Some([b0, b1])
  {
    DivMod4(b1 % 16 * 4, b1 % 16, 0);
    BytesOfSextets(b0, b1, 0);
  }

  lemma BytesOfQuad(b0: byte, b1: byte, b2: byte)
    ensures var q := Quad(b0, b1, b2);
      [Byte0(q[0], q[1]), Byte1(q[1], q[2]), Byte2(q[2], q[3])] == [b0, b1, b2]
  {
    BytesOfSextets(b0, b1, b2);
  }

  /** FromSextets consumes a full group of four sextets at a time. */
  lemma FromSextetsOfGroup(q: seq<sextet>, rest: seq<sextet>)
    requires |q| == 4
    ensures FromSextets(q + rest) ==
      if FromSextets(rest).None? then None
      else Some([Byte0(q[0], q[1]), Byte1(q[1], q[2]), Byte2(q[2], q[3])] + FromSextets(rest).value)
  {
    assert (q + rest)[4..] == rest;
  }

  lemma FromSextetsStep(b0: byte, b1: byte, b2: byte, tail: seq<byte>)
    ensures FromSextets(ToSextets([b0, b1, b2] + tail)) ==
      if FromSextets(ToSextets(tail)).None? then None
      else Some([b0, b1, b2] + FromSextets(ToSextets(tail)).value)
  {
    var data := [b0, b1, b2] + tail;
    assert data[3..] == tail;
    ToSextetsOfGroup(data);
    FromSextetsOfGroup(Quad(b0, b1, b2), ToSextets(tail));
    BytesOfQuad(b0, b1, b2);
  }

  lemma ToSextetsOfGroup(data: seq<byte>)
    requires |data| >= 3
    ensures ToSextets(data) == Quad(data[0], data[1], data[2]) + ToSextets(data[3..])
  {
  }

  lemma {:induction false} FromSextetsOfBytes(data: seq<byte>)
    ensures FromSextets(ToSextets(data)) == Some(data)
    decreases |data|
  {
    if |data| == 1 {
      assert data == [data[0]];
      FromSextetsSingle(data[0]);
    } else if |data| == 2 {
      assert data == [data[0], data[1]];
      FromSextetsPair(data[0], data[1]);
    } else if |data| >= 3 {
      assert data == [data[0], data[1], data[2]] + data[3..];
      FromSextetsStep(data[0], data[1], data[2], data[3..]);
      FromSextetsOfBytes(data[3..]);
    }
  }

  lemma {:induction false} ToSextetsOfSextets(vs: seq<sextet>)
    requires FromSextets(vs).Some?
    ensures ToSextets(FromSextets(vs).value) == vs
    decreases |vs|
  {
    if |vs| == 2 {
      DivMod16(vs[1], vs[1] / 16, 0);
      SextetsOfBytes(vs[0], vs[1], 0, 0);
    } else if |vs| == 3 {
      DivMod4(vs[2], vs[2] / 4, 0);
      SextetsOfBytes(vs[0], vs[1], vs[2], 0);
    } else if |vs| >= 4 {
      ToSextetsOfSextets(vs[4..]);
      SextetsOfBytes(vs[0], vs[1], vs[2], vs[3]);
      var d := FromSextets(vs).value;
      assert d[3..] == FromSextets(vs[4..]).value;
      assert vs == vs[..4] + vs[4..];
    }
  }

  // ---------------------------------------------------------------------------
  // The codec.

  /** Unpadded base64url. */
  function Encode(data: seq<byte>): (s: string)
    ensures |s| == (4 * |data| + 2) / 3
  {
    Symbols(ToSextets(data))
  }

  /** The inverse of Encode: None for a character outside the alphabet or a
      string that is not a canonical unpadded encoding. */
  function Decode(s: string): (r: Option<seq<byte>>)
  {
    if IsUrlSafe(s) then FromSextets(Values(s)) else None
  }

  /** Encode writes only symbols of the URL-safe alphabet: no `+`, `/` or `=`. */
  lemma EncodeUrlSafe(data: seq<byte>)
    ensures IsUrlSafe(Encode(data))
  {
    ValuesOfSymbols(ToSextets(data));
  }

  /** Decoding undoes encoding. */
  lemma DecodeEncode(data: seq<byte>)
    ensures Decode(Encode(data)) == Some(data)
  {
    ValuesOfSymbols(ToSextets(data));
    FromSextetsOfBytes(data);
  }

  /** Encoding undoes decoding: Decode accepts only canonical encodings. */
  lemma EncodeDecode(s: string)
    requires Decode(s).Some?
    ensures Encode(Decode(s).value) == s
  {
    ToSextetsOfSextets(Values(s));
    SymbolsOfValues(s);
  }

  /** Distinct byte strings have distinct encodings. */
  lemma EncodeInjective(a: seq<byte>, b: seq<byte>)
    ensures Encode(a) == Encode(b) <==> a == b
  {
    DecodeEncode(a);
    DecodeEncode(b);
  }
}
