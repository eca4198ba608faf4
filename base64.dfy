/**
 * The base64 encoding of section 4 of RFC 4648 with the standard alphabet
 * and `=` padding, as Go's `base64.StdEncoding.EncodeToString` produces it,
 * together with the matching decoder, which serves as its inverse.
 */
module Base64 {
  import opened Results

  type byte = x: int | 0 <= x < 256

  /** A 6-bit value, the content of one base64 character. */
  type sextet = x: int | 0 <= x < 64

  /** The character of the 6-bit value `v` (Table 1 of RFC 4648). */
  function Char(v: sextet): (c: char)
    ensures c != '='
  {
    if v < 26 then (65 + v) as char
    else if v < 52 then (97 + v - 26) as char
    else if v < 62 then (48 + v - 52) as char
    else if v == 62 then '+'
    else '/'
  }

  /** The 6-bit value of an alphabet character, or None for any other character. */
  function Value(c: char): (r: Option<sextet>)
    ensures r.Some? ==> Char(r.value) == c
  {
    if 'A' <= c <= 'Z' then Some(c as int - 65)
    else if 'a' <= c <= 'z' then Some(c as int - 97 + 26)
    else if '0' <= c <= '9' then Some(c as int - 48 + 52)
    else if c == '+' then Some(62)
    else if c == '/' then Some(63)
    else None
  }

  /** Every 6-bit value is recovered from its character. */
  lemma ValueOfChar(v: sextet)
    ensures Value(Char(v)) == Some(v)
  {
  }

  /**
   * The four 6-bit digits of three bytes, most significant bits first:
   * the 24 bits `b0 b1 b2` cut into `6 + 6 + 6 + 6`.
   */
  function Digits(b0: byte, b1: byte, b2: byte): (d: seq<sextet>)
    ensures |d| == 4
  {
    [b0 / 4, b0 % 4 * 16 + b1 / 16, b1 % 16 * 4 + b2 / 64, b2 % 64]
  }

  /** The three bytes whose 24 bits are the four 6-bit digits `v0 v1 v2 v3`. */
  function Octets(v0: sextet, v1: sextet, v2: sextet, v3: sextet): (o: seq<byte>)
    ensures |o| == 3
  {
    [v0 * 4 + v1 / 16, v1 % 16 * 16 + v2 / 4, v2 % 4 * 64 + v3]
  }

  /** Cutting three bytes into digits and gluing the digits back gives the bytes. */
  lemma OctetsOfDigits(b0: byte, b1: byte, b2: byte)
    ensures var d := Digits(b0, b1, b2); Octets(d[0], d[1], d[2], d[3]) == [b0, b1, b2]
  {
    var d := Digits(b0, b1, b2);
    assert d[1] / 16 == b0 % 4 && d[1] % 16 == b1 / 16;
    assert d[2] / 4 == b1 % 16 && d[2] % 4 == b2 / 64;
  }

  /** The four characters of three bytes. */
  function Quad(b0: byte, b1: byte, b2: byte): (s: string)
    ensures |s| == 4
    ensures forall i :: 0 <= i < 4 ==> Value(s[i]).Some?
  {
    var d := Digits(b0, b1, b2);
    [Char(d[0]), Char(d[1]), Char(d[2]), Char(d[3])]
  }

  /**
   * Base64 text of `data`: each group of three bytes becomes four
   * characters; a final group of two bytes ends in one `=`, of one byte in
   * two.
   */
  function Encode(data: seq<byte>): (s: string)
    ensures forall i :: 0 <= i < |s| ==> s[i] == '=' || Value(s[i]).Some?
    decreases |data|
  {
    if |data| == 0 then ""
    else if |data| == 1 then Quad(data[0], 0, 0)[..2] + "=="
    else if |data| == 2 then Quad(data[0], data[1], 0)[..3] + "="
    else Quad(data[0], data[1], data[2]) + Encode(data[3..])
  }

  /** The characters of the test vectors below. */
  lemma VectorChars()
    ensures Char(0) == 'A' && Char(4) == 'E' && Char(5) == 'F' && Char(24) == 'Y' && Char(25) == 'Z'
    ensures Char(32) == 'g' && Char(38) == 'm' && Char(47) == 'v' && Char(50) == 'y'
    ensures Char(60) == '8' && Char(61) == '9'
  {
  }

  /** The quads of the test vectors below. */
  lemma QuadZgAA()
    ensures Quad(102, 0, 0) == "ZgAA"
  {
    VectorChars();
    assert Digits(102, 0, 0) == [25, 32, 0, 0];
  }

  lemma QuadZm8A()
    ensures Quad(102, 111, 0) == "Zm8A"
  {
    VectorChars();
    assert Digits(102, 111, 0) == [25, 38, 60, 0];
  }

  lemma QuadZm9v()
    ensures Quad(102, 111, 111) == "Zm9v"
  {
    VectorChars();
    assert Digits(102, 111, 111) == [25, 38, 61, 47];
  }

  lemma QuadYgAA()
    ensures Quad(98, 0, 0) == "YgAA"
  {
    VectorChars();
    assert Digits(98, 0, 0) == [24, 32, 0, 0];
  }

  lemma QuadYmEA()
    ensures Quad(98, 97, 0) == "YmEA"
  {
    VectorChars();
    assert Digits(98, 97, 0) == [24, 38, 4, 0];
  }

  lemma QuadYmFy()
    ensures Quad(98, 97, 114) == "YmFy"
  {
    VectorChars();
    assert Digits(98, 97, 114) == [24, 38, 5, 50];
  }

  /** "f" encodes as "Zg==". */
  lemma EncodeVectorF()
    ensures Encode([102]) == "Zg=="
  {
    QuadZgAA();
    assert Encode([102]) == "ZgAA"[..2] + "==";
  }

  /** "fo" encodes as "Zm8=". */
  lemma EncodeVectorFo()
    ensures Encode([102, 111]) == "Zm8="
  {
    QuadZm8A();
    assert Encode([102, 111]) == "Zm8A"[..3] + "=";
  }

  /** "foo" encodes as "Zm9v". */
  lemma EncodeVectorFoo()
    ensures Encode([102, 111, 111]) == "Zm9v"
  {
    QuadZm9v();
    assert Encode([102, 111, 111]) == Quad(102, 111, 111) + Encode([]);
  }

  /** "foob" encodes as "Zm9vYg==". */
  lemma EncodeVectorFoob()
    ensures Encode([102, 111, 111, 98]) == "Zm9vYg=="
  {
    QuadZm9v();
    QuadYgAA();
    assert Encode([98]) == "YgAA"[..2] + "==";
    EncodeStep([102, 111, 111, 98]);
    assert [102, 111, 111, 98][3..] == [98];
  }

  /** "fooba" encodes as "Zm9vYmE=". */
  lemma EncodeVectorFooba()
    ensures Encode([102, 111, 111, 98, 97]) == "Zm9vYmE="
  {
    QuadZm9v();
    QuadYmEA();
    assert Encode([98, 97]) == "YmEA"[..3] + "=";
    EncodeStep([102, 111, 111, 98, 97]);
    assert [102, 111, 111, 98, 97][3..] == [98, 97];
  }

  /** "foobar" encodes as "Zm9vYmFy". */
  lemma EncodeVectorFoobar()
    ensures Encode([102, 111, 111, 98, 97, 114]) == "Zm9vYmFy"
  {
    QuadZm9v();
    QuadYmFy();
    assert Encode([98, 97, 114]) == Quad(98, 97, 114) + Encode([]);
    EncodeStep([102, 111, 111, 98, 97, 114]);
    assert [102, 111, 111, 98, 97, 114][3..] == [98, 97, 114];
  }

  /** The test vectors of section 10 of RFC 4648 pin the encoding to the standard alphabet. */
  lemma EncodeTestVectors()
    ensures Encode([]) == ""
    ensures Encode([102]) == "Zg==" && Encode([102, 111]) == "Zm8=" && Encode([102, 111, 111]) == "Zm9v"
    ensures Encode([102, 111, 111, 98]) == "Zm9vYg==" && Encode([102, 111, 111, 98, 97]) == "Zm9vYmE="
    ensures Encode([102, 111, 111, 98, 97, 114]) == "Zm9vYmFy"
  {
    EncodeVectorF();
    EncodeVectorFo();
    EncodeVectorFoo();
    EncodeVectorFoob();
    EncodeVectorFooba();
    EncodeVectorFoobar();
  }

  /** Four characters for every started group of three bytes. */
  lemma {:induction false} EncodeLength(data: seq<byte>)
    ensures |Encode(data)| == 4 * ((|data| + 2) / 3)
    decreases |data|
  {
    if |data| > 2 {
      EncodeLength(data[3..]);
      assert (|data| + 2) / 3 == (|data[3..]| + 2) / 3 + 1;
    }
  }

  /** The value of a character inside a quad, with padding read as zero. */
  function PadValue(c: char): (r: Option<sextet>)
  {
    if c == '=' then Some(0) else Value(c)
  }

  /** The three bytes spelled by four characters. */
  function Bytes(q: string): (r: Option<seq<byte>>)
    requires |q| == 4
    ensures r.Some? ==> |r.value| == 3
  {
    var v0, v1, v2, v3 := PadValue(q[0]), PadValue(q[1]), PadValue(q[2]), PadValue(q[3]);
    if v0.Some? && v1.Some? && v2.Some? && v3.Some? then
      Some(Octets(v0.value, v1.value, v2.value, v3.value))
    else
      None
  }

  /** Decoding of a final quad: `xx==` holds one byte, `xxx=` two, `xxxx` three. */
  function DecodeLast(q: string): (r: Option<seq<byte>>)
    requires |q| == 4
  {
    if q[0] == '=' || q[1] == '=' then None
    else if q[2] == '=' && q[3] != '=' then None
    else
      match Bytes(q)
      case None => None
      case Some(b) =>
        if q[2] == '=' then Some(b[..1])
        else if q[3] == '=' then Some(b[..2])
        else Some(b)
  }

  /** Base64 decoding: whole quads, padding allowed only in the last one. */
  function Decode(s: string): (r: Option<seq<byte>>)
    decreases |s|
  {
    if |s| == 0 then Some([])
    else if |s| < 4 then None
    else if |s| == 4 then DecodeLast(s)
    else if '=' in s[..4] then None
    else
      match (Bytes(s[..4]), Decode(s[4..]))
      case (Some(b), Some(rest)) => Some(b + rest)
      case _ => None
  }

  /** Reading a quad back gives the bytes that produced it. */
  lemma BytesOfQuad(b0: byte, b1: byte, b2: byte)
    ensures Bytes(Quad(b0, b1, b2)) == Some([b0, b1, b2])
  {
    var d := Digits(b0, b1, b2);
    var q := Quad(b0, b1, b2);
    ValueOfChar(d[0]);
    ValueOfChar(d[1]);
    ValueOfChar(d[2]);
    ValueOfChar(d[3]);
    assert PadValue(q[0]) == Some(d[0]) && PadValue(q[1]) == Some(d[1]);
    assert PadValue(q[2]) == Some(d[2]) && PadValue(q[3]) == Some(d[3]);
    OctetsOfDigits(b0, b1, b2);
  }

  /** Reading a padded quad back: the digits the padding replaces were zero. */
  lemma BytesOfPadded(b0: byte, b1: byte, pad: nat)
    requires pad == 1 || pad == 2
    requires pad == 2 ==> b1 == 0
    ensures var q := Quad(b0, b1, 0)[..4 - pad] + (if pad == 1 then "=" else "==");
            Bytes(q) == Some([b0, b1, 0])
  {
    var d := Digits(b0, b1, 0);
    var q := Quad(b0, b1, 0)[..4 - pad] + (if pad == 1 then "=" else "==");
    ValueOfChar(d[0]);
    ValueOfChar(d[1]);
    ValueOfChar(d[2]);
    assert d[3] == 0;
    assert pad == 2 ==> d[2] == 0;
    assert PadValue(q[0]) == Some(d[0]) && PadValue(q[1]) == Some(d[1]);
    assert PadValue(q[2]) == Some(d[2]) && PadValue(q[3]) == Some(d[3]);
    OctetsOfDigits(b0, b1, 0);
  }

  /** A final group of one byte decodes back to that byte. */
  lemma DecodeTailOne(b0: byte)
    ensures Decode(Encode([b0])) == Some([b0])
  {
    var q := Encode([b0]);
    assert q == Quad(b0, 0, 0)[..2] + "==";
    BytesOfPadded(b0, 0, 2);
    assert q[0] != '=' && q[1] != '=' && q[2] == '=' && q[3] == '=';
    assert DecodeLast(q) == Some([b0, 0, 0][..1]);
    assert [b0, 0, 0][..1] == [b0];
    assert Decode(q) == DecodeLast(q);
  }

  /** A final group of two bytes decodes back to those bytes. */
  lemma DecodeTailTwo(b0: byte, b1: byte)
    ensures Decode(Encode([b0, b1])) == Some([b0, b1])
  {
    var q := Encode([b0, b1]);
    assert q == Quad(b0, b1, 0)[..3] + "=";
    BytesOfPadded(b0, b1, 1);
    assert q[0] != '=' && q[1] != '=' && q[2] != '=' && q[3] == '=';
    assert DecodeLast(q) == Some([b0, b1, 0][..2]);
    assert [b0, b1, 0][..2] == [b0, b1];
    assert Decode(q) == DecodeLast(q);
  }

  /** A lone quad without padding decodes to its three bytes. */
  lemma DecodeFull(q: string)
    requires |q| == 4 && '=' !in q
    ensures Decode(q) == Bytes(q)
  {
    assert q[0] != '=' && q[1] != '=' && q[2] != '=' && q[3] != '=';
    if Bytes(q).Some? {
      assert Bytes(q).value[..] == Bytes(q).value;
    }
  }

  /** A full quad followed by more text decodes to its bytes followed by the rest. */
  lemma DecodeCons(q: string, rest: string, b: seq<byte>, r: seq<byte>)
    requires |q| == 4 && '=' !in q && |rest| > 0
    requires Bytes(q) == Some(b) && Decode(rest) == Some(r)
    ensures Decode(q + rest) == Some(b + r)
  {
    var s := q + rest;
    assert s[..4] == q && s[4..] == rest;
  }

  /** The characters of a full quad are all alphabet characters, never padding. */
  lemma QuadHasNoPadding(b0: byte, b1: byte, b2: byte)
    ensures '=' !in Quad(b0, b1, b2)
  {
    var q := Quad(b0, b1, b2);
    assert q[0] != '=' && q[1] != '=' && q[2] != '=' && q[3] != '=';
  }

  /** A byte string of three or more is its first three bytes followed by the rest. */
  lemma FirstThree(data: seq<byte>)
    requires |data| > 2
    ensures data == [data[0], data[1], data[2]] + data[3..]
  {
  }

  /** The encoding of three or more bytes starts with the quad of the first three. */
  lemma EncodeStep(data: seq<byte>)
    requires |data| > 2
    ensures Encode(data) == Quad(data[0], data[1], data[2]) + Encode(data[3..])
  {
  }

  /** Exactly three bytes decode back from their quad. */
  lemma DecodeOneGroup(b0: byte, b1: byte, b2: byte)
    ensures Decode(Encode([b0, b1, b2])) == Some([b0, b1, b2])
  {
    var q := Quad(b0, b1, b2);
    assert Encode([b0, b1, b2]) == q + Encode([]);
    QuadHasNoPadding(b0, b1, b2);
    BytesOfQuad(b0, b1, b2);
    DecodeFull(q);
  }

  /** One full group followed by the encoding of the rest decodes back. */
  lemma DecodeGroup(data: seq<byte>)
    requires |data| > 3 && Decode(Encode(data[3..])) == Some(data[3..])
    ensures Decode(Encode(data)) == Some(data)
  {
    var q := Quad(data[0], data[1], data[2]);
    var rest := Encode(data[3..]);
    EncodeStep(data);
    EncodeLength(data[3..]);
    QuadHasNoPadding(data[0], data[1], data[2]);
    BytesOfQuad(data[0], data[1], data[2]);
    DecodeCons(q, rest, [data[0], data[1], data[2]], data[3..]);
    FirstThree(data);
  }

  /** Decoding inverts encoding, for every byte string. */
  lemma {:induction false} DecodeEncode(data: seq<byte>)
    ensures Decode(Encode(data)) == Some(data)
    decreases |data|
  {
    if |data| == 0 {
      assert Encode(data) == "";
    } else if |data| == 1 {
      assert data == [data[0]];
      DecodeTailOne(data[0]);
    } else if |data| == 2 {
      assert data == [data[0], data[1]];
      DecodeTailTwo(data[0], data[1]);
    } else if |data| == 3 {
      assert data == [data[0], data[1], data[2]];
      DecodeOneGroup(data[0], data[1], data[2]);
    } else {
      DecodeEncode(data[3..]);
      DecodeGroup(data);
    }
  }
}
