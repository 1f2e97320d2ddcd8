/** Standard base64 with padding (section 4 of RFC 4648), decoded the way
    Go's `base64.StdEncoding.DecodeString` does: carriage returns and line
    feeds are ignored, padding is required, and the unused low bits of the
    last quantum are not checked. */
module Base64 {
  import opened Common

  predicate IsByte(c: char) {
    c as int < 256
  }

  predicate AllBytes(b: Bytes) {
    forall k :: 0 <= k < |b| ==> IsByte(b[k])
  }

  predicate IsBase64Char(c: char) {
    ('A' <= c <= 'Z') || ('a' <= c <= 'z') || ('0' <= c <= '9') || c == '+' || c == '/'
  }

  /** The 6-bit value of an alphabet character. */
  function CharToIndex(c: char): (i: nat)
    requires IsBase64Char(c)
    ensures i < 64
  {
    if 'A' <= c <= 'Z' then c as int - 'A' as int
    else if 'a' <= c <= 'z' then c as int - 'a' as int + 26
    else if '0' <= c <= '9' then c as int - '0' as int + 52
    else if c == '+' then 62
    else 63
  }

  /** The alphabet character of a 6-bit value. */
  function IndexToChar(i: nat): (c: char)
    requires i < 64
    ensures IsBase64Char(c) && CharToIndex(c) == i
  {
    if i < 26 then ('A' as int + i) as char
    else if i < 52 then ('a' as int + i - 26) as char
    else if i < 62 then ('0' as int + i - 52) as char
    else if i == 62 then '+'
    else '/'
  }

  /** The input with carriage returns and line feeds removed. */
  function StripNewlines(s: string): (r: string)
    ensures '\n' !in r && '\r' !in r
  {
    if s == [] then []
    else if s[0] == '\n' || s[0] == '\r' then StripNewlines(s[1..])
    else [s[0]] + StripNewlines(s[1..])
  }

  function Byte(x: nat): (c: char)
    requires x < 256
    ensures IsByte(c)
  {
    x as char
  }

  /** The first, second and third byte encoded by a quantum. */
  function Byte0(i0: nat, i1: nat): nat { i0 * 4 + i1 / 16 }
  function Byte1(i1: nat, i2: nat): nat { (i1 % 16) * 16 + i2 / 4 }
  function Byte2(i2: nat, i3: nat): nat { (i2 % 4) * 64 + i3 }

  predicate AllBase64(q: string) {
    forall k :: 0 <= k < |q| ==> IsBase64Char(q[k])
  }

  /** A quantum of four alphabet characters: three bytes. */
  function DecodeFull(q: string): (b: Bytes)
    requires |q| == 4 && AllBase64(q)
    ensures |b| == 3 && AllBytes(b)
  {
    var i0, i1, i2, i3 := CharToIndex(q[0]), CharToIndex(q[1]), CharToIndex(q[2]), CharToIndex(q[3]);
    [Byte(Byte0(i0, i1)), Byte(Byte1(i1, i2)), Byte(Byte2(i2, i3))]
  }

  /** The last quantum, which may end in one or two padding characters. */
  function DecodeLast(q: string): (r: Option<Bytes>)
    requires |q| == 4
    ensures r.Some? ==> 1 <= |r.value| <= 3 && AllBytes(r.value)
  {
    if AllBase64(q) then Some(DecodeFull(q))
    else if AllBase64(q[..3]) && q[3] == '=' then
      var i0, i1, i2 := CharToIndex(q[0]), CharToIndex(q[1]), CharToIndex(q[2]);
      Some([Byte(Byte0(i0, i1)), Byte(Byte1(i1, i2))])
    else if AllBase64(q[..2]) && q[2] == '=' && q[3] == '=' then
      var i0, i1 := CharToIndex(q[0]), CharToIndex(q[1]);
      Some([Byte(Byte0(i0, i1))])
    else None
  }

  function DecodeQuanta(s: string): (r: Option<Bytes>)
    requires |s| % 4 == 0
    ensures r.Some? ==> AllBytes(r.value)
    ensures r.Some? ==> 3 * (|s| / 4) - 2 <= |r.value| <= 3 * (|s| / 4)
  {
    if s == [] then Some([])
    else if |s| == 4 then DecodeLast(s)
    else if !AllBase64(s[..4]) then None
    else match DecodeQuanta(s[4..])
      case None => None
      case Some(rest) => Some(DecodeFull(s[..4]) + rest)
  }

  /** `base64.StdEncoding.DecodeString`: `None` is a `CorruptInputError`. */
  function DecodeString(s: string): (r: Option<Bytes>)
    ensures r.Some? ==> AllBytes(r.value)
  {
    var t := StripNewlines(s);
    if |t| % 4 != 0 then None else DecodeQuanta(t)
  }

  /** `base64.StdEncoding.EncodeToString`, the partner of `DecodeString`. */
  function Encode(b: Bytes): (s: string)
    requires AllBytes(b)
    ensures '\n' !in s && '\r' !in s
  {
    if |b| == 0 then ""
    else
      var b0 := b[0] as int;
      if |b| == 1 then
        [IndexToChar(b0 / 4), IndexToChar((b0 % 4) * 16), '=', '=']
      else
        var b1 := b[1] as int;
        if |b| == 2 then
          [IndexToChar(b0 / 4), IndexToChar((b0 % 4) * 16 + b1 / 16), IndexToChar((b1 % 16) * 4), '=']
        else
          var b2 := b[2] as int;
          [IndexToChar(b0 / 4), IndexToChar((b0 % 4) * 16 + b1 / 16),
           IndexToChar((b1 % 16) * 4 + b2 / 64), IndexToChar(b2 % 64)]
          + Encode(b[3..])
  }

  /** The encoding is a whole number of quanta. */
  lemma {:induction false} EncodeLength(b: Bytes)
    requires AllBytes(b)
    ensures |Encode(b)| % 4 == 0
    decreases |b|
  {
    if |b| > 2 {
      EncodeLength(b[3..]);
      assert |Encode(b)| == 4 + |Encode(b[3..])|;
    }
  }

  lemma StripNewlinesNoop(s: string)
    requires '\n' !in s && '\r' !in s
    ensures StripNewlines(s) == s
  {
    if s != [] {
      assert s == [s[0]] + s[1..];
      StripNewlinesNoop(s[1..]);
    }
  }

  /** Decoding undoes encoding, for every byte string. */
  lemma {:induction false} DecodeEncode(b: Bytes)
    requires AllBytes(b)
    ensures DecodeString(Encode(b)) == Some(b)
  {
    StripNewlinesNoop(Encode(b));
    EncodeLength(b);
    DecodeQuantaEncode(b);
  }

  lemma {:induction false} DecodeQuantaEncode(b: Bytes)
    requires AllBytes(b) && |Encode(b)| % 4 == 0
    ensures DecodeQuanta(Encode(b)) == Some(b)
    decreases |b|
  {
    var s := Encode(b);
    if |b| == 1 {
      OnePaddedQuantum(b);
    } else if |b| == 2 {
      TwoPaddedQuantum(b);
    } else if |b| >= 3 {
      FullQuantum(b);
      var q := s[..4];
      if |b| == 3 {
        assert s == q;
        assert b == b[..3];
      } else {
        assert s[4..] == Encode(b[3..]);
        EncodeLength(b[3..]);
        DecodeQuantaEncode(b[3..]);
        assert b == b[..3] + b[3..];
      }
    }
  }

  lemma OnePaddedQuantum(b: Bytes)
    requires |b| == 1 && AllBytes(b)
    ensures DecodeLast(Encode(b)) == Some(b)
  {
    var b0 := b[0] as int;
    var m := b0 % 4;
    var c0, c1 := IndexToChar(b0 / 4), IndexToChar(m * 16);
    assert Encode(b) == [c0, c1, '=', '='];
    DecodeLastTwoPads(c0, c1);
    assert Byte0(b0 / 4, m * 16) == b0 by { Recombine0(b0, 0); }
    assert [Byte(b0)] == b;
  }

  /** The sextets of an encoded quantum give back its bytes. */
  lemma Recombine0(b0: nat, x: nat)
    requires b0 < 256 && x < 16
    ensures (b0 % 4) * 16 + x < 64 && Byte0(b0 / 4, (b0 % 4) * 16 + x) == b0
  {
  }

  lemma Recombine1(h: nat, b1: nat, y: nat)
    requires h < 4 && b1 < 256 && y < 4
    ensures h * 16 + b1 / 16 < 64 && (b1 % 16) * 4 + y < 64
    ensures Byte1(h * 16 + b1 / 16, (b1 % 16) * 4 + y) == b1
  {
  }

  lemma Recombine2(h: nat, b2: nat)
    requires h < 16 && b2 < 256
    ensures Byte2(h * 4 + b2 / 64, b2 % 64) == b2
  {
  }

  lemma DecodeLastTwoPads(c0: char, c1: char)
    requires IsBase64Char(c0) && IsBase64Char(c1)
    ensures DecodeLast([c0, c1, '=', '=']) == Some([Byte(Byte0(CharToIndex(c0), CharToIndex(c1)))])
  {
    var q := [c0, c1, '=', '='];
    assert !IsBase64Char(q[2]);
    assert q[..3][2] == '=';
    assert q[..2] == [c0, c1];
  }

  lemma TwoPaddedQuantum(b: Bytes)
    requires |b| == 2 && AllBytes(b)
    ensures DecodeLast(Encode(b)) == Some(b)
  {
    var b0, b1 := b[0] as int, b[1] as int;
    var c1 := (b0 % 4) * 16 + b1 / 16;
    var c2 := (b1 % 16) * 4;
    var q0, q1, q2 := IndexToChar(b0 / 4), IndexToChar(c1), IndexToChar(c2);
    assert Encode(b) == [q0, q1, q2, '='];
    DecodeLastOnePad(q0, q1, q2);
    assert Byte0(b0 / 4, c1) == b0 by { Recombine0(b0, b1 / 16); }
    assert Byte1(c1, c2) == b1 by { Recombine1(b0 % 4, b1, 0); }
    BytePair(b);
  }

  lemma DecodeLastOnePad(c0: char, c1: char, c2: char)
    requires IsBase64Char(c0) && IsBase64Char(c1) && IsBase64Char(c2)
    ensures DecodeLast([c0, c1, c2, '='])
            == Some([Byte(Byte0(CharToIndex(c0), CharToIndex(c1))), Byte(Byte1(CharToIndex(c1), CharToIndex(c2)))])
  {
    var q := [c0, c1, c2, '='];
    assert !IsBase64Char(q[3]);
    assert q[..3] == [c0, c1, c2];
  }

  lemma FullQuantum(b: Bytes)
    requires |b| >= 3 && AllBytes(b)
    ensures |Encode(b)| >= 4 && AllBase64(Encode(b)[..4]) && DecodeFull(Encode(b)[..4]) == b[..3]
  {
    var s := Encode(b);
    var b0, b1, b2 := b[0] as int, b[1] as int, b[2] as int;
    var c1 := (b0 % 4) * 16 + b1 / 16;
    var c2 := (b1 % 16) * 4 + b2 / 64;
    var q := [IndexToChar(b0 / 4), IndexToChar(c1), IndexToChar(c2), IndexToChar(b2 % 64)];
    assert s == q + Encode(b[3..]);
    assert s[..4] == q;
    DecodeSextets(b0 / 4, c1, c2, b2 % 64);
    assert Byte0(b0 / 4, c1) == b0 by { Recombine0(b0, b1 / 16); }
    assert Byte1(c1, c2) == b1 by { Recombine1(b0 % 4, b1, b2 / 64); }
    assert Byte2(c2, b2 % 64) == b2 by { Recombine2(b1 % 16, b2); }
    ByteTriple(b);
  }

  lemma BytePair(b: Bytes)
    requires |b| == 2 && AllBytes(b)
    ensures [Byte(b[0] as int), Byte(b[1] as int)] == b
  {
    assert IsByte(b[0]) && IsByte(b[1]);
  }

  lemma ByteTriple(b: Bytes)
    requires |b| >= 3 && AllBytes(b)
    ensures [Byte(b[0] as int), Byte(b[1] as int), Byte(b[2] as int)] == b[..3]
  {
    assert IsByte(b[0]) && IsByte(b[1]) && IsByte(b[2]);
  }

  lemma DecodeSextets(i0: nat, i1: nat, i2: nat, i3: nat)
    requires i0 < 64 && i1 < 64 && i2 < 64 && i3 < 64
    ensures var q := [IndexToChar(i0), IndexToChar(i1), IndexToChar(i2), IndexToChar(i3)];
            AllBase64(q) && DecodeFull(q) == [Byte(Byte0(i0, i1)), Byte(Byte1(i1, i2)), Byte(Byte2(i2, i3))]
  {
  }

  /** A quantum sequence holding a character that is neither in the alphabet
      nor padding does not decode. */
  lemma {:induction false} DecodeQuantaRejects(s: string, k: nat)
    requires |s| % 4 == 0 && k < |s|
    requires !IsBase64Char(s[k]) && s[k] != '='
    ensures DecodeQuanta(s) == None
    decreases |s|
  {
    if |s| == 4 {
      assert !AllBase64(s);
      if k < 3 { assert s[..3][k] == s[k]; }
      if k < 2 { assert s[..2][k] == s[k]; }
    } else if k < 4 {
      assert s[..4][k] == s[k];
    } else {
      assert s[4..][k - 4] == s[k];
      DecodeQuantaRejects(s[4..], k - 4);
    }
  }

  /** A malformed payload is rejected: once line breaks are dropped, any
      character outside the alphabet other than padding makes decoding fail. */
  lemma RejectsForeignCharacter(s: string, k: nat)
    requires k < |StripNewlines(s)|
    requires !IsBase64Char(StripNewlines(s)[k]) && StripNewlines(s)[k] != '='
    ensures DecodeString(s) == None
  {
    var t := StripNewlines(s);
    if |t| % 4 == 0 {
      DecodeQuantaRejects(t, k);
    }
  }

  /** A malformed payload is rejected: once line breaks are dropped, input
      that is not a whole number of quanta (missing padding) does not decode. */
  lemma RejectsMissingPadding(s: string)
    requires |StripNewlines(s)| % 4 != 0
    ensures DecodeString(s) == None
  {
  }
}
