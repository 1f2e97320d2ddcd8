/** Go's `%q` verb on byte strings (`strconv.Quote`), for the characters
    the manifest can contain, with the decoder it is the inverse of. */
module Quoting {
  import opened Common

  function HexDigit(x: nat): (c: char)
    requires x < 16
  {
    if x < 10 then ('0' as int + x) as char else ('a' as int + x - 10) as char
  }

  function HexValue(c: char): (v: int)
    ensures -1 <= v < 16
  {
    if '0' <= c <= '9' then c as int - '0' as int
    else if 'a' <= c <= 'f' then c as int - 'a' as int + 10
    else -1
  }

  predicate IsControl(c: char) {
    c < ' ' || c == '\U{007F}'
  }

  /** The escape sequence of one byte: the named escapes, `\xNN` for the
      other control bytes, the byte itself otherwise. */
  function Escape(c: char): (e: string)
    ensures 1 <= |e| <= 4
    ensures |e| == 1 <==> e == [c]
  {
    if c == '"' then "\\\""
    else if c == '\\' then "\\\\"
    else if c == '\n' then "\\n"
    else if c == '\r' then "\\r"
    else if c == '\t' then "\\t"
    else if c == '\U{0007}' then "\\a"
    else if c == '\U{0008}' then "\\b"
    else if c == '\U{000C}' then "\\f"
    else if c == '\U{000B}' then "\\v"
    else if IsControl(c) then "\\x" + [HexDigit(c as int / 16), HexDigit(c as int % 16)]
    else [c]
  }

  function EscapeAll(s: string): string {
    if s == [] then "" else Escape(s[0]) + EscapeAll(s[1..])
  }

  /** `fmt.Sprintf("%q", s)`. */
  function Quote(s: string): (q: string)
    ensures |q| >= 2 && q[0] == '"' && q[|q| - 1] == '"'
  {
    "\"" + EscapeAll(s) + "\""
  }

  datatype Decoded = Decoded(c: char, length: nat)

  /** Reads one byte, escaped or not, from the front of `t`. */
  function UnescapeOne(t: string): (r: Option<Decoded>)
    requires t != []
    ensures r.Some? ==> 1 <= r.value.length <= |t|
  {
    if t[0] == '"' then None
    else if t[0] != '\\' then Some(Decoded(t[0], 1))
    else if |t| < 2 then None
    else if t[1] == '"' then Some(Decoded('"', 2))
    else if t[1] == '\\' then Some(Decoded('\\', 2))
    else if t[1] == 'n' then Some(Decoded('\n', 2))
    else if t[1] == 'r' then Some(Decoded('\r', 2))
    else if t[1] == 't' then Some(Decoded('\t', 2))
    else if t[1] == 'a' then Some(Decoded('\U{0007}', 2))
    else if t[1] == 'b' then Some(Decoded('\U{0008}', 2))
    else if t[1] == 'f' then Some(Decoded('\U{000C}', 2))
    else if t[1] == 'v' then Some(Decoded('\U{000B}', 2))
    else if t[1] == 'x' && |t| >= 4 && HexValue(t[2]) >= 0 && HexValue(t[3]) >= 0 then
      Some(Decoded((HexValue(t[2]) * 16 + HexValue(t[3])) as char, 4))
    else None
  }

  function UnescapeAll(t: string): Option<string>
    decreases |t|
  {
    if t == [] then Some("")
    else match UnescapeOne(t)
      case None => None
      case Some(d) =>
        match UnescapeAll(t[d.length..])
        case None => None
        case Some(rest) => Some([d.c] + rest)
  }

  /** `strconv.Unquote` on double-quoted strings. */
  function Unquote(q: string): Option<string> {
    if |q| >= 2 && q[0] == '"' && q[|q| - 1] == '"' then UnescapeAll(q[1..|q| - 1]) else None
  }

  lemma HexRoundTrip(x: nat)
    requires x < 16
    ensures HexValue(HexDigit(x)) == x
  {
  }

  lemma UnescapeEscape(c: char, rest: string)
    ensures UnescapeOne(Escape(c) + rest) == Some(Decoded(c, |Escape(c)|))
  {
    var t := Escape(c) + rest;
    if IsControl(c) && !(c == '\n' || c == '\r' || c == '\t' || c == '\U{0007}'
                         || c == '\U{0008}' || c == '\U{000C}' || c == '\U{000B}') {
      var hi, lo := c as int / 16, c as int % 16;
      HexRoundTrip(hi);
      HexRoundTrip(lo);
      assert t[2] == HexDigit(hi) && t[3] == HexDigit(lo);
      assert (hi * 16 + lo) as char == c;
    }
  }

  lemma {:induction false} UnescapeEscapeAll(s: string)
    ensures UnescapeAll(EscapeAll(s)) == Some(s)
  {
    if s != [] {
      var e := Escape(s[0]);
      var t := EscapeAll(s);
      UnescapeEscape(s[0], EscapeAll(s[1..]));
      assert t[|e|..] == EscapeAll(s[1..]);
      UnescapeEscapeAll(s[1..]);
      assert s == [s[0]] + s[1..];
    }
  }

  /** Quoting loses nothing: the quoted key or value reads back as itself. */
  lemma UnquoteQuote(s: string)
    ensures Unquote(Quote(s)) == Some(s)
  {
    var q := Quote(s);
    assert q[1..|q| - 1] == EscapeAll(s);
    UnescapeEscapeAll(s);
  }
}
