/**
 * Go's `%q` verb on a string (`strconv.Quote`), used by the 421 reply to name the
 * offending command, together with the decoding of the escapes it produces.
 */
module GoQuote {
  import opened Wrappers

  /** A lower-case hexadecimal digit, as `strconv` writes it. */
  function HexDigit(d: nat): (c: char)
    requires d < 16
  {
    if d < 10 then ('0' as int + d) as char else ('a' as int + d - 10) as char
  }

  function HexValue(c: char): (d: Option<nat>)
    ensures d.Some? ==> d.value < 16
  {
    if '0' <= c <= '9' then Some(c as int - '0' as int)
    else if 'a' <= c <= 'f' then Some(c as int - 'a' as int + 10)
    else None
  }

  /** The escape `strconv.Quote` writes for one character. */
  function Escape(c: char): (e: string)
  {
    var n := c as int;
    if c == '"' || c == '\\' then ['\\', c]
    else if n == 7 then "\\a"
    else if n == 8 then "\\b"
    else if n == 12 then "\\f"
    else if c == '\n' then "\\n"
    else if c == '\r' then "\\r"
    else if c == '\t' then "\\t"
    else if n == 11 then "\\v"
    else if n < 32 || n == 127 then ['\\', 'x', HexDigit(n / 16), HexDigit(n % 16)]
    else [c]
  }

  function EscapeAll(s: string): (escaped: string)
    decreases |s|
  {
    if s == [] then [] else Escape(s[0]) + EscapeAll(s[1..])
  }

  /** `fmt.Sprintf("%q", s)`: never contains a control character, so it never breaks an IRC line. */
  function Quote(s: string): (q: string)
    ensures |q| >= 2 && q[0] == '"' && q[|q| - 1] == '"'
    ensures forall i :: 0 <= i < |q| ==> q[i] as int >= 32 && q[i] as int != 127
  {
    EscapeAllPrintable(s);
    "\"" + EscapeAll(s) + "\""
  }

  lemma {:induction false} EscapeAllPrintable(s: string)
    ensures forall i :: 0 <= i < |EscapeAll(s)| ==> EscapeAll(s)[i] as int >= 32 && EscapeAll(s)[i] as int != 127
    decreases |s|
  {
    if s != [] {
      EscapeAllPrintable(s[1..]);
      var e := Escape(s[0]);
      var n := s[0] as int;
      if !(n < 32 || n == 127) || s[0] == '"' || s[0] == '\\' || n in {7, 8, 9, 10, 11, 12, 13} {
      } else {
        assert e == ['\\', 'x', HexDigit(n / 16), HexDigit(n % 16)];
      }
      assert forall i :: 0 <= i < |e| ==> e[i] as int >= 32 && e[i] as int != 127;
    }
  }

  /** The character named by a one-letter escape `\c`. */
  function SimpleEscape(c: char): (decoded: Option<char>)
  {
    if c == '"' || c == '\\' then Some(c)
    else if c == 'a' then Some(7 as char)
    else if c == 'b' then Some(8 as char)
    else if c == 'f' then Some(12 as char)
    else if c == 'n' then Some('\n')
    else if c == 'r' then Some('\r')
    else if c == 't' then Some('\t')
    else if c == 'v' then Some(11 as char)
    else None
  }

  function Prepend(c: char, r: Option<string>): (prepended: Option<string>)
  {
    if r.Some? then Some([c] + r.value) else None
  }

  /** Reads back the body of a quoted string; `None` on an escape `Quote` never writes. */
  function Unescape(s: string): (unescaped: Option<string>)
    decreases |s|
  {
    if s == [] then Some([])
    else if s[0] == '"' then None
    else if s[0] != '\\' then Prepend(s[0], Unescape(s[1..]))
    else if |s| < 2 then None
    else if s[1] == 'x' then
      if |s| >= 4 && HexValue(s[2]).Some? && HexValue(s[3]).Some?
      then Prepend((HexValue(s[2]).value * 16 + HexValue(s[3]).value) as char, Unescape(s[4..]))
      else None
    else if SimpleEscape(s[1]).Some? then Prepend(SimpleEscape(s[1]).value, Unescape(s[2..]))
    else None
  }

  function Unquote(q: string): (s: Option<string>)
  {
    if |q| >= 2 && q[0] == '"' && q[|q| - 1] == '"' then Unescape(q[1..|q| - 1]) else None
  }

  lemma HexRoundTrip(d: nat)
    requires d < 16
    ensures HexValue(HexDigit(d)) == Some(d)
  {
  }

  lemma {:induction false} UnescapeOne(c: char, t: string)
    ensures Unescape(Escape(c) + t) == Prepend(c, Unescape(t))
  {
    var e := Escape(c);
    var n := c as int;
    if c == '"' || c == '\\' || n in {7, 8, 9, 10, 11, 12, 13} {
      assert (e + t)[2..] == t;
    } else if n < 32 || n == 127 {
      HexRoundTrip(n / 16);
      HexRoundTrip(n % 16);
      assert (e + t)[4..] == t;
      assert (n / 16) * 16 + n % 16 == n;
    } else {
      assert (e + t)[1..] == t;
    }
  }

  lemma {:induction false} UnescapeEscapeAll(s: string)
    ensures Unescape(EscapeAll(s)) == Some(s)
    decreases |s|
  {
    if s != [] {
      UnescapeEscapeAll(s[1..]);
      UnescapeOne(s[0], EscapeAll(s[1..]));
      assert s == [s[0]] + s[1..];
    }
  }

  /** The quoted command in a 421 reply names the command exactly. */
  lemma QuoteRoundTrip(s: string)
    ensures Unquote(Quote(s)) == Some(s)
  {
    var q := Quote(s);
    assert q[1..|q| - 1] == EscapeAll(s);
    UnescapeEscapeAll(s);
  }
}
