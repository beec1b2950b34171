/** `url.QueryEscape` from Go's `net/url`, over the UTF-8 bytes of a string, with the matching
    unescaping as its inverse. */
module NetUrl {
  import opened Wrappers

  type Byte = b: int | 0 <= b < 256

  /** The UTF-8 encoding of one Unicode scalar value. */
  function Utf8(c: char): (r: seq<Byte>)
    ensures 1 <= |r| <= 4
    ensures |r| == 1 <==> (c as int) < 0x80
    ensures |r| == 1 ==> r[0] == c as int
  {
    var n := c as int;
    if n < 0x80 then [n]
    else if n < 0x800 then [0xC0 + n / 64, 0x80 + n % 64]
    else if n < 0x10000 then [0xE0 + n / 4096, 0x80 + (n / 64) % 64, 0x80 + n % 64]
    else [0xF0 + n / 262144, 0x80 + (n / 4096) % 64, 0x80 + (n / 64) % 64, 0x80 + n % 64]
  }

  function Utf8String(s: string): seq<Byte>
  {
    if s == [] then [] else Utf8(s[0]) + Utf8String(s[1..])
  }

  /** The bytes `QueryEscape` keeps as they are: ASCII letters, digits and `-_.~`. */
  predicate Unreserved(b: int)
  {
    ('A' as int <= b <= 'Z' as int) || ('a' as int <= b <= 'z' as int) || ('0' as int <= b <= '9' as int)
    || b == '-' as int || b == '_' as int || b == '.' as int || b == '~' as int
  }

  function HexDigit(n: int): char
    requires 0 <= n < 16
  {
    "0123456789ABCDEF"[n]
  }

  /** One byte as `QueryEscape` writes it: kept, `+` for a space, otherwise `%XX` in upper case. */
  function EscapeByte(b: Byte): (r: string)
    ensures |r| == 1 ==> Unreserved(b) || b == ' ' as int
    ensures 0 < |r|
  {
    if Unreserved(b) then [b as char]
    else if b == ' ' as int then "+"
    else ['%', HexDigit(b / 16), HexDigit(b % 16)]
  }

  function EscapeBytes(bs: seq<Byte>): string
  {
    if bs == [] then "" else EscapeByte(bs[0]) + EscapeBytes(bs[1..])
  }

  /** `url.QueryEscape`. */
  function QueryEscape(s: string): string
  {
    EscapeBytes(Utf8String(s))
  }

  /** The value of a hexadecimal digit of either case, as `url.QueryUnescape` reads it. */
  function HexValue(c: char): (r: Option<int>)
    ensures r.Some? ==> 0 <= r.value < 16
  {
    if '0' <= c <= '9' then Some(c as int - '0' as int)
    else if 'A' <= c <= 'F' then Some(c as int - 'A' as int + 10)
    else if 'a' <= c <= 'f' then Some(c as int - 'a' as int + 10)
    else None
  }

  /** `url.QueryUnescape` down to bytes: `+` is a space and `%XX` one byte; a malformed escape, or a
      character that is not a single byte, is `None`. */
  function Unescape(s: string): Option<seq<Byte>>
  {
    if s == [] then Some([])
    else
      var head: Option<(Byte, nat)> :=
        if s[0] == '%' then
          if |s| < 3 || HexValue(s[1]).None? || HexValue(s[2]).None? then None
          else Some((HexValue(s[1]).value * 16 + HexValue(s[2]).value, 3))
        else if s[0] == '+' then Some((' ' as int, 1))
        else if (s[0] as int) < 256 then Some((s[0] as int, 1))
        else None;
      match head
      case None => None
      case Some((b, n)) =>
        match Unescape(s[n..])
        case None => None
        case Some(t) => Some([b] + t)
  }

  lemma {:induction false} HexRoundTrip(n: int)
    requires 0 <= n < 16
    ensures HexValue(HexDigit(n)) == Some(n)
  {
    var digits := "0123456789ABCDEF";
    assert digits[n] as int == if n < 10 then '0' as int + n else 'A' as int + n - 10;
  }

  lemma {:induction false} UnescapeByte(b: Byte, rest: string)
    ensures Unescape(EscapeByte(b) + rest) ==
      match Unescape(rest) case None => None case Some(t) => Some([b] + t)
  {
    var e := EscapeByte(b);
    var s := e + rest;
    assert s[0] == e[0];
    if |e| == 1 {
      assert s[1..] == rest;
    } else {
      HexRoundTrip(b / 16);
      HexRoundTrip(b % 16);
      assert s[1] == HexDigit(b / 16) && s[2] == HexDigit(b % 16);
      assert s[3..] == rest;
    }
  }

  /** Unescaping undoes escaping, for every byte string. */
  lemma {:induction false} UnescapeEscape(bs: seq<Byte>)
    ensures Unescape(EscapeBytes(bs)) == Some(bs)
  {
    if bs != [] {
      UnescapeEscape(bs[1..]);
      UnescapeByte(bs[0], EscapeBytes(bs[1..]));
      assert [bs[0]] + bs[1..] == bs;
    }
  }

  /** Escaped text never holds the separators of a query string. */
  lemma {:induction false} EscapeNoSeparators(bs: seq<Byte>)
    ensures forall i :: 0 <= i < |EscapeBytes(bs)| ==> EscapeBytes(bs)[i] != '&' && EscapeBytes(bs)[i] != '='
  {
    if bs != [] {
      EscapeNoSeparators(bs[1..]);
      var e := EscapeByte(bs[0]);
      assert forall i :: 0 <= i < |e| ==> e[i] != '&' && e[i] != '=';
    }
  }

  /** Text made only of unreserved ASCII characters is left as it is. */
  lemma {:induction false} QueryEscapeUnreserved(s: string)
    requires forall i :: 0 <= i < |s| ==> Unreserved(s[i] as int)
    ensures QueryEscape(s) == s
  {
    if s != [] {
      QueryEscapeUnreserved(s[1..]);
      assert Utf8(s[0]) == [s[0] as int];
      assert EscapeByte(s[0] as int) == [s[0]];
    }
  }
}
