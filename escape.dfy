/**
 * Percent-encoding of a URL query component (section 2.1 of RFC 3986), as
 * Go's `url.QueryUnescape` decodes it and `url.QueryEscape` produces it.
 * Strings are byte strings read one char per byte: a decoded `%XY` is the
 * char whose code is the byte 0xXY.
 */
module Escape {
  import opened Wrappers

  predicate IsHex(c: char) {
    ('0' <= c <= '9') || ('a' <= c <= 'f') || ('A' <= c <= 'F')
  }

  /** The value of one hexadecimal digit, either case. */
  function UnHex(c: char): (n: nat)
    requires IsHex(c)
    ensures n < 16
  {
    if '0' <= c <= '9' then c as int - '0' as int
    else if 'a' <= c <= 'f' then c as int - 'a' as int + 10
    else c as int - 'A' as int + 10
  }

  /**
   * `url.QueryUnescape(s)`: `%XY` becomes the byte 0xXY, `+` becomes a space,
   * every other byte is copied. A `%` that is not followed by two hex digits
   * is an error (`None`). The output is never longer than the input.
   */
  function QueryUnescape(s: string): (r: Option<string>)
    ensures r.Some? ==> |r.value| <= |s| && (r.value == "" <==> s == "")
    decreases |s|
  {
    if |s| == 0 then Some("")
    else if s[0] == '%' then
      if |s| >= 3 && IsHex(s[1]) && IsHex(s[2]) then
        match QueryUnescape(s[3..])
        case None => None
        case Some(t) => Some([(UnHex(s[1]) * 16 + UnHex(s[2])) as char] + t)
      else None
    else
      match QueryUnescape(s[1..])
      case None => None
      case Some(t) => Some([if s[0] == '+' then ' ' else s[0]] + t)
  }

  /** Every `%` in `s` starts a complete escape: two hex digits follow it. */
  predicate WellEscaped(s: string) {
    forall i :: 0 <= i < |s| && s[i] == '%' ==> i + 2 < |s| && IsHex(s[i + 1]) && IsHex(s[i + 2])
  }

  lemma WellEscapedTail(s: string, n: nat)
    requires n <= |s|
    requires WellEscaped(s)
    ensures WellEscaped(s[n..])
  {
    forall i | 0 <= i < |s[n..]| && s[n..][i] == '%'
      ensures i + 2 < |s[n..]| && IsHex(s[n..][i + 1]) && IsHex(s[n..][i + 2])
    {
      assert s[n + i] == '%';
    }
  }

  /** Decoding fails exactly when some `%` lacks its two hex digits. */
  lemma {:induction false} UnescapeSucceedsIff(s: string)
    ensures QueryUnescape(s).Some? <==> WellEscaped(s)
    decreases |s|
  {
    if |s| == 0 {
    } else if s[0] == '%' {
      if |s| >= 3 && IsHex(s[1]) && IsHex(s[2]) {
        UnescapeSucceedsIff(s[3..]);
        if WellEscaped(s) {
          WellEscapedTail(s, 3);
        } else {
          var i :| 0 <= i < |s| && s[i] == '%' && !(i + 2 < |s| && IsHex(s[i + 1]) && IsHex(s[i + 2]));
          assert i >= 3;
          assert s[3..][i - 3] == '%';
        }
        if WellEscaped(s[3..]) {
          forall i | 0 <= i < |s| && s[i] == '%'
            ensures i + 2 < |s| && IsHex(s[i + 1]) && IsHex(s[i + 2])
          {
            if i >= 3 { assert s[3..][i - 3] == '%'; }
          }
        }
      } else {
        assert !WellEscaped(s) by { assert s[0] == '%'; }
      }
    } else {
      UnescapeSucceedsIff(s[1..]);
      if WellEscaped(s) {
        WellEscapedTail(s, 1);
      }
      if WellEscaped(s[1..]) {
        forall i | 0 <= i < |s| && s[i] == '%'
          ensures i + 2 < |s| && IsHex(s[i + 1]) && IsHex(s[i + 2])
        {
          assert i >= 1;
          assert s[1..][i - 1] == '%';
        }
      }
    }
  }

  /** A string without `%` and `+` decodes to itself. */
  lemma {:induction false} UnescapePlain(s: string)
    requires '%' !in s && '+' !in s
    ensures QueryUnescape(s) == Some(s)
    decreases |s|
  {
    if |s| > 0 {
      assert s[0] in s;
      assert forall c :: c in s[1..] ==> c in s;
      UnescapePlain(s[1..]);
      assert s == [s[0]] + s[1..];
    }
  }

  /** Upper-case hexadecimal digit, as `url.QueryEscape` writes it. */
  function HexDigit(n: nat): (c: char)
    requires n < 16
    ensures IsHex(c) && UnHex(c) == n
  {
    if n < 10 then ('0' as int + n) as char else ('A' as int + n - 10) as char
  }

  /** The bytes `url.QueryEscape` leaves alone: letters, digits and `-_.~`. */
  predicate Unreserved(c: char) {
    ('a' <= c <= 'z') || ('A' <= c <= 'Z') || ('0' <= c <= '9')
    || c == '-' || c == '_' || c == '.' || c == '~'
  }

  /** `url.QueryEscape(s)`: a space becomes `+`, any other reserved byte `%XY`. */
  function QueryEscape(s: string): (r: string)
    requires forall i :: 0 <= i < |s| ==> s[i] as int < 256
    ensures |r| >= |s|
    decreases |s|
  {
    if |s| == 0 then ""
    else
      var c := s[0];
      var head := if Unreserved(c) then [c]
                  else if c == ' ' then ['+']
                  else ['%', HexDigit(c as int / 16), HexDigit(c as int % 16)];
      head + QueryEscape(s[1..])
  }

  /** Decoding undoes `url.QueryEscape` on every byte string. */
  lemma {:induction false} UnescapeEscape(s: string)
    requires forall i :: 0 <= i < |s| ==> s[i] as int < 256
    ensures QueryUnescape(QueryEscape(s)) == Some(s)
    decreases |s|
  {
    if |s| > 0 {
      var c := s[0];
      var rest := QueryEscape(s[1..]);
      UnescapeEscape(s[1..]);
      if Unreserved(c) {
        assert QueryEscape(s) == [c] + rest;
        assert (QueryEscape(s))[1..] == rest;
      } else if c == ' ' {
        assert QueryEscape(s) == ['+'] + rest;
        assert (QueryEscape(s))[1..] == rest;
      } else {
        var e := QueryEscape(s);
        assert e == ['%', HexDigit(c as int / 16), HexDigit(c as int % 16)] + rest;
        assert e[3..] == rest;
        assert (UnHex(e[1]) * 16 + UnHex(e[2])) as char == c;
      }
      assert s == [c] + s[1..];
    }
  }
}
