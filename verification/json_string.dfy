/**
  * `JSON.stringify` applied to a string, and the matching decoder for a
  * JSON string literal (section 7 of RFC 8259), over Unicode scalar values.
  */
module JsonString {
  import opened Wrappers
  import opened Lists

  /** Characters below U+0020, which a JSON string may not contain raw. */
  predicate IsControl(c: char) {
    c < ' '
  }

  function LowerHexDigit(n: nat): char
    requires n < 16
  {
    "0123456789abcdef"[n]
  }

  /** How `JSON.stringify` writes one character inside the quotes. */
  function EscapeChar(c: char): (r: string)
    ensures |r| >= 1
    ensures forall i :: 0 <= i < |r| ==> !IsControl(r[i])
    ensures r[0] != '"'
  {
    if c == '"' then "\\\""
    else if c == '\\' then "\\\\"
    else if c == '\U{0008}' then "\\b"
    else if c == '\U{000C}' then "\\f"
    else if c == '\n' then "\\n"
    else if c == '\r' then "\\r"
    else if c == '\t' then "\\t"
    else if IsControl(c) then "\\u00" + [LowerHexDigit(c as int / 16), LowerHexDigit(c as int % 16)]
    else [c]
  }

  /** The characters between the quotes. */
  function EscapeBody(s: string): string {
    FlatMap(s, EscapeChar)
  }

  /** `JSON.stringify(s)` for a string `s`. */
  function Quote(s: string): (r: string)
    ensures |r| >= 2 && r[0] == '"' && r[|r| - 1] == '"'
  {
    "\"" + EscapeBody(s) + "\""
  }

  /** The value of one hexadecimal digit of either case. */
  function HexValue(c: char): Option<nat> {
    if '0' <= c <= '9' then Some(c as int - '0' as int)
    else if 'a' <= c <= 'f' then Some(c as int - 'a' as int + 10)
    else if 'A' <= c <= 'F' then Some(c as int - 'A' as int + 10)
    else None
  }

  /** The code unit written as four hexadecimal digits after `\u`, if they are digits. */
  function Hex4(h: string): (r: Option<nat>)
    requires |h| == 4
    ensures r.Some? ==> r.value < 0x1_0000
  {
    var a := HexValue(h[0]);
    var b := HexValue(h[1]);
    var c := HexValue(h[2]);
    var d := HexValue(h[3]);
    if a.Some? && b.Some? && c.Some? && d.Some? && a.value < 16 && b.value < 16 && c.value < 16 && d.value < 16
    then Some(((a.value * 16 + b.value) * 16 + c.value) * 16 + d.value)
    else None
  }

  /** The character a one-letter escape stands for. */
  function SimpleEscape(c: char): Option<char> {
    if c == '"' then Some('"')
    else if c == '\\' then Some('\\')
    else if c == '/' then Some('/')
    else if c == 'b' then Some('\U{0008}')
    else if c == 'f' then Some('\U{000C}')
    else if c == 'n' then Some('\n')
    else if c == 'r' then Some('\r')
    else if c == 't' then Some('\t')
    else None
  }

  /**
    * Decoding the characters between the quotes of a JSON string: escapes
    * are resolved; a raw quote or control character, a bad escape, or a
    * `\u` escape of a lone surrogate makes it fail.
    */
  function Unescape(e: string): Option<string>
    decreases |e|
  {
    if e == [] then Some([])
    else if e[0] == '\\' then
      if |e| < 2 then None
      else if SimpleEscape(e[1]).Some? then Prepend(SimpleEscape(e[1]).value, Unescape(e[2..]))
      else if e[1] == 'u' && |e| >= 6 then
        var v := Hex4(e[2..6]);
        if v.Some? && (v.value < 0xD800 || 0xE000 <= v.value) then Prepend(v.value as char, Unescape(e[6..]))
        else None
      else None
    else if e[0] == '"' || IsControl(e[0]) then None
    else Prepend(e[0], Unescape(e[1..]))
  }

  function Prepend(c: char, rest: Option<string>): Option<string> {
    if rest.Some? then Some([c] + rest.value) else None
  }

  /** A control character without a short escape comes back from its `\u00XX` form. */
  lemma UnescapeHexEscape(c: char, rest: string)
    requires IsControl(c) && c != '\U{0008}' && c != '\U{000C}' && c != '\n' && c != '\r' && c != '\t'
    ensures Unescape(EscapeChar(c) + rest) == Prepend(c, Unescape(rest))
  {
    var e := EscapeChar(c) + rest;
    var n := c as int;
    assert e[..6] == "\\u00" + [LowerHexDigit(n / 16), LowerHexDigit(n % 16)];
    assert e[2..6] == ['0', '0', LowerHexDigit(n / 16), LowerHexDigit(n % 16)];
    assert HexValue(LowerHexDigit(n / 16)) == Some(n / 16);
    assert HexValue(LowerHexDigit(n % 16)) == Some(n % 16);
    assert Hex4(e[2..6]) == Some(n);
    assert e[6..] == rest;
  }

  /** Decoding one escaped character in front of more text gives that character back. */
  lemma UnescapeStep(c: char, rest: string)
    ensures Unescape(EscapeChar(c) + rest) == Prepend(c, Unescape(rest))
  {
    var e := EscapeChar(c) + rest;
    if IsControl(c) && c != '\U{0008}' && c != '\U{000C}' && c != '\n' && c != '\r' && c != '\t' {
      UnescapeHexEscape(c, rest);
    } else if |EscapeChar(c)| == 2 {
      assert e[2..] == rest;
    } else {
      assert e[1..] == rest;
    }
  }

  /** Decoding undoes `JSON.stringify`'s escaping: the client recovers the exact text. */
  lemma {:induction false} UnescapeEscapeBody(s: string)
    ensures Unescape(EscapeBody(s)) == Some(s)
    decreases |s|
  {
    if s != [] {
      UnescapeEscapeBody(s[1..]);
      UnescapeStep(s[0], EscapeBody(s[1..]));
      HeadTail(s);
    }
  }

  /**
    * The escaped body contains no raw control character, so no line break:
    * a quoted string always fits on one line.
    */
  lemma {:induction false} EscapeBodyHasNoControl(s: string)
    ensures forall i :: 0 <= i < |EscapeBody(s)| ==> !IsControl(EscapeBody(s)[i])
    decreases |s|
  {
    if s != [] {
      EscapeBodyHasNoControl(s[1..]);
      var head := EscapeChar(s[0]);
      var tail := EscapeBody(s[1..]);
      assert EscapeBody(s) == head + tail;
      forall i | 0 <= i < |head + tail| ensures !IsControl((head + tail)[i]) {
        if i >= |head| {
          assert (head + tail)[i] == tail[i - |head|];
        }
      }
    }
  }
}
