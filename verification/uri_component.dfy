/**
  * `encodeURIComponent` over Unicode scalar values: unreserved characters
  * are kept, every other character becomes the percent-escaped bytes of its
  * UTF-8 encoding, with upper-case hexadecimal digits (section 2.1 of RFC 3986).
  */
module UriComponent {
  import opened Lists

  /** The characters `encodeURIComponent` leaves unescaped. */
  predicate IsUnreserved(c: char) {
    || ('A' <= c <= 'Z') || ('a' <= c <= 'z') || ('0' <= c <= '9')
    || c == '-' || c == '_' || c == '.' || c == '!' || c == '~'
    || c == '*' || c == '\'' || c == '(' || c == ')'
  }

  predicate IsUpperHex(c: char) {
    ('0' <= c <= '9') || ('A' <= c <= 'F')
  }

  function HexDigit(n: nat): (c: char)
    requires n < 16
    ensures IsUpperHex(c)
  {
    "0123456789ABCDEF"[n]
  }

  /** The UTF-8 encoding of one scalar value: one to four bytes. */
  function Utf8(c: char): (bytes: seq<nat>)
    ensures 1 <= |bytes| <= 4
    ensures forall i :: 0 <= i < |bytes| ==> bytes[i] < 256
    ensures |bytes| == 1 <==> c as int < 0x80
  {
    var cp := c as int;
    if cp < 0x80 then [cp]
    else if cp < 0x800 then [0xC0 + cp / 0x40, 0x80 + cp % 0x40]
    else if cp < 0x1_0000 then [0xE0 + cp / 0x1000, 0x80 + cp / 0x40 % 0x40, 0x80 + cp % 0x40]
    else [0xF0 + cp / 0x4_0000, 0x80 + cp / 0x1000 % 0x40, 0x80 + cp / 0x40 % 0x40, 0x80 + cp % 0x40]
  }

  /** Each byte as `%` and two upper-case hexadecimal digits. */
  function PercentEncode(bytes: seq<nat>): (r: string)
    requires forall i :: 0 <= i < |bytes| ==> bytes[i] < 256
    ensures |r| == 3 * |bytes|
    ensures forall i :: 0 <= i < |r| ==> r[i] == '%' || IsUpperHex(r[i])
  {
    if bytes == [] then []
    else ['%', HexDigit(bytes[0] / 16), HexDigit(bytes[0] % 16)] + PercentEncode(bytes[1..])
  }

  function EncodeChar(c: char): (r: string)
    ensures |r| >= 1
    ensures forall i :: 0 <= i < |r| ==> r[i] == '%' || IsUnreserved(r[i])
  {
    if IsUnreserved(c) then [c] else PercentEncode(Utf8(c))
  }

  /**
    * `encodeURIComponent`, character by character. The encoding holds only
    * unreserved characters and `%`: none of the characters that delimit a
    * query string (`&`, `=`, `#`, `+`, space) survives, and it is no
    * shorter than its input.
    */
  function Encode(s: string): (r: string)
    ensures forall i :: 0 <= i < |r| ==> r[i] == '%' || IsUnreserved(r[i])
    ensures |r| >= |s|
  {
    if s == [] then []
    else
      var head := EncodeChar(s[0]);
      var tail := Encode(s[1..]);
      assert forall i :: |head| <= i < |head + tail| ==> (head + tail)[i] == tail[i - |head|];
      head + tail
  }

  /** A string of unreserved characters is its own encoding. */
  lemma {:induction false} EncodeUnreserved(s: string)
    requires forall i :: 0 <= i < |s| ==> IsUnreserved(s[i])
    ensures Encode(s) == s
    decreases |s|
  {
    if s != [] {
      EncodeUnreserved(s[1..]);
      assert s == [s[0]] + s[1..];
    }
  }

  /** Encoding works character by character: it distributes over concatenation. */
  lemma {:induction false} EncodeAppend(a: string, b: string)
    ensures Encode(a + b) == Encode(a) + Encode(b)
    decreases |a|
  {
    if a == [] {
      assert a + b == b;
    } else {
      assert (a + b)[0] == a[0] && (a + b)[1..] == a[1..] + b;
      EncodeAppend(a[1..], b);
      assert Encode(a + b) == EncodeChar(a[0]) + Encode(a[1..] + b);
    }
  }
}
