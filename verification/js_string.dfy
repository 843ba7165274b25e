/**
  * The JavaScript string operations the core relies on, over `seq<char>`:
  * `trim`, `toLowerCase` (ASCII letters only), `includes`, `split` on one
  * character, and the decimal rendering of a non-negative integer.
  */
module JsString {
  import Lists

  /** The characters `String.prototype.trim` removes: ECMAScript WhiteSpace and LineTerminator. */
  predicate IsWhitespace(c: char) {
    || c == ' ' || c == '\t' || c == '\n' || c == '\r'
    || c == '\U{000B}' || c == '\U{000C}' || c == '\U{00A0}' || c == '\U{1680}'
    || ('\U{2000}' <= c <= '\U{200A}')
    || c == '\U{2028}' || c == '\U{2029}' || c == '\U{202F}' || c == '\U{205F}'
    || c == '\U{3000}' || c == '\U{FEFF}'
  }

  predicate AllWhitespace(s: string) {
    forall i :: 0 <= i < |s| ==> IsWhitespace(s[i])
  }

  /** `trimStart`: drops the leading whitespace and nothing else. */
  function TrimStart(s: string): (r: string)
    ensures |r| <= |s| && r == s[|s| - |r|..]
    ensures forall i :: 0 <= i < |s| - |r| ==> IsWhitespace(s[i])
    ensures r == [] || !IsWhitespace(r[0])
  {
    if s != [] && IsWhitespace(s[0]) then TrimStart(s[1..]) else s
  }

  /** `trimEnd`: drops the trailing whitespace and nothing else. */
  function TrimEnd(s: string): (r: string)
    ensures |r| <= |s| && r == s[..|r|]
    ensures forall i :: |r| <= i < |s| ==> IsWhitespace(s[i])
    ensures r == [] || !IsWhitespace(r[|r| - 1])
  {
    if s != [] && IsWhitespace(s[|s| - 1]) then TrimEnd(s[..|s| - 1]) else s
  }

  /** Only whitespace lies in `s` before index `i` and from index `j` on. */
  ghost predicate WhitespaceOutside(s: string, i: int, j: int) {
    && 0 <= i <= j <= |s|
    && (forall k :: 0 <= k < i ==> IsWhitespace(s[k]))
    && (forall k :: j <= k < |s| ==> IsWhitespace(s[k]))
  }

  /** Neither end of `s` is whitespace. */
  predicate NoEdgeWhitespace(s: string) {
    s == [] || (!IsWhitespace(s[0]) && !IsWhitespace(s[|s| - 1]))
  }

  /** `trim`: the slice of `s` left after removing whitespace at both ends. */
  function Trim(s: string): (r: string)
    ensures |r| <= |s|
    ensures r == [] || (!IsWhitespace(r[0]) && !IsWhitespace(r[|r| - 1]))
    ensures r == [] <==> AllWhitespace(s)
    ensures exists i, j :: WhitespaceOutside(s, i, j) && r == s[i..j]
  {
    var t := TrimStart(s);
    var r := TrimEnd(t);
    Lists.PrefixOfSuffix(s, t, r);
    assert WhitespaceOutside(s, |s| - |t|, |s| - |t| + |r|);
    assert r == [] ==> AllWhitespace(s) by {
      if r == [] {
        assert s == s[..|s| - |t|] + t;
        assert t == t[|r|..];
      }
    }
    r
  }

  lemma TrimOfTrimmed(s: string)
    requires s == [] || (!IsWhitespace(s[0]) && !IsWhitespace(s[|s| - 1]))
    ensures Trim(s) == s
  {
  }

  /** Trimming twice is trimming once. */
  lemma TrimIdempotent(s: string)
    ensures Trim(Trim(s)) == Trim(s)
  {
    TrimOfTrimmed(Trim(s));
  }

  /** `toLowerCase` restricted to ASCII: 'A'..'Z' become 'a'..'z'. */
  function LowerChar(c: char): char {
    if 'A' <= c <= 'Z' then (c as int + 32) as char else c
  }

  function Lower(s: string): (r: string)
    ensures |r| == |s|
    ensures forall i :: 0 <= i < |s| ==> r[i] == LowerChar(s[i])
  {
    seq(|s|, i requires 0 <= i < |s| => LowerChar(s[i]))
  }

  /** Lowering never creates or removes whitespace. */
  lemma LowerKeepsWhitespace(c: char)
    ensures IsWhitespace(LowerChar(c)) <==> IsWhitespace(c)
  {
  }

  lemma {:induction false} TrimStartLower(s: string)
    ensures TrimStart(Lower(s)) == Lower(TrimStart(s))
    decreases |s|
  {
    if s != [] {
      LowerKeepsWhitespace(s[0]);
      assert Lower(s)[1..] == Lower(s[1..]);
      TrimStartLower(s[1..]);
    }
  }

  lemma {:induction false} TrimEndLower(s: string)
    ensures TrimEnd(Lower(s)) == Lower(TrimEnd(s))
    decreases |s|
  {
    if s != [] {
      LowerKeepsWhitespace(s[|s| - 1]);
      assert Lower(s)[..|s| - 1] == Lower(s[..|s| - 1]);
      TrimEndLower(s[..|s| - 1]);
    }
  }

  /** A leading space is removed by `trim`. */
  lemma TrimLeadingSpace(s: string)
    ensures Trim([' '] + s) == Trim(s)
  {
    assert ([' '] + s)[1..] == s;
  }

  /** `trim` returns characters of its argument only. */
  lemma TrimWithin(s: string)
    ensures forall c :: c in Trim(s) ==> c in s
  {
    var t := TrimStart(s);
    assert t == s[|s| - |t|..];
    var r := TrimEnd(t);
    assert r == t[..|r|];
  }

  /** `s.toLowerCase().trim()` and `s.trim().toLowerCase()` agree. */
  lemma TrimLowerCommute(s: string)
    ensures Trim(Lower(s)) == Lower(Trim(s))
  {
    TrimStartLower(s);
    TrimEndLower(TrimStart(s));
  }

  /** `s` starts with the lower-case literal `p`, ignoring ASCII case (a regular expression's `i` flag). */
  predicate StartsWithIgnoringCase(s: string, p: string) {
    |p| <= |s| && Lower(s[..|p|]) == p
  }

  /** `s.includes(sub)`: `sub` occurs in `s` at some position. */
  predicate Contains(s: string, sub: string)
    decreases |s|
  {
    sub <= s || (s != [] && Contains(s[1..], sub))
  }

  lemma {:induction false} ContainsAt(s: string, sub: string)
    ensures Contains(s, sub) <==> exists i :: 0 <= i <= |s| && sub <= s[i..]
    decreases |s|
  {
    if s != [] {
      ContainsAt(s[1..], sub);
      if exists i :: 0 <= i <= |s| && sub <= s[i..] {
        var i :| 0 <= i <= |s| && sub <= s[i..];
        if i > 0 {
          assert s[1..][i - 1..] == s[i..];
        }
      }
      if Contains(s[1..], sub) {
        var i :| 0 <= i <= |s[1..]| && sub <= s[1..][i..];
        assert s[1..][i..] == s[i + 1..];
      }
    }
  }

  /** Every string includes the empty string. */
  lemma ContainsEmpty(s: string)
    ensures Contains(s, "")
  {
  }

  /** `s.split(d)` for a one-character separator: always at least one piece. */
  function Split(s: string, d: char): (r: seq<string>)
    ensures |r| >= 1
    decreases |s|
  {
    if s == [] then [""]
    else if s[0] == d then [""] + Split(s[1..], d)
    else
      var rest := Split(s[1..], d);
      [[s[0]] + rest[0]] + rest[1..]
  }

  /** `parts.join(d)`. */
  function Join(parts: seq<string>, d: char): string
    requires |parts| >= 1
  {
    if |parts| == 1 then parts[0] else parts[0] + [d] + Join(parts[1..], d)
  }

  function Last<T>(s: seq<T>): T
    requires |s| >= 1
  {
    s[|s| - 1]
  }

  /** No piece of a split contains the separator. */
  lemma {:induction false} SplitPiecesFree(s: string, d: char)
    ensures forall k :: 0 <= k < |Split(s, d)| ==> d !in Split(s, d)[k]
    decreases |s|
  {
    if s != [] {
      SplitPiecesFree(s[1..], d);
    }
  }

  /** Joining the pieces of a split gives back the string. */
  lemma {:induction false} JoinSplit(s: string, d: char)
    ensures Join(Split(s, d), d) == s
    decreases |s|
  {
    if s != [] {
      JoinSplit(s[1..], d);
      var rest := Split(s[1..], d);
      if s[0] == d {
        assert Split(s, d)[1..] == rest;
      } else if |rest| == 1 {
        assert Split(s, d) == [[s[0]] + rest[0]];
      } else {
        assert Split(s, d)[1..] == rest[1..];
        assert Join(rest, d) == rest[0] + [d] + Join(rest[1..], d);
        assert s == [s[0]] + s[1..];
      }
    }
  }

  /**
    * Splitting a string that was extended by `y` re-splits only the last
    * piece: the complete pieces before it are unaffected.
    */
  lemma {:induction false} SplitAppend(x: string, y: string, d: char)
    ensures Split(x + y, d) == Split(x, d)[..|Split(x, d)| - 1] + Split(Last(Split(x, d)) + y, d)
    decreases |x|
  {
    if x == [] {
      assert x + y == y;
    } else {
      SplitAppend(x[1..], y, d);
      Lists.HeadTail(x);
      Lists.ConsAppend(x, y);
      SplitAppendStep(x[0], x[1..], y, d);
    }
  }

  /** The inductive step of SplitAppend: one more character in front. */
  lemma SplitAppendStep(c: char, tail: string, y: string, d: char)
    requires Split(tail + y, d) == Split(tail, d)[..|Split(tail, d)| - 1] + Split(Last(Split(tail, d)) + y, d)
    ensures Split([c] + (tail + y), d)
         == Split([c] + tail, d)[..|Split([c] + tail, d)| - 1] + Split(Last(Split([c] + tail, d)) + y, d)
  {
    if c == d {
      SplitAppendDelim(tail, y, d);
    } else if |Split(tail, d)| == 1 {
      SplitAppendSinglePiece(c, tail, y, d);
    } else {
      SplitAppendManyPieces(c, tail, y, d);
    }
  }

  lemma SplitAppendDelim(tail: string, y: string, d: char)
    requires Split(tail + y, d) == Split(tail, d)[..|Split(tail, d)| - 1] + Split(Last(Split(tail, d)) + y, d)
    ensures Split([d] + (tail + y), d)
         == Split([d] + tail, d)[..|Split([d] + tail, d)| - 1] + Split(Last(Split([d] + tail, d)) + y, d)
  {
    SplitDelimStep(tail + y, d);
    SplitDelimStep(tail, d);
    var sx := Split(tail, d);
    Lists.ConsFrontLast("", sx);
    Lists.AppendAssoc([""], sx[..|sx| - 1], Split(Last(sx) + y, d));
  }

  lemma SplitAppendSinglePiece(c: char, tail: string, y: string, d: char)
    requires c != d && |Split(tail, d)| == 1
    requires Split(tail + y, d) == Split(Split(tail, d)[0] + y, d)
    ensures Split([c] + (tail + y), d) == Split([c] + Split(tail, d)[0] + y, d)
  {
    var last := Split(tail, d)[0];
    SplitConsStep(c, tail + y, d);
    SplitConsStep(c, last + y, d);
    assert [c] + last + y == [c] + (last + y);
  }

  lemma SplitAppendManyPieces(c: char, tail: string, y: string, d: char)
    requires c != d && |Split(tail, d)| > 1
    requires Split(tail + y, d) == Split(tail, d)[..|Split(tail, d)| - 1] + Split(Last(Split(tail, d)) + y, d)
    ensures Split([c] + (tail + y), d)
         == Split([c] + tail, d)[..|Split([c] + tail, d)| - 1] + Split(Last(Split([c] + tail, d)) + y, d)
  {
    SplitConsStep(c, tail, d);
    SplitConsStep(c, tail + y, d);
    var sx := Split(tail, d);
    var q := Split(Last(sx) + y, d);
    Lists.ReplaceHeadFrontLast([c] + sx[0], sx);
    Lists.FrontAppendHeadTail(sx, q);
    Lists.AppendAssoc([[c] + sx[0]], sx[1..|sx| - 1], q);
  }

  /** A separator-free prefix joins onto the first piece of what follows it. */
  lemma {:induction false} SplitFreePrefix(x: string, t: string, d: char)
    requires d !in x
    ensures Split(x + t, d) == [x + Split(t, d)[0]] + Split(t, d)[1..]
    decreases |x|
  {
    if x != [] {
      SplitFreePrefix(x[1..], t, d);
      assert x + t == [x[0]] + (x[1..] + t);
      SplitConsStep(x[0], x[1..] + t, d);
      var r := Split(t, d);
      var inner := Split(x[1..] + t, d);
      assert inner[0] == x[1..] + r[0] && inner[1..] == r[1..];
      assert x == [x[0]] + x[1..];
      assert [x[0]] + inner[0] == x + r[0];
    } else {
      var r := Split(t, d);
      assert x + t == t && x + r[0] == r[0];
      assert r == [r[0]] + r[1..];
    }
  }

  /** Splitting at the first separator: the separator-free head, then the pieces of the rest. */
  lemma SplitAtFirst(x: string, rest: string, d: char)
    requires d !in x
    ensures Split(x + [d] + rest, d) == [x] + Split(rest, d)
  {
    assert x + [d] + rest == x + ([d] + rest);
    SplitFreePrefix(x, [d] + rest, d);
    SplitDelimStep(rest, d);
    var r := Split([d] + rest, d);
    assert r[0] == "" && r[1..] == Split(rest, d);
    assert x + r[0] == x;
  }

  /** Splitting at a separator between `a` and `b`: the pieces of `a`, then the pieces of `b`. */
  lemma SplitAtDelim(a: string, b: string, d: char)
    ensures Split(a + [d] + b, d) == Split(a, d) + Split(b, d)
  {
    var sa := Split(a, d);
    var l := Last(sa);
    Lists.AppendAssoc(a, [d], b);
    SplitAppend(a, [d] + b, d);
    SplitPiecesFree(a, d);
    SplitAtFirst(l, b, d);
    Lists.AppendAssoc(l, [d], b);
    Lists.FrontLast(sa);
    Lists.AppendAssoc(sa[..|sa| - 1], [l], Split(b, d));
  }

  lemma SplitDelimStep(s: string, d: char)
    ensures Split([d] + s, d) == [""] + Split(s, d)
  {
    assert ([d] + s)[1..] == s;
  }

  lemma SplitConsStep(c: char, s: string, d: char)
    requires c != d
    ensures Split([c] + s, d) == [[c] + Split(s, d)[0]] + Split(s, d)[1..]
  {
    assert ([c] + s)[1..] == s;
  }

  function DigitChar(n: nat): char
    requires n < 10
  {
    "0123456789"[n]
  }

  /** The decimal rendering of a non-negative integer, as `String(n)` / a template literal gives it. */
  function NatToDecimal(n: nat): (r: string)
    ensures |r| >= 1
    ensures forall i :: 0 <= i < |r| ==> '0' <= r[i] <= '9'
    ensures r[0] == '0' ==> n == 0
  {
    if n < 10 then [DigitChar(n)] else NatToDecimal(n / 10) + [DigitChar(n % 10)]
  }

  /** The value a string of decimal digits denotes. */
  function DecimalValue(s: string): nat
    requires forall i :: 0 <= i < |s| ==> '0' <= s[i] <= '9'
  {
    if s == [] then 0 else 10 * DecimalValue(s[..|s| - 1]) + (s[|s| - 1] as int - '0' as int)
  }

  /** The decimal rendering denotes the number it renders, so distinct numbers render differently. */
  lemma {:induction false} DecimalRoundTrip(n: nat)
    ensures DecimalValue(NatToDecimal(n)) == n
  {
    if n >= 10 {
      DecimalRoundTrip(n / 10);
      var r := NatToDecimal(n);
      assert r[..|r| - 1] == NatToDecimal(n / 10);
    }
  }
}
