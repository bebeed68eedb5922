/** The JavaScript string built-ins the assistant relies on, on `seq<char>`:
    the `\s` character class (which is also the set `trim` removes and the
    set `Number` ignores around a numeral), the line terminators that `.`
    refuses, ASCII `toLowerCase`, `trim`, `split(':')` and `Number`. */
module JsText {
  import opened CalendarTypes

  /** JavaScript WhiteSpace or LineTerminator: what `\s` matches and what
      `trim` and `Number` strip. */
  predicate IsJsSpace(c: char)
  {
    var n := c as int;
    n == 0x09 || n == 0x0A || n == 0x0B || n == 0x0C || n == 0x0D || n == 0x20 ||
    n == 0xA0 || n == 0x1680 || (0x2000 <= n <= 0x200A) ||
    n == 0x2028 || n == 0x2029 || n == 0x202F || n == 0x205F || n == 0x3000 || n == 0xFEFF
  }

  /** The characters a regular-expression `.` does not match. */
  predicate IsLineTerminator(c: char)
  {
    c == '\n' || c == '\r' || c == '\U{2028}' || c == '\U{2029}'
  }

  predicate AllJsSpace(s: string)
  {
    forall i :: 0 <= i < |s| ==> IsJsSpace(s[i])
  }

  predicate NoLineTerminator(s: string)
  {
    forall i :: 0 <= i < |s| ==> !IsLineTerminator(s[i])
  }

  function LowerChar(c: char): char
  {
    if 'A' <= c <= 'Z' then (c as int - 'A' as int + 'a' as int) as char else c
  }

  /** `toLowerCase`, for the ASCII letters. */
  function ToLower(s: string): (r: string)
    ensures |r| == |s|
  {
    seq(|s|, i requires 0 <= i < |s| => LowerChar(s[i]))
  }

  /** The longest prefix of `t` without a line terminator: what `(.+)`
      captures, greedily, when it starts at the beginning of `t`. */
  function UpToLineBreak(t: string): string
  {
    if t == [] || IsLineTerminator(t[0]) then [] else [t[0]] + UpToLineBreak(t[1..])
  }

  /** The capture is a prefix without line terminators that stops at the end
      or at the first line terminator. */
  lemma {:induction false} UpToLineBreakShape(t: string)
    ensures |UpToLineBreak(t)| <= |t| && UpToLineBreak(t) == t[..|UpToLineBreak(t)|]
    ensures NoLineTerminator(UpToLineBreak(t))
    ensures |UpToLineBreak(t)| == |t| || IsLineTerminator(t[|UpToLineBreak(t)|])
    decreases |t|
  {
    if t != [] && !IsLineTerminator(t[0]) {
      UpToLineBreakShape(t[1..]);
    }
  }

  /** `trimStart`: drops the leading `\s` characters. */
  function TrimStart(s: string): string
  {
    if s != [] && IsJsSpace(s[0]) then TrimStart(s[1..]) else s
  }

  /** `trimStart` keeps a suffix that does not start with white space and
      drops only white space. */
  lemma {:induction false} TrimStartShape(s: string)
    ensures |TrimStart(s)| <= |s| && TrimStart(s) == s[|s| - |TrimStart(s)|..]
    ensures TrimStart(s) == [] || !IsJsSpace(TrimStart(s)[0])
    ensures AllJsSpace(s[..|s| - |TrimStart(s)|])
    decreases |s|
  {
    if s != [] && IsJsSpace(s[0]) {
      var r := TrimStart(s[1..]);
      assert TrimStart(s) == r;
      TrimStartShape(s[1..]);
      assert s[1..][|s| - 1 - |r|..] == s[|s| - |r|..];
      var dropped := s[..|s| - |r|];
      assert dropped == [s[0]] + s[1..][..|s| - 1 - |r|];
      assert forall i :: 0 < i < |dropped| ==> dropped[i] == s[1..][..|s| - 1 - |r|][i - 1];
    }
  }

  /** `trimEnd`: drops the trailing `\s` characters. */
  function TrimEnd(s: string): string
  {
    if s != [] && IsJsSpace(s[|s| - 1]) then TrimEnd(s[..|s| - 1]) else s
  }

  /** `trimEnd` keeps a prefix that does not end with white space and drops
      only white space. */
  lemma {:induction false} TrimEndShape(s: string)
    ensures |TrimEnd(s)| <= |s| && TrimEnd(s) == s[..|TrimEnd(s)|]
    ensures TrimEnd(s) == [] || !IsJsSpace(TrimEnd(s)[|TrimEnd(s)| - 1])
    ensures AllJsSpace(s[|TrimEnd(s)|..])
    decreases |s|
  {
    if s != [] && IsJsSpace(s[|s| - 1]) {
      var r := TrimEnd(s[..|s| - 1]);
      TrimEndShape(s[..|s| - 1]);
      assert s[|r|..] == s[..|s| - 1][|r|..] + [s[|s| - 1]];
    }
  }

  /** `trim`: nothing is left exactly when the string is all white space,
      and otherwise what is left neither starts nor ends with white space. */
  function Trim(s: string): (r: string)
    ensures |r| <= |s|
    ensures r == [] <==> AllJsSpace(s)
    ensures r != [] ==> !IsJsSpace(r[0]) && !IsJsSpace(r[|r| - 1])
  {
    var front := TrimStart(s);
    TrimStartShape(s);
    TrimEndShape(front);
    assert front == [] ==> s == s[..|s|];
    assert front != [] ==> s[|s| - |front|] == front[0];
    assert TrimEnd(front) == [] || TrimEnd(front)[0] == front[0];
    TrimEnd(front)
  }

  lemma {:induction false} TrimStartStrips(pre: string, rest: string)
    requires AllJsSpace(pre)
    requires rest == [] || !IsJsSpace(rest[0])
    ensures TrimStart(pre + rest) == rest
    decreases |pre|
  {
    if pre != [] {
      assert (pre + rest)[1..] == pre[1..] + rest;
      TrimStartStrips(pre[1..], rest);
    }
  }

  lemma {:induction false} TrimEndStrips(rest: string, post: string)
    requires AllJsSpace(post)
    requires rest == [] || !IsJsSpace(rest[|rest| - 1])
    ensures TrimEnd(rest + post) == rest
    decreases |post|
  {
    if post != [] {
      var s := rest + post;
      assert s[..|s| - 1] == rest + post[..|post| - 1];
      TrimEndStrips(rest, post[..|post| - 1]);
    }
  }

  /** `trim` gives back exactly the part between the leading and the trailing
      white space, whatever that part is. */
  lemma TrimStrips(pre: string, core: string, post: string)
    requires AllJsSpace(pre) && AllJsSpace(post)
    requires core == [] || (!IsJsSpace(core[0]) && !IsJsSpace(core[|core| - 1]))
    ensures Trim(pre + core + post) == core
  {
    var s := pre + core + post;
    if core == [] {
      assert AllJsSpace(s);
    } else {
      assert s == pre + (core + post);
      TrimStartStrips(pre, core + post);
      TrimEndStrips(core, post);
    }
  }

  /** `trim` is idempotent. */
  lemma TrimIdempotent(s: string)
    ensures Trim(Trim(s)) == Trim(s)
  {
    TrimStrips([], Trim(s), []);
    assert [] + Trim(s) + [] == Trim(s);
  }

  /** The parts of `s` between the colons, as `s.split(':')` gives them. */
  function Split(s: string): (parts: seq<string>)
    ensures |parts| >= 1
  {
    if s == [] then
      [[]]
    else
      var rest := Split(s[1..]);
      if s[0] == ':' then
        [[]] + rest
      else
        [[s[0]] + rest[0]] + rest[1..]
  }

  /** No part holds a colon. */
  lemma {:induction false} SplitPartsColonFree(s: string)
    ensures forall i :: 0 <= i < |Split(s)| ==> ':' !in Split(s)[i]
    decreases |s|
  {
    if s != [] {
      SplitPartsColonFree(s[1..]);
    }
  }

  /** Puts the parts back together with a colon between each two. */
  function Join(parts: seq<string>): string
    requires |parts| >= 1
  {
    if |parts| == 1 then parts[0] else parts[0] + ":" + Join(parts[1..])
  }

  /** A text without a colon is a single part. */
  lemma {:induction false} SplitColonFree(p: string)
    ensures ':' !in p ==> Split(p) == [p]
    decreases |p|
  {
    if p != [] && ':' !in p {
      SplitColonFree(p[1..]);
      assert [p[0]] + p[1..] == p;
    }
  }

  lemma {:induction false} SplitAtFirstColon(p: string, t: string)
    requires ':' !in p
    ensures Split(p + ":" + t) == [p] + Split(t)
    decreases |p|
  {
    var s := p + ":" + t;
    if p == [] {
      assert s[1..] == t;
    } else {
      assert s[1..] == p[1..] + ":" + t;
      SplitAtFirstColon(p[1..], t);
      assert [p[0]] + p[1..] == p;
    }
  }

  /** `split(':')` undoes joining colon-free parts with colons. */
  lemma {:induction false} SplitJoin(parts: seq<string>)
    requires |parts| >= 1
    requires forall i :: 0 <= i < |parts| ==> ':' !in parts[i]
    ensures Split(Join(parts)) == parts
    decreases |parts|
  {
    if |parts| == 1 {
      SplitColonFree(parts[0]);
    } else {
      SplitJoin(parts[1..]);
      SplitAtFirstColon(parts[0], Join(parts[1..]));
      assert [parts[0]] + parts[1..] == parts;
    }
  }

  predicate IsDigit(c: char)
  {
    '0' <= c <= '9'
  }

  predicate AllDigits(s: string)
  {
    forall i :: 0 <= i < |s| ==> IsDigit(s[i])
  }

  predicate AllZeros(s: string)
  {
    forall i :: 0 <= i < |s| ==> s[i] == '0'
  }

  function DigitValue(c: char): int
  {
    c as int - '0' as int
  }

  /** The value of a string of decimal digits; the empty string reads as 0. */
  function DecimalValue(d: string): int
  {
    if d == [] then 0 else 10 * DecimalValue(d[..|d| - 1]) + DigitValue(d[|d| - 1])
  }

  /** How many decimal digits `s` starts with. */
  function LeadingDigits(s: string): (n: nat)
    ensures n <= |s|
  {
    if s != [] && IsDigit(s[0]) then 1 + LeadingDigits(s[1..]) else 0
  }

  /** The digits counted are digits, and the run stops at the end or at a
      character that is no digit. */
  lemma {:induction false} LeadingDigitsShape(s: string)
    ensures AllDigits(s[..LeadingDigits(s)])
    ensures LeadingDigits(s) == |s| || !IsDigit(s[LeadingDigits(s)])
    decreases |s|
  {
    if s != [] && IsDigit(s[0]) {
      var n := LeadingDigits(s);
      LeadingDigitsShape(s[1..]);
      assert s[..n] == [s[0]] + s[1..][..n - 1];
    }
  }

  /** An unsigned decimal numeral: digits, optionally a point and more digits,
      with at least one digit in all. The result is None when the text is no
      such numeral (JavaScript NaN) and also when its fraction is not zero,
      read exactly: such a number equals no hour and no minute. Rounding to
      the nearest double is not modelled. */
  function ParseUnsigned(u: string): Option<int>
  {
    var n := LeadingDigits(u);
    var tail := u[n..];
    if tail == [] then
      if n == 0 then None else Some(DecimalValue(u[..n]))
    else if tail[0] == '.' && AllDigits(tail[1..]) && (n > 0 || |tail| > 1) then
      if AllZeros(tail[1..]) then Some(DecimalValue(u[..n])) else None
    else
      None
  }

  /** `Number(s)` as far as an integer comparison can tell: white space
      around the numeral is ignored, an all-space string is 0, a sign may
      lead. */
  function ParseNumber(s: string): (r: Option<int>)
    ensures AllJsSpace(s) ==> r == Some(0)
  {
    var t := Trim(s);
    if t == [] then Some(0)
    else if t[0] == '-' then
      match ParseUnsigned(t[1..])
      case Some(v) => Some(-v)
      case None => None
    else if t[0] == '+' then ParseUnsigned(t[1..])
    else ParseUnsigned(t)
  }

  /** Digits, then optionally a point and more digits, with at least one
      digit in all: the unsigned decimal numerals without an exponent. */
  predicate UnsignedNumeral(u: string)
  {
    (u != [] && AllDigits(u)) ||
    (|u| > 1 && exists k :: 0 <= k < |u| && u[k] == '.' && AllDigits(u[..k]) && AllDigits(u[k + 1..]))
  }

  /** An unsigned numeral, or a sign followed by one. */
  predicate SignedNumeral(t: string)
  {
    UnsignedNumeral(t) || (t != [] && (t[0] == '-' || t[0] == '+') && UnsignedNumeral(t[1..]))
  }

  /** Only an unsigned numeral reads as a number. */
  lemma ParseUnsignedNumeral(u: string)
    ensures ParseUnsigned(u).Some? ==> UnsignedNumeral(u)
  {
    var n := LeadingDigits(u);
    LeadingDigitsShape(u);
    if ParseUnsigned(u).Some? {
      if n == |u| {
        assert u[..n] == u;
      } else {
        assert u[n..][0] == u[n] == '.';
        assert u[n + 1..] == u[n..][1..];
        assert AllDigits(u[..n]) && AllDigits(u[n + 1..]);
      }
    }
  }

  /** A text reads as a number only when it is blank or, once trimmed, a
      numeral with an optional sign: any other text is NaN. */
  lemma ParseNumberNumeral(s: string)
    ensures ParseNumber(s).Some? ==> AllJsSpace(s) || SignedNumeral(Trim(s))
  {
    var t := Trim(s);
    if t != [] {
      ParseUnsignedNumeral(t);
      ParseUnsignedNumeral(t[1..]);
    }
  }

  lemma ParseUnsignedOfDigits(d: string)
    requires d != [] && AllDigits(d)
    ensures ParseUnsigned(d) == Some(DecimalValue(d))
  {
    var n := LeadingDigits(d);
    LeadingDigitsShape(d);
    assert n == |d|;
    assert d[..n] == d;
  }

  /** A run of decimal digits, with any white space around it, reads as its
      decimal value. */
  lemma ParseNumberOfDigits(pre: string, d: string, post: string)
    requires AllJsSpace(pre) && AllJsSpace(post)
    requires d != [] && AllDigits(d)
    ensures ParseNumber(pre + d + post) == Some(DecimalValue(d))
  {
    assert IsDigit(d[0]) && IsDigit(d[|d| - 1]);
    TrimStrips(pre, d, post);
    ParseUnsignedOfDigits(d);
  }
}
