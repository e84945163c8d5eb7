/** Text helpers with the exact semantics of the Rust standard-library calls the
    program relies on: `str::trim`, `str::replace` of one character, decimal
    formatting of an unsigned integer, `[String]::join` and `str::split` on one
    character. */
module Text {
  import opened Wrappers

  /** Rust's `char::is_whitespace`: the Unicode White_Space property. */
  predicate IsWhitespace(c: char) {
    || ('\t' <= c <= '\r')
    || c == ' '
    || c == '\U{85}' || c == '\U{A0}' || c == '\U{1680}'
    || ('\U{2000}' <= c <= '\U{200A}')
    || c == '\U{2028}' || c == '\U{2029}' || c == '\U{202F}' || c == '\U{205F}'
    || c == '\U{3000}'
  }

  predicate AllWhitespace(s: string) {
    forall i :: 0 <= i < |s| ==> IsWhitespace(s[i])
  }

  /** Neither end of `s` is whitespace. */
  predicate IsTrimmed(s: string) {
    |s| == 0 || (!IsWhitespace(s[0]) && !IsWhitespace(s[|s| - 1]))
  }

  /** `str::trim_start`: drops the longest all-whitespace prefix. */
  function TrimStart(s: string): (r: string)
    ensures |r| <= |s| && r == s[|s| - |r|..]
    ensures AllWhitespace(s[..|s| - |r|])
    ensures |r| > 0 ==> !IsWhitespace(r[0])
  {
    if |s| > 0 && IsWhitespace(s[0]) then
      var r := TrimStart(s[1..]);
      TrimStartStep(s, r);
      r
    else
      s
  }

  /** Dropping one more leading whitespace character keeps `TrimStart`'s
      contract. */
  lemma TrimStartStep(s: string, r: string)
    requires |s| > 0 && IsWhitespace(s[0])
    requires |r| <= |s| - 1 && r == s[1..][|s| - 1 - |r|..] && AllWhitespace(s[1..][..|s| - 1 - |r|])
    ensures r == s[|s| - |r|..] && AllWhitespace(s[..|s| - |r|])
  {
    WhitespaceCons(s[0], s[1..][..|s| - 1 - |r|]);
    assert s[..|s| - |r|] == [s[0]] + s[1..][..|s| - 1 - |r|];
    assert s[1..][|s| - 1 - |r|..] == s[|s| - |r|..];
  }

  /** `str::trim_end`: drops the longest all-whitespace suffix. */
  function TrimEnd(s: string): (r: string)
    ensures |r| <= |s| && r == s[..|r|]
    ensures AllWhitespace(s[|r|..])
    ensures |r| > 0 ==> !IsWhitespace(r[|r| - 1])
  {
    if |s| > 0 && IsWhitespace(s[|s| - 1]) then
      var r := TrimEnd(s[..|s| - 1]);
      TrimEndStep(s, r);
      r
    else
      s
  }

  /** Dropping one more trailing whitespace character keeps `TrimEnd`'s
      contract. */
  lemma TrimEndStep(s: string, r: string)
    requires |s| > 0 && IsWhitespace(s[|s| - 1])
    requires |r| <= |s| - 1 && r == s[..|s| - 1][..|r|] && AllWhitespace(s[..|s| - 1][|r|..])
    ensures r == s[..|r|] && AllWhitespace(s[|r|..])
  {
    WhitespaceSnoc(s[..|s| - 1][|r|..], s[|s| - 1]);
    assert s[|r|..] == s[..|s| - 1][|r|..] + [s[|s| - 1]];
    assert s[..|s| - 1][..|r|] == s[..|r|];
  }

  lemma WhitespaceCons(c: char, t: string)
    requires IsWhitespace(c) && AllWhitespace(t)
    ensures AllWhitespace([c] + t)
  {
  }

  lemma WhitespaceSnoc(t: string, c: char)
    requires IsWhitespace(c) && AllWhitespace(t)
    ensures AllWhitespace(t + [c])
  {
  }

  /** `str::trim`: the substring left once whitespace is removed from both ends. */
  function Trim(s: string): (r: string)
    ensures IsTrimmed(r)
    ensures AllWhitespace(s) <==> r == []
    ensures IsTrimmed(s) ==> r == s
  {
    var a := TrimStart(s);
    var r := TrimEnd(a);
    TrimSlices(s, a, r);
    r
  }

  /** `r` sits at index `i` of `s` with only whitespace around it. */
  predicate InnerAt(s: string, r: string, i: nat) {
    && i + |r| <= |s| && r == s[i..i + |r|]
    && AllWhitespace(s[..i]) && AllWhitespace(s[i + |r|..])
  }

  /** What `Trim` removes is whitespace at the two ends and nothing else. */
  lemma TrimIsInnerSubstring(s: string)
    ensures exists i: nat :: InnerAt(s, Trim(s), i)
  {
    TrimInnerAt(s);
  }

  lemma TrimInnerAt(s: string)
    ensures InnerAt(s, Trim(s), |s| - |TrimStart(s)|)
  {
    var a := TrimStart(s);
    var r := TrimEnd(a);
    assert Trim(s) == r;
    TrimSlices(s, a, r);
    assert InnerAt(s, r, |s| - |a|);
  }

  /** The facts `Trim` needs, stated over the two trimming steps' results
      without mentioning the trimming functions themselves. */
  lemma TrimSlices(s: string, a: string, r: string)
    requires |a| <= |s| && a == s[|s| - |a|..] && AllWhitespace(s[..|s| - |a|])
    requires |a| > 0 ==> !IsWhitespace(a[0])
    requires |r| <= |a| && r == a[..|r|] && AllWhitespace(a[|r|..])
    requires |r| > 0 ==> !IsWhitespace(r[|r| - 1])
    ensures var i := |s| - |a|;
            r == s[i..i + |r|] && AllWhitespace(s[..i]) && AllWhitespace(s[i + |r|..])
    ensures AllWhitespace(s) <==> r == []
    ensures IsTrimmed(s) ==> r == s
  {
    var i := |s| - |a|;
    assert s[i + |r|..] == a[|r|..];
    assert |a| > 0 ==> a[0] == s[i];
    assert r == [] ==> s == s[..i] + a;
    assert i > 0 ==> s[..i][0] == s[0];
    assert |r| < |a| ==> a[|r|..][|a| - |r| - 1] == a[|a| - 1];
    assert |a| > 0 ==> a[|a| - 1] == s[|s| - 1];
  }

  /** `str::replace` of one character by another: same length, every `from`
      becomes `to`, every other character is kept. */
  function ReplaceChar(s: string, from: char, to: char): (r: string)
    ensures |r| == |s|
    ensures forall i :: 0 <= i < |r| ==> r[i] == (if s[i] == from then to else s[i])
  {
    if |s| == 0 then [] else [if s[0] == from then to else s[0]] + ReplaceChar(s[1..], from, to)
  }

  predicate IsAsciiDigit(c: char) {
    '0' <= c <= '9'
  }

  predicate AllDigits(s: string) {
    forall i :: 0 <= i < |s| ==> IsAsciiDigit(s[i])
  }

  function DigitChar(d: nat): (c: char)
    requires d < 10
    ensures IsAsciiDigit(c)
  {
    (48 + d) as char
  }

  function DigitValue(c: char): nat
    requires IsAsciiDigit(c)
  {
    (c as int) - 48
  }

  /** Decimal rendering of an unsigned integer, as `format!("{}", n)` prints a `usize`. */
  function NatToString(n: nat): (r: string)
    ensures |r| >= 1 && AllDigits(r)
    ensures r[0] == '0' ==> n == 0
    decreases n
  {
    if n < 10 then [DigitChar(n)] else NatToString(n / 10) + [DigitChar(n % 10)]
  }

  /** The value of a string of ASCII decimal digits (leading zeros allowed). */
  function DigitsValue(s: string): nat
    requires AllDigits(s)
  {
    if |s| == 0 then 0 else 10 * DigitsValue(s[..|s| - 1]) + DigitValue(s[|s| - 1])
  }

  /** The length of the run of ASCII digits at the start of `s`. */
  function DigitPrefixLength(s: string): (r: nat)
    ensures r <= |s| && AllDigits(s[..r])
    ensures r < |s| ==> !IsAsciiDigit(s[r])
  {
    if |s| == 0 || !IsAsciiDigit(s[0]) then 0
    else
      var r := 1 + DigitPrefixLength(s[1..]);
      assert s[..r] == [s[0]] + s[1..][..r - 1];
      r
  }

  lemma {:induction false} DigitPrefixLengthOf(a: string, c: char, x: string)
    requires AllDigits(a) && !IsAsciiDigit(c)
    ensures DigitPrefixLength(a + [c] + x) == |a|
  {
    if |a| > 0 {
      assert (a + [c] + x)[1..] == a[1..] + [c] + x;
      DigitPrefixLengthOf(a[1..], c, x);
    }
  }

  /** Reads a non-empty run of leading digits: its value and what follows. */
  function ReadDigits(s: string): (r: Option<(nat, string)>)
    ensures r.Some? ==> |r.value.1| < |s| && r.value.1 == s[|s| - |r.value.1|..]
  {
    var i := DigitPrefixLength(s);
    if i == 0 then None else Some((DigitsValue(s[..i]), s[i..]))
  }

  lemma ReadDigitsOf(a: string, c: char, x: string)
    requires |a| > 0 && AllDigits(a) && !IsAsciiDigit(c)
    ensures ReadDigits(a + ([c] + x)) == Some((DigitsValue(a), [c] + x))
  {
    var s := a + ([c] + x);
    assert s == a + [c] + x;
    DigitPrefixLengthOf(a, c, x);
    assert s[..|a|] == a && s[|a|..] == [c] + x;
  }

  /** Reading back a rendered number gives the number. */
  lemma {:induction false} DigitsValueOfNatToString(n: nat)
    ensures DigitsValue(NatToString(n)) == n
    decreases n
  {
    if n >= 10 {
      var s := NatToString(n);
      assert s[..|s| - 1] == NatToString(n / 10);
      DigitsValueOfNatToString(n / 10);
    }
  }

  /** Distinct numbers render to distinct strings. */
  lemma NatToStringInjective(m: nat, n: nat)
    ensures NatToString(m) == NatToString(n) ==> m == n
  {
    DigitsValueOfNatToString(m);
    DigitsValueOfNatToString(n);
  }

  /** `[String]::join(sep)`: the parts with `sep` between consecutive ones. */
  function JoinWith(parts: seq<string>, sep: string): string
  {
    if |parts| == 0 then []
    else if |parts| == 1 then parts[0]
    else parts[0] + sep + JoinWith(parts[1..], sep)
  }

  /** `[String]::join("")`, i.e. `concat`. */
  function Concat(parts: seq<string>): string
  {
    if |parts| == 0 then [] else Concat(parts[..|parts| - 1]) + parts[|parts| - 1]
  }

  /** `str::split(c)`: the pieces between occurrences of `c`; there is always
      at least one piece, and joining the pieces with `c` gives `s` back. */
  function SplitOn(s: string, c: char): (r: seq<string>)
    ensures |r| >= 1
    ensures forall i :: 0 <= i < |r| ==> c !in r[i]
    ensures JoinWith(r, [c]) == s
  {
    if |s| == 0 then [[]]
    else if s[0] == c then
      var rest := SplitOn(s[1..], c);
      assert s == [] + [c] + JoinWith(rest, [c]);
      [[]] + rest
    else
      var rest := SplitOn(s[1..], c);
      var r := [[s[0]] + rest[0]] + rest[1..];
      assert JoinWith(r, [c]) == [s[0]] + JoinWith(rest, [c]) by {
        if |rest| > 1 {
          assert rest == [rest[0]] + rest[1..];
          assert r[1..] == rest[1..];
        }
      }
      assert s == [s[0]] + s[1..];
      r
  }

  lemma {:induction false} SplitOnPrefix(p: string, t: string, c: char)
    requires c !in p
    ensures SplitOn(p + [c] + t, c) == [p] + SplitOn(t, c)
    decreases |p|
  {
    if |p| == 0 {
      assert p + [c] + t == [c] + t;
      assert ([c] + t)[1..] == t;
    } else {
      var s := p + [c] + t;
      assert s[0] == p[0] && s[0] != c;
      assert s[1..] == p[1..] + [c] + t;
      SplitOnPrefix(p[1..], t, c);
      assert [p[0]] + p[1..] == p;
    }
  }

  lemma {:induction false} SplitOnFree(s: string, c: char)
    requires c !in s
    ensures SplitOn(s, c) == [s]
    decreases |s|
  {
    if |s| > 0 {
      assert c !in s[1..];
      SplitOnFree(s[1..], c);
      assert [s[0]] + s[1..] == s;
    }
  }

  /** Splitting a join on a separator that occurs in no part gives the parts back. */
  lemma {:induction false} SplitOnJoin(parts: seq<string>, c: char)
    requires |parts| >= 1
    requires forall i :: 0 <= i < |parts| ==> c !in parts[i]
    ensures SplitOn(JoinWith(parts, [c]), c) == parts
  {
    if |parts| == 1 {
      SplitOnFree(parts[0], c);
    } else {
      SplitOnPrefix(parts[0], JoinWith(parts[1..], [c]), c);
      SplitOnJoin(parts[1..], c);
      assert parts == [parts[0]] + parts[1..];
    }
  }

  lemma ConcatAppend(a: seq<string>, b: string)
    ensures Concat(a + [b]) == Concat(a) + b
  {
    assert (a + [b])[..|a|] == a;
  }
}
