/** The string primitives of JavaScript that the workflow relies on: `trim`,
    `startsWith`, `split` on one character, `join`, `replace` of a one-character
    string, `toLowerCase` (on ASCII letters) and decimal rendering of a count. */
module Text {

  /** JavaScript's WhiteSpace and LineTerminator characters: what `trim` removes
      and what the regular-expression class `\s` matches. */
  predicate IsWhitespace(c: char) {
    || c == '\t' || c == '\n' || c == '\U{B}' || c == '\U{C}' || c == '\r' || c == ' '
    || c == '\U{A0}' || c == '\U{1680}' || ('\U{2000}' <= c <= '\U{200A}')
    || c == '\U{2028}' || c == '\U{2029}' || c == '\U{202F}' || c == '\U{205F}'
    || c == '\U{3000}' || c == '\U{FEFF}'
  }

  /** Empty or whitespace only: the strings JavaScript's `s.trim()` turns into the falsy "". */
  predicate IsBlank(s: string) {
    forall i :: 0 <= i < |s| ==> IsWhitespace(s[i])
  }

  /** Neither begins nor ends with whitespace. */
  predicate IsTrimmed(s: string) {
    s == [] || (!IsWhitespace(s[0]) && !IsWhitespace(s[|s| - 1]))
  }

  /** The number of leading whitespace characters. */
  function LeadingSpace(s: string): (k: nat)
    ensures k <= |s|
    ensures IsBlank(s[..k])
    ensures k == |s| || !IsWhitespace(s[k])
  {
    if s == [] || !IsWhitespace(s[0]) then 0
    else
      var k := 1 + LeadingSpace(s[1..]);
      assert s[..k] == [s[0]] + s[1..][..k - 1];
      k
  }

  /** The length of `s` once its trailing whitespace is dropped. */
  function TrailingStart(s: string): (b: nat)
    ensures b <= |s|
    ensures IsBlank(s[b..])
    ensures b == 0 || !IsWhitespace(s[b - 1])
  {
    if s == [] || !IsWhitespace(s[|s| - 1]) then |s|
    else
      var b := TrailingStart(s[..|s| - 1]);
      assert s[b..] == s[..|s| - 1][b..] + [s[|s| - 1]];
      b
  }

  /** JavaScript's `trimStart`. */
  function TrimStart(s: string): (r: string)
    ensures |r| <= |s| && r == s[|s| - |r|..]
    ensures IsBlank(s[..|s| - |r|])
    ensures r == [] || !IsWhitespace(r[0])
  {
    s[LeadingSpace(s)..]
  }

  /** JavaScript's `trim`: the longest slice of `s` with no whitespace at either end. */
  function Trim(s: string): (r: string)
    ensures IsTrimmed(r)
    ensures |r| <= |s|
    ensures r == [] <==> IsBlank(s)
  {
    var a := LeadingSpace(s);
    if a == |s| then
      assert s[..a] == s;
      []
    else
      var b := TrailingStart(s);
      assert !IsBlank(s) by { assert !IsWhitespace(s[a]); }
      s[a..b]
  }

  /** `Trim` really is a slice of its input, with only whitespace cut off. */
  lemma TrimIsSlice(s: string)
    ensures exists a, b :: 0 <= a <= b <= |s| && Trim(s) == s[a..b] && IsBlank(s[..a]) && IsBlank(s[b..])
  {
    var a := LeadingSpace(s);
    if a == |s| {
      assert Trim(s) == s[a..a];
    } else {
      assert Trim(s) == s[a..TrailingStart(s)];
    }
  }

  /** Trimming twice changes nothing more. */
  lemma TrimIdempotent(s: string)
    ensures Trim(Trim(s)) == Trim(s)
  {
    var r := Trim(s);
    if r != [] {
      assert LeadingSpace(r) == 0;
      assert TrailingStart(r) == |r|;
      assert r[0..|r|] == r;
    }
  }

  /** A string with no whitespace at either end is its own trim. */
  lemma TrimTrimmed(s: string)
    requires IsTrimmed(s)
    ensures Trim(s) == s
  {
    if s != [] {
      assert LeadingSpace(s) == 0;
      assert TrailingStart(s) == |s|;
      assert s[0..|s|] == s;
    }
  }

  /** JavaScript's `s.startsWith(p)`. */
  predicate StartsWith(s: string, p: string) {
    |p| <= |s| && s[..|p|] == p
  }

  /** JavaScript's `parts.join(sep)`. */
  function Join(parts: seq<string>, sep: string): string {
    if parts == [] then ""
    else if |parts| == 1 then parts[0]
    else parts[0] + sep + Join(parts[1..], sep)
  }

  /** JavaScript's `s.split(c)` for a one-character separator. */
  function Split(s: string, c: char): (parts: seq<string>)
    ensures |parts| >= 1
    ensures forall k :: 0 <= k < |parts| ==> c !in parts[k]
    ensures Join(parts, [c]) == s
  {
    if s == [] then [""]
    else
      var rest := Split(s[1..], c);
      if s[0] == c then
        assert s == [c] + s[1..];
        [""] + rest
      else
        var parts := [[s[0]] + rest[0]] + rest[1..];
        assert parts[1..] == rest[1..];
        assert Join(parts, [c]) == s by {
          if |rest| == 1 {
            assert s == [s[0]] + s[1..];
          } else {
            assert Join(rest, [c]) == rest[0] + [c] + Join(rest[1..], [c]);
            assert s == [s[0]] + s[1..];
          }
        }
        parts
  }

  /** The first element of `s.split(c)`: everything before the first `c`. */
  function BeforeFirst(s: string, c: char): (r: string)
    ensures StartsWith(s, r)
    ensures c !in r
    ensures |r| < |s| ==> s[|r|] == c
  {
    if s == [] || s[0] == c then ""
    else [s[0]] + BeforeFirst(s[1..], c)
  }

  /** Each part of a join stands in the joined text with a separator, or an end
      of the text, on either side. */
  lemma {:induction false} JoinPartAt(parts: seq<string>, c: char, k: nat)
    requires k < |parts|
    ensures exists a: nat :: PartAt(Join(parts, [c]), parts[k], a, c)
  {
    var t := Join(parts, [c]);
    if |parts| == 1 {
      assert t == parts[0];
      assert PartAt(t, parts[k], 0, c);
    } else {
      var rest := Join(parts[1..], [c]);
      assert t == parts[0] + [c] + rest;
      if k == 0 {
        assert t[|parts[0]|] == c;
        assert t[..|parts[0]|] == parts[0];
        assert PartAt(t, parts[k], 0, c);
      } else {
        JoinPartAt(parts[1..], c, k - 1);
        var a: nat :| PartAt(rest, parts[1..][k - 1], a, c);
        var b := |parts[0]| + 1 + a;
        assert t[b..b + |parts[k]|] == rest[a..a + |parts[k]|];
        assert t[b - 1] == if a == 0 then c else rest[a - 1];
        assert b + |parts[k]| < |t| ==> t[b + |parts[k]|] == rest[a + |parts[k]|];
        assert PartAt(t, parts[k], b, c);
      }
    }
  }

  /** Every part of a join stands in the joined text between separators. */
  lemma JoinPartsAt(parts: seq<string>, c: char)
    ensures forall k :: 0 <= k < |parts| ==> StandsIn(Join(parts, [c]), parts[k], c)
  {
    forall k | 0 <= k < |parts|
      ensures StandsIn(Join(parts, [c]), parts[k], c)
    {
      JoinPartAt(parts, c, k);
    }
  }

  /** `u` stands somewhere in `t` with `c` or an end of `t` on either side. */
  ghost predicate StandsIn(t: string, u: string, c: char) {
    exists a: nat :: PartAt(t, u, a, c)
  }

  /** `u` stands in `t` at `a`, with `c` or an end of `t` on either side. */
  predicate PartAt(t: string, u: string, a: nat, c: char) {
    a + |u| <= |t| && t[a..a + |u|] == u
    && (a == 0 || t[a - 1] == c) && (a + |u| == |t| || t[a + |u|] == c)
  }

  /** The first part of a split is exactly `BeforeFirst`. */
  lemma {:induction false} SplitHead(s: string, c: char)
    ensures Split(s, c)[0] == BeforeFirst(s, c)
  {
    if s != [] && s[0] != c {
      SplitHead(s[1..], c);
    }
  }

  /** Splitting a string free of `c` gives the string itself. */
  lemma {:induction false} SplitWithout(s: string, c: char)
    requires c !in s
    ensures Split(s, c) == [s]
  {
    if s != [] {
      SplitWithout(s[1..], c);
      assert s == [s[0]] + s[1..];
    }
  }

  /** A part free of `c` followed by `c` splits off as one whole part. */
  lemma {:induction false} SplitCons(a: string, c: char, b: string)
    requires c !in a
    ensures Split(a + [c] + b, c) == [a] + Split(b, c)
  {
    var s := a + [c] + b;
    if a == [] {
      assert s[1..] == b;
    } else {
      assert s[1..] == a[1..] + [c] + b;
      SplitCons(a[1..], c, b);
      assert [a[0]] + a[1..] == a;
    }
  }

  /** `split` undoes `join` when no part contains the separator. */
  lemma {:induction false} SplitJoin(parts: seq<string>, c: char)
    requires |parts| >= 1
    requires forall k :: 0 <= k < |parts| ==> c !in parts[k]
    ensures Split(Join(parts, [c]), c) == parts
  {
    if |parts| == 1 {
      SplitWithout(parts[0], c);
    } else {
      SplitJoin(parts[1..], c);
      SplitCons(parts[0], c, Join(parts[1..], [c]));
    }
  }

  /** Joining one more part adds the separator and that part at the end. */
  lemma {:induction false} JoinSnoc(parts: seq<string>, x: string, sep: string)
    ensures Join(parts + [x], sep) == if parts == [] then x else Join(parts, sep) + sep + x
    decreases |parts|
  {
    if |parts| >= 2 {
      assert (parts + [x])[1..] == parts[1..] + [x];
      JoinSnoc(parts[1..], x, sep);
    } else if |parts| == 1 {
      assert (parts + [x])[1..] == [x];
    }
  }

  /** The index of the first `c` in `s`, or `|s|` when there is none. */
  function FirstIndex(s: string, c: char): (k: nat)
    ensures k <= |s|
    ensures c !in s[..k]
    ensures k < |s| ==> s[k] == c
  {
    if s == [] || s[0] == c then 0
    else
      var k := 1 + FirstIndex(s[1..], c);
      assert s[..k] == [s[0]] + s[1..][..k - 1];
      k
  }

  /** JavaScript's `s.replace(from, to)` for one-character strings: the first occurrence only. */
  function ReplaceFirst(s: string, from: char, to: char): (r: string)
    ensures |r| == |s|
    ensures forall i :: 0 <= i < |s| ==> r[i] == if i == FirstIndex(s, from) then to else s[i]
  {
    var k := FirstIndex(s, from);
    if k == |s| then s else s[..k] + [to] + s[k + 1..]
  }

  /** The first `c` of `a + [c] + b` is the one after `a` when `a` has none. */
  lemma {:induction false} FirstIndexAfter(a: string, c: char, b: string)
    requires c !in a
    ensures FirstIndex(a + [c] + b, c) == |a|
  {
    if a != [] {
      assert (a + [c] + b)[1..] == a[1..] + [c] + b;
      FirstIndexAfter(a[1..], c, b);
    }
  }

  /** Replacing the first `c` of `a + [c] + b`, where `a` has none, rewrites exactly that one. */
  lemma ReplaceFirstAt(a: string, c: char, b: string, to: char)
    requires c !in a
    ensures ReplaceFirst(a + [c] + b, c, to) == a + [to] + b
  {
    var s := a + [c] + b;
    FirstIndexAfter(a, c, b);
    assert s[..|a|] == a && s[|a| + 1..] == b;
  }

  /** Without a `c` there is nothing to replace. */
  lemma ReplaceFirstAbsent(s: string, c: char, to: char)
    requires c !in s
    ensures ReplaceFirst(s, c, to) == s
  {
  }

  /** JavaScript's `s.replaceAll(from, to)` for one-character strings. */
  function ReplaceAll(s: string, from: char, to: char): (r: string)
    ensures |r| == |s|
    ensures forall k :: 0 <= k < |s| ==> r[k] == if s[k] == from then to else s[k]
  {
    if s == [] then s else [if s[0] == from then to else s[0]] + ReplaceAll(s[1..], from, to)
  }

  /** With at most one occurrence, replacing the first is replacing all. */
  lemma ReplaceFirstIsAll(s: string, from: char, to: char)
    requires forall i, j :: 0 <= i < j < |s| && s[i] == from ==> s[j] != from
    ensures ReplaceFirst(s, from, to) == ReplaceAll(s, from, to)
  {
    var k := FirstIndex(s, from);
    forall i | 0 <= i < |s| && i < k ensures s[i] != from { assert s[i] == s[..k][i]; }
  }

  /** The lower case of the capitals whose lower case is an ASCII letter: `A`-`Z`
      and the Kelvin sign, which JavaScript lower-cases to `k`. */
  function LowerChar(c: char): char {
    if 'A' <= c <= 'Z' then (c as int + 32) as char
    else if c == '\U{212A}' then 'k'
    else c
  }

  /** `toLowerCase` on the characters whose lower case is an ASCII letter; every
      other character is left as it is. */
  function ToLower(s: string): (r: string)
    ensures |r| == |s|
    ensures forall k :: 0 <= k < |s| ==> r[k] == LowerChar(s[k])
  {
    if s == [] then s else [LowerChar(s[0])] + ToLower(s[1..])
  }

  function DigitChar(d: nat): char
    requires d < 10
  {
    ('0' as int + d) as char
  }

  /** The decimal numeral of `n`, as a template literal `${n}` renders it: digits
      only, with no leading zero. */
  function NatToString(n: nat): (r: string)
    ensures |r| >= 1
    ensures forall k :: 0 <= k < |r| ==> '0' <= r[k] <= '9'
    ensures r[0] == '0' ==> n == 0
  {
    if n < 10 then [DigitChar(n)] else NatToString(n / 10) + [DigitChar(n % 10)]
  }

  /** The number a string of decimal digits stands for. */
  function DecimalValue(r: string): nat
    requires forall k :: 0 <= k < |r| ==> '0' <= r[k] <= '9'
  {
    if r == [] then 0 else DecimalValue(r[..|r| - 1]) * 10 + (r[|r| - 1] as int - '0' as int)
  }

  /** Reading the numeral back gives the number. */
  lemma {:induction false} NatToStringValue(n: nat)
    ensures DecimalValue(NatToString(n)) == n
  {
    if n >= 10 {
      NatToStringValue(n / 10);
      var r := NatToString(n);
      assert r[..|r| - 1] == NatToString(n / 10);
    }
  }

  /** Different numbers have different numerals. */
  lemma NatToStringInjective(n: nat, m: nat)
    ensures n != m ==> NatToString(n) != NatToString(m)
  {
    NatToStringValue(n);
    NatToStringValue(m);
  }
}
