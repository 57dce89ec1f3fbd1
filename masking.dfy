/** The confidentiality masking of the PDF export: an ordered list of global,
    case-insensitive regular-expression replacements, then three pattern rules for
    e-mail addresses, phone-like strings and long digit runs.

    Each regular expression is modelled by the function giving the length of its
    match at a position, under JavaScript's non-Unicode semantics: `\w` is
    [A-Za-z0-9_], `\d` is [0-9], `\s` is JavaScript's white space, `\b` lies between
    a word and a non-word character (the ends of the string count as non-word), and
    the `i` flag folds only ASCII letters. A global `replace` scans the original
    string left to right and replaces every match it finds, resuming after it. */
module Masking {
  import opened Options
  import opened Text
  import opened Seqs

  predicate IsWordChar(c: char) {
    ('a' <= c <= 'z') || ('A' <= c <= 'Z') || ('0' <= c <= '9') || c == '_'
  }

  predicate IsDigit(c: char) {
    '0' <= c <= '9'
  }

  predicate IsLetter(c: char) {
    ('a' <= c <= 'z') || ('A' <= c <= 'Z')
  }

  /** Case folding of the `i` flag without `u`: only ASCII letters change. */
  function Upper(c: char): char {
    if 'a' <= c <= 'z' then (c as int - 32) as char else c
  }

  predicate WordAt(s: string, i: int) {
    0 <= i < |s| && IsWordChar(s[i])
  }

  /** `\b` at position `i`. */
  predicate Boundary(s: string, i: int) {
    WordAt(s, i - 1) != WordAt(s, i)
  }

  /** The upper-case text `w` occurs at `i`, ignoring the case of ASCII letters. */
  predicate CiAt(s: string, i: int, w: string) {
    0 <= i && i + |w| <= |s| && forall x :: 0 <= x < |w| ==> Upper(s[i + x]) == w[x]
  }

  /** The number of characters satisfying `p` from position `i` on. */
  function RunLength(s: string, i: nat, p: char -> bool): (n: nat)
    requires i <= |s|
    ensures i + n <= |s|
    ensures forall x :: i <= x < i + n ==> p(s[x])
    ensures i + n == |s| || !p(s[i + n])
    decreases |s| - i
  {
    if i == |s| || !p(s[i]) then 0 else 1 + RunLength(s, i + 1, p)
  }

  /** `RunLength` reaches at least to `j` when every character before `j` satisfies `p`. */
  lemma RunLengthCovers(s: string, i: nat, j: nat, p: char -> bool)
    requires i <= j <= |s|
    requires forall x :: i <= x < j ==> p(s[x])
    ensures j <= i + RunLength(s, i, p)
  {
  }

  /** `RunLength` stops exactly at `j` when `j` ends a run of `p` from `i`. */
  lemma RunLengthExact(s: string, i: nat, j: nat, p: char -> bool)
    requires i <= j <= |s|
    requires forall x :: i <= x < j ==> p(s[x])
    requires j == |s| || !p(s[j])
    ensures RunLength(s, i, p) == j - i
  {
  }

  /** The position where the run of characters satisfying `p` from `i` ends. */
  function RunEnd(s: string, i: nat, p: char -> bool): (j: nat)
    requires i <= |s|
    ensures i <= j <= |s|
    ensures forall x :: i <= x < j ==> p(s[x])
    ensures j == |s| || !p(s[j])
  {
    i + RunLength(s, i, p)
  }

  /** The run from `i` ends at `j` when `j` ends a run of `p` from `i`. */
  lemma RunEndExact(s: string, i: nat, j: nat, p: char -> bool)
    requires i <= j <= |s|
    requires forall x :: i <= x < j ==> p(s[x])
    requires j == |s| || !p(s[j])
    ensures RunEnd(s, i, p) == j
  {
    RunLengthExact(s, i, j, p);
  }

  predicate IsLocalChar(c: char) { IsWordChar(c) || c == '.' || c == '%' || c == '+' || c == '-' }
  predicate IsDomainChar(c: char) { IsWordChar(c) || c == '.' || c == '-' }
  predicate IsPhoneChar(c: char) { IsDigit(c) || IsWhitespace(c) || c == '-' }

  datatype Pattern =
    | Word(w: string)   // /\bW\b/gi for an upper-case word W
    | RblBank           // /\bRBL\s*BANK\b/gi
    | Email             // /\b[\w.%+-]+@[\w.-]+\.[A-Za-z]{2,}\b/g
    | Phone             // /\b\+?\d[\d\s-]{8,}\b/g
    | LongDigits        // /\b\d{8,}\b/g

  /** The largest `e` in `lo..hi` with `\b` at `e`: how a greedy `{n,}` backs off. */
  function LastBoundary(s: string, lo: nat, hi: nat): (r: Option<nat>)
    ensures r.Some? ==> lo <= r.value <= hi && Boundary(s, r.value)
    ensures r.Some? ==> forall e :: r.value < e <= hi ==> !Boundary(s, e)
    ensures r.None? ==> forall e :: lo <= e <= hi ==> !Boundary(s, e)
    decreases hi
  {
    if hi < lo then None
    else if Boundary(s, hi) then Some(hi)
    else if hi == lo then None
    else LastBoundary(s, lo, hi - 1)
  }

  /** `\.[A-Za-z]{2,}\b` from `d` to `e`: a dot, at least two letters, and `\b`. */
  predicate EmailTail(s: string, d: nat, e: nat) {
    d + 3 <= e <= |s| && s[d] == '.' && (forall x :: d < x < e ==> IsLetter(s[x])) && Boundary(s, e)
  }

  /** After a dot, only the end of the run of letters can close an address. */
  lemma EmailTailAt(s: string, d: nat)
    requires d < |s|
    ensures forall e: nat :: EmailTail(s, d, e) ==> e == d + 1 + RunLength(s, d + 1, IsLetter)
  {
    forall e: nat | EmailTail(s, d, e)
      ensures e == d + 1 + RunLength(s, d + 1, IsLetter)
    {
      assert WordAt(s, e - 1);
      RunLengthExact(s, d + 1, e, IsLetter);
    }
  }

  /** An address tail that begins before a dot ends at or before that dot. */
  lemma EmailTailsBefore(s: string, d: nat)
    requires d < |s| && s[d] == '.'
    ensures forall d': nat, e: nat :: d' < d && EmailTail(s, d', e) ==> e <= d
  {
  }

  /** The e-mail rule from the `@` at `at` on, with the domain run ending before
      `q`: the largest dot `d` with at least one domain character before it that
      is followed by at least two letters and then `\b`; the result is the end of
      the match, the furthest end any such dot allows. */
  function EmailEnd(s: string, at: nat, q: nat): (r: Option<nat>)
    requires at < q <= |s|
    ensures r.Some? ==> at < r.value <= |s|
    ensures r.Some? ==> exists d: nat :: at + 2 <= d < q && EmailTail(s, d, r.value)
    ensures forall d: nat, e: nat :: at + 2 <= d < q && EmailTail(s, d, e) ==> r.Some? && e <= r.value
    decreases q
  {
    if q <= at + 2 then None
    else
      var d := q - 1;
      var t := RunLength(s, d + 1, IsLetter);
      EmailTailAt(s, d);
      if s[d] == '.' && t >= 2 && Boundary(s, d + 1 + t) then
        EmailTailsBefore(s, d);
        assert EmailTail(s, d, d + 1 + t);
        Some(d + 1 + t)
      else EmailEnd(s, at, d)
  }

  /** Where the digits of a phone-like string begin: after a leading `+`. */
  function PhoneStart(s: string, i: nat): nat {
    if i < |s| && s[i] == '+' then i + 1 else i
  }

  /** The length of the match of `p` starting at `i`, if there is one. */
  function MatchLen(p: Pattern, s: string, i: nat): (r: Option<nat>)
    requires i <= |s|
    ensures r.Some? ==> 0 < r.value && i + r.value <= |s|
  {
    match p
    case Word(w) =>
      if |w| > 0 && Boundary(s, i) && CiAt(s, i, w) && Boundary(s, i + |w|) then Some(|w|) else None
    case RblBank =>
      if Boundary(s, i) && CiAt(s, i, "RBL") then
        var k := RunLength(s, i + 3, IsWhitespace);
        if CiAt(s, i + 3 + k, "BANK") && Boundary(s, i + 3 + k + 4) then Some(3 + k + 4) else None
      else None
    case Email => EmailAt(s, i)
    case Phone =>
      var start := PhoneStart(s, i);
      if Boundary(s, i) && start < |s| && IsDigit(s[start]) then
        var run := RunLength(s, start + 1, IsPhoneChar);
        if run >= 8 then
          match LastBoundary(s, start + 1 + 8, start + 1 + run)
          case Some(e) => Some(e - i)
          case None => None
        else None
      else None
    case LongDigits =>
      var t := RunLength(s, i, IsDigit);
      if t >= 8 && Boundary(s, i) && Boundary(s, i + t) then Some(t) else None
  }

  // ---- What each pattern matches: the strings of its shape, the longest first ----

  /** `\bRBL\s*BANK\b` from `i` to `e`, ignoring the case of ASCII letters. */
  predicate RblBankShape(s: string, i: nat, e: nat) {
    && i + 7 <= e <= |s| && Boundary(s, i) && CiAt(s, i, "RBL")
    && (forall x :: i + 3 <= x < e - 4 ==> IsWhitespace(s[x]))
    && CiAt(s, e - 4, "BANK") && Boundary(s, e)
  }

  /** `\b[\w.%+-]+@[\w.-]+\.[A-Za-z]{2,}\b` from `i` to `e`, with the `@` at `at`
      and the last dot at `d`. */
  predicate EmailShape(s: string, i: nat, at: nat, d: nat, e: nat) {
    && i < at < |s| && Boundary(s, i)
    && (forall x :: i <= x < at ==> IsLocalChar(s[x])) && s[at] == '@'
    && at + 2 <= d && EmailTail(s, d, e)
    && (forall x :: at < x < d ==> IsDomainChar(s[x]))
  }

  /** An e-mail address runs from `i` to `e`. */
  ghost predicate EmailFromTo(s: string, i: nat, e: nat) {
    exists at: nat, d: nat :: EmailShape(s, i, at, d, e)
  }

  /** In an address starting at `i`, the `@` ends the run of local characters and
      the last dot lies inside the run of domain characters after it. */
  /** An end `EmailEnd` finds closes an address starting at `i`. */
  lemma EmailEndIsAddress(s: string, i: nat, at: nat, q: nat, n: nat)
    requires i < at < q <= |s| && Boundary(s, i) && s[at] == '@'
    requires forall x :: i <= x < at ==> IsLocalChar(s[x])
    requires forall x :: at < x < q ==> IsDomainChar(s[x])
    requires EmailEnd(s, at, q) == Some(i + n)
    ensures EmailFromTo(s, i, i + n)
  {
    var d: nat :| at + 2 <= d < q && EmailTail(s, d, i + n);
    assert EmailShape(s, i, at, d, i + n);
  }

  /** The e-mail match starting at `i` once the local part has run to `at`: there
      must be an `@` there, after a non-empty local part; the domain then runs on
      as far as it can and `EmailEnd` finds its end. */
  function EmailFrom(s: string, i: nat, at: nat): (r: Option<nat>)
    requires i <= at <= |s|
    requires forall x :: i <= x < at ==> IsLocalChar(s[x])
    ensures r.Some? ==> 0 < r.value && i + r.value <= |s|
    ensures r.Some? ==> EmailFromTo(s, i, i + r.value)
  {
    if Boundary(s, i) && i < at < |s| && s[at] == '@' then
      var q := at + 1 + RunLength(s, at + 1, IsDomainChar);
      match EmailEnd(s, at, q)
      case Some(e) =>
        EmailEndIsAddress(s, i, at, q, e - i);
        Some(e - i)
      case None => None
    else None
  }

  /** Every address from `i` with its `@` at `at` ends no later than the match
      `EmailFrom` finds. */
  lemma EmailFromLongest(s: string, i: nat, at: nat, d: nat, e: nat)
    requires i < at < |s| && Boundary(s, i) && s[at] == '@'
    requires forall x :: i <= x < at ==> IsLocalChar(s[x])
    requires at + 2 <= d && EmailTail(s, d, e)
    requires forall x :: at < x < d ==> IsDomainChar(s[x])
    ensures EmailFrom(s, i, at).Some? && e <= i + EmailFrom(s, i, at).value
  {
    RunLengthCovers(s, at + 1, d + 1, IsDomainChar);
    var q := at + 1 + RunLength(s, at + 1, IsDomainChar);
    assert at + 2 <= d < q && EmailTail(s, d, e);
  }

  /** The length of the e-mail match starting at `i`: the local part runs to an
      `@`, and `EmailFrom` finds the end of the domain. A match is an address. */
  function EmailAt(s: string, i: nat): (r: Option<nat>)
    requires i <= |s|
    ensures r.Some? ==> 0 < r.value && i + r.value <= |s|
    ensures r.Some? ==> EmailFromTo(s, i, i + r.value)
  {
    EmailFrom(s, i, RunEnd(s, i, IsLocalChar))
  }

  /** `\b\+?\d[\d\s-]{8,}\b` from `i` to `e`. */
  predicate PhoneShape(s: string, i: nat, e: nat) {
    var start := PhoneStart(s, i);
    && start + 9 <= e <= |s| && Boundary(s, i) && IsDigit(s[start])
    && (forall x :: start < x < e ==> IsPhoneChar(s[x])) && Boundary(s, e)
  }

  /** `\b\d{8,}\b` from `i` to `e`. */
  predicate DigitsShape(s: string, i: nat, e: nat) {
    i + 8 <= e <= |s| && Boundary(s, i) && (forall x :: i <= x < e ==> IsDigit(s[x])) && Boundary(s, e)
  }

  lemma UpperB(c: char)
    requires Upper(c) == 'B'
    ensures !IsWhitespace(c)
  {
  }

  lemma RblBankWhole(s: string, i: nat, e: nat)
    requires RblBankShape(s, i, e)
    ensures MatchLen(RblBank, s, i) == Some(e - i)
  {
    assert Upper(s[e - 4]) == "BANK"[0];
    UpperB(s[e - 4]);
    RunLengthExact(s, i + 3, e - 4, IsWhitespace);
  }

  /** `RBL BANK` matches at `i` exactly where the text has that shape; the
      whitespace between the words leaves only one way to match. */
  lemma RblBankMatch(s: string, i: nat)
    requires i <= |s|
    ensures MatchLen(RblBank, s, i).Some? ==> RblBankShape(s, i, i + MatchLen(RblBank, s, i).value)
    ensures forall e: nat :: RblBankShape(s, i, e) ==> MatchLen(RblBank, s, i) == Some(e - i)
  {
    forall e: nat | RblBankShape(s, i, e)
      ensures MatchLen(RblBank, s, i) == Some(e - i)
    {
      RblBankWhole(s, i, e);
    }
  }

  /** With the local part running from `i` to an `@` at `at`, `EmailAt` hands over
      to `EmailFrom` at `at`. */
  lemma EmailAtFrom(s: string, i: nat, at: nat)
    requires i < at < |s| && s[at] == '@'
    requires forall x :: i <= x < at ==> IsLocalChar(s[x])
    ensures EmailAt(s, i) == EmailFrom(s, i, at)
  {
    RunEndExact(s, i, at, IsLocalChar);
  }

  /** Every address starting at `i` ends no later than the match `EmailAt` finds:
      its local part is the whole run of local characters before the `@`. */
  lemma EmailLongest(s: string, i: nat, at: nat, d: nat, e: nat)
    requires EmailShape(s, i, at, d, e)
    ensures EmailAt(s, i).Some? && e <= i + EmailAt(s, i).value
  {
    EmailAtFrom(s, i, at);
    EmailFromLongest(s, i, at, d, e);
  }

  lemma EmailCase(s: string, i: nat)
    requires i <= |s|
    ensures MatchLen(Email, s, i) == EmailAt(s, i)
  {
  }

  /** An e-mail address matches at `i` exactly where one starts, and the match is
      the longest address starting there. */
  lemma EmailMatch(s: string, i: nat)
    requires i <= |s|
    ensures MatchLen(Email, s, i).Some? ==> EmailFromTo(s, i, i + MatchLen(Email, s, i).value)
    ensures forall at: nat, d: nat, e: nat :: EmailShape(s, i, at, d, e) ==>
      MatchLen(Email, s, i).Some? && e <= i + MatchLen(Email, s, i).value
  {
    EmailCase(s, i);
    forall at: nat, d: nat, e: nat | EmailShape(s, i, at, d, e)
      ensures EmailAt(s, i).Some? && e <= i + EmailAt(s, i).value
    {
      EmailLongest(s, i, at, d, e);
    }
  }

  /** An address needs a domain character between the `@` and the last dot:
      "x@.com" is not one. */
  lemma EmptyDomainNotMatched()
    ensures MatchLen(Email, "x@.com", 0).None?
  {
  }

  /** A phone-like string matches at `i` exactly where one starts, and the match
      is the longest one starting there. */
  lemma PhoneMatch(s: string, i: nat)
    requires i <= |s|
    ensures MatchLen(Phone, s, i).Some? ==> PhoneShape(s, i, i + MatchLen(Phone, s, i).value)
    ensures forall e: nat :: PhoneShape(s, i, e) ==> MatchLen(Phone, s, i).Some? && e <= i + MatchLen(Phone, s, i).value
  {
    forall e: nat | PhoneShape(s, i, e)
      ensures MatchLen(Phone, s, i).Some? && e <= i + MatchLen(Phone, s, i).value
    {
      RunLengthCovers(s, PhoneStart(s, i) + 1, e, IsPhoneChar);
    }
  }

  /** A run of eight or more digits matches at `i` exactly where one stands
      between word boundaries, and the match is the whole run. */
  lemma DigitsMatch(s: string, i: nat)
    requires i <= |s|
    ensures MatchLen(LongDigits, s, i).Some? ==> DigitsShape(s, i, i + MatchLen(LongDigits, s, i).value)
    ensures forall e: nat :: DigitsShape(s, i, e) ==> MatchLen(LongDigits, s, i) == Some(e - i)
  {
    forall e: nat | DigitsShape(s, i, e)
      ensures MatchLen(LongDigits, s, i) == Some(e - i)
    {
      assert WordAt(s, e - 1);
      RunLengthExact(s, i, e, IsDigit);
    }
  }

  /** Where a pattern matches in `s`, and for how long. */
  function Matcher(p: Pattern, s: string): nat -> Option<nat> {
    (j: nat) => if j <= |s| then MatchLen(p, s, j) else None
  }

  /** Every match found in `s` is non-empty and lies inside `s`. */
  ghost predicate ValidMatches(s: string, at: nat -> Option<nat>) {
    forall j :: 0 <= j <= |s| && at(j).Some? ==> 0 < at(j).value && j + at(j).value <= |s|
  }

  lemma MatcherValid(p: Pattern, s: string)
    ensures ValidMatches(s, Matcher(p, s))
  {
  }

  /** A global `replace`: from position `i` of the original on, each match found is
      replaced by `r` and the scan resumes after it; other characters are kept. */
  function ReplaceFrom(s: string, at: nat -> Option<nat>, r: string, i: nat): string
    requires i <= |s| && ValidMatches(s, at)
    decreases |s| - i
  {
    if i == |s| then ""
    else
      match at(i)
      case Some(n) => r + ReplaceFrom(s, at, r, i + n)
      case None => [s[i]] + ReplaceFrom(s, at, r, i + 1)
  }

  /** `s.replace(pattern, r)` with the `g` flag. */
  function ReplaceAllMatches(s: string, rule: (Pattern, string)): string {
    MatcherValid(rule.0, s);
    ReplaceFrom(s, Matcher(rule.0, s), rule.1, 0)
  }

  /** Where nothing matches, a global replace changes nothing. */
  lemma {:induction false} NoMatchNoChange(s: string, at: nat -> Option<nat>, r: string, i: nat)
    requires i <= |s| && ValidMatches(s, at)
    requires forall j :: i <= j <= |s| ==> at(j).None?
    ensures ReplaceFrom(s, at, r, i) == s[i..]
    decreases |s| - i
  {
    if i < |s| {
      NoMatchNoChange(s, at, r, i + 1);
      assert s[i..] == [s[i]] + s[i + 1..];
    }
  }

  /** `CONFIDENTIAL_REPLACEMENTS`, in order. */
  const NamedReplacements: seq<(Pattern, string)> := [
    (RblBank, "ABC BANK"),
    (Word("RBL"), "ABC"),
    (Word("SARTHAK"), "LOS_PLATFORM_X"),
    (Word("FINACLE"), "CORE_SYSTEM_X"),
    (Word("AHL"), "PRODUCT_X"),
    (Word("MSME"), "PRODUCT_Y"),
    (Word("PHL"), "PRODUCT_Z"),
    (Word("CIBIL"), "BUREAU_X"),
    (Word("POSIDEX"), "VENDOR_X"),
    (Word("RAMP"), "ENGINE_X"),
    (Word("NCR"), "REGION_1"),
    (Word("MPCG"), "REGION_2")
  ]

  const EmailRule: (Pattern, string) := (Email, "user@mock.example")
  const PhoneRule: (Pattern, string) := (Phone, "XXXXXXXXXX")
  const DigitsRule: (Pattern, string) := (LongDigits, "XXXXXXXX")

  /** The replacements applied one after the other. */
  function ApplyInOrder(s: string, rules: seq<(Pattern, string)>): string
    decreases |rules|
  {
    if rules == [] then s else ReplaceAllMatches(ApplyInOrder(s, rules[..|rules| - 1]), rules[|rules| - 1])
  }

  /** What `maskConfidentialPatterns` computes: the named replacements in list order,
      then the e-mail, phone and digit rules. */
  function Mask(s: string): string {
    var named := ApplyInOrder(s, NamedReplacements);
    ReplaceAllMatches(ReplaceAllMatches(ReplaceAllMatches(named, EmailRule), PhoneRule), DigitsRule)
  }

  /** `maskConfidentialPatterns`: the `forEach` over the table, then three replaces. */
  method MaskConfidentialPatterns(value: string) returns (masked: string)
    ensures masked == Mask(value)
  {
    var rules := NamedReplacements;
    masked := value;
    var i := 0;
    while i < |rules|
      invariant 0 <= i <= |rules|
      invariant masked == ApplyInOrder(value, rules[..i])
    {
      assert rules[..i + 1][..i] == rules[..i];
      masked := ReplaceAllMatches(masked, rules[i]);
      i := i + 1;
    }
    assert rules[..i] == rules;
    masked := ReplaceAllMatches(masked, EmailRule);
    masked := ReplaceAllMatches(masked, PhoneRule);
    masked := ReplaceAllMatches(masked, DigitsRule);
  }

  /** `clean`: the masked trimmed value, or the fallback for a missing or blank one. */
  function Clean(v: Option<string>, fallback: string): (r: string)
    ensures v.None? || IsBlank(v.value) ==> r == fallback
    ensures v.Some? && !IsBlank(v.value) ==> r == Mask(Trim(v.value))
  {
    if v.Some? && Trim(v.value) != "" then Mask(Trim(v.value)) else fallback
  }

  function NonEmpty(line: string): bool { line != "" }

  /** The pieces of a text between its line breaks, each trimmed. */
  function Pieces(text: string): (pieces: seq<string>)
    ensures |pieces| == |Split(text, '\n')|
    ensures forall k :: 0 <= k < |pieces| ==> pieces[k] == Trim(Split(text, '\n')[k])
    ensures text == "" ==> pieces == [""]
  {
    assert text == "" ==> Split(text, '\n') == [""];
    Map(Split(text, '\n'), Trim)
  }

  /** The lines of a text: cut at line breaks, each piece trimmed, the empty ones
      dropped. Cutting at every `\n` instead of at runs of them only adds empty
      pieces, which the filter removes. The lines are the non-empty pieces, each as
      often as it occurs, in the order of the text. */
  function LinesOf(text: string): (lines: seq<string>)
    ensures forall k :: 0 <= k < |lines| ==> lines[k] != "" && IsTrimmed(lines[k])
    ensures text == "" ==> lines == []
  {
    var pieces := Pieces(text);
    FilterContents(pieces, NonEmpty);
    assert text == "" ==> Filter(pieces, NonEmpty) == [] by {
      if text == "" {
        assert Filter(pieces, NonEmpty) == [] + Filter([], NonEmpty);
      }
    }
    Filter(pieces, NonEmpty)
  }

  /** The lines are the non-empty pieces, each as often as it occurs, in the
      order of the text: none is lost, repeated or moved. */
  lemma LinesArePieces(text: string)
    ensures IsSubsequence(LinesOf(text), Pieces(text))
    ensures forall x :: multiset(LinesOf(text))[x] == if x != "" then multiset(Pieces(text))[x] else 0
  {
    FilterContents(Pieces(text), NonEmpty);
    FilterIsSubsequence(Pieces(text), NonEmpty);
  }

  /** `splitLines`: the lines of the cleaned value, with an empty fallback. */
  function SplitLines(v: Option<string>): (lines: seq<string>)
    ensures forall k :: 0 <= k < |lines| ==> lines[k] != "" && IsTrimmed(lines[k])
    ensures v.None? || IsBlank(v.value) ==> lines == []
    ensures v.Some? && !IsBlank(v.value) ==> lines == LinesOf(Mask(Trim(v.value)))
  {
    LinesOf(Clean(v, ""))
  }

  /** `u` stands in `t` at `a` with no word character right before or after it. */
  predicate Isolated(t: string, u: string, a: nat) {
    a + |u| <= |t| && t[a..a + |u|] == u
    && (a == 0 || !IsWordChar(t[a - 1])) && (a + |u| == |t| || !IsWordChar(t[a + |u|]))
  }

  lemma WhitespaceNotWord(c: char)
    requires IsWhitespace(c)
    ensures !IsWordChar(c)
  {
  }

  /** The trimmed part of a piece that stands between line breaks is isolated. */
  lemma TrimmedPartIsolated(t: string, piece: string, p: nat, a: nat, b: nat)
    requires PartAt(t, piece, p, '\n')
    requires a <= b <= |piece| && IsBlank(piece[..a]) && IsBlank(piece[b..])
    ensures Isolated(t, piece[a..b], p + a)
  {
    forall j | 0 <= j < b - a
      ensures t[p + a..p + b][j] == piece[a..b][j]
    {
      assert t[p + a + j] == t[p..p + |piece|][a + j];
    }
    assert t[p + a..p + b] == piece[a..b];
    if a > 0 {
      assert t[p + a - 1] == piece[..a][a - 1];
      WhitespaceNotWord(t[p + a - 1]);
    } else if p > 0 {
      WhitespaceNotWord(t[p - 1]);
    }
    if b < |piece| {
      assert t[p + b] == piece[b..][0];
      WhitespaceNotWord(t[p + b]);
    } else if p + b < |t| {
      WhitespaceNotWord(t[p + b]);
    }
  }

  /** Every line of a text stands in it with no word character on either side. */
  lemma LinesIsolated(text: string)
    ensures forall line :: line in LinesOf(text) ==> exists a: nat :: Isolated(text, line, a)
  {
    var parts := Split(text, '\n');
    var pieces := Pieces(text);
    FilterContents(pieces, NonEmpty);
    forall line | line in LinesOf(text)
      ensures exists a: nat :: Isolated(text, line, a)
    {
      var k :| 0 <= k < |pieces| && pieces[k] == line;
      JoinPartAt(parts, '\n', k);
      var p: nat :| PartAt(text, parts[k], p, '\n');
      TrimIsSlice(parts[k]);
      var a, b :| 0 <= a <= b <= |parts[k]| && Trim(parts[k]) == parts[k][a..b]
                  && IsBlank(parts[k][..a]) && IsBlank(parts[k][b..]);
      TrimmedPartIsolated(text, parts[k], p, a, b);
    }
  }
}
