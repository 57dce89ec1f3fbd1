/** Why the masking leaves no confidential word of the table behind: each global
    replace removes every whole-word occurrence of its own word, and no later replace
    can create one, because every replacement text begins and ends with a word
    character and each of its runs of word characters either is longer than the word
    or holds a character the word lacks. */
module MaskingTokens {
  import opened Options
  import opened Text
  import opened Masking

  /** A confidential word: non-empty, upper-case ASCII letters only. */
  predicate IsToken(w: string) {
    |w| > 0 && forall x :: 0 <= x < |w| ==> 'A' <= w[x] <= 'Z'
  }

  /** A whole-word occurrence of `w` at `k`, in any letter case: what `/\bW\b/gi` finds. */
  predicate Occ(t: string, w: string, k: int) {
    0 <= k && k + |w| <= |t| && Boundary(t, k) && CiAt(t, k, w) && Boundary(t, k + |w|)
  }

  ghost predicate Absent(t: string, w: string) {
    forall k :: !Occ(t, w, k)
  }

  /** The end of the run of word characters that starts at `m`. */
  function RunEnd(r: string, m: nat): (e: nat)
    requires m <= |r|
    ensures m <= e <= |r|
    ensures forall y :: m <= y < e ==> IsWordChar(r[y])
    ensures e == |r| || !IsWordChar(r[e])
    decreases |r| - m
  {
    if m == |r| || !IsWordChar(r[m]) then m else RunEnd(r, m + 1)
  }

  /** The run of word characters starting at `m` cannot lie inside a whole-word `w`:
      it is longer than `w`, or holds a character `w` does not have. */
  predicate RunEscapes(r: string, w: string, m: nat)
    requires m <= |r|
  {
    RunEnd(r, m) - m > |w| || exists x :: m <= x < RunEnd(r, m) && Upper(r[x]) !in w
  }

  /** A run of word characters starts at `m`. */
  predicate IsRunStart(r: string, m: int) {
    0 <= m < |r| && IsWordChar(r[m]) && (m == 0 || !IsWordChar(r[m - 1]))
  }

  /** A replacement text that cannot bring `w` back. */
  predicate SafeFor(r: string, w: string) {
    && |r| > 0 && IsWordChar(r[0]) && IsWordChar(r[|r| - 1])
    && forall m :: 0 <= m < |r| && IsRunStart(r, m) ==> RunEscapes(r, w, m)
  }

  /** The characters at the ends of a whole-word occurrence, and just outside them. */
  lemma OccEnds(t: string, w: string, k: int)
    requires IsToken(w) && Occ(t, w, k)
    ensures IsLetter(t[k]) && IsLetter(t[k + |w| - 1])
    ensures k > 0 ==> !IsWordChar(t[k - 1])
    ensures k + |w| < |t| ==> !IsWordChar(t[k + |w|])
  {
    assert Upper(t[k + 0]) == w[0];
    assert Upper(t[k + (|w| - 1)]) == w[|w| - 1];
  }

  /** A whole-word occurrence of `w` that reaches into a copy of `r` placed at `q`
      covers the whole run of word characters it first meets there. */
  lemma OccCoversRun(t: string, q: nat, r: string, w: string, k: int) returns (m: nat)
    requires IsToken(w)
    requires q + |r| <= |t| && t[q..q + |r|] == r
    requires Occ(t, w, k) && q < k + |w| && k < q + |r| && 0 < |r|
    ensures IsRunStart(r, m)
    ensures RunEnd(r, m) - m <= |w|
    ensures forall x :: m <= x < RunEnd(r, m) ==> Upper(r[x]) in w
  {
    OccEnds(t, w, k);
    m := if k < q then 0 else k - q;
    assert t[q + m] == r[m];
    assert Upper(t[k + (q + m - k)]) == w[q + m - k];
    if m > 0 {
      assert t[k - 1] == r[m - 1];
    }
    var e := RunEnd(r, m);
    forall x | m <= x < e ensures Upper(r[x]) in w {
      assert t[q + x] == r[x];
      assert Upper(t[k + (q + x - k)]) == w[q + x - k];
    }
  }

  /** A whole-word occurrence of `w` never overlaps a copy of a safe replacement text. */
  lemma OccAvoidsReplacement(t: string, q: nat, r: string, w: string, k: int)
    requires IsToken(w) && SafeFor(r, w)
    requires q + |r| <= |t| && t[q..q + |r|] == r
    requires Occ(t, w, k)
    ensures k + |w| <= q || q + |r| <= k
  {
    if q < k + |w| && k < q + |r| {
      var m := OccCoversRun(t, q, r, w, k);
      assert false;
    }
  }

  /** Text after a context character `c` gains an occurrence at position 1 exactly
      when it has one at 0, if `c` is not a word character. */
  lemma OccAfterSpace(out: string, c: char, w: string, k: int)
    requires !IsWordChar(c) && 0 <= k
    ensures Occ(out, w, k) ==> Occ([c] + out, w, k + 1)
  {
    var t := [c] + out;
    assert t[1..] == out;
    if Occ(out, w, k) {
      forall x | 0 <= x < |w| ensures Upper(t[k + 1 + x]) == w[x] {
        assert t[k + 1 + x] == out[k + x];
      }
    }
  }

  /** Cutting off a prefix keeps the occurrences that start after it. */
  lemma OccInSuffix(t: string, j: nat, w: string, k: int)
    requires j < k
    ensures Occ(t, w, k) ==> Occ(t[j..], w, k - j)
  {
    if Occ(t, w, k) {
      forall x | 0 <= x < |w| ensures Upper(t[j..][k - j + x]) == w[x] {
        assert t[j..][k - j + x] == t[k + x];
      }
    }
  }

  /** The output of a global replace from `i`, up to `n` characters on: the characters
      kept before the next match. */
  lemma {:induction false} KeptPrefix(s: string, at: nat -> Option<nat>, r: string, i: nat, n: nat) returns (m: nat)
    requires i <= |s| && ValidMatches(s, at)
    ensures m <= n && i + m <= |s|
    ensures forall x :: i <= x < i + m ==> at(x).None?
    ensures ReplaceFrom(s, at, r, i) == s[i..i + m] + ReplaceFrom(s, at, r, i + m)
    ensures m == n || i + m == |s| || at(i + m).Some?
    decreases n
  {
    if n == 0 || i == |s| || at(i).Some? {
      m := 0;
    } else {
      var m' := KeptPrefix(s, at, r, i + 1, n - 1);
      m := m' + 1;
      KeptStep(s, at, r, i, m);
    }
  }

  /** One kept character in front of `m - 1` more. */
  lemma KeptStep(s: string, at: nat -> Option<nat>, r: string, i: nat, m: nat)
    requires 0 < m && i + m <= |s| && ValidMatches(s, at) && at(i).None?
    requires ReplaceFrom(s, at, r, i + 1) == s[i + 1..i + m] + ReplaceFrom(s, at, r, i + m)
    ensures ReplaceFrom(s, at, r, i) == s[i..i + m] + ReplaceFrom(s, at, r, i + m)
  {
    var kept, tail := s[i + 1..i + m], ReplaceFrom(s, at, r, i + m);
    assert ReplaceFrom(s, at, r, i) == [s[i]] + (kept + tail);
    assert s[i..i + m] == [s[i]] + kept;
    Assoc([s[i]], kept, tail);
  }

  lemma Assoc(a: string, b: string, c: string)
    ensures (a + b) + c == a + (b + c)
  {
  }

  /** A whole word starting right after `c` cannot reach a safe replacement text that
      begins within one character after its end. */
  lemma NoOccUpToReplacement(c: char, out: string, m: nat, r: string, w: string)
    requires IsToken(w) && SafeFor(r, w) && m <= |w|
    requires m + |r| <= |out| && out[m..m + |r|] == r
    ensures !Occ([c] + out, w, 1)
  {
    var t := [c] + out;
    assert t[1 + m..1 + m + |r|] == r;
    if Occ(t, w, 1) {
      OccAvoidsReplacement(t, 1 + m, r, w, 1);
      OccEnds(t, w, 1);
    }
  }

  /** An occurrence right after `c` in text that copies the input from `i` on (up to
      one character past the word, or to its end) is an occurrence in the input. */
  lemma OccOfCopy(s: string, i: nat, c: char, out: string, w: string)
    requires IsToken(w) && i <= |s|
    requires WordAt(s, i - 1) ==> IsWordChar(c)
    requires (i + |w| < |s| && |w| < |out| && out[..|w| + 1] == s[i..i + |w| + 1]) || out == s[i..]
    ensures Occ([c] + out, w, 1) ==> Occ(s, w, i)
  {
    var t := [c] + out;
    var L := |w|;
    if Occ(t, w, 1) {
      assert i + L <= |s|;
      forall x | 0 <= x < L ensures Upper(s[i + x]) == w[x] {
        assert t[1 + x] == s[i + x];
      }
      assert Upper(s[i]) == w[0];
      assert Upper(s[i + L - 1]) == w[L - 1];
      assert i + L < |s| ==> t[1 + L] == s[i + L];
    }
  }

  /** An occurrence that would begin at a kept character is an occurrence in the
      input, where the replace would have matched it. */
  lemma KeptStartNoOcc(s: string, at: nat -> Option<nat>, r: string, w: string, i: nat, c: char)
    requires IsToken(w) && SafeFor(r, w)
    requires i < |s| && ValidMatches(s, at) && at(i).None?
    requires forall j :: 0 <= j <= |s| && Occ(s, w, j) ==> at(j).Some?
    requires WordAt(s, i - 1) ==> IsWordChar(c)
    ensures !Occ([c] + ReplaceFrom(s, at, r, i), w, 1)
  {
    var out := ReplaceFrom(s, at, r, i);
    var L := |w|;
    var m := KeptPrefix(s, at, r, i, L + 1);
    if m <= L && i + m < |s| {
      ReplacementAfterKept(s, at, r, i, m);
      NoOccUpToReplacement(c, out, m, r, w);
    } else {
      CopyAfterKept(s, at, r, i, m, L);
      OccOfCopy(s, i, c, out, w);
    }
  }

  /** When the scan keeps `m` characters and then meets a match, the replacement text
      follows them in the output. */
  lemma ReplacementAfterKept(s: string, at: nat -> Option<nat>, r: string, i: nat, m: nat)
    requires i + m < |s| && ValidMatches(s, at) && at(i + m).Some?
    requires ReplaceFrom(s, at, r, i) == s[i..i + m] + ReplaceFrom(s, at, r, i + m)
    ensures m + |r| <= |ReplaceFrom(s, at, r, i)|
    ensures ReplaceFrom(s, at, r, i)[m..m + |r|] == r
  {
    var rest := ReplaceFrom(s, at, r, i + m + at(i + m).value);
    assert ReplaceFrom(s, at, r, i + m) == r + rest;
    assert ReplaceFrom(s, at, r, i) == s[i..i + m] + r + rest;
  }

  /** When the scan keeps more than `L` characters, or keeps everything to the end,
      the output copies the input there. */
  lemma CopyAfterKept(s: string, at: nat -> Option<nat>, r: string, i: nat, m: nat, L: nat)
    requires i + m <= |s| && ValidMatches(s, at)
    requires ReplaceFrom(s, at, r, i) == s[i..i + m] + ReplaceFrom(s, at, r, i + m)
    requires m == L + 1 || i + m == |s|
    ensures var out := ReplaceFrom(s, at, r, i);
      (i + L < |s| && L < |out| && out[..L + 1] == s[i..i + L + 1]) || out == s[i..]
  {
    if i + m == |s| {
      assert ReplaceFrom(s, at, r, i + m) == "";
    } else {
      var out := ReplaceFrom(s, at, r, i);
      assert out[..L + 1] == s[i..i + m];
    }
  }

  /** Text that starts with a safe replacement text after `c` holds no occurrence of
      `w` once what follows the replacement, after its last character, holds none. */
  lemma ReplacedStartNoOcc(c: char, r: string, rest: string, after: string, w: string)
    requires IsToken(w) && SafeFor(r, w) && after == [r[|r| - 1]] + rest
    requires forall k :: 1 <= k ==> !Occ(after, w, k)
    ensures forall k :: 1 <= k ==> !Occ([c] + (r + rest), w, k)
  {
    var t := [c] + (r + rest);
    assert t[1..1 + |r|] == r;
    assert t[|r|..] == after;
    forall k | 1 <= k ensures !Occ(t, w, k) {
      if |r| < k {
        OccInSuffix(t, |r|, w, k);
      }
      if Occ(t, w, k) {
        OccAvoidsReplacement(t, 1, r, w, k);
      }
    }
  }

  /** Text that starts with a kept character `x` after `c` holds no occurrence of `w`
      once none starts at `x` and what follows `x` holds none. */
  lemma KeptStartRestNoOcc(c: char, x: char, rest: string, w: string)
    requires !Occ([c] + ([x] + rest), w, 1)
    requires forall k :: 1 <= k ==> !Occ([x] + rest, w, k)
    ensures forall k :: 1 <= k ==> !Occ([c] + ([x] + rest), w, k)
  {
    var t := [c] + ([x] + rest);
    assert t[1..] == [x] + rest;
    forall k | 2 <= k ensures !Occ(t, w, k) {
      OccInSuffix(t, 1, w, k);
    }
  }

  /** The heart of the argument, by induction on the scan: the rewritten text from
      `i` on, after a character `c` with the word-ness the text before it has, holds no
      occurrence of `w`, provided every occurrence in the input is a match. */
  lemma {:induction false} ScanNoOcc(s: string, at: nat -> Option<nat>, r: string, w: string, i: nat, c: char)
    requires IsToken(w) && SafeFor(r, w)
    requires i <= |s| && ValidMatches(s, at)
    requires forall j :: 0 <= j <= |s| && Occ(s, w, j) ==> at(j).Some?
    requires WordAt(s, i - 1) ==> IsWordChar(c)
    ensures forall k :: 1 <= k ==> !Occ([c] + ReplaceFrom(s, at, r, i), w, k)
    decreases |s| - i
  {
    if i < |s| {
      match at(i)
      case Some(n) =>
        ScanNoOcc(s, at, r, w, i + n, r[|r| - 1]);
        var rest := ReplaceFrom(s, at, r, i + n);
        ReplacedStartNoOcc(c, r, rest, [r[|r| - 1]] + rest, w);
      case None =>
        ScanNoOcc(s, at, r, w, i + 1, s[i]);
        KeptStartNoOcc(s, at, r, w, i, c);
        KeptStartRestNoOcc(c, s[i], ReplaceFrom(s, at, r, i + 1), w);
    }
  }

  /** A global replace whose every occurrence of `w` in the input is a match, and whose
      replacement text is safe, leaves no occurrence of `w`. */
  lemma ReplaceLeavesNoOcc(s: string, at: nat -> Option<nat>, r: string, w: string)
    requires IsToken(w) && SafeFor(r, w) && ValidMatches(s, at)
    requires forall j :: 0 <= j <= |s| && Occ(s, w, j) ==> at(j).Some?
    ensures Absent(ReplaceFrom(s, at, r, 0), w)
  {
    var out := ReplaceFrom(s, at, r, 0);
    ScanNoOcc(s, at, r, w, 0, ' ');
    forall k ensures !Occ(out, w, k) {
      if 0 <= k {
        OccAfterSpace(out, ' ', w, k);
      }
    }
  }

  /** The replace for the word itself removes every whole-word occurrence of it. */
  lemma ReplaceRemovesWord(s: string, w: string, r: string)
    requires IsToken(w) && SafeFor(r, w)
    ensures Absent(ReplaceAllMatches(s, (Word(w), r)), w)
  {
    MatcherValid(Word(w), s);
    ReplaceLeavesNoOcc(s, Matcher(Word(w), s), r, w);
  }

  /** A replace with a safe text keeps a word absent. */
  lemma ReplaceKeepsAbsent(s: string, rule: (Pattern, string), w: string)
    requires IsToken(w) && SafeFor(rule.1, w)
    requires Absent(s, w)
    ensures Absent(ReplaceAllMatches(s, rule), w)
  {
    MatcherValid(rule.0, s);
    ReplaceLeavesNoOcc(s, Matcher(rule.0, s), rule.1, w);
  }
  predicate AllWord(r: string) {
    forall i :: 0 <= i < |r| ==> IsWordChar(r[i])
  }

  lemma {:induction false} RunEndAllWord(r: string, m: nat)
    requires AllWord(r) && m <= |r|
    ensures RunEnd(r, m) == |r|
    decreases |r| - m
  {
    if m < |r| {
      RunEndAllWord(r, m + 1);
    }
  }

  /** A replacement text made of a single run of word characters is safe for `w` when
      it is longer than `w` or holds, at `x`, a character `w` lacks. */
  lemma OneRunSafe(r: string, w: string, x: nat)
    requires IsToken(w) && |r| > 0 && AllWord(r)
    requires |r| > |w| || (x < |r| && Upper(r[x]) !in w)
    ensures SafeFor(r, w)
  {
    RunEndAllWord(r, 0);
    forall m | 0 <= m < |r| && IsRunStart(r, m) ensures RunEscapes(r, w, m) {
      assert m == 0;
    }
  }

  /** A run inside `a` ends where it did, whatever non-word text follows `a`. */
  lemma {:induction false} RunEndBeforeBreak(a: string, t: string, m: nat)
    requires m <= |a| && (t == [] || !IsWordChar(t[0]))
    ensures RunEnd(a + t, m) == RunEnd(a, m)
    decreases |a| - m
  {
    if m < |a| && IsWordChar(a[m]) {
      RunEndBeforeBreak(a, t, m + 1);
    }
  }

  /** A run inside `b` ends at the same place, shifted, after any prefix. */
  lemma {:induction false} RunEndAfterPrefix(p: string, b: string, m: nat)
    requires m <= |b|
    ensures RunEnd(p + b, |p| + m) == |p| + RunEnd(b, m)
    decreases |b| - m
  {
    if m < |b| && IsWordChar(b[m]) {
      RunEndAfterPrefix(p, b, m + 1);
    }
  }

  /** A run that starts in `a` escapes `w` in `a + t` as it does in `a`. */
  lemma RunInLeft(a: string, t: string, w: string, m: nat)
    requires SafeFor(a, w) && m < |a| && (t == [] || !IsWordChar(t[0]))
    requires IsRunStart(a + t, m)
    ensures RunEscapes(a + t, w, m)
  {
    var c := a + t;
    assert c[m] == a[m] && (m == 0 || c[m - 1] == a[m - 1]);
    assert IsRunStart(a, m);
    RunEndBeforeBreak(a, t, m);
    if RunEnd(a, m) - m <= |w| {
      var x :| m <= x < RunEnd(a, m) && Upper(a[x]) !in w;
      assert c[x] == a[x];
    }
  }

  /** A run that starts in `b` escapes `w` in `p + b` as it does in `b`. */
  lemma RunInRight(p: string, b: string, w: string, m: nat)
    requires SafeFor(b, w) && |p| <= m < |p| + |b| && (p == [] || !IsWordChar(p[|p| - 1]))
    requires IsRunStart(p + b, m)
    ensures RunEscapes(p + b, w, m)
  {
    var c := p + b;
    var m' := m - |p|;
    assert c[m] == b[m'];
    assert m' == 0 || c[m - 1] == b[m' - 1];
    assert IsRunStart(b, m');
    RunEndAfterPrefix(p, b, m');
    if RunEnd(b, m') - m' <= |w| {
      var x :| m' <= x < RunEnd(b, m') && Upper(b[x]) !in w;
      assert c[|p| + x] == b[x];
    }
  }

  /** Two safe texts joined by a non-word character make a safe text. */
  lemma SafeJoin(a: string, sep: char, b: string, w: string)
    requires SafeFor(a, w) && SafeFor(b, w) && !IsWordChar(sep)
    ensures SafeFor(a + [sep] + b, w)
  {
    var c := a + [sep] + b;
    var p := a + [sep];
    assert c == p + b && c == a + ([sep] + b);
    forall m | 0 <= m < |c| && IsRunStart(c, m) ensures RunEscapes(c, w, m) {
      if m < |a| {
        RunInLeft(a, [sep] + b, w, m);
      } else {
        RunInRight(p, b, w, m);
      }
    }
  }

  /** The e-mail replacement cannot bring back a word that lacks `U`, one of `M` and
      `O`, and one of `X` and `A`. */
  lemma EmailTextSafe(w: string)
    requires IsToken(w) && 'U' !in w && ('M' !in w || 'O' !in w) && ('X' !in w || 'A' !in w)
    ensures SafeFor(EmailRule.1, w)
  {
    OneRunSafe("user", w, 0);
    OneRunSafe("mock", w, if 'M' !in w then 0 else 1);
    OneRunSafe("example", w, if 'X' !in w then 1 else 2);
    SafeJoin("user", '@', "mock", w);
    assert "user" + ['@'] + "mock" == "user@mock";
    SafeJoin("user@mock", '.', "example", w);
    assert EmailRule.1 == "user@mock" + ['.'] + "example";
  }

  /** The masks for phone numbers and digit runs are single runs longer than any
      word of the table. */
  lemma MaskRunsSafe(w: string)
    requires IsToken(w) && |w| < 8
    ensures SafeFor(PhoneRule.1, w) && SafeFor(DigitsRule.1, w)
  {
    OneRunSafe(PhoneRule.1, w, 0);
    OneRunSafe(DigitsRule.1, w, 0);
  }

  /** The words of a replacement table are tokens, and neither their own replacement
      text nor any later one can bring them back. */
  ghost predicate TableSafe(table: seq<(Pattern, string)>) {
    forall j, n, w :: 0 <= j <= n < |table| && table[j].0 == Word(w) ==> IsToken(w) && SafeFor(table[n].1, w)
  }

  /** Applying a safe table in order leaves none of its words. */
  lemma {:induction false} InOrderRemovesWords(s: string, table: seq<(Pattern, string)>)
    requires TableSafe(table)
    ensures forall j, w :: 0 <= j < |table| && table[j].0 == Word(w) ==> Absent(ApplyInOrder(s, table), w)
    decreases |table|
  {
    if table != [] {
      var n := |table| - 1;
      var front := table[..n];
      assert TableSafe(front) by {
        assert forall j :: 0 <= j < n ==> front[j] == table[j];
      }
      InOrderRemovesWords(s, front);
      var prev := ApplyInOrder(s, front);
      forall j, w | 0 <= j < |table| && table[j].0 == Word(w) ensures Absent(ApplyInOrder(s, table), w) {
        if j < n {
          assert front[j] == table[j];
          ReplaceKeepsAbsent(prev, table[n], w);
        } else {
          assert table[n] == (Word(w), table[n].1);
          ReplaceRemovesWord(prev, w, table[n].1);
        }
      }
    }
  }

  /** What the pattern masks need of a word: upper-case letters, at most seven of
      them, and none of the letter combinations the e-mail mask spells. */
  predicate MaskableWord(w: string) {
    IsToken(w) && |w| < 8 && 'U' !in w && ('M' !in w || 'O' !in w) && ('X' !in w || 'A' !in w)
  }

  /** The words of `CONFIDENTIAL_REPLACEMENTS`, from the second entry on. */
  lemma TableWordIs(j: nat, w: string)
    requires j < |NamedReplacements| && NamedReplacements[j].0 == Word(w)
    ensures j >= 1
    ensures j == 1 ==> w == "RBL"
    ensures j == 2 ==> w == "SARTHAK"
    ensures j == 3 ==> w == "FINACLE"
    ensures j == 4 ==> w == "AHL"
    ensures j == 5 ==> w == "MSME"
    ensures j == 6 ==> w == "PHL"
    ensures j == 7 ==> w == "CIBIL"
    ensures j == 8 ==> w == "POSIDEX"
    ensures j == 9 ==> w == "RAMP"
    ensures j == 10 ==> w == "NCR"
    ensures j == 11 ==> w == "MPCG"
  {
  }

  lemma ThreeLetterWordsMaskable()
    ensures MaskableWord("RBL")
    ensures MaskableWord("AHL")
    ensures MaskableWord("PHL")
    ensures MaskableWord("NCR")
  {
  }

  lemma SystemWordsMaskable()
    ensures MaskableWord("SARTHAK")
    ensures MaskableWord("FINACLE")
  {
  }

  lemma ProductWordsMaskable()
    ensures MaskableWord("MSME")
    ensures MaskableWord("CIBIL")
    ensures MaskableWord("RAMP")
  {
  }

  lemma VendorWordsMaskable()
    ensures MaskableWord("POSIDEX")
    ensures MaskableWord("MPCG")
  {
  }

  /** Every word of `CONFIDENTIAL_REPLACEMENTS` is maskable. */
  lemma TableWord(j: nat, w: string)
    requires j < |NamedReplacements| && NamedReplacements[j].0 == Word(w)
    ensures MaskableWord(w) && j >= 1 && (j == 1 ==> w == "RBL")
  {
    TableWordIs(j, w);
    ThreeLetterWordsMaskable();
    SystemWordsMaskable();
    ProductWordsMaskable();
    VendorWordsMaskable();
  }

  /** The replacement texts of `CONFIDENTIAL_REPLACEMENTS`, from the second entry on. */
  lemma TableTextIs(n: nat)
    requires 1 <= n < |NamedReplacements|
    ensures n == 1 ==> NamedReplacements[n].1 == "ABC"
    ensures n == 2 ==> NamedReplacements[n].1 == "LOS_PLATFORM_X"
    ensures n == 3 ==> NamedReplacements[n].1 == "CORE_SYSTEM_X"
    ensures n == 4 ==> NamedReplacements[n].1 == "PRODUCT_X"
    ensures n == 5 ==> NamedReplacements[n].1 == "PRODUCT_Y"
    ensures n == 6 ==> NamedReplacements[n].1 == "PRODUCT_Z"
    ensures n == 7 ==> NamedReplacements[n].1 == "BUREAU_X"
    ensures n == 8 ==> NamedReplacements[n].1 == "VENDOR_X"
    ensures n == 9 ==> NamedReplacements[n].1 == "ENGINE_X"
    ensures n == 10 ==> NamedReplacements[n].1 == "REGION_1"
    ensures n == 11 ==> NamedReplacements[n].1 == "REGION_2"
  {
  }

  /** Every replacement text from the third entry on is one run of word characters
      with an `_` in it, which no token has. */
  lemma SystemTextsRuns()
    ensures AllWord("LOS_PLATFORM_X") && "LOS_PLATFORM_X"[3] == '_'
    ensures AllWord("CORE_SYSTEM_X") && "CORE_SYSTEM_X"[4] == '_'
  {
  }

  lemma ProductTextsRuns()
    ensures AllWord("PRODUCT_X") && "PRODUCT_X"[7] == '_'
    ensures AllWord("PRODUCT_Y") && "PRODUCT_Y"[7] == '_'
    ensures AllWord("PRODUCT_Z") && "PRODUCT_Z"[7] == '_'
  {
  }

  lemma VendorTextsRuns()
    ensures AllWord("BUREAU_X") && "BUREAU_X"[6] == '_'
    ensures AllWord("VENDOR_X") && "VENDOR_X"[6] == '_'
    ensures AllWord("ENGINE_X") && "ENGINE_X"[6] == '_'
  {
  }

  lemma RegionTextsRuns()
    ensures AllWord("REGION_1") && "REGION_1"[6] == '_'
    ensures AllWord("REGION_2") && "REGION_2"[6] == '_'
  {
  }

  /** No replacement text from the second entry on can bring back a token; the
      second, `ABC`, only needs to keep out `RBL`, which lacks its `A`. */
  lemma TableTextSafe(n: nat, w: string)
    requires 1 <= n < |NamedReplacements| && IsToken(w) && (n == 1 ==> w == "RBL")
    ensures SafeFor(NamedReplacements[n].1, w)
  {
    TableTextIs(n);
    var r := NamedReplacements[n].1;
    if n == 1 {
      assert AllWord(r) && 'A' !in w;
      OneRunSafe(r, w, 0);
    } else {
      SystemTextsRuns();
      ProductTextsRuns();
      VendorTextsRuns();
      RegionTextsRuns();
      var x := if n == 2 then 3 else if n == 3 then 4 else if n <= 6 then 7 else 6;
      assert x < |r| && r[x] == '_';
      OneRunSafe(r, w, x);
    }
  }

  lemma NamedTableSafe()
    ensures TableSafe(NamedReplacements)
  {
    forall j, n, w | 0 <= j <= n < |NamedReplacements| && NamedReplacements[j].0 == Word(w)
      ensures IsToken(w) && SafeFor(NamedReplacements[n].1, w)
    {
      TableWord(j, w);
      TableTextSafe(n, w);
    }
  }

  /** After `maskConfidentialPatterns`, no word of `CONFIDENTIAL_REPLACEMENTS` is left
      as a whole word, in any letter case. */
  lemma MaskLeavesNoTableWord(s: string)
    ensures forall j, w :: 0 <= j < |NamedReplacements| && NamedReplacements[j].0 == Word(w) ==> Absent(Mask(s), w)
  {
    NamedTableSafe();
    InOrderRemovesWords(s, NamedReplacements);
    var named := ApplyInOrder(s, NamedReplacements);
    forall j, w | 0 <= j < |NamedReplacements| && NamedReplacements[j].0 == Word(w) ensures Absent(Mask(s), w) {
      TableWord(j, w);
      EmailTextSafe(w);
      MaskRunsSafe(w);
      var e := ReplaceAllMatches(named, EmailRule);
      ReplaceKeepsAbsent(named, EmailRule, w);
      ReplaceKeepsAbsent(e, PhoneRule, w);
      ReplaceKeepsAbsent(ReplaceAllMatches(e, PhoneRule), DigitsRule, w);
    }
  }

  /** Inside an isolated slice, a position is a word character exactly where it
      is in the whole text; just outside the slice there is none. */
  lemma WordAtIsolated(t: string, u: string, a: nat, i: int)
    requires Isolated(t, u, a) && -1 <= i <= |u|
    ensures WordAt(u, i) == WordAt(t, a + i)
  {
    if 0 <= i < |u| {
      assert u[i] == t[a..a + |u|][i];
    }
  }

  /** A whole-word occurrence in an isolated slice is one in the whole text. */
  lemma OccIsolated(t: string, u: string, a: nat, w: string, k: int)
    requires Isolated(t, u, a)
    ensures Occ(u, w, k) ==> Occ(t, w, a + k)
  {
    if Occ(u, w, k) {
      WordAtIsolated(t, u, a, k - 1);
      WordAtIsolated(t, u, a, k);
      WordAtIsolated(t, u, a, k + |w| - 1);
      WordAtIsolated(t, u, a, k + |w|);
      forall x | 0 <= x < |w|
        ensures Upper(t[a + k + x]) == w[x]
      {
        assert t[a + k + x] == t[a..a + |u|][k + x];
      }
    }
  }

  /** A word absent from a text is absent from each of its isolated slices. */
  lemma AbsentIsolated(t: string, u: string, a: nat, w: string)
    requires Isolated(t, u, a) && Absent(t, w)
    ensures Absent(u, w)
  {
    forall k
      ensures !Occ(u, w, k)
    {
      OccIsolated(t, u, a, w, k);
    }
  }

  /** `splitLines` yields masked lines: none of them holds a word of
      `CONFIDENTIAL_REPLACEMENTS` as a whole word, in any letter case. */
  lemma SplitLinesHoldNoTableWord(v: Option<string>)
    ensures forall line, j, w :: line in SplitLines(v) && 0 <= j < |NamedReplacements| && NamedReplacements[j].0 == Word(w) ==> Absent(line, w)
  {
    if v.Some? && !IsBlank(v.value) {
      var t := Mask(Trim(v.value));
      MaskLeavesNoTableWord(Trim(v.value));
      LinesIsolated(t);
      forall line, j, w | line in SplitLines(v) && 0 <= j < |NamedReplacements| && NamedReplacements[j].0 == Word(w)
        ensures Absent(line, w)
      {
        var a: nat :| Isolated(t, line, a);
        AbsentIsolated(t, line, a, w);
      }
    }
  }
}
