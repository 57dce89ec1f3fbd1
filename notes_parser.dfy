/** The BRD generator page: a deterministic extraction of labelled lines from
    free-form notes, and a fixed "AI" enrichment on top of it. */
module NotesParser {
  import opened Text
  import opened Seqs
  import opened Workflow

  /** `BrdDraft`: seven text fields. */
  datatype Draft = Draft(
    problem: string,
    objectives: string,
    scopeIn: string,
    scopeOut: string,
    requirements: string,
    risks: string,
    data: string)

  /** The prefixes the parser looks for, in lower case. */
  const ProblemPrefix := "problem"
  const ObjectivesPrefix := "objectives"
  const ScopeInPrefix := "scope in"
  const ScopeOutPrefix := "scope out"
  const RisksPrefix := "risks"
  const DataPrefix := "data"

  /** The value of a field no line provides. */
  const Missing := "-"

  const FixedRequirements := "- Fetch customer profile\n- Compute eligibility\n- Route approvals"
  const AiRequirements := "- Auto-approve eligible cases with audit trail\n- Maker-checker for exceptions\n- Generate renewal letter"
  const ObjectivesSuffix := " (AI expanded with KPIs)"
  const DefaultObjectives := "Reduce TAT, improve compliance, strengthen auditability"
  const RisksSuffix := " (AI suggestions appended)"
  const DefaultRisks := "Rule bypass, data quality, fraud risk"

  /** `text.split(/\r?\n/).map(line => line.trim())`. Splitting on `\n` alone
      gives the same lines once they are trimmed: see `TrimIgnoresCarriageReturn`. */
  function NoteLines(text: string): (lines: seq<string>)
    ensures |lines| >= 1
    ensures forall i :: 0 <= i < |lines| ==> IsTrimmed(lines[i]) && '\n' !in lines[i]
  {
    var parts := Split(text, '\n');
    var lines := Map(parts, Trim);
    forall i | 0 <= i < |lines| ensures '\n' !in lines[i] {
      TrimIsSlice(parts[i]);
    }
    lines
  }

  /** Whether a line is the one a prefix looks for: its lower-cased text starts with it. */
  predicate Matches(line: string, prefix: string) {
    StartsWith(ToLower(line), prefix)
  }

  /** The index of the first line that matches `prefix`, or `|lines|` when none does. */
  function FirstMatch(lines: seq<string>, prefix: string): (k: nat)
    ensures k <= |lines|
    ensures forall j :: 0 <= j < k ==> !Matches(lines[j], prefix)
    ensures k < |lines| ==> Matches(lines[k], prefix)
  {
    if lines == [] then 0
    else if Matches(lines[0], prefix) then 0
    else 1 + FirstMatch(lines[1..], prefix)
  }

  /** `find(prefix)`: the first matching line, or `""`. */
  function FindLine(lines: seq<string>, prefix: string): (line: string)
    ensures line == "" || line in lines
  {
    var k := FirstMatch(lines, prefix);
    if k < |lines| then lines[k] else ""
  }

  /** `value.replace(/^[^:]+:\s*\/i, "")`: a label of at least one character that is
      not a colon, the colon ending it and the whitespace after it are cut off;
      a value with no colon, or one that starts with a colon, is left as it is. */
  function StripLabel(v: string): (r: string)
    ensures |r| <= |v| && r == v[|v| - |r|..]
    ensures FirstIndex(v, ':') == 0 || FirstIndex(v, ':') == |v| ==> r == v
    ensures 0 < FirstIndex(v, ':') < |v| ==>
              var k := FirstIndex(v, ':');
              k < |v| - |r| && IsBlank(v[k + 1..|v| - |r|]) && (r == [] || !IsWhitespace(r[0]))
  {
    var k := FirstIndex(v, ':');
    if k == 0 || k == |v| then v
    else
      var rest := v[k + 1..];
      var r := TrimStart(rest);
      assert v[k + 1..|v| - |r|] == rest[..|rest| - |r|];
      r
  }

  /** `clean(find(prefix)) || "-"`. */
  function Field(lines: seq<string>, prefix: string): (r: string)
    ensures r != ""
  {
    Or(StripLabel(FindLine(lines, prefix)), Missing)
  }

  /** `parseDeterministic`. */
  function ParseDeterministic(text: string): (d: Draft)
    ensures d.requirements == FixedRequirements
    ensures d.problem != "" && d.objectives != "" && d.scopeIn != "" && d.scopeOut != "" && d.risks != "" && d.data != ""
  {
    var lines := NoteLines(text);
    Draft(
      Field(lines, ProblemPrefix),
      Field(lines, ObjectivesPrefix),
      Field(lines, ScopeInPrefix),
      Field(lines, ScopeOutPrefix),
      FixedRequirements,
      Field(lines, RisksPrefix),
      Field(lines, DataPrefix))
  }

  /** `base.x && base.x !== "-" ? base.x + suffix : fallback`. */
  function Enrich(v: string, suffix: string, fallback: string): string {
    if v != "" && v != Missing then v + suffix else fallback
  }

  /** `buildAiDraft`: the deterministic draft with fixed AI requirements, and its
      objectives and risks either extended by a fixed suffix or, where nothing was
      extracted, replaced by a fixed default. */
  function BuildAiDraft(text: string): (d: Draft)
    ensures var base := ParseDeterministic(text);
            && d.problem == base.problem && d.scopeIn == base.scopeIn
            && d.scopeOut == base.scopeOut && d.data == base.data
            && d.requirements == AiRequirements
            && (base.objectives != Missing ==> d.objectives == base.objectives + ObjectivesSuffix)
            && (base.objectives == Missing ==> d.objectives == DefaultObjectives)
            && (base.risks != Missing ==> d.risks == base.risks + RisksSuffix)
            && (base.risks == Missing ==> d.risks == DefaultRisks)
  {
    var base := ParseDeterministic(text);
    base.(
      objectives := Enrich(base.objectives, ObjectivesSuffix, DefaultObjectives),
      requirements := AiRequirements,
      risks := Enrich(base.risks, RisksSuffix, DefaultRisks))
  }

  // ---------------------------------------------------------------------------
  // What a field is, in terms of the lines.

  /** A field is `"-"` when no line matches, or when the first matching line has
      nothing after its label; otherwise it is that line with the label cut off. */
  lemma FieldCases(lines: seq<string>, prefix: string)
    ensures var k := FirstMatch(lines, prefix);
            && (k == |lines| ==> Field(lines, prefix) == Missing)
            && (k < |lines| && StripLabel(lines[k]) == [] ==> Field(lines, prefix) == Missing)
            && (k < |lines| && StripLabel(lines[k]) != [] ==> Field(lines, prefix) == StripLabel(lines[k]))
  {
    var k := FirstMatch(lines, prefix);
    if k == |lines| {
      assert FindLine(lines, prefix) == "";
      assert FirstIndex("", ':') == 0;
    }
  }

  /** A line `name + ": " + value`, with `value` not starting with whitespace and
      `name` free of colons, gives back exactly `value`. */
  lemma StripLabelled(name: string, value: string)
    requires name != [] && ':' !in name
    requires value == [] || !IsWhitespace(value[0])
    ensures StripLabel(LabelledLine(name, value)) == value
  {
    var v := name + ": " + value;
    assert v == name + [':'] + (" " + value);
    FirstIndexAfter(name, ':', " " + value);
    var rest := v[|name| + 1..];
    assert rest == " " + value;
    assert LeadingSpace(rest) == 1 by {
      assert IsWhitespace(rest[0]);
      assert rest[1..] == value;
    }
  }

  /** Trimming after a lone `\r` at the end gives the same line: so splitting on
      `\r?\n` and on `\n` yield the same trimmed lines. */
  lemma TrimIgnoresCarriageReturn(s: string)
    ensures Trim(s + ['\r']) == Trim(s)
  {
    var t := s + ['\r'];
    assert t[..|s|] == s;
    assert TrailingStart(t) == TrailingStart(s);
    if IsBlank(s) {
      assert IsBlank(t);
    } else {
      LeadingSpacePrefix(s, ['\r']);
    }
  }

  /** Leading whitespace stops inside `s` when `s` is not blank. */
  lemma {:induction false} LeadingSpacePrefix(s: string, x: string)
    requires !IsBlank(s)
    ensures LeadingSpace(s + x) == LeadingSpace(s)
  {
    if IsWhitespace(s[0]) {
      assert (s + x)[1..] == s[1..] + x;
      assert !IsBlank(s[1..]) by {
        var i :| 0 <= i < |s| && !IsWhitespace(s[i]);
        assert s[1..][i - 1] == s[i];
      }
      LeadingSpacePrefix(s[1..], x);
    }
  }

  // ---------------------------------------------------------------------------
  // Round trip: notes written in the page's own sample format parse back.

  /** The labels of the sample notes, field by field, and the prefixes that find them. */
  const ProblemLabel := "Problem"
  const ObjectivesLabel := "Objectives"
  const ScopeInLabel := "Scope In"
  const ScopeOutLabel := "Scope Out"
  const RisksLabel := "Risks"
  const DataLabel := "Data"
  const Labels := [ProblemLabel, ObjectivesLabel, ScopeInLabel, ScopeOutLabel, RisksLabel, DataLabel]
  const Prefixes := [ProblemPrefix, ObjectivesPrefix, ScopeInPrefix, ScopeOutPrefix, RisksPrefix, DataPrefix]

  /** A value that can be written on one labelled line and read back. */
  predicate Writable(v: string) {
    v != [] && IsTrimmed(v) && '\n' !in v
  }

  /** A label that can head a line: it starts the line, and ends at its colon. */
  predicate LabelFits(name: string) {
    name != [] && !IsWhitespace(name[0]) && ':' !in name && '\n' !in name
  }

  /** The first `|prefix|` characters of `name` lower-case to `prefix`. */
  predicate Finds(name: string, prefix: string) {
    |prefix| <= |name| && forall i :: 0 <= i < |prefix| ==> LowerChar(name[i]) == prefix[i]
  }

  /** Some character of `name` lower-cases to something else than `prefix` has there. */
  predicate Clash(name: string, prefix: string) {
    exists i :: 0 <= i < |name| && i < |prefix| && LowerChar(name[i]) != prefix[i]
  }

  function LabelledLine(name: string, value: string): string {
    name + ": " + value
  }

  /** `names[k] + ": " + values[k]` for each `k`. */
  function LabelledLines(names: seq<string>, values: seq<string>): (lines: seq<string>)
    requires |names| == |values|
    ensures |lines| == |names|
    ensures forall k :: 0 <= k < |lines| ==> lines[k] == LabelledLine(names[k], values[k])
  {
    if names == [] then [] else [LabelledLine(names[0], values[0])] + LabelledLines(names[1..], values[1..])
  }

  function DraftValues(d: Draft): seq<string> {
    [d.problem, d.objectives, d.scopeIn, d.scopeOut, d.risks, d.data]
  }

  /** Notes in the sample format: one labelled line per field, joined by newlines. */
  function NotesOf(d: Draft): string {
    Join(LabelledLines(Labels, DraftValues(d)), "\n")
  }

  /** Writing notes from a draft and parsing them gives the draft back, except
      for the requirements, which the parser never reads. */
  lemma ParseNotesOf(d: Draft)
    requires forall k :: 0 <= k < |DraftValues(d)| ==> Writable(DraftValues(d)[k])
    ensures ParseDeterministic(NotesOf(d)) == d.(requirements := FixedRequirements)
  {
    var values := DraftValues(d);
    LabelsFit();
    LabelsMatch();
    LabelsClash();
    ParseLabelled(Labels, Prefixes, values, 0);
    ParseLabelled(Labels, Prefixes, values, 1);
    ParseLabelled(Labels, Prefixes, values, 2);
    ParseLabelled(Labels, Prefixes, values, 3);
    ParseLabelled(Labels, Prefixes, values, 4);
    ParseLabelled(Labels, Prefixes, values, 5);
  }

  /** Labelled lines, each label finding its own field and no later one, read back
      field `i` as `values[i]`. */
  lemma ParseLabelled(names: seq<string>, prefixes: seq<string>, values: seq<string>, i: nat)
    requires |names| == |prefixes| == |values| >= 1 && i < |names|
    requires forall k :: 0 <= k < |names| ==> LabelFits(names[k]) && Writable(values[k])
    requires forall k :: 0 <= k < |names| ==> Finds(names[k], prefixes[k])
    requires forall j, k :: 0 <= j < k < |names| ==> Clash(names[j], prefixes[k])
    ensures Field(NoteLines(Join(LabelledLines(names, values), "\n")), prefixes[i]) == values[i]
  {
    var lines := LabelledLines(names, values);
    forall k | 0 <= k < |lines| ensures IsTrimmed(lines[k]) && '\n' !in lines[k] {
      LabelledLineFits(names[k], values[k]);
    }
    SplitJoin(lines, '\n');
    TrimmedLinesUnchanged(lines);
    assert NoteLines(Join(lines, "\n")) == lines;
    forall j | 0 <= j < i ensures !Matches(lines[j], prefixes[i]) {
      ClashedLine(names[j], values[j], prefixes[i]);
    }
    LowerStartsWith(names[i], prefixes[i]);
    LabelledField(lines, i, prefixes[i], names[i], values[i]);
  }

  /** A labelled line of a writable value is trimmed and holds no newline. */
  lemma LabelledLineFits(name: string, value: string)
    requires LabelFits(name) && Writable(value)
    ensures IsTrimmed(LabelledLine(name, value)) && '\n' !in LabelledLine(name, value)
  {
    var line := LabelledLine(name, value);
    assert line[0] == name[0];
    assert line[|line| - 1] == value[|value| - 1];
  }

  /** Trimming lines that are already trimmed changes nothing. */
  lemma TrimmedLinesUnchanged(lines: seq<string>)
    requires forall i :: 0 <= i < |lines| ==> IsTrimmed(lines[i])
    ensures Map(lines, Trim) == lines
  {
    forall i | 0 <= i < |lines| ensures Trim(lines[i]) == lines[i] {
      TrimTrimmed(lines[i]);
    }
  }

  /** A line whose label clashes with `prefix` does not match it. */
  lemma ClashedLine(name: string, value: string, prefix: string)
    requires Clash(name, prefix)
    ensures !Matches(LabelledLine(name, value), prefix)
  {
    var i :| 0 <= i < |name| && i < |prefix| && LowerChar(name[i]) != prefix[i];
    var line := LabelledLine(name, value);
    assert line[i] == name[i];
    DiffersAt(line, prefix, i);
  }

  /** The first line matching `prefix` is `name + ": " + value`, so the field is `value`. */
  lemma LabelledField(lines: seq<string>, k: nat, prefix: string, name: string, value: string)
    requires k < |lines| && lines[k] == LabelledLine(name, value)
    requires forall j :: 0 <= j < k ==> !Matches(lines[j], prefix)
    requires LabelFits(name) && StartsWith(ToLower(name), prefix)
    requires Writable(value)
    ensures Field(lines, prefix) == value
  {
    PrefixMatches(name, value, prefix);
    FirstMatchIs(lines, prefix, k);
    assert FindLine(lines, prefix) == LabelledLine(name, value);
    StripLabelled(name, value);
  }

  /** The least matching index is `k` when line `k` matches and none before does. */
  lemma {:induction false} FirstMatchIs(lines: seq<string>, prefix: string, k: nat)
    requires k < |lines| && Matches(lines[k], prefix)
    requires forall j :: 0 <= j < k ==> !Matches(lines[j], prefix)
    ensures FirstMatch(lines, prefix) == k
  {
    if k > 0 {
      assert !Matches(lines[0], prefix);
      FirstMatchIs(lines[1..], prefix, k - 1);
    }
  }

  /** A label that matches keeps matching once text follows it. */
  lemma PrefixMatches(name: string, value: string, prefix: string)
    requires StartsWith(ToLower(name), prefix)
    ensures Matches(LabelledLine(name, value), prefix)
  {
    var t := ToLower(LabelledLine(name, value));
    assert t[..|prefix|] == ToLower(name)[..|prefix|];
  }

  /** A line whose lower-cased character at `i` differs from `prefix[i]` does not match. */
  lemma DiffersAt(line: string, prefix: string, i: nat)
    requires i < |prefix| && i < |line| && LowerChar(line[i]) != prefix[i]
    ensures !Matches(line, prefix)
  {
    if |prefix| <= |line| {
      assert ToLower(line)[..|prefix|][i] != prefix[i];
    }
  }

  /** A word whose first `|prefix|` characters lower-case to `prefix` matches it. */
  lemma LowerStartsWith(word: string, prefix: string)
    requires Finds(word, prefix)
    ensures StartsWith(ToLower(word), prefix)
  {
    assert ToLower(word)[..|prefix|] == prefix;
  }

  /** Each label matches its own prefix. */
  lemma LabelsMatch()
    ensures forall k :: 0 <= k < |Labels| ==> Finds(Labels[k], Prefixes[k])
  {
    forall k | 0 <= k < |Labels| ensures Finds(Labels[k], Prefixes[k]) {
      if k == 0 { ProblemLabelMatches(); }
      else if k == 1 { ObjectivesLabelMatches(); }
      else if k == 2 { ScopeInLabelMatches(); }
      else if k == 3 { ScopeOutLabelMatches(); }
      else if k == 4 { RisksLabelMatches(); }
      else { DataLabelMatches(); }
    }
  }

  /** The Kelvin sign lower-cases to `k`, so a line that spells "RISKS" with it is
      found by the risks prefix. */
  lemma KelvinSignMatches()
    ensures Matches("RIS\U{212A}S", RisksPrefix)
  {
    var line := "RIS\U{212A}S";
    assert LowerChar(line[3]) == 'k';
    assert Finds(line, RisksPrefix);
    LowerStartsWith(line, RisksPrefix);
  }

  lemma ProblemLabelMatches()
    ensures Finds(ProblemLabel, ProblemPrefix)
  {
  }

  lemma ObjectivesLabelMatches()
    ensures Finds(ObjectivesLabel, ObjectivesPrefix)
  {
  }

  lemma ScopeInLabelMatches()
    ensures Finds(ScopeInLabel, ScopeInPrefix)
  {
  }

  lemma ScopeOutLabelMatches()
    ensures Finds(ScopeOutLabel, ScopeOutPrefix)
  {
  }

  lemma RisksLabelMatches()
    ensures Finds(RisksLabel, RisksPrefix)
  {
  }

  lemma DataLabelMatches()
    ensures Finds(DataLabel, DataPrefix)
  {
  }

  /** A witness for `Clash`. */
  lemma ClashAt(name: string, prefix: string, i: nat)
    requires i < |name| && i < |prefix| && LowerChar(name[i]) != prefix[i]
    ensures Clash(name, prefix)
  {
  }

  /** No label finds the field of a later one. */
  lemma LabelsClash()
    ensures forall j, k :: 0 <= j < k < |Labels| ==> Clash(Labels[j], Prefixes[k])
  {
    forall j, k | 0 <= j < k < |Labels| ensures Clash(Labels[j], Prefixes[k]) {
      if k <= 3 { EarlyLabelsClash(); } else { LateLabelsClash(); }
    }
  }

  lemma EarlyLabelsClash()
    ensures Clash(ProblemLabel, ObjectivesPrefix)
    ensures Clash(ProblemLabel, ScopeInPrefix) && Clash(ObjectivesLabel, ScopeInPrefix)
    ensures Clash(ProblemLabel, ScopeOutPrefix) && Clash(ObjectivesLabel, ScopeOutPrefix) && Clash(ScopeInLabel, ScopeOutPrefix)
  {
    ClashAt(ProblemLabel, ObjectivesPrefix, 0);
    ClashAt(ProblemLabel, ScopeInPrefix, 0);
    ClashAt(ObjectivesLabel, ScopeInPrefix, 0);
    ClashAt(ProblemLabel, ScopeOutPrefix, 0);
    ClashAt(ObjectivesLabel, ScopeOutPrefix, 0);
    ClashAt(ScopeInLabel, ScopeOutPrefix, 6);
  }

  lemma LateLabelsClash()
    ensures Clash(ProblemLabel, RisksPrefix) && Clash(ObjectivesLabel, RisksPrefix)
    ensures Clash(ScopeInLabel, RisksPrefix) && Clash(ScopeOutLabel, RisksPrefix)
    ensures Clash(ProblemLabel, DataPrefix) && Clash(ObjectivesLabel, DataPrefix) && Clash(ScopeInLabel, DataPrefix)
    ensures Clash(ScopeOutLabel, DataPrefix) && Clash(RisksLabel, DataPrefix)
  {
    ClashAt(ProblemLabel, RisksPrefix, 0);
    ClashAt(ObjectivesLabel, RisksPrefix, 0);
    ClashAt(ScopeInLabel, RisksPrefix, 0);
    ClashAt(ScopeOutLabel, RisksPrefix, 0);
    ClashAt(ProblemLabel, DataPrefix, 0);
    ClashAt(ObjectivesLabel, DataPrefix, 0);
    ClashAt(ScopeInLabel, DataPrefix, 0);
    ClashAt(ScopeOutLabel, DataPrefix, 0);
    ClashAt(RisksLabel, DataPrefix, 0);
  }

  /** Every label can head a line. */
  lemma LabelsFit()
    ensures forall k :: 0 <= k < |Labels| ==> LabelFits(Labels[k])
  {
  }
}
