/** The BA's BRD generator: the intake data loaded into the form (with the
    conversation threads written out as text), the mock enrichment that adds
    requirements, success criteria and a timeline, and the save and send guards. */
module BaGenerate {
  import opened Options
  import opened Text
  import opened Workflow

  /** The eight fields the BA fills in. */
  datatype BrdInput = BrdInput(
    problem: string, objectives: string, scopeIn: string, scopeOut: string,
    risks: string, dataRequired: string, assumptions: string, additionalNotes: string)

  const DefaultInput := BrdInput("", "", "", "", "", "", "", "")

  datatype InputField =
    FProblem | FObjectives | FScopeIn | FScopeOut | FRisks | FDataRequired | FAssumptions | FAdditionalNotes

  function GetInput(b: BrdInput, f: InputField): string {
    match f
    case FProblem => b.problem
    case FObjectives => b.objectives
    case FScopeIn => b.scopeIn
    case FScopeOut => b.scopeOut
    case FRisks => b.risks
    case FDataRequired => b.dataRequired
    case FAssumptions => b.assumptions
    case FAdditionalNotes => b.additionalNotes
  }

  /** `handleInputChange`: only the named field takes the new value. */
  function SetInput(b: BrdInput, f: InputField, v: string): (r: BrdInput)
    ensures GetInput(r, f) == v
    ensures forall g :: g != f ==> GetInput(r, g) == GetInput(b, g)
  {
    match f
    case FProblem => b.(problem := v)
    case FObjectives => b.(objectives := v)
    case FScopeIn => b.(scopeIn := v)
    case FScopeOut => b.(scopeOut := v)
    case FRisks => b.(risks := v)
    case FDataRequired => b.(dataRequired := v)
    case FAssumptions => b.(assumptions := v)
    case FAdditionalNotes => b.(additionalNotes := v)
  }

  /** The enriched BRD: the input as it was, plus three generated texts. */
  datatype BrdGenerated = BrdGenerated(input: BrdInput, requirements: string, successCriteria: string, timeline: string)

  // ---------------------------------------------------------------------------
  // The threads text
  // ---------------------------------------------------------------------------

  const ThreadsBanner := "\n\n--- CONVERSATION THREADS ---\n"

  /** A truthy optional string: present and not empty. */
  predicate Present(o: Option<string>) {
    o.Some? && o.value != ""
  }

  /** `value || fallback` on an optional string field: the value when it is
      present and not empty, the fallback otherwise. */
  function OrElse(o: Option<string>, fallback: string): (r: string)
    ensures Present(o) ==> r == o.value
    ensures !Present(o) ==> r == fallback
  {
    Or(o.GetOr(""), fallback)
  }

  /** `if (value) text += "<name>: <value>\n"`: the line, or nothing when the
      field is absent or empty. */
  function OptionalLine(name: string, o: Option<string>): (r: string)
    ensures !Present(o) ==> r == ""
    ensures Present(o) ==> r == name + ": " + o.value + "\n"
  {
    if Present(o) then name + ": " + o.value + "\n" else ""
  }

  /** The text one thread adds, numbered `n`. */
  function ThreadBlock(t: Thread, n: nat): string {
    "\nThread " + NatToString(n) + ": " + t.title + "\n"
    + "Date: " + t.date + " " + OrElse(t.time, "") + "\n"
    + OptionalLine("Participants", t.participants)
    + OptionalLine("Transcript", t.transcript)
    + OptionalLine("Notes", t.notes)
  }

  /** `f(xs[0], first) + f(xs[1], first + 1) + ...`: the texts of `xs`, numbered
      from `first` on. */
  function Numbered<T>(xs: seq<T>, first: nat, f: (T, nat) -> string): string
    decreases |xs|
  {
    if xs == [] then "" else f(xs[0], first) + Numbered(xs[1..], first + 1, f)
  }

  /** Adding an item at the end adds its text at the end, numbered after the others. */
  lemma {:induction false} NumberedSnoc<T>(xs: seq<T>, x: T, first: nat, f: (T, nat) -> string)
    ensures Numbered(xs + [x], first, f) == Numbered(xs, first, f) + f(x, first + |xs|)
    decreases |xs|
  {
    if xs == [] {
      assert [x][1..] == [];
    } else {
      assert (xs + [x])[1..] == xs[1..] + [x];
      NumberedSnoc(xs[1..], x, first + 1, f);
    }
  }

  /** Items are numbered in order: the `k`-th item's text carries number
      `first + k` and sits between the texts of the items before and after it. */
  lemma {:induction false} NumberedAt<T>(xs: seq<T>, k: nat, first: nat, f: (T, nat) -> string)
    requires k < |xs|
    ensures Numbered(xs, first, f) == Numbered(xs[..k], first, f) + f(xs[k], first + k) + Numbered(xs[k + 1..], first + k + 1, f)
    decreases k
  {
    if k == 0 {
      assert xs[..0] == [];
    } else {
      NumberedAt(xs[1..], k - 1, first + 1, f);
      assert xs[1..][..k - 1] == xs[1..k];
      assert xs[1..][k - 1] == xs[k];
      assert xs[1..][k..] == xs[k + 1..];
      assert xs[..k][1..] == xs[1..k];
    }
  }

  /** The blocks of the threads, numbered from 1. */
  function Blocks(ts: seq<Thread>): string {
    Numbered(ts, 1, ThreadBlock)
  }

  /** The `k`-th thread (from 0) is written as thread number `k + 1`, after the
      blocks of the threads before it and before those after it. */
  lemma ThreadNumbered(ts: seq<Thread>, k: nat)
    requires k < |ts|
    ensures Blocks(ts) == Blocks(ts[..k]) + ThreadBlock(ts[k], k + 1) + Numbered(ts[k + 1..], k + 2, ThreadBlock)
  {
    NumberedAt(ts, k, 1, ThreadBlock);
  }

  /** The threads part of the additional notes: nothing without threads, else the
      banner and the numbered blocks. */
  function ThreadsText(ts: seq<Thread>): (r: string)
    ensures ts == [] ==> r == ""
    ensures ts != [] ==> r == ThreadsBanner + Blocks(ts)
  {
    if ts == [] then "" else ThreadsBanner + Blocks(ts)
  }

  /** `xs.forEach((x, index) => text += f(x, index + first))`, starting from `text`. */
  method AppendNumbered<T>(text0: string, xs: seq<T>, first: nat, f: (T, nat) -> string) returns (text: string)
    ensures text == text0 + Numbered(xs, first, f)
  {
    text := text0;
    var i := 0;
    while i < |xs|
      invariant 0 <= i <= |xs|
      invariant text == text0 + Numbered(xs[..i], first, f)
    {
      NumberedSnoc(xs[..i], xs[i], first, f);
      assert xs[..i + 1] == xs[..i] + [xs[i]];
      text := text + f(xs[i], first + i);
      i := i + 1;
    }
    assert xs[..i] == xs;
  }

  /** The loader's threads text: empty without threads; otherwise the banner,
      then one block per thread added with `+=`, numbered from 1. */
  method BuildThreadsText(ts: seq<Thread>) returns (text: string)
    ensures text == ThreadsText(ts)
  {
    text := "";
    if |ts| > 0 {
      text := AppendNumbered(ThreadsBanner, ts, 1, ThreadBlock);
    }
  }

  // ---------------------------------------------------------------------------
  // Loading the intake data
  // ---------------------------------------------------------------------------

  /** The stored intake record as parsed; a field the record lacks is `None`. */
  datatype IntakeData = IntakeData(
    brief: Option<string>, reqTitle: Option<string>, reqType: Option<string>,
    priority: Option<string>, owner: Option<string>, tenant: Option<string>,
    threads: Option<seq<Thread>>)

  /** A template literal's `${value}`: an absent field renders as "undefined". */
  function Shown(o: Option<string>): string {
    if o.Some? then o.value else "undefined"
  }

  /** The form after loading the intake record, when there is one: the brief
      becomes the problem, the title, type and priority the objectives, and the
      owner, tenant and threads the additional notes. The other fields stay. */
  function LoadIntake(input: BrdInput, data: Option<IntakeData>, threadsText: string): (r: BrdInput)
    ensures data.None? ==> r == input
    ensures data.Some? ==>
              && r == input.(problem := r.problem, objectives := r.objectives, additionalNotes := r.additionalNotes)
              && r.problem == (if data.value.brief.Some? then data.value.brief.value else "")
              && r.objectives == "Request: " + Shown(data.value.reqTitle) + "\nType: " + Shown(data.value.reqType)
                                   + "\nPriority: " + Shown(data.value.priority)
              && r.additionalNotes == "Owner: " + OrElse(data.value.owner, "N/A") + "\nTenant: " + Shown(data.value.tenant) + threadsText
  {
    match data
    case None => input
    case Some(d) =>
      input.(
        problem := if d.brief.Some? then d.brief.value else "",
        objectives := "Request: " + Shown(d.reqTitle) + "\nType: " + Shown(d.reqType) + "\nPriority: " + Shown(d.priority),
        additionalNotes := "Owner: " + OrElse(d.owner, "N/A") + "\nTenant: " + Shown(d.tenant) + threadsText)
  }

  /** The threads of an intake record: none when the field is missing. */
  function IntakeThreads(data: IntakeData): seq<Thread> {
    if data.threads.Some? then data.threads.value else []
  }

  /** The loader: builds the threads text and fills the form. The stored intake
      record is consumed, so the second result is always `None`. */
  method LoadIntakeData(input: BrdInput, data: Option<IntakeData>) returns (r: BrdInput, remaining: Option<IntakeData>)
    ensures data.None? ==> r == input
    ensures data.Some? ==> r == LoadIntake(input, data, ThreadsText(IntakeThreads(data.value)))
    ensures remaining.None?
  {
    remaining := None;
    r := input;
    if data.Some? {
      var threadsText := BuildThreadsText(IntakeThreads(data.value));
      r := LoadIntake(input, data, threadsText);
    }
  }

  // ---------------------------------------------------------------------------
  // Enrichment
  // ---------------------------------------------------------------------------

  /** `problem.split(".")[0]`: the problem up to its first full stop. */
  function ProblemSubject(input: BrdInput): (r: string)
    ensures StartsWith(input.problem, r) && '.' !in r
    ensures |r| < |input.problem| ==> input.problem[|r|] == '.'
    ensures '.' !in input.problem ==> r == input.problem
  {
    BeforeFirst(input.problem, '.')
  }

  /** `s.split(",")[0]?.trim() || fallback`: the first comma-separated item,
      trimmed, or the fallback when that item is blank. */
  function FirstItem(s: string, fallback: string): (r: string)
    ensures IsBlank(BeforeFirst(s, ',')) ==> r == fallback
    ensures !IsBlank(BeforeFirst(s, ',')) ==> r != "" && IsTrimmed(r) && ',' !in r
    ensures !IsBlank(BeforeFirst(s, ',')) ==> r == Trim(BeforeFirst(s, ','))
    ensures ',' !in s && IsTrimmed(s) ==> r == Or(s, fallback)
    ensures forall c :: c in r ==> c in s || c in fallback
  {
    var item := BeforeFirst(s, ',');
    TrimIsSlice(item);
    if ',' !in s && IsTrimmed(s) then
      assert item == s by { assert StartsWith(s, item); assert |item| == |s|; }
      TrimTrimmed(s);
      Or(Trim(item), fallback)
    else
      Or(Trim(item), fallback)
  }

  /** The five requirement bullets, the first three built from the input. */
  function RequirementLines(input: BrdInput): (lines: seq<string>)
    ensures |lines| == 5
    ensures lines[0] == "- " + ProblemSubject(input) + " resolution through system automation"
    ensures lines[1] == "- Implement " + FirstItem(input.objectives, "solution") + " workflows"
    ensures lines[2] == "- Data validation for " + FirstItem(input.dataRequired, "inputs")
    ensures lines[3] == "- Error handling and fallback mechanisms"
    ensures lines[4] == "- Audit trail and compliance logging"
  {
    [ "- " + ProblemSubject(input) + " resolution through system automation",
      "- Implement " + FirstItem(input.objectives, "solution") + " workflows",
      "- Data validation for " + FirstItem(input.dataRequired, "inputs"),
      "- Error handling and fallback mechanisms",
      "- Audit trail and compliance logging" ]
  }

  const SuccessCriteria := "\n- 50% reduction in manual effort\n- 99.5% system availability\n- Zero unhandled errors in production\n- 100% stakeholder approval\n- All test cases passing (95% coverage)"

  const Timeline := "\n- Requirements finalization: 2 weeks\n- Development & Testing: 4-6 weeks\n- UAT: 2-3 weeks\n- Go-live: 1 week preparation"

  /** The requirements text: a line break, then the bullets one per line. */
  function Requirements(input: BrdInput): string {
    "\n" + Join(RequirementLines(input), "\n")
  }

  /** `enrichedBRD`. */
  function Enriched(input: BrdInput): (g: BrdGenerated)
    ensures g.input == input
    ensures g.requirements == "\n" + Join(RequirementLines(input), "\n")
    ensures g.successCriteria == SuccessCriteria && g.timeline == Timeline
  {
    BrdGenerated(input, Requirements(input), SuccessCriteria, Timeline)
  }

  datatype Step = InputStep | GeneratedStep

  datatype PageState = PageState(step: Step, input: BrdInput, generated: Option<BrdGenerated>)

  /** `generateBRD`: refused while the problem or the objectives are empty;
      otherwise the enriched BRD is shown. */
  function GenerateBrd(p: PageState): (q: PageState)
    ensures p.input.problem == "" || p.input.objectives == "" ==> q == p
    ensures p.input.problem != "" && p.input.objectives != "" ==>
              q == PageState(GeneratedStep, p.input, Some(Enriched(p.input)))
  {
    if p.input.problem == "" || p.input.objectives == "" then p
    else p.(step := GeneratedStep, generated := Some(Enriched(p.input)))
  }

  /** `handleSave` and `handleSend`: the last generated BRD is stored only when
      there is one; otherwise the stored one stays. */
  function SaveGenerated(p: PageState, lastGenerated: Option<BrdGenerated>): (r: Option<BrdGenerated>)
    ensures p.generated.None? ==> r == lastGenerated
    ensures p.generated.Some? ==> r == p.generated
  {
    if p.generated.Some? then p.generated else lastGenerated
  }

  /** A line break followed by `\n`-joined single lines splits back into an empty
      line and those lines. */
  lemma SplitAfterBreak(lines: seq<string>)
    requires |lines| >= 1
    requires forall k :: 0 <= k < |lines| ==> '\n' !in lines[k]
    ensures Split("\n" + Join(lines, "\n"), '\n') == [""] + lines
  {
    SplitJoin(lines, '\n');
    SplitCons("", '\n', Join(lines, "\n"));
    assert "\n" + Join(lines, "\n") == "" + ['\n'] + Join(lines, "\n");
  }

  /** A line built from single-line pieces is a single line. */
  lemma SingleLine(a: string, x: string, b: string)
    requires '\n' !in a && '\n' !in x && '\n' !in b
    ensures '\n' !in a + x + b
  {
  }

  lemma PrefixesSingleLine()
    ensures '\n' !in "- " && '\n' !in "- Implement " && '\n' !in "- Data validation for "
  {
  }

  lemma SuffixesSingleLine()
    ensures '\n' !in " workflows" && '\n' !in "solution" && '\n' !in "inputs" && '\n' !in ""
  {
  }

  lemma FirstBulletSingleLine()
    ensures '\n' !in " resolution through system automation"
  {
  }

  lemma FourthBulletSingleLine()
    ensures '\n' !in "- Error handling and fallback mechanisms"
  {
  }

  lemma FifthBulletSingleLine()
    ensures '\n' !in "- Audit trail and compliance logging"
  {
  }

  /** Read line by line, the requirements text is an empty first line and then
      the five bullets, as long as the input fields it quotes are single lines. */
  lemma RequirementsByLine(input: BrdInput)
    requires '\n' !in input.problem && '\n' !in input.objectives && '\n' !in input.dataRequired
    ensures Split(Requirements(input), '\n') == [""] + RequirementLines(input)
  {
    var lines := RequirementLines(input);
    PrefixesSingleLine();
    SuffixesSingleLine();
    FirstBulletSingleLine();
    FourthBulletSingleLine();
    FifthBulletSingleLine();
    SingleLine("- ", ProblemSubject(input), " resolution through system automation");
    SingleLine("- Implement ", FirstItem(input.objectives, "solution"), " workflows");
    SingleLine("- Data validation for ", FirstItem(input.dataRequired, "inputs"), "");
    assert "- Data validation for " + FirstItem(input.dataRequired, "inputs") + "" == lines[2];
    SplitAfterBreak(lines);
  }
}
