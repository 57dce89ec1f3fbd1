/** The request and BRD data library: the entities a stakeholder request carries,
    the default BRD master data a BA starts from, the simulated AI fill and the
    plain-text BRD template. */
module Workflow {
  import opened Options
  import opened Text

  datatype Thread = Thread(
    id: string, title: string, date: string,
    time: Option<string>, participants: Option<string>, transcript: Option<string>, notes: Option<string>)

  datatype RequestStatus = New | InProgress | Generated | Sent | Approved | ChangesRequested

  /** Who created a request; `Unrecorded` is a request stored without the field. */
  datatype Creator = ByStakeholder | ByBa | Unrecorded

  /** The thirty free-text fields of a BRD. */
  datatype Master = Master(
    title: string,
    bu: string,
    domain: string,
    product: string,
    priority: string,
    objective: string,
    kpis: string,
    assumptions: string,
    constraints: string,
    tags: string,
    scopeIn: string,
    scopeOut: string,
    channels: string,
    personas: string,
    process: string,
    sources: string,
    consumers: string,
    retentionYears: string,
    auditRequired: string,
    piiClass: string,
    regMap: string,
    mis: string,
    tps: string,
    latency: string,
    availability: string,
    rpo: string,
    rto: string,
    auth: string,
    securityControls: string,
    observability: string)

  /** The names of the BRD fields, as the keys of the master record. */
  datatype MasterKey =
    | KTitle
    | KBu
    | KDomain
    | KProduct
    | KPriority
    | KObjective
    | KKpis
    | KAssumptions
    | KConstraints
    | KTags
    | KScopeIn
    | KScopeOut
    | KChannels
    | KPersonas
    | KProcess
    | KSources
    | KConsumers
    | KRetentionYears
    | KAuditRequired
    | KPiiClass
    | KRegMap
    | KMis
    | KTps
    | KLatency
    | KAvailability
    | KRpo
    | KRto
    | KAuth
    | KSecurityControls
    | KObservability

  datatype Request = Request(
    id: string, reqType: string, reqTitle: string, owner: string, tenant: string,
    priority: string, brief: string, threads: seq<Thread>, createdAt: string,
    createdBy: Creator, status: RequestStatus, brdMaster: Option<Master>,
    aiGeneratedAt: Option<string>, sentAt: Option<string>, reviewerComment: Option<string>)

  /** The fields a stakeholder form submits. */
  datatype Payload = Payload(
    reqType: string, reqTitle: string, owner: string, tenant: string,
    priority: string, brief: string, threads: seq<Thread>)

  /** `master[key]`. */
  function Get(m: Master, k: MasterKey): string {
    match k
    case KTitle => m.title
    case KBu => m.bu
    case KDomain => m.domain
    case KProduct => m.product
    case KPriority => m.priority
    case KObjective => m.objective
    case KKpis => m.kpis
    case KAssumptions => m.assumptions
    case KConstraints => m.constraints
    case KTags => m.tags
    case KScopeIn => m.scopeIn
    case KScopeOut => m.scopeOut
    case KChannels => m.channels
    case KPersonas => m.personas
    case KProcess => m.process
    case KSources => m.sources
    case KConsumers => m.consumers
    case KRetentionYears => m.retentionYears
    case KAuditRequired => m.auditRequired
    case KPiiClass => m.piiClass
    case KRegMap => m.regMap
    case KMis => m.mis
    case KTps => m.tps
    case KLatency => m.latency
    case KAvailability => m.availability
    case KRpo => m.rpo
    case KRto => m.rto
    case KAuth => m.auth
    case KSecurityControls => m.securityControls
    case KObservability => m.observability
  }

  /** `{ ...m, [key]: v }`: only the named field takes the new value. */
  function Set(m: Master, k: MasterKey, v: string): (r: Master)
    ensures Get(r, k) == v
    ensures forall j :: j != k ==> Get(r, j) == Get(m, j)
  {
    match k
    case KTitle => m.(title := v)
    case KBu => m.(bu := v)
    case KDomain => m.(domain := v)
    case KProduct => m.(product := v)
    case KPriority => m.(priority := v)
    case KObjective => m.(objective := v)
    case KKpis => m.(kpis := v)
    case KAssumptions => m.(assumptions := v)
    case KConstraints => m.(constraints := v)
    case KTags => m.(tags := v)
    case KScopeIn => m.(scopeIn := v)
    case KScopeOut => m.(scopeOut := v)
    case KChannels => m.(channels := v)
    case KPersonas => m.(personas := v)
    case KProcess => m.(process := v)
    case KSources => m.(sources := v)
    case KConsumers => m.(consumers := v)
    case KRetentionYears => m.(retentionYears := v)
    case KAuditRequired => m.(auditRequired := v)
    case KPiiClass => m.(piiClass := v)
    case KRegMap => m.(regMap := v)
    case KMis => m.(mis := v)
    case KTps => m.(tps := v)
    case KLatency => m.(latency := v)
    case KAvailability => m.(availability := v)
    case KRpo => m.(rpo := v)
    case KRto => m.(rto := v)
    case KAuth => m.(auth := v)
    case KSecurityControls => m.(securityControls := v)
    case KObservability => m.(observability := v)
  }

  /** JavaScript's `a || b` on strings: `a` unless it is the empty string. */
  function Or(a: string, b: string): string {
    if a == "" then b else a
  }

  /** `safeParse`: the stored value as the parser reads it, or the fallback for a
      missing or empty value and for one the parser rejects; it never fails. */
  function SafeParse<T(==)>(stored: Option<string>, parse: string -> Option<T>, fallback: T): (r: T)
    ensures stored == None || stored == Some("") ==> r == fallback
    ensures stored.Some? && parse(stored.value).None? ==> r == fallback
    ensures r == fallback || (stored.Some? && stored.value != "" && parse(stored.value) == Some(r))
    ensures stored.Some? && stored.value != "" && parse(stored.value).Some? ==> r == parse(stored.value).value
  {
    match stored
    case None => fallback
    case Some(v) => if v == "" then fallback else parse(v).GetOr(fallback)
  }

  /** A master with every field empty. */
  const EmptyMaster: Master := Master("", "", "", "", "", "", "", "", "", "", "", "", "", "", "", "", "", "", "", "", "", "", "", "", "", "", "", "", "", "")

  /** The constant BRD master data; a request's title, owner, priority and brief
      override the first four of them. */
  const FixedDefaults: Master :=
    Master(
    title := "Digital Loan Origination (LOS) — " + "Retail Term Loan",
    bu := "Retail Lending",
    domain := "Lending / LOS",
    product := "Retail Term Loan",
    priority := "P2",
    objective := "Reduce onboarding turnaround time and " + "improve policy compliance via " + "rule-driven eligibility, automated " + "KYC/AML checks, and audit-grade " + "approvals.",
    kpis := "Reduce TAT from 2 days to 2 hours\n" + "Increase conversion by 12%\n" + "Reduce manual exceptions by 40%",
    assumptions := "CKYC and bureau services available " + "99.5%+\n" + "Branch users trained on maker-checker\n" + "DMS supports versioned docs",
    constraints := "Must integrate with existing CBS & LMS\n" + "Audit retention 8 years\n" + "PII must be masked by default",
    tags := "NBFC, KYC, AML, Audit, Maker-Checker",
    scopeIn := "Digital onboarding with CKYC prefill\n" + "Eligibility + pricing rule engine " + "(FOIR/DSCR/LTV)\n" + "Maker-checker approvals with SLAs\n" + "Audit trail & evidence logs",
    scopeOut := "Collections module changes\n" + "General ledger posting changes",
    channels := "Branch, DSA, Web, API",
    personas := "Customer, DSA, RM, Credit Officer, " + "Risk, Compliance, InfoSec",
    process := "As-Is: manual document collection and " + "approval tracking.\n" + "To-Be: rule-driven eligibility, " + "automated checks, staged approvals with " + "evidence, exportable audit pack.",
    sources := "Credit Bureau\n" + "Bank statement aggregator\n" + "CBS\n" + "CRM\n" + "DMS\n" + "AML screening",
    consumers := "LMS\nCBS\nDWH/MIS\nRegulatory reporting",
    retentionYears := "8",
    auditRequired := "Yes",
    piiClass := "High",
    regMap := "RBI KYC Master Direction\n" + "RBI Digital Lending Guidelines\n" + "Internal Credit Policy CP-RTL-2026",
    mis := "TAT by channel\n" + "Exception rate\n" + "Policy overrides by approver\n" + "Audit extracts (monthly)",
    tps := "200 TPS / 2,000 concurrent",
    latency := "P95 < 300ms (eligibility); P95 < 1s " + "(document validation)",
    availability := "99.9%",
    rpo := "15 min",
    rto := "2 hours",
    auth := "SSO + MFA + RBAC",
    securityControls := "PII masking in UI\n" + "Encryption at rest/in transit\n" + "HSM keys\n" + "Maker-checker for overrides\n" + "Immutable audit logs",
    observability := "Correlation/trace IDs\n" + "Centralized logs\n" + "Alerting on SLA breaches\n" + "Audit dashboards")

  /** The request's non-empty title, owner, priority and brief in place of the
      corresponding defaults; every other field is the default. */
  function OverrideFromRequest(req: Request, d: Master): (m: Master)
    ensures m.title == (if req.reqTitle != "" then req.reqTitle else d.title)
    ensures m.bu == (if req.owner != "" then req.owner else d.bu)
    ensures m.priority == (if req.priority != "" then req.priority else d.priority)
    ensures m.objective == (if req.brief != "" then req.brief else d.objective)
    ensures forall k :: k != KTitle && k != KBu && k != KPriority && k != KObjective ==> Get(m, k) == Get(d, k)
  {
    d.(title := Or(req.reqTitle, d.title),
       bu := Or(req.owner, d.bu),
       priority := Or(req.priority, d.priority),
       objective := Or(req.brief, d.objective))
  }

  /** `defaultBRDMasterFromRequest`: the master data a BA starts from. */
  function DefaultMasterFromRequest(req: Request): (m: Master)
    ensures m.title == Or(req.reqTitle, FixedDefaults.title) && m.bu == Or(req.owner, FixedDefaults.bu)
    ensures m.priority == Or(req.priority, FixedDefaults.priority)
    ensures m.objective == Or(req.brief, FixedDefaults.objective)
    ensures forall k :: k != KTitle && k != KBu && k != KPriority && k != KObjective ==> Get(m, k) == Get(FixedDefaults, k)
  {
    OverrideFromRequest(req, FixedDefaults)
  }

  /** The defaults read nothing of the request but its title, owner, priority and brief. */
  lemma DefaultMasterReadsFourFields(a: Request, b: Request)
    requires a.reqTitle == b.reqTitle && a.owner == b.owner
    requires a.priority == b.priority && a.brief == b.brief
    ensures DefaultMasterFromRequest(a) == DefaultMasterFromRequest(b)
  {
  }

  /** `createStakeholderRequest`: a new request carrying the submitted fields. */
  function CreateStakeholderRequest(p: Payload, id: string, now: string): (r: Request)
    ensures r.id == id && r.createdAt == now
    ensures r.reqType == p.reqType && r.reqTitle == p.reqTitle && r.owner == p.owner
    ensures r.tenant == p.tenant && r.priority == p.priority && r.brief == p.brief
    ensures r.threads == p.threads
    ensures r.createdBy == ByStakeholder && r.status == New
    ensures r.brdMaster == None && r.aiGeneratedAt == None && r.sentAt == None && r.reviewerComment == None
  {
    Request(id, p.reqType, p.reqTitle, p.owner, p.tenant, p.priority, p.brief, p.threads,
            now, ByStakeholder, New, None, None, None, None)
  }

  /** The eight fields the simulated AI generation may fill. */
  predicate IsAiField(k: MasterKey) {
    k == KObjective || k == KKpis || k == KScopeIn || k == KScopeOut
    || k == KRegMap || k == KSecurityControls || k == KObservability || k == KProcess
  }

  /** `master.f || fill.f` on each of the eight AI fields. */
  function FillEmptyAiFields(m: Master, fill: Master): Master {
    m.(objective := Or(m.objective, fill.objective),
       kpis := Or(m.kpis, fill.kpis),
       scopeIn := Or(m.scopeIn, fill.scopeIn),
       scopeOut := Or(m.scopeOut, fill.scopeOut),
       regMap := Or(m.regMap, fill.regMap),
       securityControls := Or(m.securityControls, fill.securityControls),
       observability := Or(m.observability, fill.observability),
       process := Or(m.process, fill.process))
  }

  /** Filling never touches a field outside the eight AI fields. */
  lemma FillKeepsOtherFields(m: Master, fill: Master, k: MasterKey)
    requires !IsAiField(k)
    ensures Get(FillEmptyAiFields(m, fill), k) == Get(m, k)
  {
  }

  /** An AI field takes the text from `fill` exactly when it is empty. */
  lemma FillAiField(m: Master, fill: Master, k: MasterKey)
    requires IsAiField(k)
    ensures Get(FillEmptyAiFields(m, fill), k) == if Get(m, k) == "" then Get(fill, k) else Get(m, k)
  {
  }

  /** Filling twice from the same texts is filling once. */
  lemma FillEmptyAiFieldsIdempotent(m: Master, fill: Master)
    ensures FillEmptyAiFields(FillEmptyAiFields(m, fill), fill) == FillEmptyAiFields(m, fill)
  {
  }

  /** The texts the simulated AI generation writes into the empty AI fields; it reads
      no other field of this record. */
  const MockAiTexts: Master := EmptyMaster.(
    objective := "Reduce processing TAT, improve " + "compliance adherence, and strengthen " + "auditability with maker-checker " + "controls.",
    kpis := "Reduce turnaround time by 40%\n" + "Increase straight-through processing to " + "70%\n" + "Reduce manual exceptions by 30%",
    scopeIn := "Request capture and validation\n" + "Maker-checker approvals\n" + "Audit trail and evidence logging\n" + "Stakeholder review workflow",
    scopeOut := "Legacy process redesign\n" + "Downstream collections process changes",
    regMap := "RBI KYC Master Direction\n" + "RBI Digital Lending Guidelines\n" + "Internal Information Security Policy",
    securityControls := "PII masking\n" + "Encryption at rest and in transit\n" + "Role-based access with MFA\n" + "Immutable audit logs",
    observability := "Structured logs\n" + "SLA breach alerts\n" + "Trace IDs across workflow stages",
    process := "As-Is: intake and alignment happen via " + "ad-hoc communication.\n" + "To-Be: stakeholder request is tracked, " + "BA drafts BRD master, then sends for " + "structured review and approval.")

  /** What filling does to each field: an empty AI field takes the fill text, and
      every other field keeps its value. */
  lemma FillEmptyAiFieldsMeaning(m: Master, fill: Master)
    ensures forall k :: Get(FillEmptyAiFields(m, fill), k)
                        == if IsAiField(k) && Get(m, k) == "" then Get(fill, k) else Get(m, k)
  {
    forall k
      ensures Get(FillEmptyAiFields(m, fill), k) == if IsAiField(k) && Get(m, k) == "" then Get(fill, k) else Get(m, k)
    {
      if IsAiField(k) {
        FillAiField(m, fill, k);
      } else {
        FillKeepsOtherFields(m, fill, k);
      }
    }
  }

  /** `applyMockAiGeneration`: the empty AI fields take the fixed texts; every
      other field keeps its value. */
  function ApplyMockAiGeneration(m: Master): (r: Master)
    ensures forall k :: Get(r, k) == if IsAiField(k) && Get(m, k) == "" then Get(MockAiTexts, k) else Get(m, k)
  {
    FillEmptyAiFieldsMeaning(m, MockAiTexts);
    FillEmptyAiFields(m, MockAiTexts)
  }

  /** The simulated generation fills exactly the empty AI fields with the fixed texts,
      never overwrites what the BA typed, and keeps every other field. */
  lemma AiGenerationFillsOnlyEmpty(m: Master, k: MasterKey)
    ensures Get(ApplyMockAiGeneration(m), k)
            == if IsAiField(k) && Get(m, k) == "" then Get(MockAiTexts, k) else Get(m, k)
  {
    if IsAiField(k) {
      FillAiField(m, MockAiTexts, k);
    } else {
      FillKeepsOtherFields(m, MockAiTexts, k);
    }
  }

  /** Generating twice is generating once. */
  lemma AiGenerationIdempotent(m: Master)
    ensures ApplyMockAiGeneration(ApplyMockAiGeneration(m)) == ApplyMockAiGeneration(m)
  {
    FillEmptyAiFieldsIdempotent(m, MockAiTexts);
  }

  /** The words of a status; its stored name joins them with underscores. */
  function StatusWords(s: RequestStatus): seq<string> {
    match s
    case New => ["new"]
    case InProgress => ["in", "progress"]
    case Generated => ["generated"]
    case Sent => ["sent"]
    case Approved => ["approved"]
    case ChangesRequested => ["changes", "requested"]
  }

  /** The status as stored: "new", "in_progress", ..., "changes_requested". */
  function StatusName(s: RequestStatus): string {
    Join(StatusWords(s), "_")
  }


  /** The version label of a BRD: 1.0 once generated, sent or approved. */
  function VersionLabel(s: RequestStatus): (v: string)
    ensures v == "1.0" <==> s == Generated || s == Sent || s == Approved
    ensures v != "1.0" <==> v == "0.5"
  {
    if s == Generated || s == Sent || s == Approved then "1.0" else "0.5"
  }

  /** The template's `clean`: the trimmed value, or "TBD" for a missing or blank one. */
  function CleanText(v: Option<string>): (r: string)
    ensures v.None? || IsBlank(v.value) ==> r == "TBD"
    ensures v.Some? && !IsBlank(v.value) ==> r == Trim(v.value) && r != [] && IsTrimmed(r)
  {
    if v.Some? && Trim(v.value) != "" then Trim(v.value) else "TBD"
  }

  /** The status as the template prints it: its first underscore read as a space. */
  function StatusText(s: RequestStatus): string {
    ReplaceFirst(StatusName(s), '_', ' ')
  }

  /** The template prints a status as its words separated by spaces: the single
      replacement is enough because no status has more than two words. */
  lemma StatusTextInWords(s: RequestStatus)
    ensures StatusText(s) == Join(StatusWords(s), " ")
  {
    var w := StatusWords(s);
    if |w| == 1 {
      assert '_' !in w[0];
      ReplaceFirstAbsent(w[0], '_', ' ');
    } else {
      assert |w| == 2 && '_' !in w[0];
      assert StatusName(s) == w[0] + ['_'] + w[1];
      ReplaceFirstAt(w[0], '_', w[1], ' ');
    }
  }

  // The sections of `buildPHLTemplateBRD`, each with its closing blank line.

  function HeaderLines(req: Request, today: string): (lines: seq<string>)
    ensures |lines| == 5
  {
    [ "LOS FOR PRIME HOME LOAN (PHL)",
      "BRD Document",
      "Version no.: " + VersionLabel(req.status),
      "Effective Date: " + today,
      "" ]
  }

  function ObjectiveLines(m: Master): (lines: seq<string>)
    ensures |lines| == 3
  {
    [ "Objective",
      CleanText(Some(m.objective)),
      "" ]
  }

  function ScopeLines(m: Master): (lines: seq<string>)
    ensures |lines| == 8
  {
    [ "Scope:",
      "- Product: " + CleanText(Some(m.product)),
      "- Business Unit / Function: " + CleanText(Some(m.bu)),
      "- Domain: " + CleanText(Some(m.domain)),
      "- Priority: " + CleanText(Some(m.priority)),
      "- In Scope: " + CleanText(Some(m.scopeIn)),
      "- Out of Scope: " + CleanText(Some(m.scopeOut)),
      "" ]
  }

  function ProcessLines(m: Master): (lines: seq<string>)
    ensures |lines| == 3
  {
    [ "Process -",
      CleanText(Some(m.process)),
      "" ]
  }

  function PolicyLines(m: Master): (lines: seq<string>)
    ensures |lines| == 5
  {
    [ "Policy Parameters",
      "- Tags: " + CleanText(Some(m.tags)),
      "- Personas: " + CleanText(Some(m.personas)),
      "- Channels: " + CleanText(Some(m.channels)),
      "" ]
  }

  function NormsLines(m: Master): (lines: seq<string>)
    ensures |lines| == 5
  {
    [ "General Product and Policy Norms to be " + "updated in system",
      "- Assumptions: " + CleanText(Some(m.assumptions)),
      "- Constraints: " + CleanText(Some(m.constraints)),
      "- Regulatory Mapping: " + CleanText(Some(m.regMap)),
      "" ]
  }

  function SystemChangeLines(m: Master): (lines: seq<string>)
    ensures |lines| == 5
  {
    [ "System Changes – Mobile Application / " + "LOS",
      "- Customer Type, Eligibility, and " + "underwriting capture will be enabled as " + "per policy setup.",
      "- Security Controls: " + CleanText(Some(m.securityControls)),
      "- AuthN/AuthZ: " + CleanText(Some(m.auth)),
      "" ]
  }

  function EligibilityLines(m: Master): (lines: seq<string>)
    ensures |lines| == 5
  {
    [ "Income Eligibility and Program Inputs",
      "- Success Metrics / KPIs: " + CleanText(Some(m.kpis)),
      "- Upstream Data Sources: " + CleanText(Some(m.sources)),
      "- Downstream Consumers: " + CleanText(Some(m.consumers)),
      "" ]
  }

  function DataLines(m: Master): (lines: seq<string>)
    ensures |lines| == 6
  {
    [ "Data / Reporting / Regulatory",
      "- Retention Years: " + CleanText(Some(m.retentionYears)),
      "- Audit Required: " + CleanText(Some(m.auditRequired)),
      "- PII Class: " + CleanText(Some(m.piiClass)),
      "- MIS / Reporting: " + CleanText(Some(m.mis)),
      "" ]
  }

  function NfrLines(m: Master): (lines: seq<string>)
    ensures |lines| == 8
  {
    [ "NFR Baseline",
      "- Peak TPS / Concurrency: " + CleanText(Some(m.tps)),
      "- Latency: " + CleanText(Some(m.latency)),
      "- Availability: " + CleanText(Some(m.availability)),
      "- RPO: " + CleanText(Some(m.rpo)),
      "- RTO: " + CleanText(Some(m.rto)),
      "- Observability: " + CleanText(Some(m.observability)),
      "" ]
  }

  function ReviewLines(req: Request): (lines: seq<string>)
    ensures |lines| == 6
  {
    [ "Review / Approval",
      "- Request Title: " + CleanText(Some(req.reqTitle)),
      "- Owner: " + CleanText(Some(req.owner)),
      "- Tenant: " + CleanText(Some(req.tenant)),
      "- Status: " + CleanText(Some(StatusText(req.status))),
      "- Reviewer Comment: " + CleanText(req.reviewerComment) ]
  }

  /** The 59 entries of `buildPHLTemplateBRD` in order; `today` is the effective
      date. A field value with a newline inside adds lines once they are joined. */
  function TemplateLines(req: Request, m: Master, today: string): (lines: seq<string>)
    ensures |lines| == 59
  {
    HeaderLines(req, today) +
    ObjectiveLines(m) +
    ScopeLines(m) +
    ProcessLines(m) +
    PolicyLines(m) +
    NormsLines(m) +
    SystemChangeLines(m) +
    EligibilityLines(m) +
    DataLines(m) +
    NfrLines(m) +
    ReviewLines(req)
  }

  /** `buildPHLTemplateBRD`: the template lines joined by newlines. */
  function BuildTemplateBrd(req: Request, m: Master, today: string): (doc: string)
    ensures forall k :: 0 <= k < |TemplateLines(req, m, today)| ==>
              StandsIn(doc, TemplateLines(req, m, today)[k], '\n')
  {
    var lines := TemplateLines(req, m, today);
    JoinPartsAt(lines, '\n');
    assert "\n" == ['\n'];
    Join(lines, ['\n'])
  }

  /** The title of the master data never reaches the document. */
  lemma TemplateIgnoresTitle(req: Request, m: Master, today: string, title: string)
    ensures BuildTemplateBrd(req, m.(title := title), today) == BuildTemplateBrd(req, m, today)
  {
  }

  /** Of the request the document reads only the title, owner, tenant, status and reviewer comment. */
  lemma TemplateReadsFiveRequestFields(a: Request, b: Request, m: Master, today: string)
    requires a.reqTitle == b.reqTitle && a.owner == b.owner && a.tenant == b.tenant
    requires a.status == b.status && a.reviewerComment == b.reviewerComment
    ensures BuildTemplateBrd(a, m, today) == BuildTemplateBrd(b, m, today)
  {
  }
}
