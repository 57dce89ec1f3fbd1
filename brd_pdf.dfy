/** The page and section sequence of `generatePHLBRDPdfBlob`: a cover page, a
    page with the objective, scope and process, and a page with the policy
    parameters, each field cleaned and masked before it is drawn. */
module BrdPdf {
  import opened Options
  import opened Text
  import opened Workflow
  import opened Masking
  import opened PdfLayout

  /** `clean(value)` with the default fallback, for a field that is always present. */
  function CleanField(v: string): (r: string)
    ensures r == (if IsBlank(v) then "TBD" else Mask(Trim(v)))
  {
    Clean(Some(v), "TBD")
  }

  /** The options of a text with the default line height and no indent. */
  function Style(size: real, bold: bool, before: Option<real>, after: Option<real>): TextOptions {
    TextOptions(None, None, before, after, Some(size), bold)
  }

  // The options each text of the document is written with.
  const BankTitleStyle: TextOptions := Style(28.0, true, Some(18.0), Some(16.0))
  const ProductTitleStyle: TextOptions := Style(18.0, true, Some(6.0), Some(20.0))
  const DocumentTitleStyle: TextOptions := Style(16.0, true, None, Some(120.0))
  const VersionStyle: TextOptions := Style(11.0, false, None, None)
  const DateStyle: TextOptions := Style(11.0, false, Some(2.0), None)
  const ObjectiveHeadingStyle: TextOptions := Style(15.0, true, None, Some(8.0))
  const ObjectiveStyle: TextOptions := TextOptions(Some(6.0), None, None, Some(10.0), Some(11.0), false)
  const ScopeHeadingStyle: TextOptions := Style(13.0, true, None, Some(6.0))
  const ProcessHeadingStyle: TextOptions := Style(15.0, true, Some(8.0), Some(8.0))
  const PolicyHeadingStyle: TextOptions := Style(15.0, true, None, Some(10.0))
  const ProductStyle: TextOptions := Style(11.0, true, None, Some(4.0))
  const TiersHeadingStyle: TextOptions := Style(11.0, true, Some(6.0), Some(4.0))
  const NormsHeadingStyle: TextOptions := Style(12.0, true, Some(8.0), Some(6.0))

  // ---- The bullet lists ----

  function ScopeItems(m: Master): (items: seq<string>)
    ensures |items| == 6
  {
    [ "Product: " + CleanField(m.product),
      "Business Unit: " + CleanField(m.bu),
      "Domain: " + CleanField(m.domain),
      "Priority: " + CleanField(m.priority),
      "In Scope: " + CleanField(m.scopeIn),
      "Out of Scope: " + CleanField(m.scopeOut) ]
  }

  /** The process lines, or the cleaned process as the only item when it has none. */
  function ProcessItems(m: Master): (items: seq<string>)
    ensures |items| >= 1
    ensures IsBlank(m.process) ==> items == ["TBD"]
    ensures |SplitLines(Some(m.process))| > 0 ==> items == SplitLines(Some(m.process))
    ensures |SplitLines(Some(m.process))| == 0 ==> items == [CleanField(m.process)]
  {
    var lines := SplitLines(Some(m.process));
    if |lines| > 0 then lines else [CleanField(m.process)]
  }

  /** The Loan Classification list: the three tiers. */
  function TierItems(m: Master): (items: seq<string>)
    ensures |items| == 3
  {
    [ "Tier 1 - " + CleanField(m.tags),
      "Tier 2 - " + CleanField(m.channels),
      "Tier 3 - " + CleanField(m.personas) ]
  }

  function RetentionItem(m: Master): string {
    "Retention Years: " + CleanField(m.retentionYears)
      + " | Audit Required: " + CleanField(m.auditRequired)
      + " | PII Class: " + CleanField(m.piiClass)
  }

  function NfrItem(m: Master): string {
    "NFR Baseline: " + CleanField(m.tps) + " | " + CleanField(m.latency)
      + " | Availability " + CleanField(m.availability)
      + " | RPO " + CleanField(m.rpo) + " | RTO " + CleanField(m.rto)
  }

  /** The request line; its status is printed with every underscore as a space. */
  function RequestItem(req: Request): string {
    "Request Title: " + CleanField(req.reqTitle)
      + " | Owner: " + CleanField(req.owner)
      + " | Tenant: " + CleanField(req.tenant)
      + " | Status: " + CleanField(ReplaceAll(StatusName(req.status), '_', ' '))
  }

  /** The general product and policy norms list. */
  function NormsItems(req: Request, m: Master): (items: seq<string>)
    ensures |items| == 14
  {
    [ "Assumptions: " + CleanField(m.assumptions),
      "Constraints: " + CleanField(m.constraints),
      "Regulatory Mapping: " + CleanField(m.regMap),
      "Security Controls: " + CleanField(m.securityControls),
      "AuthN/AuthZ: " + CleanField(m.auth),
      "Success Metrics / KPIs: " + CleanField(m.kpis),
      "Upstream Sources: " + CleanField(m.sources),
      "Downstream Consumers: " + CleanField(m.consumers),
      RetentionItem(m),
      "MIS / Reporting: " + CleanField(m.mis),
      NfrItem(m),
      "Observability: " + CleanField(m.observability),
      RequestItem(req),
      "Reviewer Comment: " + Clean(req.reviewerComment, "TBD") ]
  }

  // The fixed texts of the document.
  const BankTitle: string := "ABC BANK"
  const ProductTitle: string := "LOS FOR PRIME HOME LOAN (PRODUCT_Z)"
  const DocumentTitle: string := "BRD DOCUMENT"
  const ObjectiveHeading: string := "1.  Objective"
  const ScopeHeading: string := "Scope:"
  const ProcessHeading: string := "2.  Process -"
  const PolicyHeading: string := "3.  Policy Parameters"
  const TiersHeading: string := "Loan Classification:"
  const NormsHeading: string := "General Product and Policy Norms " + "to be updated in system for PHL"

  // ---- The three pages ----

  /** The cover: bank, product, document title, version and effective date. */
  function CoverPage(p: Page, version: string, today: string): Cursor {
    var c := WriteWrapped(p, Start, BankTitle, BankTitleStyle);
    var c := WriteWrapped(p, c, ProductTitle, ProductTitleStyle);
    var c := WriteWrapped(p, c, DocumentTitle, DocumentTitleStyle);
    var c := WriteWrapped(p, c, "Version no. : " + version, VersionStyle);
    WriteWrapped(p, c, "Effective Date : " + today, DateStyle)
  }

  /** Section 1: the objective and the scope list. */
  function ObjectiveSection(p: Page, c: Cursor, objective: string, scope: seq<string>): Cursor {
    var c := WriteWrapped(p, c, ObjectiveHeading, ObjectiveHeadingStyle);
    var c := WriteWrapped(p, c, objective, ObjectiveStyle);
    var c := WriteWrapped(p, c, ScopeHeading, ScopeHeadingStyle);
    WriteBullets(p, c, scope, false)
  }

  /** Section 2: the process list. */
  function ProcessSection(p: Page, c: Cursor, process: seq<string>): Cursor {
    var c := WriteWrapped(p, c, ProcessHeading, ProcessHeadingStyle);
    WriteBullets(p, c, process, false)
  }

  /** Section 3: the product and the highlighted Loan Classification list. */
  function PolicySection(p: Page, c: Cursor, product: string, tiers: seq<string>): Cursor {
    var c := WriteWrapped(p, c, PolicyHeading, PolicyHeadingStyle);
    var c := WriteWrapped(p, c, "Product Name: " + product, ProductStyle);
    var c := WriteWrapped(p, c, TiersHeading, TiersHeadingStyle);
    WriteBullets(p, c, tiers, true)
  }

  /** The general product and policy norms. */
  function NormsSection(p: Page, c: Cursor, norms: seq<string>): Cursor {
    var c := WriteWrapped(p, c, NormsHeading, NormsHeadingStyle);
    WriteBullets(p, c, norms, false)
  }

  /** What `generatePHLBRDPdfBlob` draws, for a page of the given size: the
      cover, then a new page with sections 1 and 2, then a new page with
      section 3 and the norms. */
  function Document(p: Page, req: Request, m: Master, today: string): Cursor {
    var cover := CoverPage(p, VersionLabel(req.status), today);
    var objective := ProcessSection(p, ObjectiveSection(p, NewPage(cover), CleanField(m.objective), ScopeItems(m)), ProcessItems(m));
    NormsSection(p, PolicySection(p, NewPage(objective), CleanField(m.product), TierItems(m)), NormsItems(req, m))
  }

  // ---- What the document is made of ----

  lemma CoverPageKeeps(p: Page, version: string, today: string)
    ensures Keeps(Start.ops, Start.page, CoverPage(p, version, today), 0)
  {
    var c1 := WriteWrapped(p, Start, BankTitle, BankTitleStyle);
    WriteWrappedKeeps(p, Start, BankTitle, BankTitleStyle);
    var c2 := WriteWrapped(p, c1, ProductTitle, ProductTitleStyle);
    WriteWrappedKeeps(p, c1, ProductTitle, ProductTitleStyle);
    KeepsTrans(Start, c1, c2, 0, 0);
    var c3 := WriteWrapped(p, c2, DocumentTitle, DocumentTitleStyle);
    WriteWrappedKeeps(p, c2, DocumentTitle, DocumentTitleStyle);
    KeepsTrans(Start, c2, c3, 0, 0);
    var c4 := WriteWrapped(p, c3, "Version no. : " + version, VersionStyle);
    WriteWrappedKeeps(p, c3, "Version no. : " + version, VersionStyle);
    KeepsTrans(Start, c3, c4, 0, 0);
    WriteWrappedKeeps(p, c4, "Effective Date : " + today, DateStyle);
    KeepsTrans(Start, c4, CoverPage(p, version, today), 0, 0);
  }

  /** A heading followed by a list. */
  lemma HeadedListKeeps(p: Page, c: Cursor, heading: string, o: TextOptions, lines: seq<string>, highlight: bool)
    ensures Keeps(c.ops, c.page, WriteBullets(p, WriteWrapped(p, c, heading, o), lines, highlight), HighlightCount(lines, highlight))
  {
    var c1 := WriteWrapped(p, c, heading, o);
    WriteWrappedKeeps(p, c, heading, o);
    WriteBulletsKeeps(p, c1, lines, highlight);
    KeepsTrans(c, c1, WriteBullets(p, c1, lines, highlight), 0, HighlightCount(lines, highlight));
  }

  lemma ObjectiveSectionKeeps(p: Page, c: Cursor, objective: string, scope: seq<string>)
    ensures Keeps(c.ops, c.page, ObjectiveSection(p, c, objective, scope), 0)
  {
    var c1 := WriteWrapped(p, c, ObjectiveHeading, ObjectiveHeadingStyle);
    WriteWrappedKeeps(p, c, ObjectiveHeading, ObjectiveHeadingStyle);
    var c2 := WriteWrapped(p, c1, objective, ObjectiveStyle);
    WriteWrappedKeeps(p, c1, objective, ObjectiveStyle);
    KeepsTrans(c, c1, c2, 0, 0);
    HeadedListKeeps(p, c2, ScopeHeading, ScopeHeadingStyle, scope, false);
    PlainListCount(scope);
    KeepsTrans(c, c2, ObjectiveSection(p, c, objective, scope), 0, 0);
  }

  lemma PolicySectionKeeps(p: Page, c: Cursor, product: string, tiers: seq<string>)
    requires forall i :: 0 <= i < |tiers| ==> !IsBlank(tiers[i])
    ensures Keeps(c.ops, c.page, PolicySection(p, c, product, tiers), |tiers|)
  {
    var c1 := WriteWrapped(p, c, PolicyHeading, PolicyHeadingStyle);
    WriteWrappedKeeps(p, c, PolicyHeading, PolicyHeadingStyle);
    var c2 := WriteWrapped(p, c1, "Product Name: " + product, ProductStyle);
    WriteWrappedKeeps(p, c1, "Product Name: " + product, ProductStyle);
    KeepsTrans(c, c1, c2, 0, 0);
    HeadedListKeeps(p, c2, TiersHeading, TiersHeadingStyle, tiers, true);
    HighlightedListCount(tiers);
    KeepsTrans(c, c2, PolicySection(p, c, product, tiers), 0, |tiers|);
  }

  /** The page after the cover: a new page, sections 1 and 2, no highlight. */
  lemma ObjectivePageKeeps(p: Page, c: Cursor, objective: string, scope: seq<string>, process: seq<string>)
    ensures var r := ProcessSection(p, ObjectiveSection(p, NewPage(c), objective, scope), process);
      Keeps(c.ops, c.page, r, 0) && r.page >= c.page + 1
  {
    var c1 := NewPage(c);
    NewPageKeeps(c);
    var c2 := ObjectiveSection(p, c1, objective, scope);
    ObjectiveSectionKeeps(p, c1, objective, scope);
    KeepsTrans(c, c1, c2, 0, 0);
    HeadedListKeeps(p, c2, ProcessHeading, ProcessHeadingStyle, process, false);
    PlainListCount(process);
    KeepsTrans(c, c2, ProcessSection(p, c2, process), 0, 0);
  }

  /** The last page: a new page, section 3 with one highlight per tier, and the norms. */
  lemma PolicyPageKeeps(p: Page, c: Cursor, product: string, tiers: seq<string>, norms: seq<string>)
    requires forall i :: 0 <= i < |tiers| ==> !IsBlank(tiers[i])
    ensures var r := NormsSection(p, PolicySection(p, NewPage(c), product, tiers), norms);
      Keeps(c.ops, c.page, r, |tiers|) && r.page >= c.page + 1
  {
    var c1 := NewPage(c);
    NewPageKeeps(c);
    var c2 := PolicySection(p, c1, product, tiers);
    PolicySectionKeeps(p, c1, product, tiers);
    KeepsTrans(c, c1, c2, 0, |tiers|);
    HeadedListKeeps(p, c2, NormsHeading, NormsHeadingStyle, norms, false);
    PlainListCount(norms);
    KeepsTrans(c, c2, NormsSection(p, c2, norms), |tiers|, 0);
  }

  /** No tier line is blank: each starts with "Tier". */
  lemma TierItemsNotBlank(m: Master)
    ensures forall i :: 0 <= i < |TierItems(m)| ==> !IsBlank(TierItems(m)[i])
  {
    forall i | 0 <= i < 3 ensures !IsBlank(TierItems(m)[i]) {
      assert TierItems(m)[i][0] == 'T';
    }
  }

  /** The first page is page 1, with nothing highlighted. */
  lemma StartNumbered()
    ensures Numbered(Start) && Highlights(Start.ops) == 0 && HighlightsUnderText(Start.ops)
  {
    assert Start.ops[..0] == [];
    assert UnderTextAt(Start.ops, 0);
  }

  /** Three stages that keep the trace invariants, the last two starting a page
      each and the last drawing three highlights. */
  lemma ThreeStages(c1: Cursor, c2: Cursor, d: Cursor)
    requires Keeps(Start.ops, Start.page, c1, 0)
    requires Keeps(c1.ops, c1.page, c2, 0) && c2.page >= c1.page + 1
    requires Keeps(c2.ops, c2.page, d, 3) && d.page >= c2.page + 1
    ensures d.page >= 3 && Numbered(d) && Highlights(d.ops) == 3 && HighlightsUnderText(d.ops)
  {
    KeepsTrans(Start, c1, c2, 0, 0);
    KeepsTrans(Start, c2, d, 0, 3);
    StartNumbered();
  }

  /** The document has at least three pages, numbered 1, 2, ... in drawing
      order; exactly three highlights are drawn, the three tiers of the Loan
      Classification list, each right before its text. */
  lemma DocumentShape(p: Page, req: Request, m: Master, today: string)
    ensures Document(p, req, m, today).page >= 3
    ensures Numbered(Document(p, req, m, today))
    ensures Highlights(Document(p, req, m, today).ops) == 3
    ensures HighlightsUnderText(Document(p, req, m, today).ops)
  {
    var cover := CoverPage(p, VersionLabel(req.status), today);
    CoverPageKeeps(p, VersionLabel(req.status), today);
    var objective := ProcessSection(p, ObjectiveSection(p, NewPage(cover), CleanField(m.objective), ScopeItems(m)), ProcessItems(m));
    ObjectivePageKeeps(p, cover, CleanField(m.objective), ScopeItems(m), ProcessItems(m));
    TierItemsNotBlank(m);
    PolicyPageKeeps(p, objective, CleanField(m.product), TierItems(m), NormsItems(req, m));
    ThreeStages(cover, objective, Document(p, req, m, today));
  }

  /** `generatePHLBRDPdfBlob`: set up the layout, draw the first page's frame,
      and write the three pages in order. */
  method GeneratePhlBrdPdf(req: Request, m: Master, today: string, pageWidth: real, pageHeight: real, wrap: (string, real, Font) -> nat)
    returns (layout: Layout)
    ensures layout.page == Page(pageHeight, pageWidth - 36.0, wrap)
    ensures layout.State() == Document(layout.page, req, m, today)
  {
    layout := new Layout(Page(pageHeight, pageWidth - 36.0, wrap));

    layout.WriteWrappedText(BankTitle, BankTitleStyle);
    layout.WriteWrappedText(ProductTitle, ProductTitleStyle);
    layout.WriteWrappedText(DocumentTitle, DocumentTitleStyle);
    layout.WriteWrappedText("Version no. : " + VersionLabel(req.status), VersionStyle);
    layout.WriteWrappedText("Effective Date : " + today, DateStyle);

    layout.AddNewPage();
    layout.WriteWrappedText(ObjectiveHeading, ObjectiveHeadingStyle);
    layout.WriteWrappedText(CleanField(m.objective), ObjectiveStyle);
    layout.WriteWrappedText(ScopeHeading, ScopeHeadingStyle);
    layout.WriteBulletList(ScopeItems(m), false);
    layout.WriteWrappedText(ProcessHeading, ProcessHeadingStyle);
    layout.WriteBulletList(ProcessItems(m), false);

    layout.AddNewPage();
    layout.WriteWrappedText(PolicyHeading, PolicyHeadingStyle);
    layout.WriteWrappedText("Product Name: " + CleanField(m.product), ProductStyle);
    layout.WriteWrappedText(TiersHeading, TiersHeadingStyle);
    layout.WriteBulletList(TierItems(m), true);
    layout.WriteWrappedText(NormsHeading, NormsHeadingStyle);
    layout.WriteBulletList(NormsItems(req, m), false);
  }
}
