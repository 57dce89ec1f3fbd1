# nileBRD workflow core in Dafny

nileBRD is a browser app in which a business analyst (BA) turns a
stakeholder's request into a Business Requirements Document (BRD):

- The stakeholder raises a request with conversation threads, either on the
  intake page or on the stakeholder (SME) workspace.
- The BA edits the BRD master data of that request, fills the empty narrative
  fields with mock AI text, records more threads, and sends the BRD to
  recipients.
- The stakeholder approves the BRD or asks for changes.
- IT works through the approved requests and the queue waiting for the
  financial head.

The BRD can be rendered in two ways:

- a plain-text template;
- a PDF. Confidential names, e-mail addresses, phone numbers and long digit
  runs are masked before they reach the PDF.

The brd-generator page turns labelled notes into a draft. A sidebar
highlights where the current page sits in the workflow.

All state lives in the browser's local storage. The model takes the stored
lists as inputs and returns the lists to store.

The modules follow the source files:

| module | models |
|---|---|
| `Workflow` | `lib/workflow.ts`: the request and BRD master records, defaults, mock AI fill-in, the text BRD |
| `Masking`, `MaskingTokens` | the masking and cleaning of `lib/brdPdf.ts`, and the theorem that no masked name survives |
| `PdfLayout` | the page-layout state of `lib/brdPdf.ts` as a `Layout` class: cursor, page number and current font, with a trace of what is drawn |
| `BrdPdf` | `generatePHLBRDPdfBlob`: the items of each section and the whole document |
| `NotesParser` | `app/brd-generator/page.tsx` |
| `RequestList` | the lookup, update and review-queue helpers the pages share |
| `SmeWorkspace`, `SmeReview`, `SmeRequest` | `app/role/sme/page.tsx`, `app/role/sme/review/page.tsx`, `app/role/sme/request/page.tsx` |
| `ItWorkspace` | `app/role/it/page.tsx` |
| `BaRequests`, `BaSend`, `BaGenerate`, `NewBrd`, `Approvals` | the `app/ba-portal/*` pages |
| `FlowSidebar` | `app/components/FlowSidebar.tsx` |
| `Intake` | `app/intake/page.tsx` |
| `Text`, `Seqs`, `Options` | string, sequence and option helpers |

Page state changes in two styles:

- When a handler replaces React state, the model is a function from the old
  page state to the new one.
- When the source mutates an object step by step, the model is a class with
  `modifies` clauses, proved against a specification function. Examples are
  the PDF layout state, the send page, the wizard of the new-BRD page, and the
  array the intake page pushes to.

Loops of the source are methods with loop invariants. Examples are the
masking loop, the feasibility tally, the thread text, and the grouping of
approvals.

The text BRD never prints the master's `title` (see
`Workflow.TemplateIgnoresTitle`).

## Model

| member | source | states |
|---|---|---|
| Workflow.Set | app/ba-portal/requests/page.tsx:155-166 | setting one field of the BRD master changes that field to the new value and leaves every other field as it was |
| Workflow.SafeParse | lib/workflow.ts:76-86 | a missing or empty stored value, or one that does not parse, yields the fallback; otherwise the parsed value is returned |
| Workflow.OverrideFromRequest | lib/workflow.ts:104-140 | the default master takes its title, business unit, priority and objective from the request's title, owner, priority and brief when these are non-empty, else the fixed defaults; every other field is the fixed default |
| Workflow.DefaultMasterFromRequest | lib/workflow.ts:104-140 | the title, business unit, priority and objective come from the request's title, owner, priority and brief when those are not empty, and from the fixed defaults otherwise; every other field is the fixed default |
| Workflow.DefaultMasterReadsFourFields | lib/workflow.ts:104-140 | two requests that agree on title, owner, priority and brief get the same default master |
| Workflow.CreateStakeholderRequest | lib/workflow.ts:142-156 | the new request carries the payload's fields and threads, the given id and time, status `new`, creator `stakeholder`, and no master, AI time, send time or reviewer comment |
| Workflow.FillKeepsOtherFields | lib/workflow.ts:158-182 | the mock AI fill-in never changes a field outside the eight narrative fields |
| Workflow.FillAiField | lib/workflow.ts:158-182 | a narrative field is replaced by its mock text exactly when it was empty |
| Workflow.FillEmptyAiFieldsMeaning | lib/workflow.ts:158-182 | after filling, each empty narrative field holds its fill text and every other field keeps its value |
| Workflow.ApplyMockAiGeneration | lib/workflow.ts:158-182 | the empty narrative fields take the fixed mock texts and every other field keeps its value |
| Workflow.FillEmptyAiFieldsIdempotent | lib/workflow.ts:158-182 | filling twice with the same texts is the same as filling once |
| Workflow.AiGenerationFillsOnlyEmpty | lib/workflow.ts:158-182 | after AI generation, each field is its mock text if it is a narrative field that was empty, and its old value otherwise |
| Workflow.AiGenerationIdempotent | lib/workflow.ts:158-182 | generating twice gives the same master as generating once |
| Workflow.VersionLabel | lib/workflow.ts:190 | the version is "1.0" exactly for generated, sent and approved requests, and "0.5" for all others |
| Workflow.CleanText | lib/workflow.ts:185 | a missing or blank value prints as "TBD"; any other value prints trimmed, non-empty |
| Workflow.StatusTextInWords | lib/workflow.ts:245 | replacing the first underscore of a status name gives its words separated by single spaces, for every status (so "changes_requested" prints as "changes requested") |
| Workflow.TemplateLines | lib/workflow.ts:187-247 | the text BRD is 59 entries joined by newlines |
| Workflow.BuildTemplateBrd | lib/workflow.ts:184-248 | each of the template's entries stands in the text BRD as a whole line, between newlines or the ends of the text |
| Text.JoinPartsAt | lib/workflow.ts:247 | each part of a newline join stands in the result between newlines or the ends of the text |
| Workflow.TemplateIgnoresTitle | lib/workflow.ts:184-248 | changing the master's title never changes the text BRD |
| Workflow.TemplateReadsFiveRequestFields | lib/workflow.ts:184-248 | of the request, the text BRD depends only on title, owner, tenant, status and reviewer comment |
| RequestList.FindById | app/role/sme/page.tsx:51-53 | the lookup finds nothing exactly when no request has the id; a found request is in the list and has the id |
| RequestList.UpdateById | app/role/sme/page.tsx:113-132 | the mapped list has the same length; requests with the id are transformed and all others are kept in place |
| RequestList.UpdateKeepsIds | app/ba-portal/requests/page.tsx:86-97 | an update that keeps ids keeps the list of ids |
| RequestList.UpdateAbsent | app/ba-portal/requests/page.tsx:86-97 | updating an id that is not present leaves the list unchanged |
| RequestList.ReviewQueue | app/role/sme/review/page.tsx:13-20 | the review queue holds exactly the sent, approved and changes-requested requests, each as often as it is stored, in stored order |
| Masking.MatchLen | lib/brdPdf.ts:14-38 | a match of a confidential pattern is non-empty and lies inside the text, so a global replace always moves forward |
| Masking.EmailEnd | lib/brdPdf.ts:36 | after the `@`, the e-mail rule ends at the end of a dot, two or more letters and a word boundary, with at least one domain character before the dot; it ends exactly when some dot allows it, and at the furthest end any dot allows |
| Masking.EmptyDomainNotMatched | lib/brdPdf.ts:36 | "x@.com" is not an e-mail address to the rule: at least one domain character must come before the last dot |
| Masking.EmailFrom | lib/brdPdf.ts:36 | once the local part has run to a position, an e-mail match from there needs an `@` at it, and what it finds is an address (word boundary, local part, `@`, non-empty domain, dot, two or more letters, word boundary) |
| Masking.EmailLongest | lib/brdPdf.ts:36 | every address starting at a position is matched there, and the match reaches at least as far as the address |
| Masking.RblBankMatch | lib/brdPdf.ts:15 | "RBL", any white space and "BANK", in any ASCII case between word boundaries, match at a position exactly when the text there has that shape, and the match covers all of it |
| Masking.EmailMatch | lib/brdPdf.ts:36 | an e-mail match at a position is an address (word boundary, local part, `@`, non-empty domain, dot, two or more letters, word boundary), and every address starting there is matched, by the longest one |
| Masking.PhoneMatch | lib/brdPdf.ts:37 | a phone match at a position is a word boundary, an optional `+`, a digit, eight or more digits, spaces or dashes, and a word boundary; every such string starting there is matched, by the longest one |
| Masking.DigitsMatch | lib/brdPdf.ts:38 | a digit-run match at a position is eight or more digits between word boundaries, and every such run starting there is matched whole |
| Masking.NoMatchNoChange | lib/brdPdf.ts:33 | a global replace with no match from a position on copies the rest of the text unchanged |
| Masking.Mask | lib/brdPdf.ts:29-41 | carries no contract of its own: `MaskConfidentialPatterns` proves that the source's loop computes it, and `MaskingTokens.MaskLeavesNoTableWord` what it removes |
| Masking.MaskConfidentialPatterns | lib/brdPdf.ts:29-41 | the loop over the replacement table, followed by the e-mail, phone and digit-run rules, computes `Mask` |
| Masking.Clean | lib/brdPdf.ts:43-46 | a missing or blank value gives the fallback; any other value is trimmed and then masked |
| Masking.Pieces | lib/brdPdf.ts:162 | the pieces are the newline-separated parts of the text, one per part, each trimmed; empty text gives one empty piece |
| Masking.LinesOf | lib/brdPdf.ts:162 | the lines are non-empty and trimmed, and none come from empty text |
| Masking.LinesArePieces | lib/brdPdf.ts:162 | the lines are the non-empty pieces in their order: a subsequence of the pieces holding each non-empty piece as often as the pieces do, and no empty one |
| Masking.LinesIsolated | lib/brdPdf.ts:162 | each line stands in the text with a newline, white space or an end of the text on either side, so it starts and ends at a word boundary |
| Masking.SplitLines | lib/brdPdf.ts:161-162 | a missing or blank value gives no lines; any other value gives the lines of its trimmed and masked text |
| MaskingTokens.ReplaceRemovesWord | lib/brdPdf.ts:16-26 | after a whole-word, case-insensitive replace whose replacement cannot form the word, the word occurs nowhere |
| MaskingTokens.ReplaceKeepsAbsent | lib/brdPdf.ts:33-38 | a later replace whose replacement cannot form a word never brings back a word that is absent |
| MaskingTokens.InOrderRemovesWords | lib/brdPdf.ts:32-34 | applying a safe table in order leaves none of the table's words |
| MaskingTokens.EmailTextSafe | lib/brdPdf.ts:36 | the mock e-mail address cannot spell any short name without U and without both M and O or both X and A |
| MaskingTokens.MaskRunsSafe | lib/brdPdf.ts:37-38 | the X runs replacing phone numbers and digits cannot spell a name shorter than eight letters |
| MaskingTokens.NamedTableSafe | lib/brdPdf.ts:14-27 | no replacement text of the table, at its own place or later, can spell a name the table masks |
| MaskingTokens.MaskLeavesNoTableWord | lib/brdPdf.ts:14-41 | for every input, none of the whole-word names RBL, SARTHAK, FINACLE, AHL, MSME, PHL, CIBIL, POSIDEX, RAMP, NCR, MPCG survives masking, in any letter case |
| MaskingTokens.SplitLinesHoldNoTableWord | lib/brdPdf.ts:161-162 | no line `splitLines` yields holds any whole-word name of the replacement table, in any letter case |
| PdfLayout.NewPage | lib/brdPdf.ts:75-82 | a new page is the next page number with the cursor back at the top |
| PdfLayout.MakeRoom | lib/brdPdf.ts:84-91 | the layout stays put when the block fits above the safe bottom, and otherwise moves to a new page |
| PdfLayout.SkipBefore | lib/brdPdf.ts:114-116 | space before a block moves only the cursor: no page and nothing drawn |
| PdfLayout.EnsureSpaceFits | lib/brdPdf.ts:84-91 | a block that fits on an empty page fits after `ensureSpace`, at the cost of at most one new page |
| PdfLayout.WriteWrappedFits | lib/brdPdf.ts:93-129 | text whose wrapped height fits on an empty page ends above the safe bottom |
| PdfLayout.NewPageKeeps | lib/brdPdf.ts:75-82 | a new page keeps the pages consecutively numbered and draws no highlight |
| PdfLayout.EnsureSpaceKeeps | lib/brdPdf.ts:84-91 | `ensureSpace` only appends to what is drawn and keeps the page numbering |
| PdfLayout.WriteWrappedKeeps | lib/brdPdf.ts:93-129 | wrapped text only appends, keeps the numbering and draws no highlight |
| PdfLayout.WriteBulletKeeps | lib/brdPdf.ts:137-158 | a bullet draws one highlight exactly when highlighting is on and the line is not blank, and keeps the numbering and the highlights under their text |
| PdfLayout.WriteBulletsKeeps | lib/brdPdf.ts:131-159 | a bullet list only appends, keeps the numbering and the highlights under their text, and adds one highlight per non-blank line when highlighting |
| PdfLayout.PlainListCount | lib/brdPdf.ts:131-159 | a list without highlighting draws no highlight |
| PdfLayout.HighlightedListCount | lib/brdPdf.ts:148-151 | a highlighted list of non-blank lines draws one highlight per line |
| PdfLayout.WriteWrappedFont | lib/brdPdf.ts:118-127 | wrapped text is broken into lines in the font of its options; the block is drawn, and the font left set, in that font unless the block started a new page, when it is the footer's 10 pt normal |
| PdfLayout.WriteBulletFont | lib/brdPdf.ts:137-156 | a blank line draws nothing; any other bullet is broken into lines in the font already set, and is drawn in, and leaves set, 11 pt normal |
| PdfLayout.WriteBulletsFont | lib/brdPdf.ts:131-159 | after a list with a line that is not blank the font is 11 pt normal, and after a list of blank lines it is unchanged, so only the first bullet drawn is wrapped in the font set before the list |
| PdfLayout.Layout.constructor | lib/brdPdf.ts:175-188 | the layout starts on page 1, at the top, with only the first page's start drawn |
| PdfLayout.Layout.AddNewPage | lib/brdPdf.ts:75-82 | the new layout state is `NewPage` of the old one |
| PdfLayout.Layout.EnsureSpace | lib/brdPdf.ts:84-91 | the new layout state is `MakeRoom` of the old one |
| PdfLayout.Layout.WriteWrappedText | lib/brdPdf.ts:93-129 | the new layout state, font included, is `WriteWrapped` of the old one |
| PdfLayout.Layout.WriteBulletItem | lib/brdPdf.ts:137-158 | the new layout state, font included, is `WriteBullet` of the old one |
| PdfLayout.Layout.WriteBulletList | lib/brdPdf.ts:131-159 | the loop over the lines reaches `WriteBullets` of the old state |
| BrdPdf.CleanField | lib/brdPdf.ts:43-46 | a blank field prints as "TBD"; any other is trimmed and masked |
| BrdPdf.ProcessItems | lib/brdPdf.ts:276 | the process list is the lines of the trimmed and masked field when it has any, so none holds a table name (`MaskingTokens.SplitLinesHoldNoTableWord`); otherwise it is the single cleaned field, "TBD" when blank |
| BrdPdf.TierItems | lib/brdPdf.ts:307-311 | the loan classification has three tiers |
| BrdPdf.TierItemsNotBlank | lib/brdPdf.ts:307-311 | no tier line is blank, so each of them is highlighted |
| BrdPdf.CoverPageKeeps | lib/brdPdf.ts:190-225 | the cover page keeps page 1 numbered and draws no highlight |
| BrdPdf.ObjectivePageKeeps | lib/brdPdf.ts:227-278 | the objective, scope and process page starts a new page, keeps the numbering and draws no highlight |
| BrdPdf.PolicyPageKeeps | lib/brdPdf.ts:280-343 | the policy page starts a new page, keeps the numbering and highlights exactly the tier lines |
| BrdPdf.Document | lib/brdPdf.ts:164-346 | carries no contract of its own: the final layout state the PDF code reaches, as `GeneratePhlBrdPdf` proves and `DocumentShape` characterises |
| BrdPdf.DocumentShape | lib/brdPdf.ts:164-346 | for every request and master, the PDF has at least three pages, numbered 1, 2, 3 and on, and exactly three highlights, each drawn just under a text block |
| BrdPdf.GeneratePhlBrdPdf | lib/brdPdf.ts:164-346 | the sequence of layout calls ends in the state `Document` describes, on a page whose content width is the page width less both margins |
| NotesParser.NoteLines | app/brd-generator/page.tsx:24 | the notes split into at least one line, each trimmed and without a newline |
| NotesParser.FirstMatch | app/brd-generator/page.tsx:25-26 | the search stops at the first line that starts with the prefix, ignoring case, and at the end when there is none |
| NotesParser.KelvinSignMatches | app/brd-generator/page.tsx:26 | lower-casing turns the Kelvin sign into `k` as `toLowerCase` does, so a line spelling "RISKS" with it is found by the "risks" prefix |
| NotesParser.FindLine | app/brd-generator/page.tsx:25-26 | the line found is one of the lines, or empty |
| NotesParser.StripLabel | app/brd-generator/page.tsx:27 | stripping a label returns a suffix of the line: the whole line when it has no colon or starts with one, else what follows the first colon with leading spaces dropped |
| NotesParser.Field | app/brd-generator/page.tsx:29-37 | a parsed field is never empty |
| NotesParser.FieldCases | app/brd-generator/page.tsx:25-37 | a field is "-" when no line starts with its prefix or the label is bare; otherwise it is the first such line without its label |
| NotesParser.ParseDeterministic | app/brd-generator/page.tsx:23-39 | the deterministic draft has the fixed requirements and no empty field |
| NotesParser.BuildAiDraft | app/brd-generator/page.tsx:41-56 | the AI draft keeps problem, scope and data, adds fixed text to objectives and risks when these were found and uses defaults when not, and has its own requirements |
| NotesParser.StripLabelled | app/brd-generator/page.tsx:27 | stripping the label of a "Name: value" line gives back the value |
| NotesParser.TrimIgnoresCarriageReturn | app/brd-generator/page.tsx:24 | a line ending in a carriage return trims to the same line as without it |
| NotesParser.ParseLabelled | app/brd-generator/page.tsx:23-39 | in notes made of labelled lines whose labels are told apart by their prefixes, each field parses back to its value |
| NotesParser.LabelsClash | app/brd-generator/page.tsx:29-37 | no label of the notes format starts with the prefix of a later field |
| NotesParser.ParseNotesOf | app/brd-generator/page.tsx:23-39 | writing a draft as labelled notes and parsing them gives the draft back, with the fixed requirements |
| ItWorkspace.ApprovedRequests | app/role/it/page.tsx:19-23 | the IT queue holds exactly the approved requests, each as often as it is stored, in stored order |
| ItWorkspace.Counts.Bump | app/role/it/page.tsx:40-43 | counting one request adds one to its feasibility's counter and to the total, and nothing to the other counters |
| ItWorkspace.StatusCounts | app/role/it/page.tsx:27-46 | the loop computes the tally of the queue |
| ItWorkspace.TallyCounts | app/role/it/page.tsx:27-46 | each counter is the number of requests with that feasibility, and a request without a record counts as pending |
| ItWorkspace.TallyTotal | app/role/it/page.tsx:27-46 | the four counters add up to the number of requests |
| ItWorkspace.FinancialHeadQueue | app/role/it/page.tsx:48-57 | the financial head's queue holds exactly the requests IT found feasible whose final cost approval is in progress, each as often as it is listed, in order |
| ItWorkspace.FinancialQueueOfApproved | app/role/it/page.tsx:19-57 | the financial head's queue is drawn, in order, from approved requests only |
| SmeWorkspace.Opened | app/role/sme/page.tsx:43-49 | on load the page shows the stored requests and selects the first |
| SmeWorkspace.SentForReview | app/role/sme/page.tsx:56-59 | the review list holds exactly the requests in review, each as often as it is stored, in stored order |
| SmeWorkspace.AddThread | app/role/sme/page.tsx:66-79 | a draft without title or date is refused; otherwise it is appended as a thread and the draft is cleared |
| SmeWorkspace.SubmitRequest | app/role/sme/page.tsx:81-106 | a form without title or brief is refused; otherwise a new stakeholder request with the pending threads goes first and is selected, and the form, threads and draft are reset |
| SmeWorkspace.ReviewThread | app/role/sme/page.tsx:118-124 | the decision thread's title names the decision, and its notes are the comment or a fixed sentence when the comment is empty |
| SmeWorkspace.SubmitReviewDecision | app/role/sme/page.tsx:108-136 | without a selection nothing changes; otherwise the selected request gets the decision's status, the comment and the thread, every other request is kept, and the comment box is cleared |
| SmeWorkspace.Decided | app/role/sme/page.tsx:126-131 | the decided request has the decision's status, the comment and the old threads with the decision thread appended; nothing else changes |
| SmeWorkspace.DecidedAppendsOneThread | app/role/sme/page.tsx:126-131 | a decided request keeps its threads and gains exactly one at the end, with the decision's status and comment |
| SmeReview.Opened | app/role/sme/review/page.tsx:13-20 | the review page lists the review queue and selects its first request |
| SmeReview.TemplateDoc | app/role/sme/review/page.tsx:24-30 | the document shown is the text BRD of the selected request's master, and empty when there is no selection or no master |
| SmeReview.SubmitDecision | app/role/sme/review/page.tsx:32-55 | without a selection nothing changes; otherwise the stored request with the selected id gets the decision's status and the comment, the rest are kept, and the queue is rebuilt from the stored list |
| SmeReview.Reviewed | app/role/sme/review/page.tsx:43-47 | the reviewed request has the decision's status, which counts as under review, and the comment |
| SmeReview.ReviewedKeepsTheRest | app/role/sme/review/page.tsx:43-47 | a reviewed request differs from the original only in status and comment, and stays in review |
| SmeRequest.SubmitRequest | app/role/sme/request/page.tsx:18-42 | a form without title or brief is refused; otherwise a new stakeholder request without threads is put first and the form is reset |
| BaRequests.StakeholderRequests | app/ba-portal/requests/page.tsx:59-71 | the BA list holds exactly the requests not created by the BA, each as often as it is stored, in order |
| BaRequests.EditedMaster | app/ba-portal/requests/page.tsx:78-84 | the master being edited is the request's own master, or its default master when it has none |
| BaRequests.SelectRequest | app/ba-portal/requests/page.tsx:78-84 | selecting a request keeps the list and thread form, selects its id and edits its stored master, field for field, or the default master from the request when it has none |
| BaRequests.Opened | app/ba-portal/requests/page.tsx:59-71 | on load the first stakeholder request is selected with its master, and there is no master when the list is empty |
| BaRequests.PersistRequest | app/ba-portal/requests/page.tsx:86-97 | without a selection nothing changes; otherwise only the stored request with the selected id is updated, and the list is rebuilt |
| BaRequests.SavedStatus | app/ba-portal/requests/page.tsx:106 | saving never moves an approved request out of approved; other requests get the new status |
| BaRequests.SaveMaster | app/ba-portal/requests/page.tsx:99-109 | saving stores the edited master and the saved status on the selected request and changes nothing else |
| BaRequests.SaveDraft | app/ba-portal/requests/page.tsx:431 | saving a draft marks the selected request in progress unless it is already approved |
| BaRequests.GenerateAi | app/ba-portal/requests/page.tsx:111-131 | AI generation stores the filled-in master, status `generated` and the time on the selected request, and shows the filled-in master |
| BaRequests.AddThread | app/ba-portal/requests/page.tsx:133-153 | a draft without title or date, or no selection, is refused; otherwise the selected request gains the thread at the end and the draft is reset |
| BaRequests.SetField | app/ba-portal/requests/page.tsx:155-166 | editing a field changes that field of the master and no other, and does nothing without a master |
| BaSend.Toggle | app/ba-portal/send/page.tsx:76-80 | toggling flips the selection of the recipients with the id and changes nothing else |
| BaSend.ToggleTwice | app/ba-portal/send/page.tsx:76-80 | toggling twice restores the recipients |
| BaSend.SetAll | app/ba-portal/send/page.tsx:82-92 | select all and deselect all set every selection flag and change nothing else |
| BaSend.SetAllCount | app/ba-portal/send/page.tsx:82-99 | after select all every recipient counts as selected; after deselect all none does |
| BaSend.SelectedEmailsSnoc | app/ba-portal/send/page.tsx:105-108 | the e-mail list is the selected recipients' addresses joined by ", ", in order |
| BaSend.MarkSent | app/ba-portal/send/page.tsx:120-134 | with a send context, the request it names becomes `sent` with the send time and the context's master, and the others are kept; without one the list is unchanged |
| BaSend.SendPage.constructor | app/ba-portal/send/page.tsx:38-58 | the page starts with the recipients and message, nothing sent, and the stored data it was given |
| BaSend.SendPage.Load | app/ba-portal/send/page.tsx:60-74 | loading takes the stored send context when there is one, and otherwise the last generated BRD |
| BaSend.SendPage.ToggleRecipient | app/ba-portal/send/page.tsx:76-80 | the page state changes only in the toggled recipients |
| BaSend.SendPage.SelectAll | app/ba-portal/send/page.tsx:82-86 | the page state changes only in that every recipient is selected |
| BaSend.SendPage.DeselectAll | app/ba-portal/send/page.tsx:88-92 | the page state changes only in that no recipient is selected |
| BaSend.SendPage.Send | app/ba-portal/send/page.tsx:94-143 | with no recipient selected nothing changes; otherwise the record lists the selected e-mails, the context's request is marked sent, the context is cleared, and success is shown |
| BaSend.ClearThenSend | app/ba-portal/send/page.tsx:88-99 | sending right after deselecting all changes nothing but the selections |
| BaGenerate.SetInput | app/ba-portal/generate/page.tsx:75-80 | editing an input changes that input and no other |
| BaGenerate.OrElse | app/ba-portal/generate/page.tsx:56 | a field or its fallback: a missing or empty value gives the fallback, any other value itself; so a missing thread time prints as nothing, and a missing owner (line 67) as "N/A" |
| BaGenerate.OptionalLine | app/ba-portal/generate/page.tsx:57-59 | an optional thread line appears, with its name, only when the value is present and non-empty |
| BaGenerate.NumberedSnoc | app/ba-portal/generate/page.tsx:54-60 | numbering one more thread appends its block, numbered after the previous ones |
| BaGenerate.ThreadNumbered | app/ba-portal/generate/page.tsx:54-60 | the k-th thread's block carries the number k + 1 and sits between the earlier and later blocks |
| Text.NatToString | app/ba-portal/generate/page.tsx:55 | the thread number `${index + 1}` is written in decimal digits, with no leading zero |
| Text.NatToStringValue | app/ba-portal/generate/page.tsx:55 | the digits written for a number read back as that number |
| Text.NatToStringInjective | app/ba-portal/generate/page.tsx:55 | different thread numbers are written differently |
| BaGenerate.ThreadsText | app/ba-portal/generate/page.tsx:51-61 | without threads the text is empty; otherwise it is the banner followed by the numbered blocks |
| BaGenerate.AppendNumbered | app/ba-portal/generate/page.tsx:54-60 | the loop appends the numbered blocks of all items to the text |
| BaGenerate.BuildThreadsText | app/ba-portal/generate/page.tsx:51-61 | the loop builds the thread text |
| BaGenerate.LoadIntake | app/ba-portal/generate/page.tsx:63-68 | the intake data fills problem, objectives and notes (with the thread text) and keeps every other input |
| BaGenerate.LoadIntakeData | app/ba-portal/generate/page.tsx:45-73 | loading fills the inputs from the stored intake data, if any, and removes that data |
| BaGenerate.ProblemSubject | app/ba-portal/generate/page.tsx:95 | the subject is the problem up to its first full stop, or all of it when there is none: a prefix without a full stop that ends at one or at the end |
| BaGenerate.FirstItem | app/ba-portal/generate/page.tsx:96-97 | the first comma-separated item, trimmed, or the fallback when it is blank; the result is never empty when the item is not blank |
| BaGenerate.RequirementLines | app/ba-portal/generate/page.tsx:94-99 | five lines: the problem's subject resolved through automation, the first objective's workflows (default "solution"), validation of the first data item (default "inputs"), error handling, and audit logging |
| BaGenerate.RequirementsByLine | app/ba-portal/generate/page.tsx:94-99 | when the inputs hold no newline, splitting the requirement text gives back its five lines after a leading empty one |
| BaGenerate.Enriched | app/ba-portal/generate/page.tsx:92-111 | the generated BRD keeps the inputs, its requirements are a newline followed by the five requirement lines joined by newlines, and it adds the fixed success criteria and timeline |
| BaGenerate.GenerateBrd | app/ba-portal/generate/page.tsx:82-116 | without a problem or objectives nothing changes; otherwise the page moves to the generated step with the enriched BRD |
| BaGenerate.SaveGenerated | app/ba-portal/generate/page.tsx:118-132 | saving stores the generated BRD when there is one and keeps the stored one otherwise |
| NewBrd.SetField | app/ba-portal/new-brd/page.tsx:51-53 | editing a form field changes that field and no other |
| NewBrd.ProgressPercentage | app/ba-portal/new-brd/page.tsx:84 | progress is 0 exactly on the first step, 100 exactly on the last, and between them in between |
| NewBrd.ProgressIncreases | app/ba-portal/new-brd/page.tsx:84 | a later step shows strictly more progress |
| NewBrd.Wizard.constructor | app/ba-portal/new-brd/page.tsx:46-49 | the wizard starts on step 1 with the default form |
| NewBrd.Wizard.Next | app/ba-portal/new-brd/page.tsx:55-59 | next moves one step forward and stops at the last step |
| NewBrd.Wizard.Prev | app/ba-portal/new-brd/page.tsx:61-65 | previous moves one step back and stops at the first step |
| NewBrd.Wizard.ClickStep | app/ba-portal/new-brd/page.tsx:106 | a step indicator can be clicked up to one step ahead; a click further ahead does nothing |
| NewBrd.Wizard.InputChange | app/ba-portal/new-brd/page.tsx:51-53 | typing changes only the form |
| NewBrd.Wizard.Submit | app/ba-portal/new-brd/page.tsx:67-82 | submit saves the form as the draft unless project name, problem or objectives is missing |
| NewBrd.Navigate | app/ba-portal/new-brd/page.tsx:55-106 | any sequence of next, previous and clicks keeps the step in range, never changes the form, and advances at most one step per action |
| Approvals.ProgressValue | app/ba-portal/approvals/page.tsx:83-96 | approved shows 100, commented 50, pending 25, and any other status 0 |
| Approvals.GroupsSnoc | app/ba-portal/approvals/page.tsx:100-110 | one reduce step keeps the groups equal to the records of each BRD, in order |
| Approvals.OrderSnoc | app/ba-portal/approvals/page.tsx:100-110 | one reduce step keeps the group keys in creation order, without repeats |
| Approvals.GroupedMeaning | app/ba-portal/approvals/page.tsx:100-110 | each group holds exactly the records of its BRD, in order, and a key exists exactly when some record names it |
| Approvals.CreatedKeysMeaning | app/ba-portal/approvals/page.tsx:100-110 | the keys in creation order are the groups' keys, each once |
| Approvals.GroupsNonEmpty | app/ba-portal/approvals/page.tsx:100-110 | no group is empty, and a group holds only records of its own BRD |
| Approvals.GroupByBrd | app/ba-portal/approvals/page.tsx:100-110 | the reduce loop computes the groups and the keys in creation order |
| Approvals.RoundedPercent | app/ba-portal/approvals/page.tsx:112-115 | the percentage is the approved share rounded half up, between 0 and 100, 0 with no approval and 100 with all approved |
| Approvals.ApprovalPercentage | app/ba-portal/approvals/page.tsx:112-115 | the same, for the approved records of a non-empty group |
| Approvals.CountsAddUp | app/ba-portal/approvals/page.tsx:220-240 | the pending, approved, rejected and commented counts add up to the number of records |
| FlowSidebar.MatchPageHome | app/components/FlowSidebar.tsx:180-197 | the page is home exactly for the root path and for paths that no rule matches |
| FlowSidebar.MatchPage | app/components/FlowSidebar.tsx:180-197 | "/" is the home page; any other path gets the page of the first rule whose prefix it starts with, and the home page when none does |
| FlowSidebar.FirstMatchAt | app/components/FlowSidebar.tsx:182-195 | a path that starts with a rule's prefix, where every earlier prefix clashes with that one at a position both have, gets that rule's page |
| FlowSidebar.AdminPaths | app/components/FlowSidebar.tsx:190-194 | the role-admin, admin and user-management paths all give the admin page |
| FlowSidebar.FindIndex | app/components/FlowSidebar.tsx:202 | the index found is the first route the path starts with, or -1 exactly when there is none |
| FlowSidebar.ActiveIndex | app/components/FlowSidebar.tsx:201-204 | the active step is a step of the flow; the path starts with no earlier route, and with its route unless it is the first step |
| FlowSidebar.ActiveIndexIsLeastMatch | app/components/FlowSidebar.tsx:201-204 | the active step is the first matching route, or step 0 when none matches |
| FlowSidebar.ReachableSteps | app/components/FlowSidebar.tsx:6-204 | only steps 0, 1, 3, 4, 5, 7 and 8 can ever be active: every later step repeats an earlier route |
| FlowSidebar.RootHighlightsLogin | app/components/FlowSidebar.tsx:201-204 | the root path highlights the login step |
| FlowSidebar.OneActiveStep | app/components/FlowSidebar.tsx:218-221 | exactly one step is active; the steps before it are done and those after it are upcoming |
| FlowSidebar.StepStates | app/components/FlowSidebar.tsx:218-221 | one state per step: a step is active exactly at the active index and done exactly before it |
| Intake.AddThread | app/intake/page.tsx:37-57 | a draft without title or date is refused; otherwise the thread joins the end with its id and all six typed fields (title, date, time, participants, transcript, notes), and the draft is cleared |
| Intake.RemoveThread | app/intake/page.tsx:265 | removing keeps exactly the threads with another id, each as often as before, in order |
| Intake.RemoveUndoesAdd | app/intake/page.tsx:37-57 | removing a thread just added with a new id restores the thread list |
| Intake.IntakeRequest | app/intake/page.tsx:67-73 | the intake request carries the form fields, threads, id and time, with status `new` and no creator |
| Intake.IntakeIsUnattributedStakeholderRequest | app/intake/page.tsx:67-73 | the intake request is the stakeholder request of the same form, without the creator |
| Intake.RequestArray.constructor | app/intake/page.tsx:77 | the parsed stored list becomes the array |
| Intake.RequestArray.Push | app/intake/page.tsx:78 | push appends the request at the end |
| Intake.Submit | app/intake/page.tsx:59-83 | a form without title or brief saves nothing; otherwise the stored list gains the intake request at the end |
| Intake.SubmittedIsFound | app/intake/page.tsx:76-79 | a request saved with a fresh id is what a later lookup by that id finds |
| Intake.IntakeAppendsStakeholderPrepends | app/intake/page.tsx:76-79 | the intake page appends where the stakeholder page prepends: the same requests, in another place |

## Left out

- Drawing with jsPDF is not modelled: colours, line widths, the page frame and the header title. The layout keeps a trace of page starts, text blocks with the font each is drawn in, and highlight rectangles. The font is state, set as `setFont` and `setFontSize` set it. The line wrapping of `splitTextToSize` is a parameter `wrap` of the text, the width and the font.
- The bullet prefix of the PDF is kept byte for byte as the source writes it, a mis-encoded bullet character.
- Local storage reads and writes are not modelled: stored lists come in as parameters and the lists to store come back as results. A stored value that fails to parse is modelled by `SafeParse` only; the pages are given parsed, complete records.
- The clock (`new Date()`, `Date.now()`) and `createId` are parameters.
- The SME page gives each decided request its own fresh thread id; `SmeWorkspace.SubmitReviewDecision` takes a single id.
- UI-only state is not modelled: busy flags, alerts, timers, router navigation, `window.location`, CSS and markup.
- The stakeholders list of the send page and the mock approvals of the approvals page are fixtures; they are parameters here.
- The IT loaders of feasibility and workflow records are not part of this model; their maps are inputs.
- The titles, details and page input/output lists of the sidebar steps are not modelled; only their routes are.
- `Math.round` over floating point is modelled by exact rounding half up. An empty approval group, which would give NaN, cannot occur (`Approvals.GroupsNonEmpty`).
- The order of `Object.entries` is modelled by key creation order, which is what JavaScript uses for string keys that are not array indices.
- `threads || []` on stored requests is modelled by always-present thread lists.
- MaskingTokens.MaskLeavesNoTableWord: covers the single-word names of the table, not the two-word phrase "RBL BANK". That phrase is replaced by "ABC BANK" first, and the later "RBL" rule would catch it anyway.
- NewBrd.Wizard.ClickStep: requires a step id from 1 to 5. These are the only ids the page renders.
- Masking of text is modelled on `char`, with the ASCII notions of word character, digit and letter that JavaScript regular expressions use without the `u` flag. Case folding is ASCII only.
- NotesParser.FirstMatch: lower-cases only the characters whose lower case is an ASCII letter (`A`-`Z` and the Kelvin sign). Other capitals are left as they are, where `toLowerCase` maps them to non-ASCII text, and `İ` becomes `i` plus a combining dot. For the six ASCII prefixes the page uses, none of which ends in `i`, this decides the same lines; for an arbitrary prefix it need not.
- NotesParser.FindLine: uses the lower-casing of `NotesParser.FirstMatch`, with the same limit.
