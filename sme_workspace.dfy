/** The stakeholder workspace: raising a request with its conversation threads,
    and approving or asking for changes to a BRD the BA has sent. The request list
    is the stored one; every handler returns the page's next state. */
module SmeWorkspace {
  import opened Options
  import opened Workflow
  import opened Seqs
  import opened RequestList

  /** The two answers a stakeholder can give to a sent BRD. */
  datatype Decision = Approve | RequestChanges

  function DecisionStatus(d: Decision): RequestStatus {
    if d == Approve then Approved else ChangesRequested
  }

  /** A thread being typed: every field of a thread but its id. */
  datatype ThreadDraft = ThreadDraft(
    title: string, date: string, time: string, participants: string, transcript: string, notes: string)

  const EmptyDraft := ThreadDraft("", "", "", "", "", "")

  /** `{ id, ...draft }`. */
  function ThreadOf(id: string, d: ThreadDraft): Thread {
    Thread(id, d.title, d.date, Some(d.time), Some(d.participants), Some(d.transcript), Some(d.notes))
  }

  datatype SmeState = SmeState(
    requests: seq<Request>,
    selectedId: string,
    reviewComment: string,
    form: RequestForm,
    threads: seq<Thread>,
    threadDraft: ThreadDraft)

  /** The page once the stored requests are loaded: the first one is selected. */
  function Opened(all: seq<Request>): (s: SmeState)
    ensures s.requests == all && s.reviewComment == "" && s.threads == []
    ensures all != [] ==> FindById(s.requests, s.selectedId) == Some(all[0])
  {
    SmeState(all, if all != [] then all[0].id else "", "", StakeholderForm, [], EmptyDraft)
  }

  /** The requests the stakeholder has been sent, in their order, each as often
      as it is stored. */
  function SentForReview(s: SmeState): (q: seq<Request>)
    ensures forall r :: r in q <==> r in s.requests && InReview(r.status)
    ensures forall r :: multiset(q)[r] == if InReview(r.status) then multiset(s.requests)[r] else 0
    ensures IsSubsequence(q, s.requests)
  {
    ReviewQueue(s.requests)
  }

  /** `addThread`: a draft without a title or a date is refused; otherwise it joins
      the end of the pending threads and the draft is cleared. */
  function AddThread(s: SmeState, id: string): (t: SmeState)
    ensures s.threadDraft.title == "" || s.threadDraft.date == "" ==> t == s
    ensures s.threadDraft.title != "" && s.threadDraft.date != "" ==>
              && t == s.(threads := t.threads, threadDraft := EmptyDraft)
              && |t.threads| == |s.threads| + 1 && t.threads[..|s.threads|] == s.threads
              && t.threads[|s.threads|] == ThreadOf(id, s.threadDraft)
  {
    if s.threadDraft.title == "" || s.threadDraft.date == "" then s
    else s.(threads := s.threads + [ThreadOf(id, s.threadDraft)], threadDraft := EmptyDraft)
  }

  /** `submitRequest`: a form without a title or a brief is refused. Otherwise the new
      request, carrying the pending threads, goes to the front of the list and is
      selected, and the form, threads and draft start over. */
  function SubmitRequest(s: SmeState, id: string, now: string): (t: SmeState)
    ensures MissingTitleOrBrief(s.form) ==> t == s
    ensures !MissingTitleOrBrief(s.form) ==>
              && |t.requests| == |s.requests| + 1 && t.requests[1..] == s.requests
              && t.requests[0] == CreateStakeholderRequest(PayloadOf(s.form, s.threads), id, now)
              && t.requests[0].status == New && t.requests[0].createdBy == ByStakeholder
              && t.requests[0].threads == s.threads
              && t.selectedId == id && t.form == StakeholderForm && t.threads == [] && t.threadDraft == EmptyDraft
              && t.reviewComment == s.reviewComment
  {
    if MissingTitleOrBrief(s.form) then s
    else
      var payload := CreateStakeholderRequest(PayloadOf(s.form, s.threads), id, now);
      s.(requests := [payload] + s.requests, selectedId := payload.id,
         form := StakeholderForm, threads := [], threadDraft := EmptyDraft)
  }

  /** The thread recording a decision: its title names the decision, and its notes are
      the comment, or a fixed sentence when the comment is empty. */
  function ReviewThread(decision: Decision, comment: string, id: string, today: string): (t: Thread)
    ensures t.title == (if decision == Approve then "Stakeholder approval" else "Stakeholder requested changes")
    ensures comment != "" ==> t.notes == Some(comment)
    ensures comment == "" ==> t.notes == Some(if decision == Approve then "Approved." else "Changes requested.")
    ensures t.id == id && t.date == today && t.participants == Some("Stakeholder, BA")
  {
    Thread(id,
      if decision == Approve then "Stakeholder approval" else "Stakeholder requested changes",
      today, None, Some("Stakeholder, BA"), None,
      Some(Or(comment, if decision == Approve then "Approved." else "Changes requested.")))
  }

  /** A decided request: the decision's status, the comment, and the thread at the end. */
  function Decided(item: Request, decision: Decision, comment: string, thread: Thread): (r: Request)
    ensures r.status == DecisionStatus(decision) && r.reviewerComment == Some(comment)
    ensures r.threads == item.threads + [thread]
    ensures r.(status := item.status, reviewerComment := item.reviewerComment, threads := item.threads) == item
  {
    item.(status := DecisionStatus(decision), reviewerComment := Some(comment), threads := item.threads + [thread])
  }

  /** `submitReviewDecision`: nothing happens without a selected request. Otherwise the
      requests with the selected id are decided, every other request stays as it
      was and where it was, and the comment box is cleared. */
  function SubmitReviewDecision(s: SmeState, decision: Decision, threadId: string, today: string): (t: SmeState)
    ensures FindById(s.requests, s.selectedId).None? ==> t == s
    ensures FindById(s.requests, s.selectedId).Some? ==>
              && t == s.(requests := t.requests, reviewComment := "")
              && |t.requests| == |s.requests|
              && (forall i :: 0 <= i < |s.requests| && s.requests[i].id != s.selectedId ==> t.requests[i] == s.requests[i])
              && (forall i :: 0 <= i < |s.requests| && s.requests[i].id == s.selectedId ==>
                    t.requests[i] == Decided(s.requests[i], decision, s.reviewComment,
                                             ReviewThread(decision, s.reviewComment, threadId, today)))
  {
    match FindById(s.requests, s.selectedId)
    case None => s
    case Some(selected) =>
      var thread := ReviewThread(decision, s.reviewComment, threadId, today);
      s.(requests := UpdateById(s.requests, selected.id, item => Decided(item, decision, s.reviewComment, thread)),
         reviewComment := "")
  }

  /** A decided request keeps its threads and adds exactly one, at the end. */
  lemma DecidedAppendsOneThread(item: Request, decision: Decision, comment: string, thread: Thread)
    ensures var d := Decided(item, decision, comment, thread);
            |d.threads| == |item.threads| + 1 && d.threads[..|item.threads|] == item.threads
            && d.threads[|item.threads|] == thread
            && d.status == DecisionStatus(decision) && d.reviewerComment == Some(comment)
            && d.id == item.id && d.brdMaster == item.brdMaster
  {
    assert (item.threads + [thread])[..|item.threads|] == item.threads;
  }
}
