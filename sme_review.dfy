/** The stakeholder's BRD review page: the queue of sent BRDs, the plain-text BRD
    of the selected one, and the approve / ask-for-changes decision. */
module SmeReview {
  import opened Options
  import opened Workflow
  import opened RequestList
  import SmeWorkspace

  /** The page's own state: the review queue, the selection and the comment box. */
  datatype ReviewState = ReviewState(queue: seq<Request>, selectedId: string, reviewComment: string)

  /** The page once opened: the review queue of the stored requests, its first one selected. */
  function Opened(all: seq<Request>): (s: ReviewState)
    ensures s.queue == ReviewQueue(all) && s.reviewComment == ""
    ensures s.queue != [] ==> FindById(s.queue, s.selectedId) == Some(s.queue[0])
  {
    var q := ReviewQueue(all);
    ReviewState(q, if q != [] then q[0].id else "", "")
  }

  /** The selected request, when the queue holds it. */
  function Selected(s: ReviewState): Option<Request> {
    FindById(s.queue, s.selectedId)
  }

  /** `templateDoc`: empty without a selection or when the selection has no BRD
      master; otherwise the plain-text BRD of the selected request. */
  function TemplateDoc(s: ReviewState, today: string): (doc: string)
    ensures Selected(s).None? || Selected(s).value.brdMaster.None? ==> doc == ""
    ensures Selected(s).Some? && Selected(s).value.brdMaster.Some? ==>
              doc == BuildTemplateBrd(Selected(s).value, Selected(s).value.brdMaster.value, today)
  {
    if Selected(s).None? || Selected(s).value.brdMaster.None? then ""
    else BuildTemplateBrd(Selected(s).value, Selected(s).value.brdMaster.value, today)
  }

  /** A request under review: the decision's status and the comment; nothing else. */
  function Reviewed(item: Request, decision: SmeWorkspace.Decision, comment: string): (r: Request)
    ensures r.status == SmeWorkspace.DecisionStatus(decision) && r.reviewerComment == Some(comment)
    ensures InReview(r.status)
  {
    item.(status := SmeWorkspace.DecisionStatus(decision), reviewerComment := Some(comment))
  }

  /** The stored requests and the page after a decision. */
  datatype Outcome = Outcome(stored: seq<Request>, page: ReviewState)

  /** `submitDecision`: nothing happens without a selection. Otherwise the stored
      requests with the selected id take the decision and the comment, every other
      stored request is kept as it was and where it was, the queue is rebuilt from
      the new list and the comment box is cleared. */
  function SubmitDecision(s: ReviewState, stored: seq<Request>, decision: SmeWorkspace.Decision): (o: Outcome)
    ensures FindById(s.queue, s.selectedId).None? ==> o == Outcome(stored, s)
    ensures FindById(s.queue, s.selectedId).Some? ==>
              && |o.stored| == |stored|
              && (forall i :: 0 <= i < |stored| && stored[i].id != s.selectedId ==> o.stored[i] == stored[i])
              && (forall i :: 0 <= i < |stored| && stored[i].id == s.selectedId ==>
                    o.stored[i] == Reviewed(stored[i], decision, s.reviewComment))
              && o.page == ReviewState(ReviewQueue(o.stored), s.selectedId, "")
  {
    match FindById(s.queue, s.selectedId)
    case None => Outcome(stored, s)
    case Some(selected) =>
      var next := UpdateById(stored, selected.id, item => Reviewed(item, decision, s.reviewComment));
      Outcome(next, s.(queue := ReviewQueue(next), reviewComment := ""))
  }

  /** A review changes only the status and the comment: the threads, the master and
      every other field stay. */
  lemma ReviewedKeepsTheRest(item: Request, decision: SmeWorkspace.Decision, comment: string)
    ensures var r := Reviewed(item, decision, comment);
            && r.status == SmeWorkspace.DecisionStatus(decision) && r.reviewerComment == Some(comment)
            && r.(status := item.status, reviewerComment := item.reviewerComment) == item
            && InReview(r.status)
  {
  }
}
