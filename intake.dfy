/** The intake tracker: the BA records conversation threads with a stakeholder and
    files a new request carrying them, appended to the stored list. */
module Intake {
  import opened Options
  import opened Seqs
  import opened Workflow
  import opened RequestList
  import opened SmeWorkspace
  import SmeRequest

  /** The request form the intake page starts from: no owner, unlike the
      stakeholder's own form. */
  const IntakeForm := RequestForm("BRD", "", "", "BANK", "P2", "")

  /** The threads recorded so far and the thread being typed. */
  datatype Threads = Threads(recorded: seq<Thread>, draft: ThreadDraft)

  /** `handleAddThread`: a draft without a title or a date is refused and nothing
      changes. Otherwise it joins the end of the recorded threads under `id`, with
      every field it was typed with, and the draft is cleared. */
  function AddThread(s: Threads, id: string): (t: Threads)
    ensures s.draft.title == "" || s.draft.date == "" ==> t == s
    ensures s.draft.title != "" && s.draft.date != "" ==>
              && |t.recorded| == |s.recorded| + 1 && t.recorded[..|s.recorded|] == s.recorded
              && t.recorded[|s.recorded|].id == id
              && t.recorded[|s.recorded|].title == s.draft.title
              && t.recorded[|s.recorded|].date == s.draft.date
              && t.recorded[|s.recorded|].time == Some(s.draft.time)
              && t.recorded[|s.recorded|].participants == Some(s.draft.participants)
              && t.recorded[|s.recorded|].notes == Some(s.draft.notes)
              && t.recorded[|s.recorded|].transcript == Some(s.draft.transcript)
              && t.draft == EmptyDraft
  {
    if s.draft.title == "" || s.draft.date == "" then s
    else Threads(s.recorded + [ThreadOf(id, s.draft)], EmptyDraft)
  }

  /** The remove button: `threads.filter(t => t.id !== id)`. Every thread with
      that id goes, the others stay in their order. */
  function RemoveThread(threads: seq<Thread>, id: string): (r: seq<Thread>)
    ensures forall t :: t in r <==> t in threads && t.id != id
    ensures forall t :: multiset(r)[t] == if t.id != id then multiset(threads)[t] else 0
    ensures IsSubsequence(r, threads)
  {
    FilterContents(threads, (t: Thread) => t.id != id);
    FilterIsSubsequence(threads, (t: Thread) => t.id != id);
    Filter(threads, (t: Thread) => t.id != id)
  }

  /** Removing a thread just added under an id no other thread has gives back the
      threads as they were. */
  lemma RemoveUndoesAdd(s: Threads, id: string)
    requires s.draft.title != "" && s.draft.date != ""
    requires forall i :: 0 <= i < |s.recorded| ==> s.recorded[i].id != id
    ensures RemoveThread(AddThread(s, id).recorded, id) == s.recorded
  {
    var p := (t: Thread) => t.id != id;
    FilterSnoc(s.recorded, ThreadOf(id, s.draft), p);
    FilterKeepsAll(s.recorded, p);
  }

  /** The request `handleSubmit` stores: the form's fields, the recorded threads, the
      id and time it was created, status new, and nothing else recorded. */
  function IntakeRequest(form: RequestForm, threads: seq<Thread>, id: string, now: string): (r: Request)
    ensures r.id == id && r.createdAt == now && r.threads == threads
    ensures r.reqType == form.reqType && r.reqTitle == form.reqTitle && r.owner == form.owner
    ensures r.tenant == form.tenant && r.priority == form.priority && r.brief == form.brief
    ensures r.status == New && r.createdBy == Unrecorded
    ensures r.brdMaster == None && r.aiGeneratedAt == None && r.sentAt == None && r.reviewerComment == None
  {
    Request(id, form.reqType, form.reqTitle, form.owner, form.tenant, form.priority, form.brief,
            threads, now, Unrecorded, New, None, None, None, None)
  }

  /** The intake request is the stakeholder's request for the same form and threads
      except that it does not record who created it. */
  lemma IntakeIsUnattributedStakeholderRequest(form: RequestForm, threads: seq<Thread>, id: string, now: string)
    ensures IntakeRequest(form, threads, id, now)
            == CreateStakeholderRequest(PayloadOf(form, threads), id, now).(createdBy := Unrecorded)
  {
  }

  /** The array parsed from storage, which `handleSubmit` pushes onto in place. */
  class RequestArray {
    var items: seq<Request>

    constructor (stored: seq<Request>)
      ensures items == stored
    {
      items := stored;
    }

    /** `push`. */
    method Push(r: Request)
      modifies this
      ensures items == old(items) + [r]
    {
      items := items + [r];
    }
  }

  /** `handleSubmit`: a form without a title or a brief is refused and nothing is
      saved. Otherwise the new request is pushed after the stored ones and the
      whole array is saved. */
  method Submit(form: RequestForm, threads: seq<Thread>, stored: seq<Request>, id: string, now: string)
    returns (saved: Option<seq<Request>>)
    ensures MissingTitleOrBrief(form) <==> saved.None?
    ensures saved.Some? ==>
              && |saved.value| == |stored| + 1 && saved.value[..|stored|] == stored
              && saved.value[|stored|] == IntakeRequest(form, threads, id, now)
  {
    if MissingTitleOrBrief(form) {
      return None;
    }
    var existing := new RequestArray(stored);
    existing.Push(IntakeRequest(form, threads, id, now));
    saved := Some(existing.items);
  }

  /** A request filed with an id no stored request has is the one found by that id. */
  lemma SubmittedIsFound(stored: seq<Request>, r: Request)
    requires forall i :: 0 <= i < |stored| ==> stored[i].id != r.id
    ensures FindById(stored + [r], r.id) == Some(r)
  {
    var all := stored + [r];
    forall j | 0 <= j < |stored|
      ensures all[j].id != r.id
    {
      assert all[j] == stored[j];
    }
    assert all[|stored|] == r;
  }

  /** The intake page files a request at the end of the list, where the stakeholder's
      form files it at the front: the two lists hold the same requests, in another
      order, once the stakeholder's request is given the intake's threads and loses
      its creator. */
  lemma IntakeAppendsStakeholderPrepends(form: RequestForm, threads: seq<Thread>, stored: seq<Request>, id: string, now: string)
    requires !MissingTitleOrBrief(form)
    ensures var sme := SmeRequest.SubmitRequest(form, stored, id, now).stored;
            var intake := stored + [IntakeRequest(form, threads, id, now)];
            && sme[1..] == intake[..|stored|]
            && sme[0].(createdBy := Unrecorded, threads := threads) == intake[|stored|]
            && multiset(intake) == multiset(sme[1..]) + multiset{sme[0].(createdBy := Unrecorded, threads := threads)}
  {
    var intake := stored + [IntakeRequest(form, threads, id, now)];
    assert intake[..|stored|] == stored;
  }
}
