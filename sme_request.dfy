/** The stakeholder's stand-alone request form. */
module SmeRequest {
  import opened Workflow
  import opened RequestList

  /** The stored requests and the form after a submission. */
  datatype Outcome = Outcome(stored: seq<Request>, form: RequestForm)

  /** `submitRequest`: a form without a title or a brief is refused and nothing is
      saved. Otherwise a new request without threads is stored in front of the
      existing ones, which follow in their order, and the form starts over. */
  function SubmitRequest(form: RequestForm, existing: seq<Request>, id: string, now: string): (o: Outcome)
    ensures MissingTitleOrBrief(form) ==> o == Outcome(existing, form)
    ensures !MissingTitleOrBrief(form) ==>
              && |o.stored| == |existing| + 1 && o.stored[1..] == existing
              && o.stored[0] == CreateStakeholderRequest(PayloadOf(form, []), id, now)
              && o.stored[0].threads == [] && o.stored[0].status == New && o.stored[0].createdBy == ByStakeholder
              && o.stored[0].reqTitle == form.reqTitle && o.stored[0].brief == form.brief
              && o.form == StakeholderForm
  {
    if MissingTitleOrBrief(form) then Outcome(existing, form)
    else Outcome([CreateStakeholderRequest(PayloadOf(form, []), id, now)] + existing, StakeholderForm)
  }
}
