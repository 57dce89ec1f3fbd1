/** The read-modify-write rules the page handlers share: finding the selected
    request by id, rewriting only the requests with that id, and the review queue
    the stakeholder pages show. */
module RequestList {
  import opened Options
  import opened Seqs
  import opened Workflow

  /** The index of the first request with `id`, or `|reqs|` when there is none. */
  function FirstWithId(reqs: seq<Request>, id: string): (k: nat)
    ensures k <= |reqs|
    ensures forall j :: 0 <= j < k ==> reqs[j].id != id
    ensures k < |reqs| ==> reqs[k].id == id
  {
    if reqs == [] || reqs[0].id == id then 0 else 1 + FirstWithId(reqs[1..], id)
  }

  /** `reqs.find(item => item.id === id)`. */
  function FindById(reqs: seq<Request>, id: string): (r: Option<Request>)
    ensures r.None? <==> forall j :: 0 <= j < |reqs| ==> reqs[j].id != id
    ensures r.Some? ==> r.value in reqs && r.value.id == id
  {
    var k := FirstWithId(reqs, id);
    if k < |reqs| then Some(reqs[k]) else None
  }

  /** `reqs.map(item => item.id === id ? f(item) : item)`. */
  function UpdateById(reqs: seq<Request>, id: string, f: Request -> Request): (r: seq<Request>)
    ensures |r| == |reqs|
    ensures forall i :: 0 <= i < |reqs| && reqs[i].id != id ==> r[i] == reqs[i]
    ensures forall i :: 0 <= i < |reqs| && reqs[i].id == id ==> r[i] == f(reqs[i])
  {
    UpdateWhere(reqs, (item: Request) => item.id == id, f)
  }

  /** The ids of a list of requests, in order. */
  function Ids(reqs: seq<Request>): (ids: seq<string>)
    ensures |ids| == |reqs| && forall i :: 0 <= i < |reqs| ==> ids[i] == reqs[i].id
  {
    Map(reqs, (r: Request) => r.id)
  }

  /** An update that keeps ids keeps the list's ids, and so its order. */
  lemma UpdateKeepsIds(reqs: seq<Request>, id: string, f: Request -> Request)
    requires forall r :: f(r).id == r.id
    ensures Ids(UpdateById(reqs, id, f)) == Ids(reqs)
  {
  }

  /** Without a request carrying `id`, an update by id changes nothing. */
  lemma UpdateAbsent(reqs: seq<Request>, id: string, f: Request -> Request)
    requires FindById(reqs, id).None?
    ensures UpdateById(reqs, id, f) == reqs
  {
  }

  /** The statuses a stakeholder reviews: sent, approved and changes requested. */
  predicate InReview(s: RequestStatus) {
    s == Sent || s == Approved || s == ChangesRequested
  }

  /** The review queue: exactly the requests in review, each as often as in
      `reqs`, in their original order. */
  function ReviewQueue(reqs: seq<Request>): (q: seq<Request>)
    ensures forall r :: r in q <==> r in reqs && InReview(r.status)
    ensures forall r :: multiset(q)[r] == if InReview(r.status) then multiset(reqs)[r] else 0
    ensures IsSubsequence(q, reqs)
  {
    var q := Filter(reqs, (r: Request) => InReview(r.status));
    FilterContents(reqs, (r: Request) => InReview(r.status));
    FilterIsSubsequence(reqs, (r: Request) => InReview(r.status));
    q
  }

  /** The fields of the stakeholder request form. */
  datatype RequestForm = RequestForm(
    reqType: string, reqTitle: string, owner: string, tenant: string, priority: string, brief: string)

  /** The form a stakeholder starts from, and returns to after submitting. */
  const StakeholderForm := RequestForm("BRD", "", "SME Team", "BANK", "P2", "")

  /** `!form.reqTitle || !form.brief`: the check every request form makes first. */
  predicate MissingTitleOrBrief(form: RequestForm) {
    form.reqTitle == "" || form.brief == ""
  }

  /** `{ ...form, threads }`. */
  function PayloadOf(form: RequestForm, threads: seq<Thread>): Payload {
    Payload(form.reqType, form.reqTitle, form.owner, form.tenant, form.priority, form.brief, threads)
  }
}
