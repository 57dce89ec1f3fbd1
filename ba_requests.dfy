/** The BA's request workspace: the stakeholder requests, the BRD master being
    edited for the selected one, conversation threads, saving and the mock AI
    generation. Every handler that persists takes the stored request list and
    returns the new one together with the page's next state. */
module BaRequests {
  import opened Options
  import opened Seqs
  import opened Workflow
  import opened RequestList

  /** `all.filter(item => item.createdBy !== "ba")`: requests the BA did not create. */
  function StakeholderRequests(all: seq<Request>): (q: seq<Request>)
    ensures forall r :: r in q <==> r in all && r.createdBy != ByBa
    ensures forall r :: multiset(q)[r] == if r.createdBy != ByBa then multiset(all)[r] else 0
    ensures IsSubsequence(q, all)
  {
    FilterContents(all, (r: Request) => r.createdBy != ByBa);
    FilterIsSubsequence(all, (r: Request) => r.createdBy != ByBa);
    Filter(all, (r: Request) => r.createdBy != ByBa)
  }

  /** The master put in the editor for a request: the defaults derived from the
      request, overridden by its stored master where it has one. A stored master is
      a complete record, so it overrides every field. */
  function EditedMaster(req: Request): (m: Master)
    ensures req.brdMaster.None? ==> m == DefaultMasterFromRequest(req)
    ensures req.brdMaster.Some? ==> forall k :: Get(m, k) == Get(req.brdMaster.value, k)
  {
    match req.brdMaster
    case None => DefaultMasterFromRequest(req)
    case Some(stored) => stored
  }

  /** The thread form: no time or transcript, and the participants start filled in. */
  datatype ThreadDraft = ThreadDraft(title: string, date: string, participants: string, notes: string)

  const InitialThreadDraft := ThreadDraft("", "", "BA, Stakeholder", "")

  datatype PageState = PageState(
    list: seq<Request>, selectedId: string, master: Option<Master>, threadDraft: ThreadDraft)

  /** The page once the stored requests are loaded: the first stakeholder request
      is selected and its master is put in the editor. */
  function Opened(all: seq<Request>): (s: PageState)
    ensures s.list == StakeholderRequests(all) && s.threadDraft == InitialThreadDraft
    ensures s.list == [] ==> s.master.None?
    ensures s.list != [] ==> s.selectedId == s.list[0].id && s.master == Some(EditedMaster(s.list[0]))
  {
    var list := StakeholderRequests(all);
    if list == [] then PageState(list, "", None, InitialThreadDraft)
    else PageState(list, list[0].id, Some(EditedMaster(list[0])), InitialThreadDraft)
  }

  /** `onSelectRequest`: the request becomes the selected one and its master goes
      into the editor, the stored master overriding every default; the list and
      the thread form stay. */
  function SelectRequest(s: PageState, req: Request): (t: PageState)
    ensures t.list == s.list && t.threadDraft == s.threadDraft && t.selectedId == req.id && t.master.Some?
    ensures req.brdMaster.None? ==> t.master.value == DefaultMasterFromRequest(req)
    ensures req.brdMaster.Some? ==> forall k :: Get(t.master.value, k) == Get(req.brdMaster.value, k)
  {
    s.(selectedId := req.id, master := Some(EditedMaster(req)))
  }

  /** The selected request, when the list holds it. */
  function Selected(s: PageState): Option<Request> {
    FindById(s.list, s.selectedId)
  }

  /** The stored requests and the page after a handler. */
  datatype Outcome = Outcome(stored: seq<Request>, page: PageState)

  /** `persistRequest`: nothing happens without a selection. Otherwise the updater is
      applied to the stored requests with the selected id, every other stored request
      is kept as it was and where it was, and the list is rebuilt from the new store. */
  function PersistRequest(s: PageState, stored: seq<Request>, updater: Request -> Request): (o: Outcome)
    ensures Selected(s).None? ==> o == Outcome(stored, s)
    ensures Selected(s).Some? ==>
              && |o.stored| == |stored|
              && (forall i :: 0 <= i < |stored| && stored[i].id != s.selectedId ==> o.stored[i] == stored[i])
              && (forall i :: 0 <= i < |stored| && stored[i].id == s.selectedId ==> o.stored[i] == updater(stored[i]))
              && o.page == s.(list := StakeholderRequests(o.stored))
  {
    match Selected(s)
    case None => Outcome(stored, s)
    case Some(selected) =>
      var next := UpdateById(stored, selected.id, updater);
      Outcome(next, s.(list := StakeholderRequests(next)))
  }

  /** The status a save leaves: an approved request stays approved. */
  function SavedStatus(current: RequestStatus, nextStatus: RequestStatus): (r: RequestStatus)
    ensures current == Approved ==> r == Approved
    ensures current != Approved ==> r == nextStatus
  {
    if current == Approved then Approved else nextStatus
  }

  /** `saveMaster(nextStatus)`: needs a selection and a master. The selected stored
      request keeps `approved` or else takes `nextStatus`, and stores the edited
      master; nothing else in the store changes. */
  function SaveMaster(s: PageState, stored: seq<Request>, nextStatus: RequestStatus): (o: Outcome)
    ensures Selected(s).None? || s.master.None? ==> o == Outcome(stored, s)
    ensures Selected(s).Some? && s.master.Some? ==>
              && |o.stored| == |stored|
              && (forall i :: 0 <= i < |stored| && stored[i].id != s.selectedId ==> o.stored[i] == stored[i])
              && (forall i :: 0 <= i < |stored| && stored[i].id == s.selectedId ==>
                    && o.stored[i].status == SavedStatus(stored[i].status, nextStatus)
                    && o.stored[i].brdMaster == s.master
                    && o.stored[i] == stored[i].(status := o.stored[i].status, brdMaster := s.master))
              && o.page == s.(list := StakeholderRequests(o.stored))
  {
    if Selected(s).None? || s.master.None? then Outcome(stored, s)
    else PersistRequest(s, stored, (r: Request) => r.(status := SavedStatus(r.status, nextStatus), brdMaster := s.master))
  }

  /** The "Save Draft" button: `saveMaster()` with its default status. */
  function SaveDraft(s: PageState, stored: seq<Request>): (o: Outcome)
    ensures |o.stored| == |stored|
    ensures Selected(s).Some? && s.master.Some? ==>
              forall i :: 0 <= i < |stored| && stored[i].id == s.selectedId ==>
                o.stored[i].status == (if stored[i].status == Approved then Approved else InProgress)
  {
    SaveMaster(s, stored, InProgress)
  }

  /** `handleGenerateAI`: needs a master and a selection. The editor gets the
      AI-filled master; the selected stored request becomes `generated` whatever its
      status was, records the time and stores the AI-filled master. */
  function GenerateAi(s: PageState, stored: seq<Request>, now: string): (o: Outcome)
    ensures Selected(s).None? || s.master.None? ==> o == Outcome(stored, s)
    ensures Selected(s).Some? && s.master.Some? ==>
              var generated := ApplyMockAiGeneration(s.master.value);
              && |o.stored| == |stored|
              && (forall i :: 0 <= i < |stored| && stored[i].id != s.selectedId ==> o.stored[i] == stored[i])
              && (forall i :: 0 <= i < |stored| && stored[i].id == s.selectedId ==>
                    o.stored[i] == stored[i].(status := Generated, aiGeneratedAt := Some(now), brdMaster := Some(generated)))
              && o.page == s.(master := Some(generated), list := StakeholderRequests(o.stored))
  {
    if Selected(s).None? || s.master.None? then Outcome(stored, s)
    else
      var generated := ApplyMockAiGeneration(s.master.value);
      PersistRequest(s.(master := Some(generated)), stored,
        (r: Request) => r.(status := Generated, aiGeneratedAt := Some(now), brdMaster := Some(generated)))
  }

  /** The thread the BA form records. */
  function DraftThread(id: string, d: ThreadDraft): Thread {
    Thread(id, d.title, d.date, None, Some(d.participants), None, Some(d.notes))
  }

  /** `addThread`: needs a selection, a title and a date. The selected stored
      request gets the thread at the end of its threads, and the form starts over. */
  function AddThread(s: PageState, stored: seq<Request>, id: string): (o: Outcome)
    ensures Selected(s).None? || s.threadDraft.title == "" || s.threadDraft.date == "" ==> o == Outcome(stored, s)
    ensures Selected(s).Some? && s.threadDraft.title != "" && s.threadDraft.date != "" ==>
              && |o.stored| == |stored|
              && (forall i :: 0 <= i < |stored| && stored[i].id != s.selectedId ==> o.stored[i] == stored[i])
              && (forall i :: 0 <= i < |stored| && stored[i].id == s.selectedId ==>
                    && o.stored[i] == stored[i].(threads := o.stored[i].threads)
                    && |o.stored[i].threads| == |stored[i].threads| + 1
                    && o.stored[i].threads[..|stored[i].threads|] == stored[i].threads
                    && o.stored[i].threads[|stored[i].threads|] == DraftThread(id, s.threadDraft))
              && o.page == s.(list := StakeholderRequests(o.stored), threadDraft := InitialThreadDraft)
  {
    if Selected(s).None? || s.threadDraft.title == "" || s.threadDraft.date == "" then Outcome(stored, s)
    else
      var thread := DraftThread(id, s.threadDraft);
      var o := PersistRequest(s, stored, (r: Request) => r.(threads := r.threads + [thread]));
      Outcome(o.stored, o.page.(threadDraft := InitialThreadDraft))
  }

  /** `setField`: only the named field of the edited master changes; without a
      master there is nothing to change. */
  function SetField(s: PageState, k: MasterKey, v: string): (t: PageState)
    ensures s.master.None? ==> t == s
    ensures s.master.Some? ==>
              && t == s.(master := t.master) && t.master.Some?
              && Get(t.master.value, k) == v
              && forall j :: j != k ==> Get(t.master.value, j) == Get(s.master.value, j)
  {
    match s.master
    case None => s
    case Some(m) => s.(master := Some(Set(m, k, v)))
  }
}
