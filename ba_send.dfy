/** The BA's send page: choosing the stakeholders a BRD goes to and sending it.
    Sending writes a send record, marks the request the BRD came from as sent and
    drops the stored send context. The browser storage the page reads and writes
    is modelled by fields of the page object. */
module BaSend {
  import opened Options
  import opened Seqs
  import opened Text
  import opened Workflow
  import opened RequestList
  import opened BaGenerate

  /** A stakeholder on the recipient list. */
  datatype Recipient = Recipient(id: string, name: string, email: string, role: string, selected: bool)

  /** What the requests page leaves for this page: which request is being sent,
      and with which master. */
  datatype SendContext = SendContext(requestId: string, reqTitle: string, brdMaster: Master)

  /** The stored record of a sending. */
  datatype SendRecord = SendRecord(timestamp: string, recipients: string, message: string, status: string)

  /** `handleToggleRecipient`: the recipients with `id` flip their flag; nothing else
      changes, and the list keeps its length and order. */
  function Toggle(rs: seq<Recipient>, id: string): (r: seq<Recipient>)
    ensures |r| == |rs|
    ensures forall i :: 0 <= i < |rs| ==>
              && r[i].(selected := rs[i].selected) == rs[i]
              && r[i].selected == (if rs[i].id == id then !rs[i].selected else rs[i].selected)
  {
    Map(rs, (x: Recipient) => if x.id == id then x.(selected := !x.selected) else x)
  }

  /** Toggling the same recipient twice restores the list. */
  lemma ToggleTwice(rs: seq<Recipient>, id: string)
    ensures Toggle(Toggle(rs, id), id) == rs
  {
    var r := Toggle(Toggle(rs, id), id);
    assert forall i :: 0 <= i < |rs| ==> r[i] == rs[i];
  }

  /** `handleSelectAll` (`v` true) and `handleDeselectAll` (`v` false). */
  function SetAll(rs: seq<Recipient>, v: bool): (r: seq<Recipient>)
    ensures |r| == |rs|
    ensures forall i :: 0 <= i < |rs| ==> r[i].(selected := rs[i].selected) == rs[i] && r[i].selected == v
  {
    Map(rs, (x: Recipient) => x.(selected := v))
  }

  predicate IsSelected(x: Recipient) {
    x.selected
  }

  function Email(x: Recipient): string {
    x.email
  }

  function SelectedRecipients(rs: seq<Recipient>): seq<Recipient> {
    Filter(rs, IsSelected)
  }

  /** `recipients.filter(r => r.selected).length`. */
  function SelectedCount(rs: seq<Recipient>): nat {
    |SelectedRecipients(rs)|
  }

  /** After select-all every recipient counts; after clear none does. */
  lemma {:induction false} SetAllCount(rs: seq<Recipient>, v: bool)
    ensures SelectedCount(SetAll(rs, v)) == if v then |rs| else 0
  {
    if rs != [] {
      var init := rs[..|rs| - 1];
      SetAllCount(init, v);
      assert SetAll(rs, v) == SetAll(init, v) + [rs[|rs| - 1].(selected := v)];
      FilterSnoc(SetAll(init, v), rs[|rs| - 1].(selected := v), IsSelected);
    }
  }

  /** The selected e-mail addresses, in list order, joined by ", ". */
  function SelectedEmails(rs: seq<Recipient>): string {
    Join(Map(SelectedRecipients(rs), Email), ", ")
  }

  /** Building the e-mail list one recipient at a time: an unselected recipient
      adds nothing, a selected one adds its address after a ", " (none before the
      first address). */
  lemma SelectedEmailsSnoc(rs: seq<Recipient>, x: Recipient)
    ensures !x.selected ==> SelectedEmails(rs + [x]) == SelectedEmails(rs)
    ensures x.selected && SelectedCount(rs) == 0 ==> SelectedEmails(rs + [x]) == x.email
    ensures x.selected && SelectedCount(rs) > 0 ==> SelectedEmails(rs + [x]) == SelectedEmails(rs) + ", " + x.email
  {
    FilterSnoc(rs, x, IsSelected);
    var sel := SelectedRecipients(rs);
    if x.selected {
      var emails := Map(sel, Email);
      assert Map(sel + [x], Email) == emails + [x.email];
      JoinSnoc(emails, x.email, ", ");
      assert SelectedRecipients(rs + [x]) == sel + [x];
    } else {
      assert SelectedRecipients(rs + [x]) == sel;
    }
  }

  /** The stored requests after a send: with a context, the requests with its id
      become sent, record when, and take the context's master; every other request
      is kept as it was and where it was. Without a context nothing changes. */
  function MarkSent(stored: seq<Request>, context: Option<SendContext>, sentAt: string): (r: seq<Request>)
    ensures context.None? ==> r == stored
    ensures context.Some? ==>
              && |r| == |stored|
              && (forall i :: 0 <= i < |stored| && stored[i].id != context.value.requestId ==> r[i] == stored[i])
              && (forall i :: 0 <= i < |stored| && stored[i].id == context.value.requestId ==>
                    && r[i].status == Sent && r[i].sentAt == Some(sentAt)
                    && r[i].brdMaster == Some(context.value.brdMaster)
                    && r[i] == stored[i].(status := Sent, sentAt := r[i].sentAt, brdMaster := r[i].brdMaster))
  {
    match context
    case None => stored
    case Some(ctx) =>
      UpdateById(stored, ctx.requestId, (item: Request) => item.(status := Sent, sentAt := Some(sentAt), brdMaster := Some(ctx.brdMaster)))
  }

  /** Everything the page holds, its own state and the storage it uses. */
  datatype Snapshot = Snapshot(
    recipients: seq<Recipient>, message: string, sendSuccess: bool,
    sendContext: Option<SendContext>, brd: Option<BrdGenerated>,
    storedRequests: seq<Request>, storedContext: Option<SendContext>,
    lastGenerated: Option<BrdGenerated>, sendRecord: Option<SendRecord>)

  class SendPage {
    var recipients: seq<Recipient>
    var message: string
    var sendSuccess: bool
    var sendContext: Option<SendContext>
    var brd: Option<BrdGenerated>
    // Browser storage: the request list, "sendRequestContext",
    // "lastGeneratedBRD" and "brdSendRecord".
    var storedRequests: seq<Request>
    var storedContext: Option<SendContext>
    var lastGenerated: Option<BrdGenerated>
    var sendRecord: Option<SendRecord>

    function State(): Snapshot
      reads this
    {
      Snapshot(recipients, message, sendSuccess, sendContext, brd,
               storedRequests, storedContext, lastGenerated, sendRecord)
    }

    /** The page before it has loaded: the given recipients and message, no
        context, no BRD, not yet sent. */
    constructor(rs: seq<Recipient>, msg: string, requests: seq<Request>,
                context: Option<SendContext>, generated: Option<BrdGenerated>, record: Option<SendRecord>)
      ensures State() == Snapshot(rs, msg, false, None, None, requests, context, generated, record)
    {
      recipients := rs;
      message := msg;
      sendSuccess := false;
      sendContext := None;
      brd := None;
      storedRequests := requests;
      storedContext := context;
      lastGenerated := generated;
      sendRecord := record;
    }

    /** Loading: a stored send context takes precedence, and then the last
        generated BRD is not read at all. */
    method Load()
      modifies this
      ensures old(storedContext).Some? ==> State() == old(State()).(sendContext := old(storedContext))
      ensures old(storedContext).None? ==> State() == old(State()).(brd := old(lastGenerated))
    {
      if storedContext.Some? {
        sendContext := storedContext;
        return;
      }
      brd := lastGenerated;
    }

    method ToggleRecipient(id: string)
      modifies this
      ensures State() == old(State()).(recipients := Toggle(old(recipients), id))
    {
      recipients := Toggle(recipients, id);
    }

    method SelectAll()
      modifies this
      ensures State() == old(State()).(recipients := SetAll(old(recipients), true))
    {
      recipients := SetAll(recipients, true);
    }

    method DeselectAll()
      modifies this
      ensures State() == old(State()).(recipients := SetAll(old(recipients), false))
    {
      recipients := SetAll(recipients, false);
    }

    /** `handleSend`: with nobody selected nothing happens. Otherwise the send
        record is stored, the request of the send context (if any) is marked sent
        and the stored context is removed, and the page reports success. */
    method Send(timestamp: string, sentAt: string)
      modifies this
      ensures SelectedCount(old(recipients)) == 0 ==> State() == old(State())
      ensures SelectedCount(old(recipients)) > 0 ==>
                State() == old(State()).(
                  sendRecord := Some(SendRecord(timestamp, SelectedEmails(old(recipients)), old(message), "sent")),
                  storedRequests := MarkSent(old(storedRequests), old(sendContext), sentAt),
                  storedContext := if old(sendContext).Some? then None else old(storedContext),
                  sendSuccess := true)
    {
      if SelectedCount(recipients) == 0 {
        return;
      }
      sendRecord := Some(SendRecord(timestamp, SelectedEmails(recipients), message, "sent"));
      if sendContext.Some? {
        storedRequests := MarkSent(storedRequests, sendContext, sentAt);
        storedContext := None;
      }
      sendSuccess := true;
    }
  }

  /** A client scenario, not a member of the page: clearing every recipient and
      then sending changes nothing but the selections. */
  method ClearThenSend(page: SendPage, timestamp: string, sentAt: string)
    modifies page
    ensures page.State() == old(page.State()).(recipients := SetAll(old(page.recipients), false))
  {
    page.DeselectAll();
    SetAllCount(old(page.recipients), false);
    page.Send(timestamp, sentAt);
  }
}
