/** The BA's approval tracker: stakeholder approval records grouped by BRD, each
    group's approval percentage, the progress bar value of a status and the
    summary counts. */
module Approvals {
  import opened Options
  import opened Seqs

  datatype ApprovalStatus = Pending | Approved | Rejected | Commented

  /** The status as the records spell it. */
  function StatusName(s: ApprovalStatus): string {
    match s
    case Pending => "pending"
    case Approved => "approved"
    case Rejected => "rejected"
    case Commented => "commented"
  }

  datatype ApprovalRecord = ApprovalRecord(
    id: string, brdName: string, sentDate: string, stakeholder: string, role: string,
    status: ApprovalStatus, dueDate: string, feedback: Option<string>)

  /** `getStatusProgressValue`: approved is full, commented half, pending a
      quarter, and rejected or any other text nothing. */
  function ProgressValue(status: string): (v: nat)
    ensures v == 100 <==> status == "approved"
    ensures v == 50 <==> status == "commented"
    ensures v == 25 <==> status == "pending"
    ensures v == 0 <==> status != "approved" && status != "commented" && status != "pending"
  {
    if status == "approved" then 100
    else if status == "rejected" then 0
    else if status == "commented" then 50
    else if status == "pending" then 25
    else 0
  }

  /** The records of one BRD. */
  function InGroup(brdName: string): ApprovalRecord -> bool {
    (r: ApprovalRecord) => r.brdName == brdName
  }

  /** `groups` holds exactly the BRD names of `prefix`, each with its records in order. */
  ghost predicate GroupsOf(groups: map<string, seq<ApprovalRecord>>, prefix: seq<ApprovalRecord>) {
    && (forall k :: k in groups <==> exists j :: 0 <= j < |prefix| && prefix[j].brdName == k)
    && (forall k :: k in groups ==> groups[k] == Filter(prefix, InGroup(k)))
  }

  /** One step of the reduce: `r` joins the end of its BRD's group. */
  function Push(groups: map<string, seq<ApprovalRecord>>, r: ApprovalRecord): map<string, seq<ApprovalRecord>> {
    groups[r.brdName := (if r.brdName in groups then groups[r.brdName] else []) + [r]]
  }

  lemma GroupsSnoc(groups: map<string, seq<ApprovalRecord>>, prefix: seq<ApprovalRecord>, r: ApprovalRecord)
    requires GroupsOf(groups, prefix)
    ensures GroupsOf(Push(groups, r), prefix + [r])
  {
    var next := Push(groups, r);
    forall k | k in next
      ensures next[k] == Filter(prefix + [r], InGroup(k))
    {
      FilterSnoc(prefix, r, InGroup(k));
      if k !in groups {
        FilterAbsent(prefix, k);
      }
    }
    assert forall k :: k in next <==> exists j :: 0 <= j < |prefix + [r]| && (prefix + [r])[j].brdName == k by {
      forall k
        ensures k in next <==> exists j :: 0 <= j < |prefix + [r]| && (prefix + [r])[j].brdName == k
      {
        if k == r.brdName {
          assert (prefix + [r])[|prefix|].brdName == k;
        } else if exists j :: 0 <= j < |prefix| && prefix[j].brdName == k {
          var j :| 0 <= j < |prefix| && prefix[j].brdName == k;
          assert (prefix + [r])[j].brdName == k;
        }
      }
    }
  }

  /** `order` lists every group once. */
  ghost predicate CreationOrder(order: seq<string>, groups: map<string, seq<ApprovalRecord>>) {
    && (forall k :: k in order <==> k in groups)
    && (forall i, j :: 0 <= i < j < |order| ==> order[i] != order[j])
  }

  lemma OrderSnoc(order: seq<string>, groups: map<string, seq<ApprovalRecord>>, r: ApprovalRecord)
    requires CreationOrder(order, groups)
    ensures CreationOrder(if r.brdName in groups then order else order + [r.brdName], Push(groups, r))
  {
  }

  /** Creating a missing group and then pushing onto it is one `Push`. */
  lemma CreateThenPush(groups: map<string, seq<ApprovalRecord>>, r: ApprovalRecord)
    ensures var g := if r.brdName in groups then groups else groups[r.brdName := []];
            g[r.brdName := g[r.brdName] + [r]] == Push(groups, r)
  {
  }

  /** The groups after reducing `records`, one `Push` per record. */
  function Grouped(records: seq<ApprovalRecord>): map<string, seq<ApprovalRecord>> {
    if records == [] then map[]
    else Push(Grouped(records[..|records| - 1]), records[|records| - 1])
  }

  /** The group names in the order their groups were created. */
  function CreatedKeys(records: seq<ApprovalRecord>): seq<string> {
    if records == [] then []
    else
      var init := records[..|records| - 1];
      var key := records[|records| - 1].brdName;
      if key in Grouped(init) then CreatedKeys(init) else CreatedKeys(init) + [key]
  }

  /** Every record lands in exactly the group of its BRD name, in input order. */
  lemma {:induction false} GroupedMeaning(records: seq<ApprovalRecord>)
    ensures GroupsOf(Grouped(records), records)
  {
    if records != [] {
      var init := records[..|records| - 1];
      var r := records[|records| - 1];
      GroupedMeaning(init);
      GroupsSnoc(Grouped(init), init, r);
      assert Grouped(records) == Push(Grouped(init), r);
      assert records == init + [r];
    }
  }

  /** The creation order names every group exactly once. */
  lemma {:induction false} CreatedKeysMeaning(records: seq<ApprovalRecord>)
    ensures CreationOrder(CreatedKeys(records), Grouped(records))
  {
    if records != [] {
      var init := records[..|records| - 1];
      var r := records[|records| - 1];
      CreatedKeysMeaning(init);
      OrderSnoc(CreatedKeys(init), Grouped(init), r);
    }
  }

  /** Every group holds at least one record, and only records of its BRD, so its
      approval percentage is defined. */
  lemma GroupsNonEmpty(records: seq<ApprovalRecord>, k: string)
    requires k in Grouped(records)
    ensures Grouped(records)[k] != []
    ensures forall r :: r in Grouped(records)[k] ==> r in records && r.brdName == k
  {
    var group := Grouped(records)[k];
    GroupedMeaning(records);
    assert group == Filter(records, InGroup(k));
    FilterContents(records, InGroup(k));
    var j :| 0 <= j < |records| && records[j].brdName == k;
    assert InGroup(k)(records[j]);
    assert records[j] in group;
  }

  /** The `brdGroups` reduce: every record is pushed onto the group of its BRD
      name, a group being created the first time its name is seen. `order` is the
      order in which the groups were created, which is the order `Object.entries`
      lists them in. */
  method GroupByBrd(records: seq<ApprovalRecord>) returns (groups: map<string, seq<ApprovalRecord>>, order: seq<string>)
    ensures groups == Grouped(records) && order == CreatedKeys(records)
  {
    groups := map[];
    order := [];
    var i := 0;
    while i < |records|
      invariant 0 <= i <= |records|
      invariant groups == Grouped(records[..i]) && order == CreatedKeys(records[..i])
    {
      var r := records[i];
      var key := r.brdName;
      assert records[..i + 1][..i] == records[..i];
      CreateThenPush(groups, r);
      if key !in groups {
        groups := groups[key := []];
        order := order + [key];
      }
      groups := groups[key := groups[key] + [r]];
      i := i + 1;
    }
    assert records[..i] == records;
  }

  /** No record of a BRD name that does not occur. */
  lemma {:induction false} FilterAbsent(records: seq<ApprovalRecord>, key: string)
    requires forall j :: 0 <= j < |records| ==> records[j].brdName != key
    ensures Filter(records, InGroup(key)) == []
  {
    if records != [] {
      FilterAbsent(records[1..], key);
    }
  }

  function ApprovedCount(group: seq<ApprovalRecord>): nat {
    |Filter(group, (a: ApprovalRecord) => a.status == Approved)|
  }

  /** The quotient of a division is the one multiple that brackets the dividend. */
  lemma DivBracket(n: int, d: int)
    requires n >= 0 && d > 0
    ensures d * (n / d) <= n < d * (n / d) + d
  {
  }

  lemma DivUnique(n: int, d: int, q: int)
    requires n >= 0 && d > 0
    requires d * q <= n < d * q + d
    ensures n / d == q
  {
    DivBracket(n, d);
    var q' := n / d;
    if q' < q {
      MulMono(d, q' + 1, q);
    } else if q' > q {
      MulMono(d, q + 1, q');
    }
  }

  lemma MulMono(d: int, x: int, y: int)
    requires d > 0 && x <= y
    ensures d * x <= d * y
  {
  }

  /** `Math.round(100 * a / t)` for `0 <= a <= t`, worked out exactly: the whole
      number nearest to the percentage, halves rounded up. */
  function RoundedPercent(a: nat, t: nat): (p: int)
    requires a <= t && t > 0
    ensures 2 * t * p <= 200 * a + t < 2 * t * p + 2 * t
    ensures 0 <= p <= 100
    ensures a == 0 ==> p == 0
    ensures a == t ==> p == 100
  {
    var p := (200 * a + t) / (2 * t);
    DivBracket(200 * a + t, 2 * t);
    assert p <= 100 by {
      if p > 100 {
        MulMono(2 * t, 101, p);
      }
    }
    if a == 0 then
      DivUnique(t, 2 * t, 0);
      p
    else if a == t then
      DivUnique(201 * t, 2 * t, 100);
      p
    else
      p
  }

  /** `calculateApprovalPercentage`, for the non-empty groups the page computes it
      for (an empty group would give NaN). */
  function ApprovalPercentage(group: seq<ApprovalRecord>): (p: int)
    requires group != []
    ensures 0 <= p <= 100
    ensures ApprovedCount(group) == 0 ==> p == 0
    ensures ApprovedCount(group) == |group| ==> p == 100
    ensures 2 * |group| * p <= 200 * ApprovedCount(group) + |group| < 2 * |group| * p + 2 * |group|
  {
    RoundedPercent(ApprovedCount(group), |group|)
  }

  /** `a.status === s`. */
  function HasStatus(s: ApprovalStatus): ApprovalRecord -> bool {
    (r: ApprovalRecord) => r.status == s
  }

  /** A summary count: the records with one status. */
  function CountOf(records: seq<ApprovalRecord>, s: ApprovalStatus): nat {
    |Filter(records, HasStatus(s))|
  }

  /** The four status counts add up to the total; the summary shows all of them
      but the rejected one. */
  lemma {:induction false} CountsAddUp(records: seq<ApprovalRecord>)
    ensures CountOf(records, Pending) + CountOf(records, Approved) + CountOf(records, Rejected)
            + CountOf(records, Commented) == |records|
  {
    if records != [] {
      var init := records[..|records| - 1];
      var r := records[|records| - 1];
      CountsAddUp(init);
      assert records == init + [r];
      FilterSnoc(init, r, HasStatus(Pending));
      FilterSnoc(init, r, HasStatus(Approved));
      FilterSnoc(init, r, HasStatus(Rejected));
      FilterSnoc(init, r, HasStatus(Commented));
    }
  }
}
