/** The IT portal: the queue of stakeholder-approved requests, the tally of
    their feasibility decisions and the queue waiting for the financial head.
    The feasibility and IT workflow records are read from storage by loaders
    this model does not include, so they are inputs here. */
module ItWorkspace {
  import opened Seqs
  import opened Workflow

  /** The outcome of IT's feasibility review of one request. */
  datatype Feasibility = Pending | Feasible | NeedsInfo | NotFeasible

  /** The IT workflow record of one request; only the final cost approval stage is read here. */
  datatype ItWorkflow = ItWorkflow(finalCostApproval: string)

  const InProgressStage := "in_progress"

  /** `allRequests.filter(item => item.status === "approved")`. */
  function ApprovedRequests(all: seq<Request>): (q: seq<Request>)
    ensures forall r :: r in q <==> r in all && r.status == Approved
    ensures forall r :: multiset(q)[r] == if r.status == Approved then multiset(all)[r] else 0
    ensures IsSubsequence(q, all)
  {
    FilterContents(all, (r: Request) => r.status == Approved);
    FilterIsSubsequence(all, (r: Request) => r.status == Approved);
    Filter(all, (r: Request) => r.status == Approved)
  }

  /** The feasibility a request is counted under: its recorded one, or pending
      when it has none. */
  function FeasibilityOf(feasibility: map<string, Feasibility>, r: Request): Feasibility {
    if r.id in feasibility then feasibility[r.id] else Pending
  }

  /** The four counters. */
  datatype Counts = Counts(pending: nat, feasible: nat, needsInfo: nat, notFeasible: nat) {
    function Of(f: Feasibility): nat {
      match f
      case Pending => pending
      case Feasible => feasible
      case NeedsInfo => needsInfo
      case NotFeasible => notFeasible
    }

    function Total(): nat {
      pending + feasible + needsInfo + notFeasible
    }

    /** `counts[f] += 1`. */
    function Bump(f: Feasibility): (c: Counts)
      ensures c.Of(f) == Of(f) + 1
      ensures forall g :: g != f ==> c.Of(g) == Of(g)
      ensures c.Total() == Total() + 1
    {
      match f
      case Pending => this.(pending := pending + 1)
      case Feasible => this.(feasible := feasible + 1)
      case NeedsInfo => this.(needsInfo := needsInfo + 1)
      case NotFeasible => this.(notFeasible := notFeasible + 1)
    }
  }

  /** The counters after the first `|reqs|` steps of the loop. */
  function Tally(reqs: seq<Request>, feasibility: map<string, Feasibility>): Counts {
    if reqs == [] then Counts(0, 0, 0, 0)
    else Tally(reqs[..|reqs| - 1], feasibility).Bump(FeasibilityOf(feasibility, reqs[|reqs| - 1]))
  }

  /** `statusCounts`: all counters start at zero and each request adds one to the
      counter of its feasibility. */
  method StatusCounts(reqs: seq<Request>, feasibility: map<string, Feasibility>) returns (counts: Counts)
    ensures counts == Tally(reqs, feasibility)
  {
    counts := Counts(0, 0, 0, 0);
    var i := 0;
    while i < |reqs|
      invariant 0 <= i <= |reqs|
      invariant counts == Tally(reqs[..i], feasibility)
    {
      assert reqs[..i + 1][..i] == reqs[..i];
      counts := counts.Bump(FeasibilityOf(feasibility, reqs[i]));
      i := i + 1;
    }
    assert reqs[..i] == reqs;
  }

  /** Each counter is the number of requests counted under it, so a request with
      no feasibility record is counted as pending. */
  lemma {:induction false} TallyCounts(reqs: seq<Request>, feasibility: map<string, Feasibility>, f: Feasibility)
    ensures Tally(reqs, feasibility).Of(f) == |Filter(reqs, (r: Request) => FeasibilityOf(feasibility, r) == f)|
  {
    if reqs != [] {
      var init := reqs[..|reqs| - 1];
      TallyCounts(init, feasibility, f);
      assert reqs == init + [reqs[|reqs| - 1]];
      FilterSnoc(init, reqs[|reqs| - 1], (r: Request) => FeasibilityOf(feasibility, r) == f);
    }
  }

  /** Every request is counted exactly once: the counters add up to the queue length. */
  lemma {:induction false} TallyTotal(reqs: seq<Request>, feasibility: map<string, Feasibility>)
    ensures Tally(reqs, feasibility).Total() == |reqs|
  {
    if reqs != [] {
      TallyTotal(reqs[..|reqs| - 1], feasibility);
    }
  }

  /** Whether a request waits for the financial head: IT has a workflow record for it,
      found it feasible, and its final cost approval is in progress. */
  predicate AwaitsFinancialHead(feasibility: map<string, Feasibility>, workflows: map<string, ItWorkflow>, r: Request) {
    r.id in workflows && r.id in feasibility && feasibility[r.id] == Feasible
    && workflows[r.id].finalCostApproval == InProgressStage
  }

  /** `financialHeadQueue`. */
  function FinancialHeadQueue(reqs: seq<Request>, feasibility: map<string, Feasibility>, workflows: map<string, ItWorkflow>): (q: seq<Request>)
    ensures forall r :: r in q <==> r in reqs && AwaitsFinancialHead(feasibility, workflows, r)
    ensures forall r :: multiset(q)[r] == if AwaitsFinancialHead(feasibility, workflows, r) then multiset(reqs)[r] else 0
    ensures IsSubsequence(q, reqs)
  {
    var p := (r: Request) => AwaitsFinancialHead(feasibility, workflows, r);
    FilterContents(reqs, p);
    FilterIsSubsequence(reqs, p);
    Filter(reqs, p)
  }

  /** The financial head's queue is drawn from the approved requests, in their order. */
  lemma FinancialQueueOfApproved(all: seq<Request>, feasibility: map<string, Feasibility>, workflows: map<string, ItWorkflow>)
    ensures var q := FinancialHeadQueue(ApprovedRequests(all), feasibility, workflows);
            IsSubsequence(q, all) && forall r :: r in q ==> r in all && r.status == Approved
  {
    var approved := ApprovedRequests(all);
    SubsequenceTrans(FinancialHeadQueue(approved, feasibility, workflows), approved, all);
  }
}
