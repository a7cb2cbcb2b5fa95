/** The approver's queue: the pending / completed / all views, a search on
    the document's template name, approving or rejecting an assignment,
    and the status badge. */
module Approvals {
  import opened Outcomes
  import opened Text
  import opened Seqs

  datatype View = AllView | PendingView | CompletedView

  /** Which statuses a view shows: pending ones, decided ones, or all. */
  predicate InView(status: string, v: View) {
    match v
    case AllView => true
    case PendingView => status == "pending"
    case CompletedView => status == "approved" || status == "rejected"
  }

  datatype Named = Named(name: string)
  datatype DocumentRef = DocumentRef(id: string, template: Option<Named>)

  datatype Assignment = Assignment(
    id: string,
    status: string,
    document: Option<DocumentRef>,
    dueDate: Option<string>,
    completedAt: Option<string>)

  /** Listed when the document has a template whose name contains the term;
      an assignment without document or template never shows. */
  predicate MatchesSearch(a: Assignment, term: string) {
    a.document.Some? && a.document.value.template.Some?
      && ContainsIgnoreCase(a.document.value.template.value.name, term)
  }

  /** The cards shown: the assignments in the view (selected by the query)
      that pass the search, in stored order. */
  function Listed(assignments: seq<Assignment>, v: View, term: string): (r: seq<Assignment>)
    ensures forall a :: a in r <==> a in assignments && InView(a.status, v) && MatchesSearch(a, term)
    ensures IsSubsequence(r, assignments)
  {
    var keep := (a: Assignment) => InView(a.status, v) && MatchesSearch(a, term);
    FilterMembers(assignments, keep);
    FilterIsSubsequence(assignments, keep);
    Filter(assignments, keep)
  }

  datatype Decision = Approve | Reject

  function DecisionStatus(d: Decision): string {
    match d
    case Approve => "approved"
    case Reject => "rejected"
  }

  /** `handleApprove` / `handleReject` as written to the stored records: the
      assignment with that id gets the decision's status and the completion
      time; every other record is unchanged. */
  function Decide(assignments: seq<Assignment>, id: string, d: Decision, now: string): (r: seq<Assignment>)
    ensures |r| == |assignments|
    ensures forall k :: 0 <= k < |r| && assignments[k].id != id ==> r[k] == assignments[k]
    ensures forall k :: 0 <= k < |r| && assignments[k].id == id ==>
      r[k] == assignments[k].(status := DecisionStatus(d), completedAt := Some(now))
  {
    MapWhere(assignments, (a: Assignment) => a.id == id,
             (a: Assignment) => a.(status := DecisionStatus(d), completedAt := Some(now)))
  }

  /** Approve and reject are offered only on a pending assignment. */
  predicate OffersDecision(a: Assignment) {
    a.status == "pending"
  }

  /** After a decision the assignment leaves the pending view, shows in the
      completed view and offers no more decisions; every other assignment
      keeps its place in every view. */
  lemma {:induction false} DecisionMovesToCompleted(assignments: seq<Assignment>, id: string, d: Decision, now: string, k: int)
    requires 0 <= k < |assignments|
    ensures var after := Decide(assignments, id, d, now)[k];
      if assignments[k].id == id then
        !InView(after.status, PendingView) && InView(after.status, CompletedView) && !OffersDecision(after)
      else
        forall v :: InView(after.status, v) == InView(assignments[k].status, v)
  {
  }

  /** `getStatusColor`: green for approved, red for rejected, amber for
      anything else. */
  function StatusColor(status: string): (r: string)
    ensures status == "approved" <==> r == "bg-emerald-50 text-emerald-700"
    ensures status == "rejected" <==> r == "bg-red-50 text-red-700"
    ensures status != "approved" && status != "rejected" <==> r == "bg-amber-50 text-amber-700"
  {
    match status
    case "approved" => "bg-emerald-50 text-emerald-700"
    case "rejected" => "bg-red-50 text-red-700"
    case _ => "bg-amber-50 text-amber-700"
  }

  /** The badge text: the status with its first letter upper-cased. */
  function StatusLabel(status: string): (r: string)
    ensures |r| == |status|
    ensures |status| > 0 ==> r[0] == UpperChar(status[0]) && r[1..] == status[1..]
  {
    Capitalize(status)
  }

  /** The page: the chosen view, the search, and the assignments read for
      the current user. A decision is written to the stored records and the
      list is read again, so the page then holds the decided records. */
  class ApprovalsPage {
    var view: View
    var searchTerm: string
    var assignments: seq<Assignment>

    /** The queue opens on the pending view. */
    constructor (stored: seq<Assignment>)
      ensures view == PendingView && searchTerm == "" && assignments == stored
    {
      view := PendingView;
      searchTerm := "";
      assignments := stored;
    }

    method SetView(v: View)
      modifies this
      ensures view == v && searchTerm == old(searchTerm) && assignments == old(assignments)
    {
      view := v;
    }

    method SetSearchTerm(term: string)
      modifies this
      ensures searchTerm == term && view == old(view) && assignments == old(assignments)
    {
      searchTerm := term;
    }

    /** A failed write is only logged: nothing changes. */
    method RecordDecision(id: string, d: Decision, now: string, writeOk: bool)
      modifies this
      ensures assignments == (if writeOk then Decide(old(assignments), id, d, now) else old(assignments))
      ensures view == old(view) && searchTerm == old(searchTerm)
    {
      if writeOk {
        assignments := Decide(assignments, id, d, now);
      }
    }

    function Visible(): seq<Assignment>
      reads this
    {
      Listed(assignments, view, searchTerm)
    }
  }
}
