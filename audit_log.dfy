/** A document's audit log: a free-text search over action and details
    combined with an exact action filter, the action icons, and the
    empty-state message. */
module AuditLog {
  import opened Outcomes
  import opened Text
  import opened Seqs

  datatype LogEntry = LogEntry(id: string, action: string, details: Option<string>, createdAt: string)

  predicate MatchesSearch(l: LogEntry, term: string) {
    ContainsIgnoreCase(l.action, term) || (l.details.Some? && ContainsIgnoreCase(l.details.value, term))
  }

  /** No action filter, or the action is exactly the filter. */
  predicate MatchesFilter(l: LogEntry, action: string) {
    action == "" || l.action == action
  }

  function FilterLogs(logs: seq<LogEntry>, term: string, action: string): (r: seq<LogEntry>)
    ensures forall l :: l in r <==> l in logs && MatchesSearch(l, term) && MatchesFilter(l, action)
    ensures IsSubsequence(r, logs)
  {
    var keep := (l: LogEntry) => MatchesSearch(l, term) && MatchesFilter(l, action);
    FilterMembers(logs, keep);
    FilterIsSubsequence(logs, keep);
    Filter(logs, keep)
  }

  /** No search and no action filter: every entry is listed, in order. */
  lemma {:induction false} NoFiltersKeepAll(logs: seq<LogEntry>)
    ensures FilterLogs(logs, "", "") == logs
  {
    var keep := (l: LogEntry) => MatchesSearch(l, "") && MatchesFilter(l, "");
    forall l | l in logs ensures keep(l) {
      ContainsIgnoreCaseEmpty(l.action);
    }
    FilterAll(logs, keep);
  }

  /** With an action chosen, every listed entry has that action. */
  lemma ActionFilterSelects(logs: seq<LogEntry>, term: string, action: string)
    requires action != ""
    ensures forall l :: l in FilterLogs(logs, term, action) ==> l.action == action
  {
  }

  /** The "No audit logs found" message shows exactly when no entry passes
      both tests. */
  predicate ShowsEmptyMessage(logs: seq<LogEntry>, term: string, action: string) {
    |FilterLogs(logs, term, action)| == 0
  }

  lemma EmptyMessageExactly(logs: seq<LogEntry>, term: string, action: string)
    ensures ShowsEmptyMessage(logs, term, action)
      <==> forall l :: l in logs ==> !(MatchesSearch(l, term) && MatchesFilter(l, action))
  {
    var r := FilterLogs(logs, term, action);
    if |r| > 0 {
      assert r[0] in r;
    }
  }

  datatype Icon = Memo | Pencil | Wastebasket | Link | Eye | Clipboard

  /** `getActionIcon`: five known actions, a clipboard for anything else. */
  function ActionIcon(action: string): (r: Icon)
    ensures action == "created" <==> r == Memo
    ensures action == "updated" <==> r == Pencil
    ensures action == "deleted" <==> r == Wastebasket
    ensures action == "shared" <==> r == Link
    ensures action == "viewed" <==> r == Eye
  {
    match action
    case "created" => Memo
    case "updated" => Pencil
    case "deleted" => Wastebasket
    case "shared" => Link
    case "viewed" => Eye
    case _ => Clipboard
  }

  /** The character sequence each icon stands for. */
  function IconText(i: Icon): string {
    match i
    case Memo => "\U{1F4DD}"
    case Pencil => "\U{270F}\U{FE0F}"
    case Wastebasket => "\U{1F5D1}\U{FE0F}"
    case Link => "\U{1F517}"
    case Eye => "\U{1F441}\U{FE0F}"
    case Clipboard => "\U{1F4CB}"
  }
}
