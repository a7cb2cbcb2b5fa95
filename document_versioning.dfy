/** A document's version list: each version's change summary, the
    "previous version" label, and restoring an old version, which inserts a
    new version numbered one past the latest with the old content. */
module DocumentVersioning {
  import opened Outcomes
  import opened Text
  import opened WorkflowTypes

  datatype Change = Change(changeType: string, fieldPath: string)

  /** How a change type is shown: `added` and `modified` by name, anything
      else as a removal. */
  function ChangeLabel(changeType: string): (r: string)
    ensures changeType == "added" <==> r == "Added"
    ensures changeType == "modified" <==> r == "Modified"
    ensures changeType != "added" && changeType != "modified" <==> r == "Removed"
  {
    if changeType == "added" then "Added" else if changeType == "modified" then "Modified" else "Removed"
  }

  function FormatChange(c: Change): string {
    ChangeLabel(c.changeType) + " " + c.fieldPath
  }

  function FormatEach(changes: seq<Change>): (r: seq<string>)
    ensures |r| == |changes|
    ensures forall k :: 0 <= k < |changes| ==> r[k] == FormatChange(changes[k])
  {
    seq(|changes|, k requires 0 <= k < |changes| => FormatChange(changes[k]))
  }

  /** `formatChanges`: each change as "Type path", joined by ", ". */
  function FormatChanges(changes: seq<Change>): (r: string)
    ensures r == "" <==> |changes| == 0
  {
    var parts := FormatEach(changes);
    assert |parts| >= 2 ==> Join(parts, ", ") == parts[0] + ", " + Join(parts[1..], ", ");
    Join(parts, ", ")
  }

  /** No changes format as the empty string, one change as its own line. */
  lemma FormatChangesSmall(c: Change)
    ensures FormatChanges([]) == ""
    ensures FormatChanges([c]) == ChangeLabel(c.changeType) + " " + c.fieldPath
  {
  }

  /** The summary of two runs of changes is the two summaries, in order,
      separated by ", ": one entry per change, in input order. */
  lemma FormatChangesConcat(a: seq<Change>, b: seq<Change>)
    requires |a| >= 1 && |b| >= 1
    ensures FormatChanges(a + b) == FormatChanges(a) + ", " + FormatChanges(b)
  {
    assert FormatEach(a + b) == FormatEach(a) + FormatEach(b);
    JoinConcat(FormatEach(a), FormatEach(b), ", ");
  }

  /** The changes line shows only for a non-empty change list. */
  function ShowsChanges(changes: Option<seq<Change>>): (r: bool)
    ensures r <==> changes.Some? && |changes.value| > 0
  {
    changes.Some? && |changes.value| > 0
  }

  /** The label on the left of the comparison. */
  function PreviousVersionNumber(versionNumber: int): (r: int)
    ensures r + 1 == versionNumber
  {
    versionNumber - 1
  }

  datatype NewVersion = NewVersion(documentId: string, versionNumber: int, content: Json, createdBy: Option<string>)

  /** The latest version number, read with `.single()`: a document with no
      versions makes the read fail. */
  function LatestVersionNumber(numbers: seq<int>): (r: Result<int, string>)
    ensures |numbers| == 0 <==> r.Err?
    ensures r.Ok? ==> r.value in numbers && forall k :: 0 <= k < |numbers| ==> numbers[k] <= r.value
    decreases |numbers|
  {
    if |numbers| == 0 then Err("no rows")
    else if |numbers| == 1 then Ok(numbers[0])
    else
      var rest := LatestVersionNumber(numbers[1..]);
      assert forall k :: 1 <= k < |numbers| ==> numbers[k] == numbers[1..][k - 1];
      if numbers[0] >= rest.value then Ok(numbers[0]) else rest
  }

  datatype RestoreOutcome =
    | Cancelled
    | ReadFailed
    | InsertFailed(attempted: NewVersion)
    | Restored(inserted: NewVersion)

  /** `handleRestore`: unless the user cancels, read the document's version
      numbers (`stored`), build a version numbered one past the latest with
      the chosen version's content and the current user as author, and
      insert it. */
  function Restore(confirmed: bool, documentId: string, content: Json, stored: Result<seq<int>, string>,
                   user: Option<string>, insertOk: bool): (r: RestoreOutcome)
    ensures !confirmed <==> r.Cancelled?
    ensures confirmed && (stored.Err? || |stored.value| == 0) <==> r.ReadFailed?
    ensures r.Restored? || r.InsertFailed? ==>
      var v := if r.Restored? then r.inserted else r.attempted;
      v.documentId == documentId && v.content == content && v.createdBy == user
      && stored.Ok? && v.versionNumber == LatestVersionNumber(stored.value).value + 1
    ensures r.Restored? <==> confirmed && stored.Ok? && |stored.value| > 0 && insertOk
  {
    if !confirmed then Cancelled
    else if stored.Err? then ReadFailed
    else
      match LatestVersionNumber(stored.value)
      case Err(_) => ReadFailed
      case Ok(latest) =>
        var v := NewVersion(documentId, latest + 1, content, user);
        if insertOk then Restored(v) else InsertFailed(v)
  }

  /** A restored version gets a number no existing version of the document
      has, above all of them. */
  lemma RestoreNumberIsFresh(documentId: string, content: Json, numbers: seq<int>, user: Option<string>)
    requires |numbers| > 0
    ensures Restore(true, documentId, content, Ok(numbers), user, true).Restored?
    ensures forall k :: 0 <= k < |numbers| ==>
      numbers[k] < Restore(true, documentId, content, Ok(numbers), user, true).inserted.versionNumber
  {
  }
}
