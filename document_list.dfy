/** The document submissions list: a free-text search over the joined
    template, category and submitter names, the status colour and label,
    and the comment count. */
module DocumentList {
  import opened Outcomes
  import opened Text
  import opened Seqs
  import opened Display

  datatype Named = Named(name: string)
  datatype Person = Person(firstName: string, lastName: string)

  datatype Document = Document(
    id: string,
    status: string,
    template: Option<Named>,
    category: Option<Named>,
    submitter: Option<Person>,
    dueDate: Option<string>,
    comments: Option<seq<nat>>)

  function TemplateName(d: Document): Option<string> {
    if d.template.Some? then Some(d.template.value.name) else None
  }

  function CategoryName(d: Document): Option<string> {
    if d.category.Some? then Some(d.category.value.name) else None
  }

  function FirstName(d: Document): Option<string> {
    if d.submitter.Some? then Some(d.submitter.value.firstName) else None
  }

  function LastName(d: Document): Option<string> {
    if d.submitter.Some? then Some(d.submitter.value.lastName) else None
  }

  /** The searched text: template, category, first and last name separated
      by single spaces, a missing join printing as "undefined". */
  function SearchText(d: Document): string {
    Join([Interpolated(TemplateName(d)), Interpolated(CategoryName(d)),
          Interpolated(FirstName(d)), Interpolated(LastName(d))], " ")
  }

  predicate MatchesSearch(d: Document, term: string) {
    ContainsIgnoreCase(SearchText(d), term)
  }

  function FilterDocuments(docs: seq<Document>, term: string): (r: seq<Document>)
    ensures forall d :: d in r <==> d in docs && MatchesSearch(d, term)
    ensures IsSubsequence(r, docs)
  {
    var keep := (d: Document) => MatchesSearch(d, term);
    FilterMembers(docs, keep);
    FilterIsSubsequence(docs, keep);
    Filter(docs, keep)
  }

  /** A term found in any one of the four names lists the document. */
  lemma FoundInAnyPart(d: Document, term: string)
    requires
      || (d.template.Some? && ContainsIgnoreCase(d.template.value.name, term))
      || (d.category.Some? && ContainsIgnoreCase(d.category.value.name, term))
      || (d.submitter.Some? && ContainsIgnoreCase(d.submitter.value.firstName, term))
      || (d.submitter.Some? && ContainsIgnoreCase(d.submitter.value.lastName, term))
    ensures MatchesSearch(d, term)
  {
    var parts := [Interpolated(TemplateName(d)), Interpolated(CategoryName(d)),
                  Interpolated(FirstName(d)), Interpolated(LastName(d))];
    var k := if d.template.Some? && ContainsIgnoreCase(d.template.value.name, term) then 0
      else if d.category.Some? && ContainsIgnoreCase(d.category.value.name, term) then 1
      else if d.submitter.Some? && ContainsIgnoreCase(d.submitter.value.firstName, term) then 2
      else 3;
    ContainsIgnoreCaseInJoin(parts, k, " ", term);
  }

  /** A document with no template matches the search "undefined": the
      missing name is searched as the word "undefined". */
  lemma MissingTemplateMatchesUndefined(d: Document)
    requires d.template.None?
    ensures MatchesSearch(d, "undefined")
  {
    var parts := [Interpolated(TemplateName(d)), Interpolated(CategoryName(d)),
                  Interpolated(FirstName(d)), Interpolated(LastName(d))];
    assert ToLower("undefined") == "undefined";
    assert ContainsIgnoreCase(parts[0], "undefined");
    ContainsIgnoreCaseInJoin(parts, 0, " ", "undefined");
  }

  /** The search text as evidently meant: a missing join contributes
      nothing. */
  function SearchTextCorrected(d: Document): string {
    Join([TemplateName(d).GetOr(""), CategoryName(d).GetOr(""),
          FirstName(d).GetOr(""), LastName(d).GetOr("")], " ")
  }

  predicate MatchesSearchCorrected(d: Document, term: string) {
    ContainsIgnoreCase(SearchTextCorrected(d), term)
  }

  /** With the corrected text, a document with no joined records matches
      no search made of letters, "undefined" included, while the empty
      search still lists it. */
  lemma CorrectedMissingJoinsMatchNoWord(d: Document, term: string)
    requires d.template.None? && d.category.None? && d.submitter.None?
    requires |term| > 0 && forall i :: 0 <= i < |term| ==> IsLower(term[i]) || IsUpper(term[i])
    ensures !MatchesSearchCorrected(d, term)
    ensures MatchesSearchCorrected(d, "")
  {
    var s := SearchTextCorrected(d);
    var parts: seq<string> := ["", "", "", ""];
    assert s == Join(parts, " ");
    assert Join(parts[3..], " ") == "";
    assert Join(parts[2..], " ") == " ";
    assert Join(parts[1..], " ") == "  ";
    assert s == "   ";
    ContainsAt(ToLower(s), ToLower(term));
    assert forall i :: 0 <= i <= |s| - |term| ==> ToLower(s)[i] == ' ' != ToLower(term)[0];
    ContainsIgnoreCaseEmpty(s);
  }

  /** `getStatusColor`: the five known statuses; anything else shares the
      draft colour. */
  function StatusColor(status: string): string {
    match status
    case "draft" => "bg-gray-100 text-gray-800"
    case "submitted" => "bg-blue-100 text-blue-800"
    case "under_review" => "bg-yellow-100 text-yellow-800"
    case "approved" => "bg-green-100 text-green-800"
    case "rejected" => "bg-red-100 text-red-800"
    case _ => "bg-gray-100 text-gray-800"
  }

  /** Submitted, under review, approved and rejected each have a colour of
      their own; every other status looks like a draft. */
  lemma StatusColors(status: string)
    ensures StatusColor(status) == StatusColor("draft")
      <==> status !in ["submitted", "under_review", "approved", "rejected"]
    ensures status in ["submitted", "under_review", "approved", "rejected"] ==>
      forall other :: other != status ==> StatusColor(other) != StatusColor(status)
  {
  }

  /** The comment count shown on a row. */
  function CommentCount(d: Document): (r: nat)
    ensures d.comments.Some? && |d.comments.value| > 0 ==> r == d.comments.value[0]
    ensures d.comments.None? || |d.comments.value| == 0 ==> r == 0
  {
    FirstCount(d.comments)
  }
}
