/** The version-history page: all versions across documents, searchable by
    the name of the document's template, each with its change summary and
    "previous version" label (shared with the per-document version list). */
module VersionHistory {
  import opened Outcomes
  import opened Text
  import opened Seqs
  import opened WorkflowTypes
  import opened DocumentVersioning

  datatype TemplateRef = TemplateRef(name: string)
  datatype DocumentRef = DocumentRef(id: string, template: Option<TemplateRef>, category: Option<TemplateRef>)

  datatype Version = Version(
    id: string,
    versionNumber: int,
    content: Json,
    document: Option<DocumentRef>,
    changes: Option<seq<Change>>,
    createdAt: string)

  /** The search: the version's document has a template whose name contains
      the term, ignoring case. */
  predicate MatchesSearch(v: Version, term: string) {
    v.document.Some? && v.document.value.template.Some?
      && ContainsIgnoreCase(v.document.value.template.value.name, term)
  }

  function FilterVersions(versions: seq<Version>, term: string): (r: seq<Version>)
    ensures forall v :: v in r <==> v in versions && MatchesSearch(v, term)
    ensures IsSubsequence(r, versions)
  {
    var keep := (v: Version) => MatchesSearch(v, term);
    FilterMembers(versions, keep);
    FilterIsSubsequence(versions, keep);
    Filter(versions, keep)
  }

  /** Versions without a document or without a template never show, whatever
      the search; with an empty search every other version shows. */
  lemma {:induction false} OrphansDropped(versions: seq<Version>, term: string)
    ensures forall v :: v in FilterVersions(versions, term) ==> v.document.Some? && v.document.value.template.Some?
    ensures forall v :: v in versions && v.document.Some? && v.document.value.template.Some? ==>
      v in FilterVersions(versions, "")
  {
    forall v | v in versions && v.document.Some? && v.document.value.template.Some?
      ensures v in FilterVersions(versions, "")
    {
      ContainsIgnoreCaseEmpty(v.document.value.template.value.name);
    }
  }
}
