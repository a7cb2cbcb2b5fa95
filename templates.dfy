/** The document-templates page: a search over name and description, a
    sort header over name or creation time, duplication of a template, and
    the category and field count shown on each card. The rows arrive
    already ordered by the database; the page's own state is the sort and
    the search. */
module Templates {
  import opened Outcomes
  import opened Text
  import opened Seqs
  import opened Sorting
  import opened TemplateForm

  datatype SortField = ByName | ByCreatedAt

  datatype CategoryRef = CategoryRef(name: string)

  datatype Template = Template(
    id: string,
    name: string,
    description: Option<string>,
    categoryId: Option<string>,
    category: Option<CategoryRef>,
    templateFields: Option<seq<TemplateField>>,
    createdAt: string,
    updatedAt: string)

  /** What a duplicate inserts: every column but `id`, `created_at` and
      `updated_at` (the joined category comes along). */
  datatype TemplateCopy = TemplateCopy(
    name: string,
    description: Option<string>,
    categoryId: Option<string>,
    category: Option<CategoryRef>,
    templateFields: Option<seq<TemplateField>>)

  function Duplicate(t: Template): (r: TemplateCopy)
    ensures r.name == t.name + " (Copy)"
    ensures r.description == t.description && r.categoryId == t.categoryId
    ensures r.category == t.category && r.templateFields == t.templateFields
  {
    TemplateCopy(t.name + " (Copy)", t.description, t.categoryId, t.category, t.templateFields)
  }

  /** The copy's name starts with the original's and is longer, so a copy
      never carries the original's name. */
  lemma DuplicateNameDiffers(t: Template)
    ensures Duplicate(t).name != t.name && t.name <= Duplicate(t).name
  {
    assert |Duplicate(t).name| == |t.name| + 7;
  }

  /** The search: the name contains the term, or there is a description and
      it contains the term, ignoring case. */
  predicate MatchesSearch(t: Template, term: string) {
    ContainsIgnoreCase(t.name, term) || (t.description.Some? && ContainsIgnoreCase(t.description.value, term))
  }

  function FilterTemplates(templates: seq<Template>, term: string): (r: seq<Template>)
    ensures forall t :: t in r <==> t in templates && MatchesSearch(t, term)
    ensures IsSubsequence(r, templates)
  {
    var keep := (t: Template) => MatchesSearch(t, term);
    FilterMembers(templates, keep);
    FilterIsSubsequence(templates, keep);
    Filter(templates, keep)
  }

  /** The category line of a card: its name, or "Uncategorized" when there is
      no category or its name is empty. */
  function CategoryLabel(t: Template): (r: string)
    ensures t.category.Some? && t.category.value.name != "" ==> r == t.category.value.name
    ensures !(t.category.Some? && t.category.value.name != "") ==> r == "Uncategorized"
  {
    if t.category.Some? && t.category.value.name != "" then t.category.value.name else "Uncategorized"
  }

  /** The field count of a card: 0 without a field list. */
  function FieldCount(t: Template): (r: nat)
    ensures t.templateFields.Some? ==> r == |t.templateFields.value|
    ensures t.templateFields.None? ==> r == 0
  {
    if t.templateFields.Some? then |t.templateFields.value| else 0
  }

  class TemplatesPage {
    var sortField: SortField
    var sortDirection: Direction
    var searchTerm: string
    var filterCategory: string

    constructor ()
      ensures sortField == ByName && sortDirection == Asc && searchTerm == "" && filterCategory == ""
    {
      sortField := ByName;
      sortDirection := Asc;
      searchTerm := "";
      filterCategory := "";
    }

    /** `toggleSort`. */
    method ToggleSort(field: SortField)
      modifies this
      ensures (sortField, sortDirection) == Toggle(old(sortField), old(sortDirection), field)
      ensures old(sortField) == field ==> sortField == field && sortDirection == Flip(old(sortDirection))
      ensures old(sortField) != field ==> sortField == field && sortDirection == Asc
      ensures searchTerm == old(searchTerm) && filterCategory == old(filterCategory)
    {
      if sortField == field {
        sortDirection := Flip(sortDirection);
      } else {
        sortField := field;
        sortDirection := Asc;
      }
    }

    function Visible(templates: seq<Template>): (r: seq<Template>)
      reads this
      ensures forall t :: t in r <==> t in templates && MatchesSearch(t, searchTerm)
    {
      FilterTemplates(templates, searchTerm)
    }
  }
}
