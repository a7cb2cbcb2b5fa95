/** The document-categories page: a name search combined with a parent
    filter, the list of top-level categories offered as parents, and a sort
    header over name or creation time (the ordering itself is done by the
    database). */
module Categories {
  import opened Outcomes
  import opened Text
  import opened Seqs
  import opened Sorting

  datatype SortField = ByName | ByCreatedAt

  datatype Category = Category(
    id: string,
    name: string,
    description: Option<string>,
    parentId: Option<string>,
    createdAt: string)

  /** No parent filter, or the category's parent is exactly the filter. */
  predicate ParentMatch(c: Category, filterParent: string) {
    filterParent == "" || c.parentId == Some(filterParent)
  }

  predicate MatchesFilters(c: Category, term: string, filterParent: string) {
    ContainsIgnoreCase(c.name, term) && ParentMatch(c, filterParent)
  }

  function FilterCategories(categories: seq<Category>, term: string, filterParent: string): (r: seq<Category>)
    ensures forall c :: c in r <==> c in categories && MatchesFilters(c, term, filterParent)
    ensures IsSubsequence(r, categories)
  {
    var keep := (c: Category) => MatchesFilters(c, term, filterParent);
    FilterMembers(categories, keep);
    FilterIsSubsequence(categories, keep);
    Filter(categories, keep)
  }

  /** No search and no parent filter: every category is listed. */
  lemma {:induction false} NoFiltersKeepAll(categories: seq<Category>)
    ensures FilterCategories(categories, "", "") == categories
  {
    forall k | 0 <= k < |categories| ensures MatchesFilters(categories[k], "", "") {
      ContainsIgnoreCaseEmpty(categories[k].name);
    }
    FilterAll(categories, (c: Category) => MatchesFilters(c, "", ""));
  }

  /** A category is top-level when its `parent_id` is missing or empty. */
  predicate IsTopLevel(c: Category) {
    c.parentId.None? || c.parentId.value == ""
  }

  /** The parent choices: exactly the top-level categories, in list order. */
  function ParentCategories(categories: seq<Category>): (r: seq<Category>)
    ensures forall c :: c in r <==> c in categories && IsTopLevel(c)
    ensures IsSubsequence(r, categories)
  {
    FilterMembers(categories, IsTopLevel);
    FilterIsSubsequence(categories, IsTopLevel);
    Filter(categories, IsTopLevel)
  }

  /** Filtering by a parent that is offered yields only its children, none
      of which is itself offered as a parent. */
  lemma {:induction false} ChildrenAreNotParents(categories: seq<Category>, term: string, p: string)
    requires p != ""
    ensures forall c :: c in FilterCategories(categories, term, p) ==> c !in ParentCategories(categories)
  {
  }

  class CategoriesPage {
    var sortField: SortField
    var sortDirection: Direction
    var searchTerm: string
    var filterParent: string

    constructor ()
      ensures sortField == ByName && sortDirection == Asc && searchTerm == "" && filterParent == ""
    {
      sortField := ByName;
      sortDirection := Asc;
      searchTerm := "";
      filterParent := "";
    }

    /** `toggleSort`. */
    method ToggleSort(field: SortField)
      modifies this
      ensures (sortField, sortDirection) == Toggle(old(sortField), old(sortDirection), field)
      ensures old(sortField) == field ==> sortField == field && sortDirection == Flip(old(sortDirection))
      ensures old(sortField) != field ==> sortField == field && sortDirection == Asc
      ensures searchTerm == old(searchTerm) && filterParent == old(filterParent)
    {
      if sortField == field {
        sortDirection := Flip(sortDirection);
      } else {
        sortField := field;
        sortDirection := Asc;
      }
    }

    function Visible(categories: seq<Category>): (r: seq<Category>)
      reads this
      ensures forall c :: c in r <==> c in categories && MatchesFilters(c, searchTerm, filterParent)
    {
      FilterCategories(categories, searchTerm, filterParent)
    }
  }
}
