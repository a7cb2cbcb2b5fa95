/** The schools list: search over name, code and address, a sortable
    column, and pages of 10, 25 or 50 rows with previous/next buttons and a
    range label. The page's state (search term, sort column and direction,
    current page, page size) lives in a class whose methods are the
    handlers. */
module Schools {
  import opened Outcomes
  import opened Text
  import opened Seqs
  import opened Sorting

  datatype SchoolStatus = Opened | Closed | UnderReview

  datatype OperationDetails = OperationDetails(
    studentCapacity: int,
    classSize: int,
    teacherToStudentRatio: string,
    transportationProvided: bool,
    lunchProvided: bool,
    availableMealOptions: seq<string>,
    financialAidAvailable: bool)

  datatype School = School(
    id: string,
    name: string,
    code: string,
    address: string,
    status: SchoolStatus,
    gradeRange: seq<string>,
    tags: seq<string>,
    parentOrganization: string,
    phone: string,
    currentEnrollment: int,
    webSite: string,
    operationDetails: OperationDetails)

  /** The keys a school can be sorted by. */
  datatype Column =
    | Id | Name | Code | Address | Status | GradeRange | Tags | ParentOrganization
    | Phone | CurrentEnrollment | WebSite | Operation

  function StatusName(s: SchoolStatus): string {
    match s
    case Opened => "Opened"
    case Closed => "Closed"
    case UnderReview => "Under Review"
  }

  /** The column's value when it is a string; `None` for numbers, lists and
      records, which the comparator leaves in place. */
  function StringValue(s: School, c: Column): Option<string> {
    match c
    case Id => Some(s.id)
    case Name => Some(s.name)
    case Code => Some(s.code)
    case Address => Some(s.address)
    case Status => Some(StatusName(s.status))
    case ParentOrganization => Some(s.parentOrganization)
    case Phone => Some(s.phone)
    case WebSite => Some(s.webSite)
    case _ => None
  }

  predicate IsStringColumn(c: Column) {
    c in {Id, Name, Code, Address, Status, ParentOrganization, Phone, WebSite}
  }

  lemma StringColumnsHaveStrings(s: School, c: Column)
    ensures StringValue(s, c).Some? <==> IsStringColumn(c)
  {
  }

  /** The search test: name, code or address contains the term, ignoring
      case. */
  predicate MatchesSearch(s: School, term: string) {
    ContainsIgnoreCase(s.name, term) || ContainsIgnoreCase(s.code, term) || ContainsIgnoreCase(s.address, term)
  }

  function FilterSchools(schools: seq<School>, term: string): (r: seq<School>)
    ensures forall s :: s in r <==> s in schools && MatchesSearch(s, term)
    ensures IsSubsequence(r, schools)
  {
    var keep := (s: School) => MatchesSearch(s, term);
    FilterMembers(schools, keep);
    FilterIsSubsequence(schools, keep);
    Filter(schools, keep)
  }

  lemma {:induction false} EmptySearchKeepsAll(schools: seq<School>)
    ensures FilterSchools(schools, "") == schools
  {
    forall k | 0 <= k < |schools| ensures MatchesSearch(schools[k], "") {
      ContainsIgnoreCaseEmpty(schools[k].name);
    }
    FilterAll(schools, (s: School) => MatchesSearch(s, ""));
  }

  /** The sort key for a string column. */
  function Key(c: Column): School -> string {
    (s: School) => StringValue(s, c).GetOr("")
  }

  /** `[...filtered].sort(cmp)`: string columns in `localeCompare` order (the
      reverse call for descending); the comparator answers 0 for any other
      column, and the stable sort then keeps the list as it was. */
  function SortSchools(schools: seq<School>, c: Column, d: Direction): (r: seq<School>)
    ensures multiset(r) == multiset(schools)
    ensures IsStringColumn(c) ==> SortedBy(r, Key(c), d)
    ensures !IsStringColumn(c) ==> r == schools
  {
    if IsStringColumn(c) then SortBy(schools, Key(c), d) else schools
  }

  /** `Array.prototype.slice(start, end)`: negative bounds count from the end,
      and bounds are clamped to the list. */
  function SliceIndex(i: int, len: nat): (r: nat)
    ensures r <= len
    ensures 0 <= i <= len ==> r == i
  {
    if i < 0 then (if len + i < 0 then 0 else len + i) else if i > len then len else i
  }

  function JsSlice<T>(s: seq<T>, start: int, end: int): (r: seq<T>)
    ensures 0 <= start <= end <= |s| ==> r == s[start..end]
    ensures |r| <= |s|
    ensures forall k :: 0 <= k < |r| ==> r[k] in s
  {
    var a := SliceIndex(start, |s|);
    var b := SliceIndex(end, |s|);
    if a < b then s[a..b] else []
  }

  /** `Math.ceil(count / rows)` for a positive page size. */
  function TotalPages(count: nat, rows: int): (r: int)
    requires rows > 0
    ensures r >= 0
    ensures r * rows >= count
    ensures (r - 1) * rows < count || (count == 0 && r == 0)
  {
    (count + rows - 1) / rows
  }

  /** The index of the first row on page `p`, `(p-1)·rows`: the next page
      starts `rows` later, and from page 1 on it is never negative. */
  function FirstRowIndex(page: int, rows: int): (r: int)
    requires rows > 0
    ensures r + rows == page * rows
    ensures page >= 1 ==> r >= 0
  {
    if page >= 1 then MultiplyMonotone(0, page - 1, rows); (page - 1) * rows
    else (page - 1) * rows
  }

  /** The rows on page `p`: `[(p-1)·rows, p·rows)` of the sorted list. */
  function PageRows<T>(sorted: seq<T>, page: int, rows: int): (r: seq<T>)
    requires rows > 0
    ensures |r| <= rows
    ensures forall k :: 0 <= k < |r| ==> r[k] in sorted
    ensures var start := FirstRowIndex(page, rows);
      1 <= page && start <= |sorted| ==>
      r == sorted[start..(if start + rows < |sorted| then start + rows else |sorted|)]
  {
    var start := FirstRowIndex(page, rows);
    SliceWidth(start, rows, |sorted|);
    var r := JsSlice(sorted, start, page * rows);
    if 1 <= page && start <= |sorted| then
      SliceWithin(sorted, start, start + rows);
      r
    else
      r
  }

  /** Bounds inside the list: the slice runs from `start` to `end` or the end
      of the list, whichever comes first. */
  lemma SliceWithin<T>(s: seq<T>, start: int, end: int)
    requires 0 <= start <= |s| && start <= end
    ensures JsSlice(s, start, end) == s[start..(if end < |s| then end else |s|)]
  {
  }

  /** A slice whose bounds are `w` apart holds at most `w` elements. */
  lemma SliceWidth(i: int, w: nat, len: nat)
    ensures SliceIndex(i + w, len) <= SliceIndex(i, len) + w
  {
  }

  /** The label's first and last row number. */
  function RangeLabel(page: int, rows: int, count: nat): (r: (int, int))
    requires rows > 0
    ensures r.1 <= count
    ensures r.1 - r.0 + 1 <= rows
    ensures page >= 1 ==> r.0 >= 1
  {
    var start := FirstRowIndex(page, rows);
    (start + 1, if start + rows < count then start + rows else count)
  }

  /** On any page from 1 to the last, the label counts exactly the rows
      shown. */
  lemma {:induction false} RangeLabelCountsRows<T>(sorted: seq<T>, page: int, rows: int)
    requires rows > 0 && 1 <= page <= TotalPages(|sorted|, rows)
    ensures var (first, last) := RangeLabel(page, rows, |sorted|);
      last - first + 1 == |PageRows(sorted, page, rows)| && 1 <= first <= last
  {
    var n, t := |sorted|, TotalPages(|sorted|, rows);
    var a := FirstRowIndex(page, rows);
    MultiplyMonotone(page - 1, t - 1, rows);
    assert 0 <= a <= (t - 1) * rows < n;
  }

  lemma MultiplyMonotone(a: int, b: int, m: int)
    requires a <= b && m > 0
    ensures a * m <= b * m
  {
    assert b * m - a * m == (b - a) * m;
  }

  /** Every filtered row is on exactly one page from 1 to the last. */
  lemma {:induction false} RowOnOnePage(count: nat, rows: int, i: nat)
    requires rows > 0 && i < count
    ensures var p := i / rows + 1;
      1 <= p <= TotalPages(count, rows) && (p - 1) * rows <= i < p * rows
  {
    var p := i / rows + 1;
    assert (p - 1) * rows <= i;
    assert i < p * rows;
    assert p <= TotalPages(count, rows) by {
      assert (p - 1) * rows < count;
      assert (p - 1) * rows + rows - 1 < count + rows - 1;
      DivLowerBound(p - 1, count + rows - 1, rows);
    }
  }

  lemma DivLowerBound(q: int, n: int, m: int)
    requires m > 0 && q >= 0 && n >= 0 && q * m <= n
    ensures q <= n / m
  {
    var d := n / m;
    assert n == d * m + n % m && n % m < m;
    assert (d + 1) * m == d * m + m;
    if q > d {
      MultiplyMonotone(d + 1, q, m);
    }
  }

  /** The page sizes the selector offers. */
  const RowOptions: seq<int> := [10, 25, 50]

  class SchoolsPage {
    var searchTerm: string
    var currentPage: int
    var rowsPerPage: int
    var sortColumn: Column
    var sortDirection: Direction

    /** The page size is one of the offered ones. */
    predicate Valid()
      reads this
    {
      rowsPerPage in RowOptions && currentPage >= 0
    }

    constructor ()
      ensures Valid()
      ensures searchTerm == "" && currentPage == 1 && rowsPerPage == 10
      ensures sortColumn == Name && sortDirection == Asc
    {
      searchTerm := "";
      currentPage := 1;
      rowsPerPage := 10;
      sortColumn := Name;
      sortDirection := Asc;
    }

    /** A header click. */
    method HandleSort(column: Column)
      requires Valid()
      modifies this
      ensures Valid()
      ensures (sortColumn, sortDirection) == Toggle(old(sortColumn), old(sortDirection), column)
      ensures old(sortColumn) == column ==> sortColumn == column && sortDirection == Flip(old(sortDirection))
      ensures old(sortColumn) != column ==> sortColumn == column && sortDirection == Asc
      ensures searchTerm == old(searchTerm) && currentPage == old(currentPage) && rowsPerPage == old(rowsPerPage)
    {
      if sortColumn == column {
        sortDirection := Flip(sortDirection);
      } else {
        sortColumn := column;
        sortDirection := Asc;
      }
    }

    method SetSearchTerm(term: string)
      requires Valid()
      modifies this
      ensures Valid() && searchTerm == term
      ensures currentPage == old(currentPage) && rowsPerPage == old(rowsPerPage)
      ensures sortColumn == old(sortColumn) && sortDirection == old(sortDirection)
    {
      searchTerm := term;
    }

    /** Choosing a page size; the current page is kept. */
    method SetRowsPerPage(rows: int)
      requires Valid() && rows in RowOptions
      modifies this
      ensures Valid() && rowsPerPage == rows
      ensures searchTerm == old(searchTerm) && currentPage == old(currentPage)
      ensures sortColumn == old(sortColumn) && sortDirection == old(sortDirection)
    {
      rowsPerPage := rows;
    }

    function Filtered(schools: seq<School>): (r: seq<School>)
      reads this
      ensures forall s :: s in r <==> s in schools && MatchesSearch(s, searchTerm)
    {
      FilterSchools(schools, searchTerm)
    }

    function Sorted(schools: seq<School>): (r: seq<School>)
      reads this
      ensures multiset(r) == multiset(Filtered(schools))
      ensures IsStringColumn(sortColumn) ==> SortedBy(r, Key(sortColumn), sortDirection)
    {
      SortSchools(Filtered(schools), sortColumn, sortDirection)
    }

    function Pages(schools: seq<School>): (r: int)
      reads this
      requires Valid()
      ensures r >= 0
    {
      TotalPages(|Filtered(schools)|, rowsPerPage)
    }

    /** The rows shown. */
    function Visible(schools: seq<School>): (r: seq<School>)
      reads this
      requires Valid()
      ensures |r| <= rowsPerPage
      ensures forall s :: s in r ==> s in schools && MatchesSearch(s, searchTerm)
    {
      var sorted := Sorted(schools);
      var r := PageRows(sorted, currentPage, rowsPerPage);
      assert forall s :: s in sorted ==> s in Filtered(schools) by {
        forall s | s in sorted ensures s in Filtered(schools) {
          assert s in multiset(sorted);
        }
      }
      r
    }

    /** The previous-page button: never below 1. */
    method PrevPage()
      requires Valid()
      modifies this
      ensures currentPage == if old(currentPage) - 1 > 1 then old(currentPage) - 1 else 1
      ensures Valid() && currentPage >= 1
      ensures searchTerm == old(searchTerm) && rowsPerPage == old(rowsPerPage)
      ensures sortColumn == old(sortColumn) && sortDirection == old(sortDirection)
    {
      currentPage := if currentPage - 1 > 1 then currentPage - 1 else 1;
    }

    /** The next-page button: never past the last page, which is page 0 when
        nothing matches the search. */
    method NextPage(schools: seq<School>)
      requires Valid()
      modifies this
      ensures currentPage == if old(currentPage) + 1 < old(Pages(schools)) then old(currentPage) + 1 else old(Pages(schools))
      ensures Valid() && currentPage <= old(Pages(schools))
      ensures |FilterSchools(schools, searchTerm)| == 0 ==> currentPage == 0
      ensures searchTerm == old(searchTerm) && rowsPerPage == old(rowsPerPage)
      ensures sortColumn == old(sortColumn) && sortDirection == old(sortDirection)
    {
      var total := Pages(schools);
      if |Filtered(schools)| == 0 {
        assert total == (rowsPerPage - 1) / rowsPerPage == 0;
      }
      currentPage := if currentPage + 1 < total then currentPage + 1 else total;
    }

    /** The previous button is disabled exactly when a click on it would
        leave the page where it is. */
    function PrevDisabled(): (r: bool)
      reads this
      ensures r <==> (if currentPage - 1 > 1 then currentPage - 1 else 1) == currentPage
    {
      currentPage == 1
    }

    /** The next button is disabled exactly when a click on it would leave
        the page where it is. */
    function NextDisabled(schools: seq<School>): (r: bool)
      reads this
      requires Valid()
      ensures r <==> (if currentPage + 1 < Pages(schools) then currentPage + 1 else Pages(schools)) == currentPage
    {
      currentPage == Pages(schools)
    }
  }
}
