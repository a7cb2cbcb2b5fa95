/** The users list: a search over first name, last name and organization,
    and the cell texts for organization, profile type, email and the
    active flag. */
module UserList {
  import opened Outcomes
  import opened Text
  import opened Seqs

  datatype User = User(
    id: string,
    firstName: string,
    lastName: string,
    organization: Option<string>,
    profileType: string,
    emails: seq<string>,
    isActive: bool)

  /** The searched text. An organization that is not set is a database
      `null`, which a template literal prints as "null". */
  function SearchText(u: User): string {
    Join([u.firstName, u.lastName, u.organization.GetOr("null")], " ")
  }

  predicate MatchesSearch(u: User, term: string) {
    ContainsIgnoreCase(SearchText(u), term)
  }

  function FilterUsers(users: seq<User>, term: string): (r: seq<User>)
    ensures forall u :: u in r <==> u in users && MatchesSearch(u, term)
    ensures IsSubsequence(r, users)
  {
    var keep := (u: User) => MatchesSearch(u, term);
    FilterMembers(users, keep);
    FilterIsSubsequence(users, keep);
    Filter(users, keep)
  }

  /** A term found in the first name, the last name or the organization
      lists the user; the empty term lists everyone. */
  lemma FoundInAnyPart(u: User, term: string)
    requires || ContainsIgnoreCase(u.firstName, term)
             || ContainsIgnoreCase(u.lastName, term)
             || (u.organization.Some? && ContainsIgnoreCase(u.organization.value, term))
    ensures MatchesSearch(u, term)
    ensures MatchesSearch(u, "")
  {
    var parts := [u.firstName, u.lastName, u.organization.GetOr("null")];
    var k := if ContainsIgnoreCase(u.firstName, term) then 0
      else if ContainsIgnoreCase(u.lastName, term) then 1 else 2;
    ContainsIgnoreCaseInJoin(parts, k, " ", term);
    ContainsIgnoreCaseEmpty(SearchText(u));
  }

  /** `organization || '-'`. */
  function OrganizationCell(u: User): (r: string)
    ensures u.organization.Some? && u.organization.value != "" ==> r == u.organization.value
    ensures u.organization.None? || u.organization.value == "" ==> r == "-"
  {
    if u.organization.Some? && u.organization.value != "" then u.organization.value else "-"
  }

  /** `user_email_addresses?.[0]?.email || '-'`: the first address. */
  function EmailCell(u: User): (r: string)
    ensures |u.emails| > 0 && u.emails[0] != "" ==> r == u.emails[0]
    ensures |u.emails| == 0 || u.emails[0] == "" ==> r == "-"
  {
    if |u.emails| > 0 && u.emails[0] != "" then u.emails[0] else "-"
  }

  /** The status badge text. */
  function ActiveLabel(u: User): (r: string)
    ensures u.isActive <==> r == "Active"
    ensures !u.isActive <==> r == "Inactive"
  {
    if u.isActive then "Active" else "Inactive"
  }

  /** A cell never shows an empty string: a missing value shows "-". */
  lemma CellsNeverBlank(u: User)
    ensures OrganizationCell(u) != "" && EmailCell(u) != ""
  {
  }
}
