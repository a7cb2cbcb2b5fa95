/** The contacts directory: a search over names, email and role combined
    with an exact role filter, the role choices, and the initials shown in
    each contact's avatar. */
module Contacts {
  import opened Outcomes
  import opened Text
  import opened Seqs
  import opened Sorting

  datatype SchoolRef = SchoolRef(id: string, name: string, address: string)

  datatype Contact = Contact(
    id: string,
    firstName: string,
    lastName: string,
    email: string,
    phone: string,
    role: string,
    school: SchoolRef,
    isPrimary: bool)

  /** The school filter a visit starts with: the `school` query parameter,
      or none. */
  function InitialSchoolFilter(param: Option<string>): (r: string)
    ensures param.Some? ==> r == param.value
    ensures param.None? ==> r == ""
  {
    param.GetOr("")
  }

  /** `charAt(0)` of each name: nothing for an empty name. The first
      character is a Unicode scalar value, where JavaScript takes the first
      UTF-16 code unit; they differ only for characters above U+FFFF. */
  function Initials(firstName: string, lastName: string): (r: string)
    ensures |r| == (if |firstName| > 0 then 1 else 0) + (if |lastName| > 0 then 1 else 0)
    ensures |firstName| > 0 ==> r[0] == firstName[0]
    ensures |lastName| > 0 ==> r[|r| - 1] == lastName[0]
  {
    (if |firstName| > 0 then [firstName[0]] else "") + (if |lastName| > 0 then [lastName[0]] else "")
  }

  predicate SearchMatch(c: Contact, term: string) {
    ContainsIgnoreCase(c.firstName, term) || ContainsIgnoreCase(c.lastName, term)
      || ContainsIgnoreCase(c.email, term) || ContainsIgnoreCase(c.role, term)
  }

  /** No role filter, or the role is exactly the filter. */
  predicate RoleMatch(c: Contact, role: string) {
    role == "" || c.role == role
  }

  function FilterContacts(contacts: seq<Contact>, term: string, role: string): (r: seq<Contact>)
    ensures forall c :: c in r <==> c in contacts && SearchMatch(c, term) && RoleMatch(c, role)
    ensures IsSubsequence(r, contacts)
  {
    var keep := (c: Contact) => SearchMatch(c, term) && RoleMatch(c, role);
    FilterMembers(contacts, keep);
    FilterIsSubsequence(contacts, keep);
    Filter(contacts, keep)
  }

  /** No search and no role filter: every contact is listed. */
  lemma {:induction false} NoFiltersKeepAll(contacts: seq<Contact>)
    ensures FilterContacts(contacts, "", "") == contacts
  {
    forall k | 0 <= k < |contacts| ensures SearchMatch(contacts[k], "") {
      ContainsIgnoreCaseEmpty(contacts[k].firstName);
    }
    FilterAll(contacts, (c: Contact) => SearchMatch(c, "") && RoleMatch(c, ""));
  }

  /** `Array.from(new Set(xs))`: first occurrences, in order. */
  function Distinct(xs: seq<string>): (r: seq<string>)
    ensures forall x :: x in r <==> x in xs
    ensures forall i, j :: 0 <= i < j < |r| ==> r[i] != r[j]
    decreases |xs|
  {
    if |xs| == 0 then []
    else
      var d := Distinct(xs[..|xs| - 1]);
      var last := xs[|xs| - 1];
      assert forall x :: x in xs <==> x in xs[..|xs| - 1] || x == last by {
        assert xs == xs[..|xs| - 1] + [last];
      }
      if last in d then d else d + [last]
  }

  function AllRoles(contacts: seq<Contact>): (r: seq<string>)
    ensures |r| == |contacts|
    ensures forall x :: x in r <==> exists c :: c in contacts && c.role == x
  {
    var r := seq(|contacts|, k requires 0 <= k < |contacts| => contacts[k].role);
    assert forall x :: x in r ==> exists c :: c in contacts && c.role == x by {
      forall x | x in r ensures exists c :: c in contacts && c.role == x {
        var k :| 0 <= k < |r| && r[k] == x;
        assert contacts[k] in contacts;
      }
    }
    assert forall c :: c in contacts ==> c.role in r by {
      forall c | c in contacts ensures c.role in r {
        var k :| 0 <= k < |contacts| && contacts[k] == c;
        assert r[k] == c.role;
      }
    }
    r
  }

  /** `Array.from(new Set(contacts.map(c => c.role))).sort()`: the default
      sort, modelled as character order (`LexLessEq`). */
  function Roles(contacts: seq<Contact>): (r: seq<string>)
    ensures forall x :: x in r <==> exists c :: c in contacts && c.role == x
    ensures SortedBy(r, (s: string) => s, Asc)
    ensures forall i, j :: 0 <= i < j < |r| ==> r[i] != r[j]
  {
    var d := Distinct(AllRoles(contacts));
    var r := SortBy(d, (s: string) => s, Asc);
    assert forall x :: x in r <==> x in d by {
      forall x ensures x in r <==> x in d {
        assert x in r <==> x in multiset(r);
        assert x in d <==> x in multiset(d);
      }
    }
    DistinctPermutation(d, r);
    r
  }

  /** A permutation of a list without repeats has no repeats. */
  lemma DistinctPermutation(d: seq<string>, r: seq<string>)
    requires multiset(d) == multiset(r)
    requires forall i, j :: 0 <= i < j < |d| ==> d[i] != d[j]
    ensures forall i, j :: 0 <= i < j < |r| ==> r[i] != r[j]
  {
    forall i, j | 0 <= i < j < |r| ensures r[i] != r[j] {
      if r[i] == r[j] {
        assert r == r[..i] + [r[i]] + r[i + 1..j] + [r[j]] + r[j + 1..];
        assert multiset(r)[r[i]] >= 2;
        DistinctCountsOne(d, r[i]);
      }
    }
  }

  lemma {:induction false} DistinctCountsOne(d: seq<string>, x: string)
    requires forall i, j :: 0 <= i < j < |d| ==> d[i] != d[j]
    ensures multiset(d)[x] <= 1
    decreases |d|
  {
    if |d| > 0 {
      var rest := d[1..];
      assert d == [d[0]] + rest;
      DistinctCountsOne(rest, x);
      if d[0] == x {
        assert x !in rest by {
          forall k | 0 <= k < |rest| ensures rest[k] != x { assert rest[k] == d[k + 1]; }
        }
      }
    }
  }

  /** The role choices are strictly increasing. */
  lemma RolesStrictlyIncreasing(contacts: seq<Contact>)
    ensures forall i, j :: 0 <= i < j < |Roles(contacts)| ==>
      LexLessEq(Roles(contacts)[i], Roles(contacts)[j]) && Roles(contacts)[i] != Roles(contacts)[j]
  {
    var r := Roles(contacts);
    forall i, j | 0 <= i < j < |r| ensures LexLessEq(r[i], r[j]) {
      assert InOrder(r[i], r[j], Asc);
    }
  }
}
