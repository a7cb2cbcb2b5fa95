/** The applications list: a search over the template name and the school
    name, the status colour and label, and the reviewer and comment
    counts. */
module ApplicationList {
  import opened Outcomes
  import opened Text
  import opened Seqs
  import opened Display

  datatype TemplateRef = TemplateRef(name: string, kind: string)

  datatype Application = Application(
    id: string,
    status: string,
    template: Option<TemplateRef>,
    schoolName: Option<string>,
    dueDate: Option<string>,
    reviewers: Option<seq<nat>>,
    comments: Option<seq<nat>>)

  /** Listed when the joined template's name or the school name contains
      the term; a missing value does not match. */
  predicate MatchesSearch(a: Application, term: string) {
    (a.template.Some? && ContainsIgnoreCase(a.template.value.name, term))
      || (a.schoolName.Some? && ContainsIgnoreCase(a.schoolName.value, term))
  }

  function FilterApplications(apps: seq<Application>, term: string): (r: seq<Application>)
    ensures forall a :: a in r <==> a in apps && MatchesSearch(a, term)
    ensures IsSubsequence(r, apps)
  {
    var keep := (a: Application) => MatchesSearch(a, term);
    FilterMembers(apps, keep);
    FilterIsSubsequence(apps, keep);
    Filter(apps, keep)
  }

  /** With an empty search, exactly the applications that have a template
      or a school name are listed: one with neither never shows. */
  lemma EmptySearchKeepsNamed(apps: seq<Application>)
    ensures forall a :: a in FilterApplications(apps, "") <==>
      a in apps && (a.template.Some? || a.schoolName.Some?)
  {
    forall a | a in apps && (a.template.Some? || a.schoolName.Some?)
      ensures MatchesSearch(a, "")
    {
      if a.template.Some? {
        ContainsIgnoreCaseEmpty(a.template.value.name);
      } else {
        ContainsIgnoreCaseEmpty(a.schoolName.value);
      }
    }
  }

  /** `getStatusColor`: the five statuses; anything else is gray, like a
      draft. */
  function StatusColor(status: string): string {
    match status
    case "draft" => "bg-gray-100 text-gray-800"
    case "submitted" => "bg-blue-100 text-blue-800"
    case "under_review" => "bg-amber-100 text-amber-800"
    case "approved" => "bg-emerald-100 text-emerald-800"
    case "rejected" => "bg-red-100 text-red-800"
    case _ => "bg-gray-100 text-gray-800"
  }

  /** Submitted, under review, approved and rejected each have a colour of
      their own; every other status gets the gray of a draft. */
  lemma StatusColors(status: string)
    ensures StatusColor(status) == "bg-gray-100 text-gray-800"
      <==> status !in ["submitted", "under_review", "approved", "rejected"]
    ensures status in ["submitted", "under_review", "approved", "rejected"] ==>
      forall other :: other != status ==> StatusColor(other) != StatusColor(status)
  {
  }

  /** The reviewer and comment counts on a card, each 0 when missing. */
  function Counts(a: Application): (r: (nat, nat))
    ensures a.reviewers.None? || |a.reviewers.value| == 0 ==> r.0 == 0
    ensures a.reviewers.Some? && |a.reviewers.value| > 0 ==> r.0 == a.reviewers.value[0]
    ensures a.comments.None? || |a.comments.value| == 0 ==> r.1 == 0
    ensures a.comments.Some? && |a.comments.value| > 0 ==> r.1 == a.comments.value[0]
  {
    (FirstCount(a.reviewers), FirstCount(a.comments))
  }
}
