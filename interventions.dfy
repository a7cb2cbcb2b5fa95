/** The interventions board: schools under one of five escalating
    intervention levels, shown as a list grouped by level (with collapsible
    sections), as kanban columns that accept dropped cards, or as a grid. */
module Interventions {
  import opened Outcomes
  import opened Text
  import opened Seqs

  /** The five levels, least to most severe. */
  datatype Level = InformalContact | InitialContact | ImprovementPlan | NoticeOfConcern | Revocation

  const Levels: seq<Level> := [InformalContact, InitialContact, ImprovementPlan, NoticeOfConcern, Revocation]

  lemma EveryLevelListed()
    ensures forall l :: l in Levels
  {
    forall l: Level ensures l in Levels {
      match l
      case InformalContact => assert Levels[0] == l;
      case InitialContact => assert Levels[1] == l;
      case ImprovementPlan => assert Levels[2] == l;
      case NoticeOfConcern => assert Levels[3] == l;
      case Revocation => assert Levels[4] == l;
    }
  }

  function LevelName(l: Level): string {
    match l
    case InformalContact => "Informal Contact"
    case InitialContact => "Initial Contact"
    case ImprovementPlan => "Improvement Plan"
    case NoticeOfConcern => "Notice of Concern"
    case Revocation => "Revocation of Contract / Non-Renewal"
  }

  datatype Intervention = Intervention(
    id: string,
    schoolName: string,
    riskScore: int,
    level: Level,
    contacts: Option<int>,
    documents: Option<int>,
    alerts: Option<int>,
    info: Option<int>)

  function LevelColor(l: Level): string {
    match l
    case InformalContact => "bg-gray-100"
    case InitialContact => "bg-amber-50"
    case ImprovementPlan => "bg-orange-50"
    case NoticeOfConcern => "bg-rose-50"
    case Revocation => "bg-red-50"
  }

  function LevelBorderColor(l: Level): string {
    match l
    case InformalContact => "border-gray-200"
    case InitialContact => "border-amber-200"
    case ImprovementPlan => "border-orange-200"
    case NoticeOfConcern => "border-rose-200"
    case Revocation => "border-red-200"
  }

  /** The level list names every level once, and the two colour maps give
      each level its own colour. */
  lemma LevelsComplete(l: Level, m: Level)
    ensures l in Levels && |Levels| == 5
    ensures forall i, j :: 0 <= i < j < |Levels| ==> Levels[i] != Levels[j]
    ensures l != m ==> LevelColor(l) != LevelColor(m) && LevelBorderColor(l) != LevelBorderColor(m)
    ensures l != m ==> LevelName(l) != LevelName(m)
  {
  }

  /** `handleLevelChange`, also what dropping a card on a column does. */
  function ChangeLevel(xs: seq<Intervention>, id: string, level: Level): (r: seq<Intervention>)
    ensures |r| == |xs|
    ensures forall k :: 0 <= k < |xs| && xs[k].id == id ==> r[k] == xs[k].(level := level)
    ensures forall k :: 0 <= k < |xs| && xs[k].id != id ==> r[k] == xs[k]
  {
    MapWhere(xs, (x: Intervention) => x.id == id, (x: Intervention) => x.(level := level))
  }

  /** The search: the school name contains the term, ignoring case. */
  function FilterInterventions(xs: seq<Intervention>, term: string): (r: seq<Intervention>)
    ensures forall x :: x in r <==> x in xs && ContainsIgnoreCase(x.schoolName, term)
    ensures IsSubsequence(r, xs)
  {
    var keep := (x: Intervention) => ContainsIgnoreCase(x.schoolName, term);
    FilterMembers(xs, keep);
    FilterIsSubsequence(xs, keep);
    Filter(xs, keep)
  }

  /** A kanban column, and a section of the list: the records at that
      level, in list order. */
  function AtLevel(xs: seq<Intervention>, level: Level): (r: seq<Intervention>)
    ensures forall x :: x in r <==> x in xs && x.level == level
    ensures IsSubsequence(r, xs)
  {
    var keep := (x: Intervention) => x.level == level;
    FilterMembers(xs, keep);
    FilterIsSubsequence(xs, keep);
    Filter(xs, keep)
  }

  /** `groupedInterventions`: one section per level. */
  function Grouped(xs: seq<Intervention>): (r: map<Level, seq<Intervention>>)
    ensures forall l :: l in r && r[l] == AtLevel(xs, l)
  {
    EveryLevelListed();
    map l | l in Levels :: AtLevel(xs, l)
  }

  function GroupSizes(xs: seq<Intervention>): nat {
    |AtLevel(xs, InformalContact)| + |AtLevel(xs, InitialContact)| + |AtLevel(xs, ImprovementPlan)|
      + |AtLevel(xs, NoticeOfConcern)| + |AtLevel(xs, Revocation)|
  }

  /** The sections partition the list: every record is in the section of
      its own level and in no other, and the section sizes add up to the
      number of records. */
  lemma {:induction false} GroupsPartition(xs: seq<Intervention>)
    ensures GroupSizes(xs) == |xs|
    ensures forall x, l :: x in xs ==> (x in Grouped(xs)[l] <==> l == x.level)
    decreases |xs|
  {
    if |xs| > 0 {
      var rest := xs[1..];
      GroupsPartition(rest);
      assert xs == [xs[0]] + rest;
      forall l | true ensures |AtLevel(xs, l)| == |AtLevel(rest, l)| + (if xs[0].level == l then 1 else 0) {
        FilterAppend([xs[0]], rest, (x: Intervention) => x.level == l);
        assert [xs[0]][1..] == [];
      }
    }
  }

  /** Dropping a card (with its own id) on a column moves it there: it shows
      in that column and in no other. */
  lemma {:induction false} DropMovesCard(xs: seq<Intervention>, k: nat, level: Level, other: Level)
    requires k < |xs|
    requires forall i, j :: 0 <= i < j < |xs| ==> xs[i].id != xs[j].id
    requires other != level
    ensures xs[k].(level := level) in AtLevel(ChangeLevel(xs, xs[k].id, level), level)
    ensures forall x :: x in AtLevel(ChangeLevel(xs, xs[k].id, level), other) ==> x.id != xs[k].id
  {
    var r := ChangeLevel(xs, xs[k].id, level);
    assert r[k] == xs[k].(level := level);
    forall x | x in AtLevel(r, other) ensures x.id != xs[k].id {
      var i :| 0 <= i < |r| && r[i] == x;
      if i != k {
        assert r[i] == xs[i];
      }
    }
  }

  /** The list view's section flags: all open at first. */
  function InitialExpanded(): (r: map<Level, bool>)
    ensures forall l :: l in r && r[l]
  {
    EveryLevelListed();
    map l | l in Levels :: true
  }

  /** `toggleSection`: flips that level's flag and no other. */
  function ToggleSection(expanded: map<Level, bool>, level: Level): (r: map<Level, bool>)
    ensures level in r && r[level] == !(level in expanded && expanded[level])
    ensures forall l :: l in expanded && l != level ==> l in r && r[l] == expanded[l]
    ensures r.Keys == expanded.Keys + {level}
  {
    expanded[level := !(level in expanded && expanded[level])]
  }

  /** Toggling a section twice restores the flags. */
  lemma ToggleTwice(expanded: map<Level, bool>, level: Level)
    requires level in expanded
    ensures ToggleSection(ToggleSection(expanded, level), level) == expanded
  {
  }
}
