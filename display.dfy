/** Small display rules shared by the list pages: how a missing joined
    value prints inside a template literal, and the `x?.[0]?.count || 0`
    reading of an aggregated count. */
module Display {
  import opened Outcomes
  import opened Text

  /** `${o?.name}`: a missing joined record prints as "undefined". */
  function Interpolated(o: Option<string>): string {
    o.GetOr("undefined")
  }

  /** `counts?.[0]?.count || 0`: the first aggregate row's count, or 0 when
      the aggregate is missing or empty (a count of 0 is 0 either way). */
  function FirstCount(counts: Option<seq<nat>>): (r: nat)
    ensures counts.Some? && |counts.value| > 0 ==> r == counts.value[0]
    ensures counts.None? || |counts.value| == 0 ==> r == 0
  {
    if counts.Some? && |counts.value| > 0 then counts.value[0] else 0
  }

  /** A status value made of `_`-joined words is labelled with those words,
      each capitalised, joined by spaces ("under_review" is "Under Review"). */
  lemma StatusLabelWords(words: seq<string>)
    requires |words| >= 1
    requires forall k :: 0 <= k < |words| ==> '_' !in words[k]
    ensures SnakeToTitle(Join(words, "_")) == Join(CapitalizeAll(words), " ")
  {
    SplitJoin(words, '_');
  }
}
