/** The condition-group editor of the step configuration form: the edits
    its buttons and drop-downs make to a condition tree, the nested edit the
    recursive rendering composes out of them, the default value for an
    absent group, and how the renderer tells groups from leaves. */
module ConditionEditor {
  import opened Outcomes
  import opened WorkflowTypes

  /** The leaf "Add Condition" appends: no field, `equals`, empty value. */
  const NewCondition: ConditionNode := Leaf("", Equals, JStr(""))

  /** The group "Add Group" appends, also the value of an absent group. */
  const EmptyAndGroup: ConditionNode := Group(And, [])

  /** Picking AND/OR in a group's drop-down. */
  function SetOperator(g: ConditionNode, logic: LogicalOperator): (r: ConditionNode)
    requires g.Group?
    ensures r.Group? && r.logic == logic && r.conditions == g.conditions
  {
    g.(logic := logic)
  }

  /** The callback a group hands to its child `i`: the child's new value
      replaces position `i`. */
  function ReplaceChild(g: ConditionNode, i: nat, c: ConditionNode): (r: ConditionNode)
    requires g.Group? && i < |g.conditions|
    ensures r.Group? && r.logic == g.logic && |r.conditions| == |g.conditions|
    ensures r.conditions[i] == c
    ensures forall k :: 0 <= k < |g.conditions| && k != i ==> r.conditions[k] == g.conditions[k]
  {
    g.(conditions := g.conditions[i := c])
  }

  /** "Add Condition". */
  function AddCondition(g: ConditionNode): (r: ConditionNode)
    requires g.Group?
    ensures r.Group? && r.logic == g.logic
    ensures |r.conditions| == |g.conditions| + 1
    ensures r.conditions[..|g.conditions|] == g.conditions
    ensures r.conditions[|g.conditions|] == Leaf("", Equals, JStr(""))
  {
    g.(conditions := g.conditions + [NewCondition])
  }

  /** "Add Group". */
  function AddGroup(g: ConditionNode): (r: ConditionNode)
    requires g.Group?
    ensures r.Group? && r.logic == g.logic
    ensures |r.conditions| == |g.conditions| + 1
    ensures r.conditions[..|g.conditions|] == g.conditions
    ensures r.conditions[|g.conditions|] == Group(And, [])
  {
    g.(conditions := g.conditions + [EmptyAndGroup])
  }

  /** An index path leads from `n` to a node: every step but the last goes
      through a group child. */
  predicate ValidPath(n: ConditionNode, path: seq<nat>)
    decreases |path|
  {
    |path| == 0 || (n.Group? && path[0] < |n.conditions| && ValidPath(n.conditions[path[0]], path[1..]))
  }

  function NodeAt(n: ConditionNode, path: seq<nat>): ConditionNode
    requires ValidPath(n, path)
    decreases |path|
  {
    if |path| == 0 then n else NodeAt(n.conditions[path[0]], path[1..])
  }

  /** What an edit deep in the tree sends up to the form: each enclosing
      group replaces its child on the way up, so the new root is the old one
      with the node at `path` replaced by `c`. */
  function UpdateAt(n: ConditionNode, path: seq<nat>, c: ConditionNode): (r: ConditionNode)
    requires ValidPath(n, path)
    decreases |path|
  {
    if |path| == 0 then c
    else ReplaceChild(n, path[0], UpdateAt(n.conditions[path[0]], path[1..], c))
  }

  /** A nested edit puts `c` at `path`, keeps the path valid, and keeps the
      operator and child count of every group above it. */
  lemma {:induction false} UpdateAtPlaces(n: ConditionNode, path: seq<nat>, c: ConditionNode)
    requires ValidPath(n, path)
    ensures ValidPath(UpdateAt(n, path, c), path)
    ensures NodeAt(UpdateAt(n, path, c), path) == c
    ensures |path| > 0 ==>
      (UpdateAt(n, path, c).Group? && UpdateAt(n, path, c).logic == n.logic
       && |UpdateAt(n, path, c).conditions| == |n.conditions|)
    decreases |path|
  {
    if |path| > 0 {
      UpdateAtPlaces(n.conditions[path[0]], path[1..], c);
    }
  }

  /** A nested edit leaves every node off its path where it was: a path
      that branches away from the edited one before its end still leads to
      the same node. */
  lemma {:induction false} UpdateAtKeepsOthers(n: ConditionNode, path: seq<nat>, c: ConditionNode, other: seq<nat>)
    requires ValidPath(n, path) && ValidPath(n, other)
    requires exists k :: 0 <= k < |path| && k < |other| && path[k] != other[k] && path[..k] == other[..k]
    ensures ValidPath(UpdateAt(n, path, c), other)
    ensures NodeAt(UpdateAt(n, path, c), other) == NodeAt(n, other)
    decreases |path|
  {
    var k :| 0 <= k < |path| && k < |other| && path[k] != other[k] && path[..k] == other[..k];
    var r := UpdateAt(n, path, c);
    if k == 0 {
      assert r.conditions[other[0]] == n.conditions[other[0]];
    } else {
      assert path[0] == other[0] by { assert path[..k][0] == other[..k][0]; }
      assert path[1..][..k-1] == other[1..][..k-1] by {
        assert path[1..][..k-1] == path[..k][1..];
        assert other[1..][..k-1] == other[..k][1..];
      }
      assert path[1..][k-1] != other[1..][k-1];
      UpdateAtKeepsOthers(n.conditions[path[0]], path[1..], c, other[1..]);
    }
  }

  /** The value the form edits for a `condition_group` field: the stored
      value when it is truthy, otherwise an empty AND group. */
  function GroupValueOrDefault(stored: Json): (r: Json)
    ensures Truthy(stored) ==> r == stored
    ensures !Truthy(stored) ==> DecodeNode(r) == Some(Group(And, []))
  {
    if Truthy(stored) then stored
    else
      DecodeEncodeNode(EmptyAndGroup);
      EncodeNode(EmptyAndGroup)
  }

  // ---- telling groups from leaves in the stored form ----

  /** The renderer's test, as written: an object with an `operator` key is
      drawn as a group. Leaves have that key too. */
  predicate TakenForGroupAsWritten(j: Json) {
    j.JObj? && "operator" in j.fields
  }

  /** Every stored node passes the as-written test, so a leaf is drawn as a
      group; the "Add Condition" leaf is one such input, and drawing it as a
      group reads a `conditions` list it does not have. */
  lemma LeafTakenForGroup(n: ConditionNode)
    ensures TakenForGroupAsWritten(EncodeNode(n))
    ensures TakenForGroupAsWritten(EncodeNode(NewCondition)) && !NewCondition.Group?
    ensures "conditions" !in EncodeNode(NewCondition).fields
  {
  }

  /** The corrected test (the `conditions` key) recognises exactly the
      groups. */
  lemma {:induction false} GroupTestExact(n: ConditionNode)
    ensures IsGroupObject(EncodeNode(n)) <==> n.Group?
  {
    match n
    case Leaf(_, _, _) =>
      assert EncodeNode(n).fields.Keys == {"field", "operator", "value"};
    case Group(_, _) =>
  }
}
