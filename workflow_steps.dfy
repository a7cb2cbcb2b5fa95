/** The workflows page: the list of workflows and the ordered steps of the
    selected one. Steps are numbered from 1 in list order; adding a step
    takes the next number, deleting one renumbers the rest, updating one
    replaces it by id. Database round-trips are parameters: what a query
    returned, or that it failed. */
module WorkflowSteps {
  import opened Outcomes
  import opened Seqs
  import opened WorkflowTypes

  /** The steps are numbered 1..N in list order, so the number stored with
      each step is the position the builder shows for it (`index + 1`). */
  predicate DenselyNumbered(steps: seq<WorkflowStep>) {
    forall i :: 0 <= i < |steps| ==> steps[i].stepNumber == i + 1
  }

  /** The largest step number of a non-empty list of stored steps (what the
      descending, limit-1 query returns first). */
  function MaxStepNumber(steps: seq<WorkflowStep>): (r: int)
    requires |steps| > 0
    ensures forall k :: 0 <= k < |steps| ==> steps[k].stepNumber <= r
    ensures exists k :: 0 <= k < |steps| && steps[k].stepNumber == r
    decreases |steps|
  {
    if |steps| == 1 then steps[0].stepNumber
    else
      var rest := MaxStepNumber(steps[1..]);
      assert forall k :: 1 <= k < |steps| ==> steps[k] == steps[1..][k - 1];
      if steps[0].stepNumber >= rest then steps[0].stepNumber else rest
  }

  /** The number a new step gets: one past the highest stored number, or 1
      for a workflow with no steps. */
  function NextStepNumber(stored: seq<WorkflowStep>): (r: int)
    ensures |stored| == 0 ==> r == 1
    ensures forall k :: 0 <= k < |stored| ==> stored[k].stepNumber < r
    ensures |stored| > 0 ==> exists k :: 0 <= k < |stored| && r == stored[k].stepNumber + 1
  {
    if |stored| == 0 then 1 else MaxStepNumber(stored) + 1
  }

  /** The fields the page sends when it inserts a step (`newStep`); the
      database adds the id, the name, the links and the timestamps. */
  datatype StepInsert = StepInsert(workflowId: string, stepNumber: int, stepType: StepType, config: map<string, Json>)

  /** The insert for a new step: the workflow's id, the number, the type and
      an empty config. */
  function NewStep(workflowId: string, number: int, stepType: StepType): (r: StepInsert)
    ensures r.workflowId == workflowId && r.stepNumber == number && r.stepType == stepType
    ensures r.config == map[]
  {
    StepInsert(workflowId, number, stepType, map[])
  }

  /** A row read back after a write carries the fields that were written. */
  predicate StoredAs(row: WorkflowStep, sent: StepInsert) {
    row.workflowId == sent.workflowId && row.stepNumber == sent.stepNumber
    && row.stepType == sent.stepType && row.config == sent.config
  }

  /** The rows an upsert returned are the rows it was sent, in the same
      order, as far as id, number, type, workflow and config go. */
  predicate Echoes(rows: seq<WorkflowStep>, sent: seq<WorkflowStep>) {
    |rows| == |sent|
    && forall i :: 0 <= i < |rows| ==>
      rows[i].id == sent[i].id && rows[i].stepNumber == sent[i].stepNumber
      && rows[i].stepType == sent[i].stepType && rows[i].workflowId == sent[i].workflowId
      && rows[i].config == sent[i].config
  }

  /** `steps.filter(s => s.id !== stepId)`. */
  function RemoveStep(steps: seq<WorkflowStep>, stepId: string): (r: seq<WorkflowStep>)
    ensures forall s :: s in r <==> s in steps && s.id != stepId
  {
    FilterMembers(steps, (s: WorkflowStep) => s.id != stepId);
    Filter(steps, (s: WorkflowStep) => s.id != stepId)
  }

  /** Deleting keeps the remaining steps in their previous relative order. */
  lemma RemoveStepKeepsOrder(steps: seq<WorkflowStep>, stepId: string)
    ensures IsSubsequence(RemoveStep(steps, stepId), steps)
  {
    FilterIsSubsequence(steps, (s: WorkflowStep) => s.id != stepId);
  }

  /** The rows the renumbering upsert writes: each step at position i gets
      number i + 1; id, type, workflow and config are carried over. */
  function Renumber(steps: seq<WorkflowStep>): (r: seq<WorkflowStep>)
    ensures |r| == |steps|
    ensures DenselyNumbered(r)
    ensures forall i :: 0 <= i < |steps| ==>
      r[i].id == steps[i].id && r[i].stepType == steps[i].stepType
      && r[i].workflowId == steps[i].workflowId && r[i].config == steps[i].config
    ensures forall i :: 0 <= i < |steps| ==> r[i] == steps[i].(stepNumber := i + 1)
  {
    seq(|steps|, i requires 0 <= i < |steps| => steps[i].(stepNumber := i + 1))
  }

  /** `reorderWorkflowSteps`: the upsert is sent `Renumber(steps)`; the page
      keeps whatever rows the upsert returned, and the list it was given when
      the upsert failed or returned nothing (`data || steps`). When the
      returned rows echo the written ones, the result is the given steps, in
      their order, numbered 1..N. */
  function Reorder(steps: seq<WorkflowStep>, returned: Result<Option<seq<WorkflowStep>>, string>): (r: seq<WorkflowStep>)
    ensures returned.Ok? && returned.value.Some? ==> r == returned.value.value
    ensures returned.Err? || returned.value.None? ==> r == steps
    ensures returned.Ok? && returned.value.Some? && Echoes(returned.value.value, Renumber(steps)) ==>
      |r| == |steps| && DenselyNumbered(r)
      && forall i :: 0 <= i < |r| ==>
        r[i].id == steps[i].id && r[i].stepType == steps[i].stepType
        && r[i].workflowId == steps[i].workflowId && r[i].config == steps[i].config
  {
    match returned
    case Ok(Some(rows)) => rows
    case _ => steps
  }

  /** `steps.map(s => s.id === step.id ? step : s)`. */
  function ReplaceStep(steps: seq<WorkflowStep>, step: WorkflowStep): (r: seq<WorkflowStep>)
    ensures |r| == |steps|
    ensures forall k :: 0 <= k < |steps| && steps[k].id != step.id ==> r[k] == steps[k]
    ensures forall k :: 0 <= k < |steps| && steps[k].id == step.id ==> r[k] == step
  {
    MapWhere(steps, (s: WorkflowStep) => s.id == step.id, (s: WorkflowStep) => step)
  }

  /** `workflows.map(w => w.id === updated.id ? updated : w)`. */
  function ReplaceWorkflow(workflows: seq<Workflow>, updated: Workflow): (r: seq<Workflow>)
    ensures |r| == |workflows|
    ensures forall k :: 0 <= k < |workflows| && workflows[k].id != updated.id ==> r[k] == workflows[k]
    ensures forall k :: 0 <= k < |workflows| && workflows[k].id == updated.id ==> r[k] == updated
  {
    MapWhere(workflows, (w: Workflow) => w.id == updated.id, (w: Workflow) => updated)
  }

  /** For a list numbered 1..N the next number is N + 1, and appending the
      row stored for the new step keeps the list numbered 1..N+1 with the old
      steps unchanged. */
  lemma AppendKeepsDense(steps: seq<WorkflowStep>, workflowId: string, stepType: StepType, row: WorkflowStep)
    requires DenselyNumbered(steps)
    requires StoredAs(row, NewStep(workflowId, NextStepNumber(steps), stepType))
    ensures NextStepNumber(steps) == |steps| + 1
    ensures DenselyNumbered(steps + [row])
  {
    if |steps| > 0 {
      assert steps[|steps| - 1].stepNumber == |steps|;
      var k :| 0 <= k < |steps| && NextStepNumber(steps) == steps[k].stepNumber + 1;
      assert steps[k].stepNumber <= |steps|;
    }
  }

  /** Deleting one step of a list numbered 1..N, whose ids are distinct, and
      renumbering gives the other N-1 steps, in their old order, numbered
      1..N-1. */
  lemma DeleteRenumber(steps: seq<WorkflowStep>, k: nat)
    requires k < |steps|
    requires forall i, j :: 0 <= i < j < |steps| ==> steps[i].id != steps[j].id
    ensures var r := Renumber(RemoveStep(steps, steps[k].id));
      |r| == |steps| - 1 && DenselyNumbered(r)
      && forall i :: 0 <= i < |r| ==> r[i] == (steps[..k] + steps[k + 1..])[i].(stepNumber := i + 1)
  {
    var pre, post := steps[..k], steps[k + 1..];
    assert steps == pre + [steps[k]] + post;
    assert forall j :: 0 <= j < |pre| ==> pre[j].id != steps[k].id by {
      forall j | 0 <= j < |pre| ensures pre[j].id != steps[k].id { assert pre[j] == steps[j]; }
    }
    assert forall j :: 0 <= j < |post| ==> post[j].id != steps[k].id by {
      forall j | 0 <= j < |post| ensures post[j].id != steps[k].id { assert post[j] == steps[k + 1 + j]; }
    }
    FilterRemovesOne(pre, steps[k], post, (s: WorkflowStep) => s.id != steps[k].id);
  }

  /** What the page holds: the workflows, the selected one, its steps and
      the last error message. */
  class WorkflowsPage {
    var workflows: seq<Workflow>
    var selected: Option<Workflow>
    var steps: seq<WorkflowStep>
    var error: Option<string>
    var showForm: bool
    var showBuilder: bool

    constructor ()
      ensures workflows == [] && selected == None && steps == [] && error == None
      ensures !showForm && !showBuilder
    {
      workflows := [];
      selected := None;
      steps := [];
      error := None;
      showForm := false;
      showBuilder := false;
    }

    /** `fetchWorkflows`: the rows read (`data || []`), or the error message
        when the read failed. */
    method FetchWorkflows(loaded: Result<Option<seq<Workflow>>, string>)
      modifies this
      ensures loaded.Ok? ==> workflows == loaded.value.GetOr([]) && error == old(error)
      ensures loaded.Err? ==> workflows == old(workflows) && error == Some("Failed to fetch workflows")
      ensures selected == old(selected) && steps == old(steps)
      ensures showForm == old(showForm) && showBuilder == old(showBuilder)
    {
      if loaded.Ok? {
        workflows := loaded.value.GetOr([]);
      } else {
        error := Some("Failed to fetch workflows");
      }
    }

    /** `fetchWorkflowSteps`: the selected workflow's rows (`data || []`), or
        the error message when the read failed. */
    method FetchSteps(loaded: Result<Option<seq<WorkflowStep>>, string>)
      modifies this
      ensures loaded.Ok? ==> steps == loaded.value.GetOr([]) && error == old(error)
      ensures loaded.Err? ==> steps == old(steps) && error == Some("Failed to fetch workflow steps")
      ensures workflows == old(workflows) && selected == old(selected)
      ensures showForm == old(showForm) && showBuilder == old(showBuilder)
    {
      if loaded.Ok? {
        steps := loaded.value.GetOr([]);
      } else {
        error := Some("Failed to fetch workflow steps");
      }
    }

    /** The "Edit Workflow" button: select the workflow and open the builder.
        A selection that changes runs the effect that loads its steps. */
    method SelectWorkflow(w: Workflow, loaded: Result<Option<seq<WorkflowStep>>, string>)
      modifies this
      ensures selected == Some(w) && showBuilder
      ensures old(selected) != Some(w) && loaded.Ok? ==> steps == loaded.value.GetOr([]) && error == old(error)
      ensures old(selected) != Some(w) && loaded.Err? ==>
        steps == old(steps) && error == Some("Failed to fetch workflow steps")
      ensures old(selected) == Some(w) ==> steps == old(steps) && error == old(error)
      ensures workflows == old(workflows) && showForm == old(showForm)
    {
      var changed := selected != Some(w);
      selected := Some(w);
      showBuilder := true;
      if changed {
        FetchSteps(loaded);
      }
    }

    /** `handleCreateWorkflow`: the inserted workflow goes to the front of
        the list and becomes the selected one, whose steps are then loaded. */
    method CreateWorkflow(inserted: Result<Workflow, string>, loaded: Result<Option<seq<WorkflowStep>>, string>)
      modifies this
      ensures inserted.Ok? ==>
        (workflows == [inserted.value] + old(workflows) && selected == Some(inserted.value)
         && !showForm && showBuilder)
      ensures inserted.Ok? && old(selected) != Some(inserted.value) && loaded.Ok? ==>
        steps == loaded.value.GetOr([]) && error == old(error)
      ensures inserted.Ok? && old(selected) != Some(inserted.value) && loaded.Err? ==>
        steps == old(steps) && error == Some("Failed to fetch workflow steps")
      ensures inserted.Ok? && old(selected) == Some(inserted.value) ==> steps == old(steps) && error == old(error)
      ensures inserted.Err? ==>
        (error == Some("Failed to create workflow") && workflows == old(workflows) && steps == old(steps)
         && selected == old(selected) && showForm == old(showForm) && showBuilder == old(showBuilder))
    {
      if inserted.Ok? {
        workflows := [inserted.value] + workflows;
        showForm := false;
        var changed := selected != Some(inserted.value);
        selected := Some(inserted.value);
        showBuilder := true;
        if changed {
          FetchSteps(loaded);
        }
      } else {
        error := Some("Failed to create workflow");
      }
    }

    /** `handleUpdateWorkflow`: nothing without a selection; otherwise the
        row the database returned replaces the one with its id. */
    method UpdateWorkflow(updated: Result<Workflow, string>)
      modifies this
      ensures old(selected).None? ==>
        (workflows == old(workflows) && error == old(error) && showForm == old(showForm))
      ensures old(selected).Some? && updated.Ok? ==>
        (workflows == ReplaceWorkflow(old(workflows), updated.value) && !showForm && error == old(error))
      ensures old(selected).Some? && updated.Err? ==>
        (workflows == old(workflows) && error == Some("Failed to update workflow") && showForm == old(showForm))
      ensures selected == old(selected) && steps == old(steps) && showBuilder == old(showBuilder)
    {
      if selected.None? {
        return;
      }
      if updated.Ok? {
        workflows := ReplaceWorkflow(workflows, updated.value);
        showForm := false;
      } else {
        error := Some("Failed to update workflow");
      }
    }

    /** `handleAddStep`: read the workflow's stored steps, number the new
        step one past the highest, insert it and append the row the insert
        returned. `stored` is what the read returned, `inserted` what the
        insert returned; `sent` is the insert the page made, if it got that
        far. */
    method AddStep(stepType: StepType, stored: Result<seq<WorkflowStep>, string>, inserted: Result<WorkflowStep, string>)
      returns (sent: Option<StepInsert>)
      modifies this
      ensures old(selected).None? ==> sent == None && steps == old(steps) && error == old(error)
      ensures old(selected).Some? && stored.Err? ==>
        sent == None && steps == old(steps) && error == Some("Failed to add workflow step")
      ensures old(selected).Some? && stored.Ok? ==>
        sent == Some(NewStep(old(selected).value.id, NextStepNumber(stored.value), stepType))
      ensures old(selected).Some? && stored.Ok? && inserted.Ok? ==>
        steps == old(steps) + [inserted.value] && error == old(error)
      ensures old(selected).Some? && stored.Ok? && inserted.Err? ==>
        steps == old(steps) && error == Some("Failed to add workflow step")
      ensures workflows == old(workflows) && selected == old(selected)
      ensures showForm == old(showForm) && showBuilder == old(showBuilder)
    {
      sent := None;
      if selected.None? {
        return;
      }
      if stored.Err? {
        error := Some("Failed to add workflow step");
        return;
      }
      sent := Some(NewStep(selected.value.id, NextStepNumber(stored.value), stepType));
      if inserted.Err? {
        error := Some("Failed to add workflow step");
        return;
      }
      steps := steps + [inserted.value];
    }

    /** `handleUpdateStep`: the row the database returned replaces the step
        with its id. */
    method UpdateStep(updated: Result<WorkflowStep, string>)
      modifies this
      ensures updated.Ok? ==> steps == ReplaceStep(old(steps), updated.value) && error == old(error)
      ensures updated.Err? ==> steps == old(steps) && error == Some("Failed to update workflow step")
      ensures workflows == old(workflows) && selected == old(selected)
      ensures showForm == old(showForm) && showBuilder == old(showBuilder)
    {
      if updated.Ok? {
        steps := ReplaceStep(steps, updated.value);
      } else {
        error := Some("Failed to update workflow step");
      }
    }

    /** `handleDeleteStep`: after the delete went through, drop the step and
        keep what the renumbering upsert returned (`returned`), or the
        remaining steps when it failed. */
    method DeleteStep(stepId: string, deleteOk: bool, returned: Result<Option<seq<WorkflowStep>>, string>)
      modifies this
      ensures deleteOk ==> steps == Reorder(RemoveStep(old(steps), stepId), returned) && error == old(error)
      ensures !deleteOk ==> steps == old(steps) && error == Some("Failed to delete workflow step")
      ensures workflows == old(workflows) && selected == old(selected)
      ensures showForm == old(showForm) && showBuilder == old(showBuilder)
    {
      if !deleteOk {
        error := Some("Failed to delete workflow step");
        return;
      }
      var remaining := RemoveStep(steps, stepId);
      steps := Reorder(remaining, returned);
    }
  }
}
