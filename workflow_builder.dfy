/** The workflow builder: the timeline of steps, the trigger and action
    pickers with their search, the selected step and the configuration
    panel, and how an edit in the panel becomes a step update. */
module WorkflowBuilder {
  import opened Outcomes
  import opened Text
  import opened Seqs
  import opened WorkflowTypes
  import opened ConfigPaths

  /** The picker's search test: the name contains the term, or there is a
      description and it contains the term, both ignoring case. */
  predicate MatchesSearch(name: string, description: Option<string>, term: string) {
    ContainsIgnoreCase(name, term) || (description.Some? && ContainsIgnoreCase(description.value, term))
  }

  /** `filteredTriggers`. */
  function FilterTriggers(triggers: seq<WorkflowTrigger>, term: string): (r: seq<WorkflowTrigger>)
    ensures forall t :: t in r <==> t in triggers && MatchesSearch(t.name, t.description, term)
    ensures IsSubsequence(r, triggers)
  {
    var keep := (t: WorkflowTrigger) => MatchesSearch(t.name, t.description, term);
    FilterMembers(triggers, keep);
    FilterIsSubsequence(triggers, keep);
    Filter(triggers, keep)
  }

  /** `filteredActions`. */
  function FilterActions(actions: seq<WorkflowAction>, term: string): (r: seq<WorkflowAction>)
    ensures forall a :: a in r <==> a in actions && MatchesSearch(a.name, a.description, term)
    ensures IsSubsequence(r, actions)
  {
    var keep := (a: WorkflowAction) => MatchesSearch(a.name, a.description, term);
    FilterMembers(actions, keep);
    FilterIsSubsequence(actions, keep);
    Filter(actions, keep)
  }

  /** An empty search lists every trigger and every action. */
  lemma {:induction false} EmptySearchKeepsAll(triggers: seq<WorkflowTrigger>, actions: seq<WorkflowAction>)
    ensures FilterTriggers(triggers, "") == triggers
    ensures FilterActions(actions, "") == actions
  {
    forall k | 0 <= k < |triggers| ensures MatchesSearch(triggers[k].name, triggers[k].description, "") {
      ContainsIgnoreCaseEmpty(triggers[k].name);
    }
    FilterAll(triggers, (t: WorkflowTrigger) => MatchesSearch(t.name, t.description, ""));
    forall k | 0 <= k < |actions| ensures MatchesSearch(actions[k].name, actions[k].description, "") {
      ContainsIgnoreCaseEmpty(actions[k].name);
    }
    FilterAll(actions, (a: WorkflowAction) => MatchesSearch(a.name, a.description, ""));
  }

  /** `steps.find(step => step.id === id)`: the first step with that id. */
  function FindStep(steps: seq<WorkflowStep>, id: string): (r: Option<WorkflowStep>)
    ensures r.Some? ==> r.value in steps && r.value.id == id
    ensures r.None? <==> forall k :: 0 <= k < |steps| ==> steps[k].id != id
    ensures r.Some? ==>
      exists k :: 0 <= k < |steps| && steps[k] == r.value && forall j :: 0 <= j < k ==> steps[j].id != id
    decreases |steps|
  {
    if |steps| == 0 then None
    else if steps[0].id == id then Some(steps[0])
    else
      var r := FindStep(steps[1..], id);
      assert forall k :: 1 <= k < |steps| ==> steps[k] == steps[1..][k - 1];
      r
  }

  /** The step the panel shows, if the selection names one. */
  function SelectedStep(steps: seq<WorkflowStep>, selectedId: Option<string>): Option<WorkflowStep> {
    if selectedId.Some? then FindStep(steps, selectedId.value) else None
  }

  /** The catalog entry a step's config points at under `key`: only when
      that key holds a truthy value, compared strictly with the entry ids. */
  predicate RefersTo(step: WorkflowStep, key: string, id: string) {
    key in step.config && Truthy(step.config[key]) && step.config[key] == JStr(id)
  }

  /** `selectedTrigger`: looked up only for a trigger step with a
      `triggerId`. */
  function SelectedTrigger(step: Option<WorkflowStep>, triggers: seq<WorkflowTrigger>): (r: Option<WorkflowTrigger>)
    ensures r.Some? ==>
      (step.Some? && step.value.stepType == Trigger && r.value in triggers && RefersTo(step.value, "triggerId", r.value.id))
    ensures (step.Some? && step.value.stepType == Trigger
      && exists t :: t in triggers && RefersTo(step.value, "triggerId", t.id)) ==> r.Some?
    decreases |triggers|
  {
    if step.None? || step.value.stepType != Trigger || |triggers| == 0 then None
    else if RefersTo(step.value, "triggerId", triggers[0].id) then Some(triggers[0])
    else
      var r := SelectedTrigger(step, triggers[1..]);
      assert forall t :: t in triggers && t != triggers[0] ==> t in triggers[1..];
      r
  }

  /** `selectedAction`: looked up only for an action step with an
      `actionId`. */
  function SelectedAction(step: Option<WorkflowStep>, actions: seq<WorkflowAction>): (r: Option<WorkflowAction>)
    ensures r.Some? ==>
      (step.Some? && step.value.stepType == Action && r.value in actions && RefersTo(step.value, "actionId", r.value.id))
    ensures (step.Some? && step.value.stepType == Action
      && exists a :: a in actions && RefersTo(step.value, "actionId", a.id)) ==> r.Some?
    decreases |actions|
  {
    if step.None? || step.value.stepType != Action || |actions| == 0 then None
    else if RefersTo(step.value, "actionId", actions[0].id) then Some(actions[0])
    else
      var r := SelectedAction(step, actions[1..]);
      assert forall a :: a in actions && a != actions[0] ==> a in actions[1..];
      r
  }

  /** The config a picked trigger or action writes to its step: the id under
      `triggerId` or `actionId` and an empty nested `config`. */
  function PickConfig(kind: StepType, id: string): (r: Config)
    requires kind != Condition
    ensures r.Keys == {if kind == Trigger then "triggerId" else "actionId", "config"}
    ensures r["config"] == JObj(map[])
    ensures kind == Trigger ==> r["triggerId"] == JStr(id)
    ensures kind == Action ==> r["actionId"] == JStr(id)
  {
    var key := if kind == Trigger then "triggerId" else "actionId";
    map[key := JStr(id), "config" := JObj(map[])]
  }

  /** What the configuration form is given for the selected step: the nested
      `config` (or `{}`) for a trigger or action, the whole config for a
      condition. */
  function FormConfig(step: WorkflowStep): Config {
    if step.stepType == Condition then step.config
    else if "config" in step.config && step.config["config"].JObj? then step.config["config"].fields
    else map[]
  }

  /** `handleConfigChange`, as written: with a (non-empty) selected id, ask
      to store the selected step's config with its `config` key replaced by
      the form's output; without one, ask nothing. */
  function ConfigChange(selectedId: Option<string>, selected: Option<WorkflowStep>, formConfig: Config): (r: Option<(string, Config)>)
    ensures r.None? <==> selectedId.None? || selectedId.value == ""
    ensures r.Some? ==> r.value.0 == selectedId.value
    ensures r.Some? ==> "config" in r.value.1 && r.value.1["config"] == JObj(formConfig)
    ensures r.Some? && selected.Some? ==>
      (r.value.1.Keys == selected.value.config.Keys + {"config"}
       && forall k :: k in selected.value.config && k != "config" ==> r.value.1[k] == selected.value.config[k])
    ensures r.Some? && selected.None? ==> r.value.1 == map["config" := JObj(formConfig)]
  {
    if selectedId.None? || selectedId.value == "" then None
    else
      var base := if selected.Some? then selected.value.config else map[];
      Some((selectedId.value, base["config" := JObj(formConfig)]))
  }

  /** A config change never disturbs the picked trigger or action. */
  lemma ConfigChangeKeepsPick(selectedId: Option<string>, step: WorkflowStep, formConfig: Config, key: string)
    requires key == "triggerId" || key == "actionId"
    requires key in step.config && ConfigChange(selectedId, Some(step), formConfig).Some?
    ensures key in ConfigChange(selectedId, Some(step), formConfig).value.1
    ensures ConfigChange(selectedId, Some(step), formConfig).value.1[key] == step.config[key]
  {
  }

  /** For a trigger or action step, what the form shows after its own edit
      is stored is exactly what the form produced. */
  lemma ConfigChangeRoundTrip(id: string, step: WorkflowStep, formConfig: Config)
    requires id != "" && step.stepType != Condition
    ensures FormConfig(step.(config := ConfigChange(Some(id), Some(step), formConfig).value.1)) == formConfig
  {
  }

  /** A condition step's form edits the whole config, but the edit is stored
      under the nested `config` key: the key the form reads, `conditions`,
      keeps its old value (or stays absent) whatever group was written. */
  lemma ConditionEditLost(id: string, step: WorkflowStep, group: Json)
    requires id != "" && step.stepType == Condition
    ensures var written := SetPath(FormConfig(step), ["conditions"], group).value;
      var stored := ConfigChange(Some(id), Some(step), written).value.1;
      ("conditions" in FormConfig(step.(config := stored)) <==> "conditions" in step.config)
      && ("conditions" in step.config ==> FormConfig(step.(config := stored))["conditions"] == step.config["conditions"])
  {
  }

  /** The update that stores what the form edited: a condition step's form
      output replaces its config outright; a trigger or action step's form
      output replaces its nested `config`. */
  function StoredConfigChange(selectedId: Option<string>, selected: Option<WorkflowStep>, formConfig: Config): (r: Option<(string, Config)>)
    ensures r.None? <==> selectedId.None? || selectedId.value == ""
    ensures r.Some? ==> r.value.0 == selectedId.value
    ensures r.Some? && selected.Some? && selected.value.stepType == Condition ==> r.value.1 == formConfig
    ensures r.Some? && !(selected.Some? && selected.value.stepType == Condition) ==>
      r == ConfigChange(selectedId, selected, formConfig)
  {
    if selected.Some? && selected.value.stepType == Condition && selectedId.Some? && selectedId.value != "" then
      Some((selectedId.value, formConfig))
    else ConfigChange(selectedId, selected, formConfig)
  }

  /** With the stored change, every step's form shows its own last edit,
      condition steps included: a condition group written at `conditions`
      reads back. */
  lemma StoredConfigChangeRoundTrip(id: string, step: WorkflowStep, formConfig: Config, group: Json)
    requires id != ""
    ensures FormConfig(step.(config := StoredConfigChange(Some(id), Some(step), formConfig).value.1)) == formConfig
    ensures step.stepType == Condition ==>
      var written := SetPath(FormConfig(step), ["conditions"], group).value;
      var stored := StoredConfigChange(Some(id), Some(step), written).value.1;
      GetPath(FormConfig(step.(config := stored)), ["conditions"]) == Some(group)
  {
  }

  /** The builder's own state: the selected step and the two picker
      drop-downs with their shared search term. */
  class Builder {
    var selectedStepId: Option<string>
    var showTriggerOptions: bool
    var showActionOptions: bool
    var searchTerm: string

    constructor ()
      ensures selectedStepId == None && !showTriggerOptions && !showActionOptions && searchTerm == ""
    {
      selectedStepId := None;
      showTriggerOptions := false;
      showActionOptions := false;
      searchTerm := "";
    }

    /** Clicking a step in the timeline selects it. */
    method SelectStep(id: string)
      modifies this
      ensures selectedStepId == Some(id)
      ensures showTriggerOptions == old(showTriggerOptions) && showActionOptions == old(showActionOptions)
      ensures searchTerm == old(searchTerm)
    {
      selectedStepId := Some(id);
    }

    /** The delete button: the step goes to the page's delete handler, and
        the selection is cleared only when it was that step. */
    method DeleteStep(id: string) returns (deleteRequest: string)
      modifies this
      ensures deleteRequest == id
      ensures old(selectedStepId) == Some(id) ==> selectedStepId == None
      ensures old(selectedStepId) != Some(id) ==> selectedStepId == old(selectedStepId)
      ensures showTriggerOptions == old(showTriggerOptions) && showActionOptions == old(showActionOptions)
      ensures searchTerm == old(searchTerm)
    {
      deleteRequest := id;
      if selectedStepId == Some(id) {
        selectedStepId := None;
      }
    }

    /** "Add Trigger" toggles its drop-down and closes the other. */
    method ToggleTriggerOptions()
      modifies this
      ensures showTriggerOptions == !old(showTriggerOptions) && !showActionOptions
      ensures selectedStepId == old(selectedStepId) && searchTerm == old(searchTerm)
    {
      showTriggerOptions := !showTriggerOptions;
      showActionOptions := false;
    }

    /** "Add Action" toggles its drop-down and closes the other. */
    method ToggleActionOptions()
      modifies this
      ensures showActionOptions == !old(showActionOptions) && !showTriggerOptions
      ensures selectedStepId == old(selectedStepId) && searchTerm == old(searchTerm)
    {
      showActionOptions := !showActionOptions;
      showTriggerOptions := false;
    }

    method SetSearchTerm(term: string)
      modifies this
      ensures searchTerm == term
      ensures selectedStepId == old(selectedStepId)
      ensures showTriggerOptions == old(showTriggerOptions) && showActionOptions == old(showActionOptions)
    {
      searchTerm := term;
    }

    /** Picking a trigger or action from a drop-down: a new step of that kind
        is requested, the config to write to it is returned, and the
        drop-down closes. */
    method Pick(kind: StepType, id: string) returns (addRequest: StepType, config: Config)
      requires kind != Condition
      modifies this
      ensures addRequest == kind && config == PickConfig(kind, id)
      ensures kind == Trigger ==> !showTriggerOptions && showActionOptions == old(showActionOptions)
      ensures kind == Action ==> !showActionOptions && showTriggerOptions == old(showTriggerOptions)
      ensures selectedStepId == old(selectedStepId) && searchTerm == old(searchTerm)
    {
      addRequest := kind;
      config := PickConfig(kind, id);
      if kind == Trigger {
        showTriggerOptions := false;
      } else {
        showActionOptions := false;
      }
    }

    /** The filtered drop-down lists under the current search term. */
    function VisibleTriggers(triggers: seq<WorkflowTrigger>): (r: seq<WorkflowTrigger>)
      reads this
      ensures forall t :: t in r <==> t in triggers && MatchesSearch(t.name, t.description, searchTerm)
    {
      FilterTriggers(triggers, searchTerm)
    }

    function VisibleActions(actions: seq<WorkflowAction>): (r: seq<WorkflowAction>)
      reads this
      ensures forall a :: a in r <==> a in actions && MatchesSearch(a.name, a.description, searchTerm)
    {
      FilterActions(actions, searchTerm)
    }

    /** The update a form edit sends for the selected step, as written. */
    function ConfigUpdate(steps: seq<WorkflowStep>, formConfig: Config): (r: Option<(string, Config)>)
      reads this
      ensures r.None? <==> selectedStepId.None? || selectedStepId.value == ""
      ensures r.Some? ==> r.value.0 == selectedStepId.value && "config" in r.value.1 && r.value.1["config"] == JObj(formConfig)
    {
      ConfigChange(selectedStepId, SelectedStep(steps, selectedStepId), formConfig)
    }
  }
}
