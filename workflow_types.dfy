/** The workflow data model: statuses, step kinds, field types, operators,
    condition trees, steps, workflows, catalog entries and execution records,
    together with the strings that name each enumerated value in stored rows
    and the JSON form a condition tree takes inside a step's configuration. */
module WorkflowTypes {
  import opened Outcomes

  datatype WorkflowStatus = Active | Inactive | Draft
  datatype ExecutionStatus = Pending | Running | Completed | Failed
  datatype StepType = Trigger | Action | Condition
  datatype FieldType =
    | StringField | NumberField | BooleanField | DateField | TimeField | SelectField
    | MultiselectField | UserField | SchoolField | ContactField | InterventionField | FileField
  datatype ComparisonOperator =
    | Equals | NotEquals | GreaterThan | LessThan | Contains | NotContains
    | StartsWith | EndsWith | IsEmpty | IsNotEmpty | In | NotIn
  datatype LogicalOperator = And | Or
  datatype VariableScope = WorkflowScope | StepScope

  /** A dynamically typed value (`any` in the source): what configs,
      condition values and variables hold. Numbers are integers here. */
  datatype Json =
    | JNull
    | JBool(b: bool)
    | JNum(n: int)
    | JStr(s: string)
    | JArr(items: seq<Json>)
    | JObj(fields: map<string, Json>)

  /** JavaScript truthiness: `null`, `false`, `0` and `''` are falsy, every
      object and array is truthy. */
  predicate Truthy(v: Json) {
    match v
    case JNull => false
    case JBool(b) => b
    case JNum(n) => n != 0
    case JStr(s) => s != ""
    case JArr(_) => true
    case JObj(_) => true
  }

  datatype FieldOption = FieldOption(labelText: string, value: Json)

  datatype Validation = Validation(
    min: Option<int>,
    max: Option<int>,
    pattern: Option<string>,
    customValidation: Option<string>)

  datatype FieldDefinition = FieldDefinition(
    fieldType: FieldType,
    labelText: string,
    required: Option<bool>,
    description: Option<string>,
    defaultValue: Option<Json>,
    options: Option<seq<FieldOption>>,
    validation: Option<Validation>)

  /** A condition tree. In the stored form both kinds of node carry an
      `operator` key (a comparison for a leaf, `and`/`or` for a group); only a
      group has `conditions` and only a leaf has `field` and `value`. */
  datatype ConditionNode =
    | Leaf(field: string, op: ComparisonOperator, value: Json)
    | Group(logic: LogicalOperator, conditions: seq<ConditionNode>)

  datatype WorkflowVariable = WorkflowVariable(
    name: string,
    varType: FieldType,
    value: Json,
    scope: VariableScope)

  datatype RetryPolicy = RetryPolicy(enabled: bool, maxAttempts: int, delay: int)

  datatype NotificationPolicy = NotificationPolicy(enabled: bool, recipients: seq<string>)

  datatype ErrorHandling = ErrorHandling(
    retry: RetryPolicy,
    fallbackAction: Option<string>,
    notification: Option<NotificationPolicy>)

  datatype Workflow = Workflow(
    id: string,
    name: string,
    description: Option<string>,
    status: WorkflowStatus,
    createdBy: string,
    createdAt: string,
    updatedAt: string,
    variables: seq<WorkflowVariable>,
    errorHandling: ErrorHandling)

  /** The JSON-schema-like description a trigger or action publishes for the
      configuration its steps carry. */
  datatype ConfigSchema = ConfigSchema(
    schemaType: string,
    properties: map<string, FieldDefinition>,
    required: Option<seq<string>>)

  datatype ScheduleKind = Interval | Cron | OneTime
  datatype Scheduling = Scheduling(kind: ScheduleKind, value: string, timezone: Option<string>)

  datatype WorkflowTrigger = WorkflowTrigger(
    id: string,
    name: string,
    description: Option<string>,
    eventType: string,
    schema: ConfigSchema,
    fields: Option<map<string, FieldDefinition>>,
    conditions: Option<ConditionNode>,
    scheduling: Option<Scheduling>,
    createdAt: string)

  datatype Transformations = Transformations(
    input: Option<map<string, string>>,
    output: Option<map<string, string>>)

  datatype WorkflowAction = WorkflowAction(
    id: string,
    name: string,
    description: Option<string>,
    actionType: string,
    schema: ConfigSchema,
    fields: Option<map<string, FieldDefinition>>,
    transformations: Option<Transformations>,
    retryConfig: Option<(int, int)>,
    createdAt: string)

  /** A stored step. Its `config` is the free-form record the editors write:
      `triggerId`, `actionId`, `conditions`, `variables`, `config`,
      `error_handling`, `timeout` and `parallel_execution` are its known keys. */
  datatype WorkflowStep = WorkflowStep(
    id: string,
    workflowId: string,
    stepNumber: int,
    stepType: StepType,
    name: Option<string>,
    description: Option<string>,
    config: map<string, Json>,
    nextStepId: Option<string>,
    createdAt: string,
    updatedAt: string)

  datatype StepResult = StepResult(
    stepId: string,
    status: ExecutionStatus,
    startedAt: string,
    completedAt: Option<string>,
    result: Option<Json>,
    error: Option<string>)

  datatype WorkflowExecution = WorkflowExecution(
    id: string,
    workflowId: string,
    status: ExecutionStatus,
    startedAt: string,
    completedAt: Option<string>,
    result: Option<map<string, Json>>,
    error: Option<string>,
    createdBy: string,
    stepResults: seq<StepResult>,
    variables: map<string, Json>)

  // ---- the strings that name enumerated values in stored rows ----

  function WorkflowStatusName(s: WorkflowStatus): string {
    match s
    case Active => "active"
    case Inactive => "inactive"
    case Draft => "draft"
  }

  function ParseWorkflowStatus(s: string): (r: Option<WorkflowStatus>)
    ensures r.Some? ==> WorkflowStatusName(r.value) == s
    ensures r.None? ==> forall w :: WorkflowStatusName(w) != s
  {
    if s == "active" then Some(Active)
    else if s == "inactive" then Some(Inactive)
    else if s == "draft" then Some(Draft)
    else None
  }

  function ExecutionStatusName(s: ExecutionStatus): string {
    match s
    case Pending => "pending"
    case Running => "running"
    case Completed => "completed"
    case Failed => "failed"
  }

  function ParseExecutionStatus(s: string): (r: Option<ExecutionStatus>)
    ensures r.Some? ==> ExecutionStatusName(r.value) == s
    ensures r.None? ==> forall e :: ExecutionStatusName(e) != s
  {
    if s == "pending" then Some(Pending)
    else if s == "running" then Some(Running)
    else if s == "completed" then Some(Completed)
    else if s == "failed" then Some(Failed)
    else None
  }

  function StepTypeName(t: StepType): string {
    match t
    case Trigger => "trigger"
    case Action => "action"
    case Condition => "condition"
  }

  function ParseStepType(s: string): (r: Option<StepType>)
    ensures r.Some? ==> StepTypeName(r.value) == s
    ensures r.None? ==> forall t :: StepTypeName(t) != s
  {
    if s == "trigger" then Some(Trigger)
    else if s == "action" then Some(Action)
    else if s == "condition" then Some(Condition)
    else None
  }

  function FieldTypeName(t: FieldType): string {
    match t
    case StringField => "string"
    case NumberField => "number"
    case BooleanField => "boolean"
    case DateField => "date"
    case TimeField => "time"
    case SelectField => "select"
    case MultiselectField => "multiselect"
    case UserField => "user"
    case SchoolField => "school"
    case ContactField => "contact"
    case InterventionField => "intervention"
    case FileField => "file"
  }

  const AllFieldTypes: seq<FieldType> :=
    [StringField, NumberField, BooleanField, DateField, TimeField, SelectField,
     MultiselectField, UserField, SchoolField, ContactField, InterventionField, FileField]

  function ParseFieldType(s: string): (r: Option<FieldType>)
    ensures r.Some? ==> FieldTypeName(r.value) == s
    ensures r.None? ==> forall t :: FieldTypeName(t) != s
  {
    if s == "string" then Some(StringField)
    else if s == "number" then Some(NumberField)
    else if s == "boolean" then Some(BooleanField)
    else if s == "date" then Some(DateField)
    else if s == "time" then Some(TimeField)
    else if s == "select" then Some(SelectField)
    else if s == "multiselect" then Some(MultiselectField)
    else if s == "user" then Some(UserField)
    else if s == "school" then Some(SchoolField)
    else if s == "contact" then Some(ContactField)
    else if s == "intervention" then Some(InterventionField)
    else if s == "file" then Some(FileField)
    else None
  }

  function ComparisonOperatorName(op: ComparisonOperator): string {
    match op
    case Equals => "equals"
    case NotEquals => "not_equals"
    case GreaterThan => "greater_than"
    case LessThan => "less_than"
    case Contains => "contains"
    case NotContains => "not_contains"
    case StartsWith => "starts_with"
    case EndsWith => "ends_with"
    case IsEmpty => "is_empty"
    case IsNotEmpty => "is_not_empty"
    case In => "in"
    case NotIn => "not_in"
  }

  const AllComparisonOperators: seq<ComparisonOperator> :=
    [Equals, NotEquals, GreaterThan, LessThan, Contains, NotContains,
     StartsWith, EndsWith, IsEmpty, IsNotEmpty, In, NotIn]

  function ParseComparisonOperator(s: string): (r: Option<ComparisonOperator>)
    ensures r.Some? ==> ComparisonOperatorName(r.value) == s
    ensures r.None? ==> forall op :: ComparisonOperatorName(op) != s
  {
    if s == "equals" then Some(Equals)
    else if s == "not_equals" then Some(NotEquals)
    else if s == "greater_than" then Some(GreaterThan)
    else if s == "less_than" then Some(LessThan)
    else if s == "contains" then Some(Contains)
    else if s == "not_contains" then Some(NotContains)
    else if s == "starts_with" then Some(StartsWith)
    else if s == "ends_with" then Some(EndsWith)
    else if s == "is_empty" then Some(IsEmpty)
    else if s == "is_not_empty" then Some(IsNotEmpty)
    else if s == "in" then Some(In)
    else if s == "not_in" then Some(NotIn)
    else None
  }

  function LogicalOperatorName(op: LogicalOperator): string {
    match op
    case And => "and"
    case Or => "or"
  }

  function ParseLogicalOperator(s: string): (r: Option<LogicalOperator>)
    ensures r.Some? ==> LogicalOperatorName(r.value) == s
    ensures r.None? ==> forall op :: LogicalOperatorName(op) != s
  {
    if s == "and" then Some(And) else if s == "or" then Some(Or) else None
  }

  function VariableScopeName(v: VariableScope): string {
    match v
    case WorkflowScope => "workflow"
    case StepScope => "step"
  }

  function ParseVariableScope(s: string): (r: Option<VariableScope>)
    ensures r.Some? ==> VariableScopeName(r.value) == s
    ensures r.None? ==> forall v :: VariableScopeName(v) != s
  {
    if s == "workflow" then Some(WorkflowScope) else if s == "step" then Some(StepScope) else None
  }

  /** Distinct field types have distinct stored names. */
  lemma FieldTypeNameInjective(a: FieldType, b: FieldType)
    ensures FieldTypeName(a) == FieldTypeName(b) ==> a == b
  {
  }

  /** Distinct operators have distinct stored names. */
  lemma ComparisonOperatorNameInjective(a: ComparisonOperator, b: ComparisonOperator)
    ensures ComparisonOperatorName(a) == ComparisonOperatorName(b) ==> a == b
  {
  }

  /** Every operator survives a trip through its stored name. */
  lemma ParseComparisonOperatorName(op: ComparisonOperator)
    ensures ParseComparisonOperator(ComparisonOperatorName(op)) == Some(op)
  {
    var r := ParseComparisonOperator(ComparisonOperatorName(op));
    ComparisonOperatorNameInjective(r.value, op);
  }

  // ---- the stored (JSON) form of a condition tree ----

  function EncodeNode(n: ConditionNode): (j: Json)
    ensures j.JObj? && "operator" in j.fields
    decreases n, 1
  {
    match n
    case Leaf(f, op, v) =>
      JObj(map["field" := JStr(f), "operator" := JStr(ComparisonOperatorName(op)), "value" := v])
    case Group(logic, cs) =>
      JObj(map["operator" := JStr(LogicalOperatorName(logic)), "conditions" := JArr(EncodeList(cs))])
  }

  function EncodeList(cs: seq<ConditionNode>): (js: seq<Json>)
    ensures |js| == |cs|
    decreases cs, 0
  {
    if |cs| == 0 then [] else [EncodeNode(cs[0])] + EncodeList(cs[1..])
  }

  /** Which stored objects are groups: the ones with a `conditions` key. */
  predicate IsGroupObject(j: Json) {
    j.JObj? && "conditions" in j.fields
  }

  /** Reads a condition tree back from its stored form; `None` for anything
      that is not a well-formed tree. */
  function DecodeNode(j: Json): Option<ConditionNode>
    decreases j
  {
    if !j.JObj? then None
    else if IsGroupObject(j) then
      var f := j.fields;
      if "operator" in f && f["operator"].JStr? && f["conditions"].JArr? then
        match (ParseLogicalOperator(f["operator"].s), DecodeList(f["conditions"].items))
        case (Some(logic), Some(cs)) => Some(Group(logic, cs))
        case _ => None
      else None
    else
      var f := j.fields;
      if "field" in f && f["field"].JStr? && "operator" in f && f["operator"].JStr? && "value" in f then
        match ParseComparisonOperator(f["operator"].s)
        case Some(op) => Some(Leaf(f["field"].s, op, f["value"]))
        case None => None
      else None
  }

  function DecodeList(js: seq<Json>): Option<seq<ConditionNode>>
    decreases js
  {
    if |js| == 0 then Some([])
    else
      match (DecodeNode(js[0]), DecodeList(js[1..]))
      case (Some(n), Some(ns)) => Some([n] + ns)
      case _ => None
  }

  /** Storing a condition tree and reading it back gives the same tree, at
      every depth. */
  lemma {:induction false} DecodeEncodeNode(n: ConditionNode)
    ensures DecodeNode(EncodeNode(n)) == Some(n)
    decreases n, 1
  {
    match n
    case Leaf(f, op, v) =>
      ParseComparisonOperatorName(op);
    case Group(logic, cs) =>
      DecodeEncodeList(cs);
  }

  lemma {:induction false} DecodeEncodeList(cs: seq<ConditionNode>)
    ensures DecodeList(EncodeList(cs)) == Some(cs)
    decreases cs, 0
  {
    if |cs| > 0 {
      DecodeEncodeNode(cs[0]);
      DecodeEncodeList(cs[1..]);
      var js := EncodeList(cs);
      assert js[0] == EncodeNode(cs[0]) && js[1..] == EncodeList(cs[1..]);
      assert cs == [cs[0]] + cs[1..];
    }
  }
}
