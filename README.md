# School administration front end: the in-memory logic, modelled in Dafny

This project models the deterministic part of a React/Supabase administration front end for a
group of schools. Around every database call, each page or form computes something in memory.

- **Workflows.** The core is an ordered list of workflow steps. A new step takes the next step
  number. Deleting a step renumbers the rest densely from 1. An update replaces the step with the
  same id.
- **Step configuration.** Settings are written into a nested configuration object along a dotted
  path. Conditions form a tree of condition groups.
- **Workflow builder.** The builder searches triggers and actions, and merges configuration edits
  into the selected step.
- **Other pages.** The model also covers:
  - the list pages (schools, interventions, contacts, templates, categories, documents,
    applications, users, audit log, approvals, version history), with their search filters, sort
    toggles and pagination;
  - the template editor's field and option lists;
  - the application and document forms;
  - notification read state and notification settings;
  - the version-restore numbering and the status labels and colour maps.

Each database call becomes a parameter. The model receives the rows read and a flag or `Result`
saying whether a write succeeded, and states what the page keeps in memory afterwards.

Modules follow the source files:

- `WorkflowTypes`: the workflow type declarations, plus a JSON encoding of condition trees.
- `WorkflowSteps`: the workflows page.
- `ConditionEditor` and `ConfigPaths`: the step configuration form.
- `WorkflowBuilder`: the builder.
- One module per remaining page or form.
- Shared helpers:
  - `Outcomes`: `Option` and `Result`.
  - `Text`: lower-casing, substring search, `split`/`join`, capitalisation, trimming, and
    lexicographic order by character (Unicode scalar value).
  - `Seqs`: filter and update-by-position.
  - `Sorting`: the sort toggle and a stable sort by key.
  - `Display`: template-literal rendering of missing values and the first-count fallback.

State that a page updates in place is a `class`. This covers the workflows page, the builder, the
schools, templates, categories and approvals pages, and the notification inbox. Its methods
reassign the fields and state the new state in terms of the pure functions. The pure updaters
(`d => ({...d, ...})`, `map`, `filter`) are functions with lemmas about them.

JavaScript behaviours are written out explicitly:

- truthiness of `x || default`;
- the strings `"undefined"` and `"null"` that a template literal prints for missing values;
- `includes("")` being true;
- `split`/`join`;
- `charAt(0)` of an empty string;
- `Array.prototype.slice` with out-of-range bounds;
- `Math.ceil` on a page count.

## Model

| member | source | states |
|---|---|---|
| WorkflowTypes.ParseWorkflowStatus | src/types/workflow.ts:1 | a stored status string is accepted exactly when it is the name of one of active/inactive/draft |
| WorkflowTypes.ParseExecutionStatus | src/types/workflow.ts:2 | accepted exactly for pending/running/completed/failed, the set shared by executions and per-step results |
| WorkflowTypes.ParseStepType | src/types/workflow.ts:3 | a step type is exactly one of trigger/action/condition |
| WorkflowTypes.ParseFieldType | src/types/workflow.ts:4 | accepted exactly for the twelve field type names |
| WorkflowTypes.ParseComparisonOperator | src/types/workflow.ts:5 | accepted exactly for the twelve comparison operator names |
| WorkflowTypes.ParseLogicalOperator | src/types/workflow.ts:6 | accepted exactly for `and` and `or` |
| WorkflowTypes.ParseVariableScope | src/types/workflow.ts:34-39 | a variable scope is exactly `workflow` or `step` |
| WorkflowTypes.FieldTypeNameInjective | src/types/workflow.ts:4 | distinct field types have distinct names |
| WorkflowTypes.ComparisonOperatorNameInjective | src/types/workflow.ts:5 | distinct comparison operators have distinct names |
| WorkflowTypes.ParseComparisonOperatorName | src/types/workflow.ts:5 | every operator is recovered from its name |
| WorkflowTypes.EncodeNode | src/types/workflow.ts:23-32 | leaves and groups are both objects with an `operator` key |
| WorkflowTypes.EncodeList | src/types/workflow.ts:31 | a group's children encode one object per child |
| WorkflowTypes.DecodeNode | src/types/workflow.ts:23-32 | a stored object with `conditions` reads as a group, one with `field`, `operator` and `value` as a leaf, anything else as nothing |
| WorkflowTypes.DecodeList | src/types/workflow.ts:31 | a child list reads back only when every child does, in order |
| WorkflowTypes.Truthy | src/components/workflow/StepConfigurationForm.tsx:329-331 | JavaScript truthiness: `null`, `false`, `0` and `""` are falsy, every object and array truthy |
| WorkflowTypes.DecodeEncodeNode | src/types/workflow.ts:23-32 | decoding an encoded condition tree of any depth gives back the tree (leaf: field, operator, value; group: operator and ordered children) |
| WorkflowTypes.DecodeEncodeList | src/types/workflow.ts:31 | decoding an encoded child list gives back the list, in order |
| WorkflowSteps.MaxStepNumber | src/pages/Workflows.tsx:173-175 | the largest step number is at least every step's number and is the number of some step |
| WorkflowSteps.DenselyNumbered | src/components/workflow/WorkflowBuilder.tsx:145 | the steps are numbered 1..N in list order, so the number stored with each step is the position the builder shows (`index + 1`) |
| WorkflowSteps.NextStepNumber | src/pages/Workflows.tsx:173-175 | 1 for a workflow with no steps; otherwise above every existing number and equal to one of them plus 1 |
| WorkflowSteps.NewStep | src/pages/Workflows.tsx:177-182 | the insert for a new step sends the requested type, the workflow's id, the computed number and an empty config |
| WorkflowSteps.StoredAs | src/pages/Workflows.tsx:184-191 | a row read back after an insert carries the workflow id, number, type and config that were sent |
| WorkflowSteps.Echoes | src/pages/Workflows.tsx:246-252 | the rows an upsert returned are the rows sent, in order, as far as id, number, type, workflow and config go |
| WorkflowSteps.RemoveStep | src/pages/Workflows.tsx:227 | exactly the steps whose id differs from the deleted one remain |
| WorkflowSteps.RemoveStepKeepsOrder | src/pages/Workflows.tsx:227 | the remaining steps keep their relative order |
| WorkflowSteps.Renumber | src/pages/Workflows.tsx:238-244 | same length, numbered 1..N in list order, and each step keeps id, type, workflow and config |
| WorkflowSteps.Reorder | src/pages/Workflows.tsx:246-256 | the rows the upsert returned when it returned some, the list passed in when it failed or returned nothing; when the returned rows echo the renumbered ones, the result is the given steps in order, numbered 1..N |
| WorkflowSteps.ReplaceStep | src/pages/Workflows.tsx:208-210 | only the steps with the updated id are replaced; every other step and the length are unchanged |
| WorkflowSteps.ReplaceWorkflow | src/pages/Workflows.tsx:148-150 | only the workflow with the updated id is replaced |
| WorkflowSteps.AppendKeepsDense | src/pages/Workflows.tsx:173-191 | from a list numbered 1..N, the next number is N+1, and appending a row stored with that number gives 1..N+1 |
| WorkflowSteps.DeleteRenumber | src/pages/Workflows.tsx:227-244 | with unique ids, delete then renumber gives N-1 steps numbered 1..N-1, the others in their original order |
| WorkflowSteps.WorkflowsPage.constructor | src/pages/Workflows.tsx:9-18 | the page opens with no workflows, no selection, no steps and no error |
| WorkflowSteps.WorkflowsPage.FetchWorkflows | src/pages/Workflows.tsx:47-60 | the workflows become the rows read, or no rows for a null answer; a failed read sets the error and keeps them |
| WorkflowSteps.WorkflowsPage.FetchSteps | src/pages/Workflows.tsx:94-108 | the steps become the rows read, or no rows for a null answer; a failed read sets the error and keeps them |
| WorkflowSteps.WorkflowsPage.SelectWorkflow | src/pages/Workflows.tsx:380-386 | the clicked workflow is selected and the builder opens; when the selection changes, the effect at lines 24-28 loads its steps as FetchSteps does |
| WorkflowSteps.WorkflowsPage.CreateWorkflow | src/pages/Workflows.tsx:110-133 | a created workflow is prepended, becomes the selected one and opens the builder, and its steps are loaded as FetchSteps does; a failed insert sets the error and changes nothing else |
| WorkflowSteps.WorkflowsPage.UpdateWorkflow | src/pages/Workflows.tsx:135-156 | nothing without a selection; otherwise the workflow is replaced by id, or the error is set |
| WorkflowSteps.WorkflowsPage.AddStep | src/pages/Workflows.tsx:158-196 | with a selection and a successful read, the insert sent is NewStep with NextStepNumber of the stored steps; the row the insert returned is appended; on a failure only the error changes |
| WorkflowSteps.WorkflowsPage.UpdateStep | src/pages/Workflows.tsx:198-215 | the steps become ReplaceStep of the old ones, or the error message is set |
| WorkflowSteps.WorkflowsPage.DeleteStep | src/pages/Workflows.tsx:217-234 | the steps become Reorder of the remaining steps and what the upsert returned, or the error message is set and the steps are kept |
| ConditionEditor.SetOperator | src/components/workflow/StepConfigurationForm.tsx:146-148 | changing a group's operator keeps its children |
| ConditionEditor.ReplaceChild | src/components/workflow/StepConfigurationForm.tsx:163-175 | editing child i replaces only position i and keeps the operator and the number of children |
| ConditionEditor.AddCondition | src/components/workflow/StepConfigurationForm.tsx:186-194 | appends the empty `equals` leaf; existing children and the operator are kept |
| ConditionEditor.AddGroup | src/components/workflow/StepConfigurationForm.tsx:203-210 | appends an empty AND group; existing children and the operator are kept |
| ConditionEditor.NodeAt | src/components/workflow/StepConfigurationForm.tsx:163-175 | the node a nested editor shows, reached by child indices from the root |
| ConditionEditor.UpdateAt | src/components/workflow/StepConfigurationForm.tsx:163-175 | the root sent up after an edit at a path: each enclosing group replaces its child on the way up |
| ConditionEditor.UpdateAtPlaces | src/components/workflow/StepConfigurationForm.tsx:163-175 | a nested edit through the recursive callbacks puts the new node at its path and keeps each ancestor's operator and child count |
| ConditionEditor.UpdateAtKeepsOthers | src/components/workflow/StepConfigurationForm.tsx:163-175 | a nested edit leaves every node on a diverging path unchanged |
| ConditionEditor.GroupValueOrDefault | src/components/workflow/StepConfigurationForm.tsx:309 | a missing or falsy group value reads as an empty AND group; a present one is used as is |
| ConditionEditor.TakenForGroupAsWritten | src/components/workflow/StepConfigurationForm.tsx:158 | the as-written group test: an object with an `operator` key |
| ConditionEditor.LeafTakenForGroup | src/components/workflow/StepConfigurationForm.tsx:158 | as written, the `'operator' in` test accepts every encoded node, including the new leaf, which has no `conditions` |
| ConditionEditor.GroupTestExact | src/components/workflow/StepConfigurationForm.tsx:158 | the corrected test accepts an encoded node exactly when it is a group |
| ConfigPaths.Child | src/components/workflow/StepConfigurationForm.tsx:329-331 | a truthy object is descended into; a missing or falsy value becomes an empty object; a truthy primitive fails |
| ConfigPaths.Nest | src/components/workflow/StepConfigurationForm.tsx:329-335 | building a value under a chain of fresh keys always succeeds |
| ConfigPaths.SetPath | src/components/workflow/StepConfigurationForm.tsx:322-336 | a one-segment write always succeeds; a successful write adds at most the first segment as a top-level key and keeps every other top-level key; a truthy primitive on the way fails |
| ConfigPaths.GetPath | src/components/workflow/StepConfigurationForm.tsx:322-336 | reading along the split path: nothing when the first key is missing, the value itself for a one-segment path |
| ConfigPaths.HandleFieldChange | src/components/workflow/StepConfigurationForm.tsx:322-337 | the loop's result equals the functional SetPath of the old config |
| ConfigPaths.SetPathStep | src/components/workflow/StepConfigurationForm.tsx:327-335 | a write descends one segment, creating a missing level, and keeps the sibling keys |
| ConfigPaths.GetAfterSet | src/components/workflow/StepConfigurationForm.tsx:322-336 | reading along the path just written yields the written value |
| ConfigPaths.SetPathTopLevel | src/components/workflow/StepConfigurationForm.tsx:327-335 | a one-segment path sets just that top-level key |
| ConfigPaths.SetSingleSegment | src/components/workflow/StepConfigurationForm.tsx:335 | a one-segment write always succeeds and changes no other key |
| ConfigPaths.SetPathKeepsOffPath | src/components/workflow/StepConfigurationForm.tsx:323-335 | every key off the path, at any level, keeps its value |
| ConfigPaths.EmptyHasNothing | src/components/workflow/StepConfigurationForm.tsx:329-331 | an empty config has nothing along any non-empty path |
| ConfigPaths.NestFromEmpty | src/components/workflow/StepConfigurationForm.tsx:329-331 | writing into an empty config builds the chain of new objects |
| ConfigPaths.CreatesMissingLevels | src/components/workflow/StepConfigurationForm.tsx:329-331 | missing intermediate levels are created, so writing into an empty config succeeds |
| ConfigPaths.SetPathFailsOnPrimitive | src/components/workflow/StepConfigurationForm.tsx:329-333 | descending through a truthy primitive fails (a TypeError in strict mode) |
| ConfigPaths.FieldPath | src/components/workflow/StepConfigurationForm.tsx:276 | the path is `parent.key`, or `key` at top level |
| ConfigPaths.FieldPathSegments | src/components/workflow/StepConfigurationForm.tsx:276 | splitting a constructed path on `.` (as the write does at line 324) gives the parent's segments followed by the key |
| ConfigPaths.ReadAsWritten | src/components/workflow/StepConfigurationForm.tsx:277 | the form's read looks up the whole dotted parent string as one key, then the key |
| ConfigPaths.ReadField | src/components/workflow/StepConfigurationForm.tsx:277 | the corrected read follows the field's whole split path, as the write does |
| ConfigPaths.DeepReadMissesWrite | src/components/workflow/StepConfigurationForm.tsx:277 | with a two-level parent, the as-written read misses a value just written at that field |
| ConfigPaths.ReadFieldAfterWrite | src/components/workflow/StepConfigurationForm.tsx:322-336 | the corrected read, following the split path, returns the value just written |
| ConfigPaths.ReadsAgreeShallow | src/components/workflow/StepConfigurationForm.tsx:276-277 | for a top-level or one-level parent, the as-written and corrected reads agree |
| WorkflowBuilder.FilterTriggers | src/components/workflow/WorkflowBuilder.tsx:52-56 | a trigger is listed iff its lower-cased name or description contains the lower-cased term; order is kept |
| WorkflowBuilder.FilterActions | src/components/workflow/WorkflowBuilder.tsx:57-60 | the same rule for actions |
| WorkflowBuilder.EmptySearchKeepsAll | src/components/workflow/WorkflowBuilder.tsx:52-60 | an empty search lists every trigger and every action |
| WorkflowBuilder.FindStep | src/components/workflow/WorkflowBuilder.tsx:44 | the first step with the id, or none exactly when no step has it |
| WorkflowBuilder.SelectedStep | src/components/workflow/WorkflowBuilder.tsx:44 | the step the selection names, or none without a selection |
| WorkflowBuilder.RefersTo | src/components/workflow/WorkflowBuilder.tsx:45-50 | a step points at a catalog entry when the key holds a truthy value equal to the entry's id |
| WorkflowBuilder.SelectedTrigger | src/components/workflow/WorkflowBuilder.tsx:45-47 | a trigger is found only for a selected trigger step whose `triggerId` names it |
| WorkflowBuilder.SelectedAction | src/components/workflow/WorkflowBuilder.tsx:48-50 | an action is found only for a selected action step whose `actionId` names it |
| WorkflowBuilder.PickConfig | src/components/workflow/WorkflowBuilder.tsx:68-87 | picking writes exactly `{triggerId or actionId: id, config: {}}` |
| WorkflowBuilder.ConfigChange | src/components/workflow/WorkflowBuilder.tsx:94-101 | nothing without a selection; otherwise the selected step's config with only `config` replaced |
| WorkflowBuilder.FormConfig | src/components/workflow/WorkflowBuilder.tsx:258-305 | the config form gets the nested `config` (or `{}`) for a trigger or action step (lines 258, 282) and the whole config for a condition step (line 305) |
| WorkflowBuilder.ConfigChangeKeepsPick | src/components/workflow/WorkflowBuilder.tsx:94-101 | a config change keeps `triggerId`/`actionId` |
| WorkflowBuilder.ConfigChangeRoundTrip | src/components/workflow/WorkflowBuilder.tsx:94-101 | for trigger and action steps, the form (which reads the nested `config`, lines 258 and 282) reads back what it wrote |
| WorkflowBuilder.ConditionEditLost | src/components/workflow/WorkflowBuilder.tsx:94-101 | as written (the condition form gets the whole config, line 305), a condition step's edited group is stored under `config.config`, so the form reads back the old group |
| WorkflowBuilder.StoredConfigChange | src/components/workflow/WorkflowBuilder.tsx:94-101 | corrected: a condition step stores the form's config itself; other steps replace only `config` |
| WorkflowBuilder.StoredConfigChangeRoundTrip | src/components/workflow/WorkflowBuilder.tsx:94-101 | corrected: every step kind reads back exactly what the form wrote |
| WorkflowBuilder.Builder.constructor | src/components/workflow/WorkflowBuilder.tsx:23-26 | no selection, both menus closed, empty search |
| WorkflowBuilder.Builder.SelectStep | src/components/workflow/WorkflowBuilder.tsx:141 | selects the clicked step and changes nothing else |
| WorkflowBuilder.Builder.DeleteStep | src/components/workflow/WorkflowBuilder.tsx:164-169 | deleting the selected step clears the selection; deleting another step keeps it |
| WorkflowBuilder.Builder.ToggleTriggerOptions | src/components/workflow/WorkflowBuilder.tsx:189-190 | flips the trigger menu and closes the action menu |
| WorkflowBuilder.Builder.ToggleActionOptions | src/components/workflow/WorkflowBuilder.tsx:223-224 | flips the action menu and closes the trigger menu |
| WorkflowBuilder.Builder.SetSearchTerm | src/components/workflow/WorkflowBuilder.tsx:113 | sets only the search term |
| WorkflowBuilder.Builder.Pick | src/components/workflow/WorkflowBuilder.tsx:62-91 | requests a step of the picked kind with PickConfig, and closes that menu |
| WorkflowBuilder.Builder.VisibleTriggers | src/components/workflow/WorkflowBuilder.tsx:52-56 | the listed triggers match the current search term |
| WorkflowBuilder.Builder.VisibleActions | src/components/workflow/WorkflowBuilder.tsx:57-60 | the listed actions match the current search term |
| WorkflowBuilder.Builder.ConfigUpdate | src/components/workflow/WorkflowBuilder.tsx:94-101 | the update sent targets the selected step and carries the form's config under `config` |
| TemplateForm.InitialFormData | src/components/documents/TemplateForm.tsx:16-21 | each value comes from the template being edited, or the empty default |
| TemplateForm.AddField | src/components/documents/TemplateForm.tsx:41-56 | appends one field with the stated defaults; existing fields, name, description and category are unchanged |
| TemplateForm.RemoveField | src/components/documents/TemplateForm.tsx:58-63 | removes exactly entry i, keeping order; an out-of-range index changes nothing |
| TemplateForm.MergeField | src/components/documents/TemplateForm.tsx:68 | each property given in the update overrides; the others and the options are kept |
| TemplateForm.UpdateField | src/components/documents/TemplateForm.tsx:65-72 | merges into entry i only; length and other entries unchanged |
| TemplateForm.AddOption | src/components/documents/TemplateForm.tsx:74-87 | appends an empty option to field i only |
| TemplateForm.RemoveOption | src/components/documents/TemplateForm.tsx:89-99 | removes option j of field i only |
| TemplateForm.MergeOption | src/components/documents/TemplateForm.tsx:107 | given label/value override; the others are kept |
| TemplateForm.UpdateOption | src/components/documents/TemplateForm.tsx:101-113 | merges into option j of field i only |
| TemplateForm.AddThenRemoveField | src/components/documents/TemplateForm.tsx:41-63 | removing the field just added restores the form |
| TemplateForm.AddThenRemoveOption | src/components/documents/TemplateForm.tsx:74-99 | removing the option just added restores the form |
| TemplateForm.UpdateFieldIdempotent | src/components/documents/TemplateForm.tsx:65-72 | applying the same update twice equals applying it once |
| TemplateForm.UpdatesOfDifferentFieldsCommute | src/components/documents/TemplateForm.tsx:65-72 | updates of different fields commute |
| Schools.StringColumnsHaveStrings | src/pages/Schools.tsx:80-89 | a column yields a string to compare exactly when it is a string column |
| Schools.FilterSchools | src/pages/Schools.tsx:74-78 | a school is kept iff the term occurs, ignoring case, in its name, code or address; order kept |
| Schools.EmptySearchKeepsAll | src/pages/Schools.tsx:74-78 | an empty search keeps every school |
| Schools.SortSchools | src/pages/Schools.tsx:80-89 | a permutation; sorted by the column in the chosen direction for string columns, unchanged otherwise |
| Schools.SliceIndex | src/pages/Schools.tsx:91-94 | `slice` clamps an index into 0..length |
| Schools.JsSlice | src/pages/Schools.tsx:91-94 | `slice` is the plain subsequence for in-range bounds and never longer than the list |
| Schools.TotalPages | src/pages/Schools.tsx:96 | the ceiling of count / rows: the least number of pages that holds every row, 0 for no rows |
| Schools.FirstRowIndex | src/pages/Schools.tsx:92-93 | page p starts at (p-1)·r, exactly r before page p+1, and never before 0 from page 1 on |
| Schools.SliceWithin | src/pages/Schools.tsx:91-94 | with in-range bounds, `slice` returns the rows from the start to the end bound or the end of the list |
| Schools.PageRows | src/pages/Schools.tsx:91-94 | the page holds at most `rows` rows, namely the slice [(p-1)·r, p·r) |
| Schools.RangeLabel | src/pages/Schools.tsx:188 | the label's last row never exceeds the count, it spans at most `rows` rows, and from page 1 on its first row is at least 1 |
| Schools.RangeLabelCountsRows | src/pages/Schools.tsx:188 | the label runs from (p-1)·r+1 to min(p·r, count) and spans exactly the rows shown |
| Schools.RowOnOnePage | src/pages/Schools.tsx:91-96 | every row appears on exactly one page, and that page is within the page count |
| Schools.SchoolsPage.constructor | src/pages/Schools.tsx:31-35 | empty search, page 1, 10 rows, sorted by name ascending |
| Schools.SchoolsPage.HandleSort | src/pages/Schools.tsx:65-72 | the same column flips the direction; a new column sorts ascending; nothing else changes |
| Schools.SchoolsPage.SetSearchTerm | src/pages/Schools.tsx:342 | sets only the search term |
| Schools.SchoolsPage.SetRowsPerPage | src/pages/Schools.tsx:177-183 | sets only the rows per page, to one of the offered sizes |
| Schools.SchoolsPage.Filtered | src/pages/Schools.tsx:74-78 | the filtered schools for the current term |
| Schools.SchoolsPage.Sorted | src/pages/Schools.tsx:80-89 | a permutation of the filtered schools, sorted by the current column and direction |
| Schools.SchoolsPage.Pages | src/pages/Schools.tsx:96 | the page count is never negative |
| Schools.SchoolsPage.Visible | src/pages/Schools.tsx:91-94 | at most rowsPerPage rows, each a school matching the search |
| Schools.SchoolsPage.PrevPage | src/pages/Schools.tsx:192 | the page decreases by one but never below 1 |
| Schools.SchoolsPage.PrevDisabled | src/pages/Schools.tsx:192-193 | the previous button is disabled exactly when a click on it would leave the page where it is |
| Schools.SchoolsPage.NextPage | src/pages/Schools.tsx:199-200 | the page increases by one but never past the page count, which for no rows is 0 |
| Schools.SchoolsPage.NextDisabled | src/pages/Schools.tsx:199-200 | the next button is disabled exactly when a click on it would leave the page where it is |
| Interventions.EveryLevelListed | src/pages/Interventions.tsx:80-86 | every intervention level is among the five listed |
| Interventions.LevelName | src/pages/Interventions.tsx:80-86 | the five level names as the board lists them |
| Interventions.LevelColor | src/pages/Interventions.tsx:92-101 | each level's background colour |
| Interventions.LevelBorderColor | src/pages/Interventions.tsx:106-115 | each level's border colour |
| Interventions.LevelsComplete | src/pages/Interventions.tsx:80-116 | five distinct levels; the background and border colour maps are total and tell levels apart |
| Interventions.ChangeLevel | src/pages/Interventions.tsx:386-394 | only the level of the record with the id changes; other records, order and length unchanged |
| Interventions.FilterInterventions | src/pages/Interventions.tsx:397-399 | kept iff the school name contains the term, ignoring case; order kept |
| Interventions.AtLevel | src/pages/Interventions.tsx:191-193 | a column shows exactly the records at its level, in order |
| Interventions.Grouped | src/pages/Interventions.tsx:250-253 | every level has a group, and it is the records at that level |
| Interventions.GroupsPartition | src/pages/Interventions.tsx:250-253 | the group sizes add up to the list length, and every record lands in the group of its own level only |
| Interventions.DropMovesCard | src/pages/Interventions.tsx:191-209 | dropping a card on a column puts it in that column and in no other |
| Interventions.InitialExpanded | src/pages/Interventions.tsx:255-257 | every section starts expanded |
| Interventions.ToggleSection | src/pages/Interventions.tsx:259-264 | toggling flips only that level's flag |
| Interventions.ToggleTwice | src/pages/Interventions.tsx:259-264 | toggling a section twice restores the flags |
| Contacts.InitialSchoolFilter | src/pages/Contacts.tsx:31 | the `school` query parameter, or empty |
| Contacts.Initials | src/pages/Contacts.tsx:84-86 | the first character of each name, in order; an empty name contributes nothing |
| Contacts.FilterContacts | src/pages/Contacts.tsx:88-98 | kept iff the term is in the first or last name, email or role (ignoring case) and the role filter is empty or equal |
| Contacts.NoFiltersKeepAll | src/pages/Contacts.tsx:88-98 | no search and no role filter keep every contact |
| Contacts.Distinct | src/pages/Contacts.tsx:100 | de-duplication keeps exactly the values present, without repeats |
| Contacts.AllRoles | src/pages/Contacts.tsx:100 | one role per contact, and exactly the contacts' roles |
| Contacts.Roles | src/pages/Contacts.tsx:100 | every contact's role and nothing else, sorted, without duplicates |
| Contacts.DistinctPermutation | src/pages/Contacts.tsx:100 | sorting a list without repeats leaves it without repeats |
| Contacts.DistinctCountsOne | src/pages/Contacts.tsx:100 | in a list without repeats every value occurs at most once |
| Contacts.RolesStrictlyIncreasing | src/pages/Contacts.tsx:100 | the role choices are strictly increasing |
| Templates.Duplicate | src/pages/documents/Templates.tsx:76-80 | the copy appends " (Copy)" to the name and keeps every other copied field (id and timestamps are not in the copy) |
| Templates.DuplicateNameDiffers | src/pages/documents/Templates.tsx:76-80 | the copy's name differs from the original's and extends it |
| Templates.FilterTemplates | src/pages/documents/Templates.tsx:101-104 | kept iff the name or a present description contains the term, ignoring case |
| Templates.CategoryLabel | src/pages/documents/Templates.tsx:187 | the category's name, or "Uncategorized" |
| Templates.FieldCount | src/pages/documents/Templates.tsx:190 | the number of template fields, or 0 |
| Templates.TemplatesPage.constructor | src/pages/documents/Templates.tsx:12-15 | sorted by name ascending, no search, no category filter |
| Templates.TemplatesPage.ToggleSort | src/pages/documents/Templates.tsx:92-99 | the same field flips the direction; a new field sorts ascending |
| Templates.TemplatesPage.Visible | src/pages/documents/Templates.tsx:101-104 | the listed templates match the current search |
| Categories.FilterCategories | src/pages/documents/Categories.tsx:63-67 | kept iff the name contains the term, ignoring case, and the parent filter is empty or equal |
| Categories.NoFiltersKeepAll | src/pages/documents/Categories.tsx:63-67 | no filters keep every category |
| Categories.ParentCategories | src/pages/documents/Categories.tsx:69 | the parent choices are exactly the categories without a parent |
| Categories.ChildrenAreNotParents | src/pages/documents/Categories.tsx:63-69 | with a parent filter set, no listed category is a parent choice |
| Categories.CategoriesPage.constructor | src/pages/documents/Categories.tsx:12-15 | sorted by name ascending, no search, no parent filter |
| Categories.CategoriesPage.ToggleSort | src/pages/documents/Categories.tsx:54-61 | the same field flips the direction; a new field sorts ascending |
| Categories.CategoriesPage.Visible | src/pages/documents/Categories.tsx:63-67 | the listed categories match the current filters |
| DocumentVersioning.ChangeLabel | src/components/documents/DocumentVersioning.tsx:81-86 | "Added" iff added, "Modified" iff modified, "Removed" for every other type |
| DocumentVersioning.FormatChange | src/components/documents/DocumentVersioning.tsx:82-86 | one change as its label, a space and its field path |
| DocumentVersioning.FormatChanges | src/components/documents/DocumentVersioning.tsx:81-88 | the summary is empty exactly when there are no changes |
| DocumentVersioning.FormatEach | src/components/documents/DocumentVersioning.tsx:82-86 | one formatted entry per change, in input order |
| DocumentVersioning.FormatChangesSmall | src/components/documents/DocumentVersioning.tsx:82-87 | no changes give ""; one change gives its label, a space and its field path |
| DocumentVersioning.FormatChangesConcat | src/components/documents/DocumentVersioning.tsx:82-87 | the text for a concatenation is the two texts joined by ", " |
| DocumentVersioning.ShowsChanges | src/components/documents/DocumentVersioning.tsx:138 | the changes line is shown iff the list exists and is non-empty |
| DocumentVersioning.PreviousVersionNumber | src/components/documents/DocumentVersioning.tsx:170 | the "previous" label is one below the version number |
| DocumentVersioning.LatestVersionNumber | src/components/documents/DocumentVersioning.tsx:48-56 | an error for no versions; otherwise the largest existing number |
| DocumentVersioning.Restore | src/components/documents/DocumentVersioning.tsx:42-79 | nothing unless confirmed; a failed read inserts nothing; otherwise the inserted version has the same document, the restored content, the user and number latest + 1 |
| DocumentVersioning.RestoreNumberIsFresh | src/components/documents/DocumentVersioning.tsx:48-63 | a restored version's number is above every existing number |
| VersionHistory.FilterVersions | src/pages/documents/VersionHistory.tsx:41-43 | kept iff the document's template name contains the term, ignoring case |
| VersionHistory.OrphansDropped | src/pages/documents/VersionHistory.tsx:41-43 | versions without a document or template are never listed; with an empty term all others are |
| DocumentList.FilterDocuments | src/components/documents/DocumentList.tsx:68-71 | kept iff the lower-cased "template category first last" text contains the lower-cased term |
| DocumentList.SearchText | src/components/documents/DocumentList.tsx:69 | template, category, first and last name separated by single spaces, a missing join printing as "undefined" |
| DocumentList.FoundInAnyPart | src/components/documents/DocumentList.tsx:68-71 | a term found in any one of the four parts finds the document |
| DocumentList.MissingTemplateMatchesUndefined | src/components/documents/DocumentList.tsx:69 | as written, a document without a template matches the search "undefined" |
| DocumentList.CorrectedMissingJoinsMatchNoWord | src/components/documents/DocumentList.tsx:69 | corrected: a document with all joins missing matches no word of letters, and still matches the empty search |
| DocumentList.StatusColors | src/components/documents/DocumentList.tsx:73-88 | unknown statuses get the draft colour; the four other known statuses have distinct colours |
| DocumentList.StatusColor | src/components/documents/DocumentList.tsx:73-88 | the five known statuses' colours; anything else gets the draft colour |
| DocumentList.CommentCount | src/components/documents/DocumentList.tsx:199 | the first count entry, or 0 |
| Text.SnakeToTitleWords | src/components/documents/DocumentList.tsx:183-185 | the status label's words are the `_`-separated words, each capitalised |
| Text.SnakeToTitle | src/components/documents/DocumentList.tsx:183-185 | the label: split on `_`, capitalise each word, join with spaces |
| Text.Capitalize | src/components/documents/DocumentList.tsx:184 | the first character upper-cased, the rest kept, the length kept |
| Text.Split | src/components/documents/DocumentList.tsx:183 | `split` gives at least one piece and no piece contains the separator |
| Text.Join | src/components/documents/DocumentList.tsx:185 | `join` puts the separator between consecutive pieces |
| Text.ContainsIgnoreCase | src/pages/Schools.tsx:75 | the search test: the lower-cased term occurs in the lower-cased text |
| Sorting.Toggle | src/pages/Schools.tsx:65-72 | a click on the current column flips its direction; another column becomes current, ascending |
| Sorting.ToggleProperties | src/pages/Schools.tsx:65-72 | two clicks on the current column restore the state; a click on another column lands on it ascending |
| Sorting.SortBy | src/pages/Schools.tsx:80-89 | the sorted list is a permutation of the input, in order under the direction |
| Sorting.SortByStable | src/pages/Schools.tsx:80-89 | the sort is stable: the elements with any one key value come in the same order before and after |
| Display.StatusLabelWords | src/components/documents/DocumentList.tsx:183-185 | a status made of `_`-joined words is labelled with those words, each capitalised, joined by spaces ("under_review" is "Under Review") |
| Display.FirstCount | src/pages/applications/ApplicationList.tsx:159-163 | the first count entry, or 0 |
| ApplicationList.FilterApplications | src/pages/applications/ApplicationList.tsx:66-69 | kept iff the template name or the school name contains the term, ignoring case |
| ApplicationList.EmptySearchKeepsNamed | src/pages/applications/ApplicationList.tsx:66-69 | an empty search keeps exactly the applications with a template or a school name |
| ApplicationList.StatusColors | src/pages/applications/ApplicationList.tsx:49-64 | the five statuses map to distinct colours and everything else to gray |
| ApplicationList.StatusColor | src/pages/applications/ApplicationList.tsx:49-64 | the five statuses' colours; anything else is gray |
| ApplicationList.Counts | src/pages/applications/ApplicationList.tsx:159-163 | reviewer and comment counts are the first entry, or 0 |
| UserList.FilterUsers | src/components/users/UserList.tsx:43-46 | kept iff the lower-cased "first last organization" text contains the lower-cased term |
| UserList.SearchText | src/components/users/UserList.tsx:44 | first name, last name and organization separated by single spaces, a missing organization printing as "null" |
| UserList.FoundInAnyPart | src/components/users/UserList.tsx:43-46 | a term in the first name, last name or organization finds the user; the empty term finds everyone |
| UserList.OrganizationCell | src/components/users/UserList.tsx:130 | the organization, or "-" |
| UserList.EmailCell | src/components/users/UserList.tsx:138 | the first email address, or "-" |
| UserList.ActiveLabel | src/components/users/UserList.tsx:141-146 | "Active" iff active, "Inactive" iff not |
| UserList.CellsNeverBlank | src/components/users/UserList.tsx:130-138 | the organization and email cells are never blank |
| AuditLog.FilterLogs | src/components/documents/DocumentAuditLog.tsx:41-46 | kept iff the action or details contain the term (ignoring case) and the action filter is empty or equal |
| AuditLog.NoFiltersKeepAll | src/components/documents/DocumentAuditLog.tsx:41-46 | no filters keep every log |
| AuditLog.ActionFilterSelects | src/components/documents/DocumentAuditLog.tsx:44-45 | with an action filter, every listed log has that action |
| AuditLog.EmptyMessageExactly | src/components/documents/DocumentAuditLog.tsx:131-135 | the empty message appears exactly when no log passes the filters |
| AuditLog.ShowsEmptyMessage | src/components/documents/DocumentAuditLog.tsx:131-135 | the empty message shows when no entry passes the filters |
| AuditLog.ActionIcon | src/components/documents/DocumentAuditLog.tsx:48-63 | each of the five actions has its own icon; everything else gets the default |
| AuditLog.IconText | src/components/documents/DocumentAuditLog.tsx:48-63 | the emoji each icon stands for |
| SubmissionData.SetAnswer | src/pages/applications/ApplicationForm.tsx:109-117 | sets only the edited field's answer; other answers are kept |
| SubmissionData.ShownAnswer | src/pages/applications/ApplicationForm.tsx:108 | a missing or falsy answer is shown as "" |
| SubmissionData.EditShows | src/components/documents/DocumentForm.tsx:124-133 | after an edit the field shows the typed text and other fields show what they showed before |
| SubmissionData.EditsCommute | src/components/documents/DocumentForm.tsx:125-133 | edits of different fields commute; a second edit of one field overrides the first |
| ApplicationForm.FindTemplate | src/pages/applications/ApplicationForm.tsx:62 | the first template with the id, or none exactly when none has it |
| ApplicationForm.TemplateChange | src/pages/applications/ApplicationForm.tsx:61-69 | sets the template id, clears the answers, keeps school name and status |
| ApplicationForm.EditField | src/pages/applications/ApplicationForm.tsx:109-117 | only the answers change, by SetAnswer |
| ApplicationForm.TemplateChangeThenEdit | src/pages/applications/ApplicationForm.tsx:61-117 | after a template change, the first edit leaves exactly that answer |
| ApplicationForm.RendersInput | src/pages/applications/ApplicationForm.tsx:119-161 | text, email, tel, url, textarea and select fields render an input; any other type renders nothing |
| ApplicationForm.Saved | src/pages/applications/ApplicationForm.tsx:79-82 | the saved record is the form data plus the submitting user |
| DocumentForm.OrElse | src/components/documents/DocumentForm.tsx:20-24 | the initial value, or the fallback when missing or empty |
| DocumentForm.Initial | src/components/documents/DocumentForm.tsx:19-25 | starts from the initial data, defaulting to empty strings, status draft and no answers |
| DocumentForm.TemplateChange | src/components/documents/DocumentForm.tsx:78-85 | sets the template id; an empty id clears the selected template, any other fetches it |
| DocumentForm.TemplateChangeKeepsAnswers | src/components/documents/DocumentForm.tsx:78-85 | a template change keeps every answer and what each field shows |
| DocumentForm.EditField | src/components/documents/DocumentForm.tsx:125-133 | only the answers change, by SetAnswer |
| DocumentForm.RendersInput | src/components/documents/DocumentForm.tsx:135-187 | the application form's input types plus date render an input; any other type renders nothing |
| DocumentForm.RendersApplicationTypesAndDate | src/components/documents/DocumentForm.tsx:135-187 | for every field type, the document form renders an input exactly when the application form does or the type is `date` |
| Approvals.Listed | src/pages/approvals/MyApprovals.tsx:33-80 | listed iff in the view (pending; approved or rejected; all) and the document's template name contains the term |
| Approvals.InView | src/pages/approvals/MyApprovals.tsx:33-37 | the pending view shows pending assignments, the completed view approved and rejected ones, the all view everything |
| Approvals.OffersDecision | src/pages/approvals/MyApprovals.tsx:183 | approve and reject are offered only on a pending assignment |
| Approvals.Decide | src/pages/approvals/MyApprovals.tsx:50-76 | only the assignment with the id changes, to approved or rejected with the completion time |
| Approvals.DecisionMovesToCompleted | src/pages/approvals/MyApprovals.tsx:33-37 | a decided assignment leaves the pending view, enters the completed view and offers no more decision (line 183); others keep their views |
| Approvals.StatusColor | src/pages/approvals/MyApprovals.tsx:82-91 | emerald iff approved, red iff rejected, amber otherwise |
| Approvals.StatusLabel | src/pages/approvals/MyApprovals.tsx:165 | the status with its first letter upper-cased |
| Approvals.ApprovalsPage.constructor | src/pages/approvals/MyApprovals.tsx:9-10 | opens on the pending view with no search |
| Approvals.ApprovalsPage.SetView | src/pages/approvals/MyApprovals.tsx:99-115 | sets only the view |
| Approvals.ApprovalsPage.SetSearchTerm | src/pages/approvals/MyApprovals.tsx:132 | sets only the search term |
| Approvals.ApprovalsPage.RecordDecision | src/pages/approvals/MyApprovals.tsx:50-76 | a successful write applies Decide; a failed one changes nothing |
| Notifications.MarkRead | src/pages/notifications/Notifications.tsx:31-36 | only the notification with the id becomes read |
| Notifications.UnreadIds | src/pages/notifications/Notifications.tsx:63-67 | "mark all" targets exactly the unread notifications |
| Notifications.NotificationIcon | src/pages/notifications/Notifications.tsx:45-56 | approval, reminder and alert have their own icons; everything else gets the bell |
| Notifications.Highlighted | src/pages/notifications/Notifications.tsx:86 | only an unread notification gets the highlight border and its own "Mark as read" button (line 100) |
| Notifications.Inbox.constructor | src/pages/notifications/Notifications.tsx:6 | the inbox holds the stored notifications |
| Notifications.Inbox.MarkAsRead | src/pages/notifications/Notifications.tsx:31-42 | a successful write applies MarkRead; a failed one changes nothing |
| Notifications.Inbox.MarkAllAsRead | src/pages/notifications/Notifications.tsx:63-67 | every notification becomes read except those whose write fails |
| Notifications.AllReadAfterMarkAll | src/pages/notifications/Notifications.tsx:63-107 | once all are marked read nothing is highlighted and nothing is left to mark |
| Notifications.UnreadIdsOfAllRead | src/pages/notifications/Notifications.tsx:63-67 | a fully read inbox has no unread ids |
| NotificationSettings.DefaultsAre | src/pages/notifications/NotificationSettings.tsx:7-24 | email: approvals and reminders; in-app: all but marketing; SMS: nothing |
| NotificationSettings.Toggle | src/pages/notifications/NotificationSettings.tsx:76-133 | sets only that channel's flag; every other channel and key is unchanged |
| NotificationSettings.ToggleBack | src/pages/notifications/NotificationSettings.tsx:76-79 | unticking a box just ticked restores the settings |
| NotificationSettings.Label | src/pages/notifications/NotificationSettings.tsx:71 | the key with a space before every capital, trimmed |
| NotificationSettings.LabelsAreKeys | src/pages/notifications/NotificationSettings.tsx:71 | the setting keys have no capitals, so the label (built the same way at lines 71, 97 and 124) is the key itself |

## Left out

- Persistence, network and authentication are not modelled. Every query, insert, update, upsert, delete and `getUser` call is a parameter: the rows read, an `ok` flag or a `Result`. Loading flags and error-banner lifetimes are left out too.
- The Express API, its validation schemas and the fetch hooks are network plumbing and are not part of this model.
- No code in the repository evaluates conditions, runs executions, retries or resolves variables. Only their datatypes are declared, and no semantics are invented.
- The builder's `setTimeout` selection after adding a step depends on timing and on a stale `steps` prop. Only the config value written (`PickConfig`) is modelled, not which step receives it.
- ConfigPaths.HandleFieldChange: the shallow copy in the source shares nested objects with the old config, and the loop mutates them. The model uses copy semantics, so that aliasing is not captured.
- ConfigPaths.SetPath: an array met as an intermediate path segment is treated like any other truthy non-object and fails. JavaScript would index into the array.
- `Number(e.target.value)` float parsing and the number widget are left out.
- `renderDynamicField`'s widget selection and `renderCondition`'s leaf-edit widgets are left out. Only the group-edit callbacks and the path construction are modelled.
- Sorting: `localeCompare` is modelled as lexicographic order by character, and locale collation is not captured.
- Text.LexLessEq: characters are Unicode scalar values, where `Array.prototype.sort` with no comparator compares UTF-16 code units. The two orders differ only for strings with characters above U+FFFF (U+1F600 sorts before U+FF61 in JavaScript and after it here).
- Text.ToLower, Text.UpperChar, Text.Capitalize: `toLowerCase` and `toUpperCase` are modelled for ASCII letters only; other letters are left as they are.
- Schools.SortSchools: non-string columns (the comparator returns 0) keep the filtered order. The page only offers sorting by name, so sorting by a numeric column never happens.
- Date formatting (`toLocaleDateString` and the like) and the calendar components are left out.
- Drag and drop wiring is a library. Only its effect, `onLevelChange`, is modelled, as `ChangeLevel`.
- Rendering is left out: JSX, CSS classes other than the status colour maps, and the CSS `capitalize` transform. Icons are an enumeration; `AuditLog.IconText` gives the emoji code points.
- `window.confirm` dialogs are the `confirmed` parameter of `Restore`. Elsewhere they are assumed accepted.
- The notification settings' save timers are left out.
- The workflows page's `getStatusColor` and the dashboard and mock data are rendering only.
- Server-side ordering and filtering are left out: the templates and categories sort and category filter, the contacts school filter, and the approvals query. The model takes the rows as returned. For these pages only the sort-toggle state and the client-side filters are modelled.
- TemplateForm.MergeField: the update carries name, label, type, required and description, and never `options`. Every call site in the editor passes only those keys, so replacing the options through `updateField` is not modelled.
- Contacts.Initials: the initial is the first character, a Unicode scalar value, where `charAt(0)` returns the first UTF-16 code unit. They differ only for names starting with a character above U+FFFF, where JavaScript returns a lone high surrogate.
- WorkflowSteps.Reorder: nothing is assumed about the rows the upsert returns. The page is proved densely numbered only when those rows echo the rows written, in order (`Echoes`).
- WorkflowSteps.WorkflowsPage.AddStep: the appended step is the row the insert returned. It carries the number computed only when the database stores what was sent (`StoredAs`, used by `AppendKeepsDense`).
- WorkflowSteps.WorkflowsPage.SelectWorkflow: the effect that loads steps runs when the selected workflow object changes. The model compares workflows by value, so re-selecting an equal but distinct object does not reload here.
- The workflows page's trigger and action catalog loads (`fetchTriggers`, `fetchActions`) only fill lists the builder reads; the builder takes them as parameters.
- Interventions' list and grid views reuse the same filtered and grouped data and are not modelled separately.

## Findings

| source | as written | input that shows it | evidently intended | confidence | as-written member | corrected member |
|---|---|---|---|---|---|---|
| src/components/workflow/StepConfigurationForm.tsx:158 | `'operator' in condition` decides that a node is a group, but leaves also have `operator` | a group containing a new leaf `{field:'', operator:'equals', value:''}`: the leaf is rendered as a group with no `conditions` | a node is a group exactly when it has `conditions` | not executed | ConditionEditor.LeafTakenForGroup | ConditionEditor.GroupTestExact |
| src/components/workflow/StepConfigurationForm.tsx:277 | a field's value is read as `config[path]?.[key]`, looking up the dotted parent path as one key, while the write (322-336) splits the path on `.` | parent path `a.b`, key `c`: after writing `x`, the read looks up `config["a.b"]` and shows nothing | read along the split path, so a written value is shown | not executed | ConfigPaths.DeepReadMissesWrite | ConfigPaths.ReadFieldAfterWrite |
| src/components/workflow/WorkflowBuilder.tsx:94-101 | the condition form (line 305) gets the step's whole config, but its change is stored under `config.config` | a condition step with `conditions: G`: editing to `G'` stores `config.config.conditions = G'` and the form still reads `G` | a condition step's config is the form's config | not executed | WorkflowBuilder.ConditionEditLost | WorkflowBuilder.StoredConfigChange |
| src/components/documents/DocumentList.tsx:69 | the search text interpolates missing template, category or submitter names, which print as "undefined" | a document without a template, searched for "undefined", is listed | a missing name contributes no text | not executed | DocumentList.MissingTemplateMatchesUndefined | DocumentList.CorrectedMissingJoinsMatchNoWord |
