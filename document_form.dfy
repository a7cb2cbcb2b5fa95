/** The document form: its starting state from the record being edited,
    choosing a template, and editing one answer. */
module DocumentForm {
  import opened Outcomes
  import opened WorkflowTypes
  import opened SubmissionData
  import ApplicationForm

  /** The record being edited, as far as the form reads it. */
  datatype InitialData = InitialData(
    templateId: Option<string>,
    categoryId: Option<string>,
    status: Option<string>,
    dueDate: Option<string>,
    submissionData: Option<Answers>)

  datatype FormData = FormData(templateId: string, categoryId: string, status: string, dueDate: string, submissionData: Answers)

  /** `value || fallback` for a string that may be missing. */
  function OrElse(o: Option<string>, fallback: string): (r: string)
    ensures o.Some? && o.value != "" ==> r == o.value
    ensures o.None? || o.value == "" ==> r == fallback
  {
    if o.Some? && o.value != "" then o.value else fallback
  }

  /** The starting form: each value from the record, or '' (status 'draft',
      answers empty). Any object is truthy, so stored answers are kept even
      when empty. */
  function Initial(init: Option<InitialData>): (r: FormData)
    ensures init.None? ==> r == FormData("", "", "draft", "", map[])
    ensures init.Some? ==> (r.templateId == OrElse(init.value.templateId, "")
      && r.categoryId == OrElse(init.value.categoryId, "")
      && r.status == OrElse(init.value.status, "draft")
      && r.dueDate == OrElse(init.value.dueDate, "")
      && r.submissionData == init.value.submissionData.GetOr(map[]))
  {
    match init
    case None => FormData("", "", "draft", "", map[])
    case Some(d) =>
      FormData(OrElse(d.templateId, ""), OrElse(d.categoryId, ""), OrElse(d.status, "draft"),
               OrElse(d.dueDate, ""), d.submissionData.GetOr(map[]))
  }

  /** What follows a template change for the selected template. */
  datatype TemplateSelection = ClearTemplate | FetchTemplate(id: string)

  /** `handleTemplateChange`: the id changes, the answers stay; a non-empty
      id fetches that template, an empty one clears the selection. */
  function TemplateChange(d: FormData, id: string): (r: (FormData, TemplateSelection))
    ensures r.0 == d.(templateId := id)
    ensures r.1 == (if id == "" then ClearTemplate else FetchTemplate(id))
  {
    (d.(templateId := id), if id == "" then ClearTemplate else FetchTemplate(id))
  }

  /** Unlike the application form, changing template keeps every answer. */
  lemma TemplateChangeKeepsAnswers(d: FormData, id: string, name: string)
    ensures TemplateChange(d, id).0.submissionData == d.submissionData
    ensures ShownAnswer(TemplateChange(d, id).0.submissionData, name) == ShownAnswer(d.submissionData, name)
  {
  }

  /** `handleChange` of one rendered field. */
  function EditField(d: FormData, name: string, value: Json): (r: FormData)
    ensures r.submissionData == SetAnswer(d.submissionData, name, value)
    ensures r.templateId == d.templateId && r.categoryId == d.categoryId
      && r.status == d.status && r.dueDate == d.dueDate
  {
    d.(submissionData := SetAnswer(d.submissionData, name, value))
  }

  /** The application form's types plus `date`; any other renders nothing. */
  predicate RendersInput(fieldType: string) {
    fieldType in ["text", "email", "tel", "url", "textarea", "select", "date"]
  }

  /** The document form renders an input for exactly the field types the
      application form does, and for `date` besides. */
  lemma RendersApplicationTypesAndDate(fieldType: string)
    ensures RendersInput(fieldType) <==> ApplicationForm.RendersInput(fieldType) || fieldType == "date"
  {
  }
}
