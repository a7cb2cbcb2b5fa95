/** The application form: its starting state, choosing a template, editing
    one answer, which field types get an input, and the record that is
    saved. */
module ApplicationForm {
  import opened Outcomes
  import opened WorkflowTypes
  import opened SubmissionData

  datatype FormData = FormData(templateId: string, schoolName: string, status: string, submissionData: Answers)

  datatype Template = Template(id: string, name: string)

  /** A new application: no template, no school, a draft with no answers. */
  const InitialFormData := FormData("", "", "draft", map[])

  /** `templates.find(t => t.id === id)`: the first template with that id. */
  function FindTemplate(templates: seq<Template>, id: string): (r: Option<Template>)
    ensures r.None? <==> forall k :: 0 <= k < |templates| ==> templates[k].id != id
    ensures r.Some? ==> (exists k :: (0 <= k < |templates| && templates[k] == r.value
      && r.value.id == id && forall j :: 0 <= j < k ==> templates[j].id != id))
    decreases |templates|
  {
    if |templates| == 0 then None
    else if templates[0].id == id then Some(templates[0])
    else
      var r := FindTemplate(templates[1..], id);
      assert forall k :: 1 <= k < |templates| ==> templates[k] == templates[1..][k - 1];
      r
  }

  /** `handleTemplateChange`: the selected template is looked up, the form
      takes the new id and drops every answer. */
  function TemplateChange(templates: seq<Template>, d: FormData, id: string): (r: (Option<Template>, FormData))
    ensures r.0 == FindTemplate(templates, id)
    ensures r.1.templateId == id && r.1.submissionData == map[]
    ensures r.1.schoolName == d.schoolName && r.1.status == d.status
  {
    (FindTemplate(templates, id), d.(templateId := id, submissionData := map[]))
  }

  /** `handleChange` of one rendered field. */
  function EditField(d: FormData, name: string, value: Json): (r: FormData)
    ensures r.submissionData == SetAnswer(d.submissionData, name, value)
    ensures r.templateId == d.templateId && r.schoolName == d.schoolName && r.status == d.status
  {
    d.(submissionData := SetAnswer(d.submissionData, name, value))
  }

  /** After choosing a template, one edit leaves exactly that one answer. */
  lemma TemplateChangeThenEdit(templates: seq<Template>, d: FormData, id: string, name: string, value: Json)
    ensures EditField(TemplateChange(templates, d, id).1, name, value).submissionData == map[name := value]
  {
  }

  /** Only these field types render an input; any other renders nothing. */
  predicate RendersInput(fieldType: string) {
    fieldType in ["text", "email", "tel", "url", "textarea", "select"]
  }

  datatype SavedApplication = SavedApplication(form: FormData, submittedBy: Option<string>)

  /** The saved record: the form as it stands plus the current user's id. */
  function Saved(d: FormData, user: Option<string>): (r: SavedApplication)
    ensures r.form == d && r.submittedBy == user
  {
    SavedApplication(d, user)
  }
}
