/** The document-template form: the template's name, description and
    category, and its list of fields, each with its own list of options.
    Every editor is an updater of the form state that leaves the rest of it
    alone. */
module TemplateForm {
  import opened Outcomes
  import opened Seqs

  datatype OptionEntry = OptionEntry(labelText: string, value: string)

  datatype TemplateField = TemplateField(
    name: string,
    labelText: string,
    fieldType: string,
    required: bool,
    description: string,
    options: seq<OptionEntry>)

  datatype FormData = FormData(
    name: string,
    description: string,
    categoryId: string,
    fields: seq<TemplateField>)

  /** The values an edit overwrites; the inputs each pass one key. */
  datatype FieldUpdate = FieldUpdate(
    name: Option<string>,
    labelText: Option<string>,
    fieldType: Option<string>,
    required: Option<bool>,
    description: Option<string>)

  datatype OptionUpdate = OptionUpdate(labelText: Option<string>, value: Option<string>)

  /** The template a new form starts from: blanks for what the initial data
      lacks, or has falsy. */
  function InitialFormData(name: Option<string>, description: Option<string>, categoryId: Option<string>,
                           fields: Option<seq<TemplateField>>): (r: FormData)
    ensures r.name == name.GetOr("") && r.description == description.GetOr("")
    ensures r.categoryId == categoryId.GetOr("") && r.fields == fields.GetOr([])
  {
    FormData(name.GetOr(""), description.GetOr(""), categoryId.GetOr(""), fields.GetOr([]))
  }

  /** What "Add Field" appends. */
  const NewField: TemplateField := TemplateField("", "", "text", false, "", [])

  function AddField(d: FormData): (r: FormData)
    ensures r.name == d.name && r.description == d.description && r.categoryId == d.categoryId
    ensures |r.fields| == |d.fields| + 1 && r.fields[..|d.fields|] == d.fields
    ensures r.fields[|d.fields|] == TemplateField("", "", "text", false, "", [])
  {
    d.(fields := d.fields + [NewField])
  }

  function RemoveField(d: FormData, i: int): (r: FormData)
    ensures r.name == d.name && r.description == d.description && r.categoryId == d.categoryId
    ensures r.fields == RemoveAt(d.fields, i)
  {
    d.(fields := RemoveAt(d.fields, i))
  }

  /** `{...field, ...updates}`. */
  function MergeField(f: TemplateField, u: FieldUpdate): (r: TemplateField)
    ensures r.options == f.options
    ensures r.name == u.name.GetOr(f.name) && r.labelText == u.labelText.GetOr(f.labelText)
    ensures r.fieldType == u.fieldType.GetOr(f.fieldType) && r.required == u.required.GetOr(f.required)
    ensures r.description == u.description.GetOr(f.description)
  {
    TemplateField(u.name.GetOr(f.name), u.labelText.GetOr(f.labelText), u.fieldType.GetOr(f.fieldType),
                  u.required.GetOr(f.required), u.description.GetOr(f.description), f.options)
  }

  function UpdateField(d: FormData, i: int, u: FieldUpdate): (r: FormData)
    ensures r.name == d.name && r.description == d.description && r.categoryId == d.categoryId
    ensures |r.fields| == |d.fields|
    ensures forall k :: 0 <= k < |d.fields| && k != i ==> r.fields[k] == d.fields[k]
    ensures 0 <= i < |d.fields| ==> r.fields[i] == MergeField(d.fields[i], u)
  {
    d.(fields := UpdateAt(d.fields, i, (f: TemplateField) => MergeField(f, u)))
  }

  function AddOption(d: FormData, i: int): (r: FormData)
    ensures r.name == d.name && r.description == d.description && r.categoryId == d.categoryId
    ensures |r.fields| == |d.fields|
    ensures forall k :: 0 <= k < |d.fields| && k != i ==> r.fields[k] == d.fields[k]
    ensures 0 <= i < |d.fields| ==>
      r.fields[i] == d.fields[i].(options := d.fields[i].options + [OptionEntry("", "")])
  {
    d.(fields := UpdateAt(d.fields, i, (f: TemplateField) => f.(options := f.options + [OptionEntry("", "")])))
  }

  function RemoveOption(d: FormData, i: int, j: int): (r: FormData)
    ensures r.name == d.name && r.description == d.description && r.categoryId == d.categoryId
    ensures |r.fields| == |d.fields|
    ensures forall k :: 0 <= k < |d.fields| && k != i ==> r.fields[k] == d.fields[k]
    ensures 0 <= i < |d.fields| ==>
      r.fields[i] == d.fields[i].(options := RemoveAt(d.fields[i].options, j))
  {
    d.(fields := UpdateAt(d.fields, i, (f: TemplateField) => f.(options := RemoveAt(f.options, j))))
  }

  function MergeOption(o: OptionEntry, u: OptionUpdate): (r: OptionEntry)
    ensures r.labelText == u.labelText.GetOr(o.labelText) && r.value == u.value.GetOr(o.value)
  {
    OptionEntry(u.labelText.GetOr(o.labelText), u.value.GetOr(o.value))
  }

  function UpdateOption(d: FormData, i: int, j: int, u: OptionUpdate): (r: FormData)
    ensures r.name == d.name && r.description == d.description && r.categoryId == d.categoryId
    ensures |r.fields| == |d.fields|
    ensures forall k :: 0 <= k < |d.fields| && k != i ==> r.fields[k] == d.fields[k]
    ensures 0 <= i < |d.fields| ==>
      r.fields[i].options == UpdateAt(d.fields[i].options, j, (o: OptionEntry) => MergeOption(o, u))
      && r.fields[i] == d.fields[i].(options := r.fields[i].options)
  {
    d.(fields := UpdateAt(d.fields, i,
      (f: TemplateField) => f.(options := UpdateAt(f.options, j, (o: OptionEntry) => MergeOption(o, u)))))
  }

  /** "Add Field" followed by removing the new last field restores the form. */
  lemma {:induction false} AddThenRemoveField(d: FormData)
    ensures RemoveField(AddField(d), |d.fields|) == d
  {
    RemoveLastAppended(d.fields, NewField);
  }

  /** "Add Option" on field i followed by removing that new last option
      restores the form. */
  lemma {:induction false} AddThenRemoveOption(d: FormData, i: int)
    requires 0 <= i < |d.fields|
    ensures RemoveOption(AddOption(d, i), i, |d.fields[i].options|) == d
  {
    var a := AddOption(d, i);
    RemoveLastAppended(d.fields[i].options, OptionEntry("", ""));
    var r := RemoveOption(a, i, |d.fields[i].options|);
    assert r.fields[i] == d.fields[i];
    assert r.fields == d.fields;
  }

  /** Applying the same edit twice is the same as applying it once. */
  lemma {:induction false} UpdateFieldIdempotent(d: FormData, i: int, u: FieldUpdate)
    ensures UpdateField(UpdateField(d, i, u), i, u) == UpdateField(d, i, u)
  {
    var once := UpdateField(d, i, u);
    var twice := UpdateField(once, i, u);
    assert twice.fields == once.fields;
  }

  /** Editing one field and then another different one commutes. */
  lemma {:induction false} UpdatesOfDifferentFieldsCommute(d: FormData, i: int, u: FieldUpdate, j: int, w: FieldUpdate)
    requires i != j
    ensures UpdateField(UpdateField(d, i, u), j, w) == UpdateField(UpdateField(d, j, w), i, u)
  {
    var a := UpdateField(UpdateField(d, i, u), j, w);
    var b := UpdateField(UpdateField(d, j, w), i, u);
    assert a.fields == b.fields;
  }
}
