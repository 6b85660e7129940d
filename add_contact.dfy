/** The add-contact dialog: a three-field form, the validation run on
    submit, the per-field error messages it folds out of a failed
    validation, and the edits and reset around them. */
module AddContact {
  import opened Wrappers
  import opened Schema

  datatype Form = Form(name: string, phone: string, email: string)

  datatype FormField = NameField | PhoneField | EmailField

  /** The key under which a field appears in the form data and in the
      error map. */
  function Key(f: FormField): string {
    match f
    case NameField => "name"
    case PhoneField => "phone"
    case EmailField => "email"
  }

  function Get(form: Form, f: FormField): string {
    match f
    case NameField => form.name
    case PhoneField => form.phone
    case EmailField => form.email
  }

  /** The dialog's state: what is typed, and the message shown under each
      field (a field with no entry, or with "", shows none). */
  datatype DialogState = DialogState(form: Form, errors: map<string, string>)

  /** The state the dialog starts in, and returns to after a contact is
      created. */
  const Initial := DialogState(Form("", "", ""), map[])

  // ---------------------------------------------------------------------
  // Submitting
  // ---------------------------------------------------------------------

  /** `{ ...formData, email: formData.email || undefined }`: an empty email
      is left out. */
  function SubmissionBody(form: Form): (r: Body)
    ensures r.Fields?
    ensures r.fields.Keys == {"name", "phone"} + (if form.email == "" then {} else {"email"})
  {
    Fields(map["name" := Str(form.name), "phone" := Str(form.phone)]
           + (if form.email == "" then map[] else map["email" := Str(form.email)]))
  }

  /** Whatever is typed, the form passes the insert schema: its fields are
      strings and the empty string is an acceptable name and phone. The
      accepted insert carries the email only when one was typed. */
  lemma SubmissionAlwaysValid(form: Form)
    ensures ParseInsertContact(SubmissionBody(form))
      == Ok(InsertContact(form.name, form.phone, if form.email == "" then None else Some(form.email), None, None))
  {
  }

  /** The field an issue is reported against, when it names one: the first
      element of its path, if that is non-empty. */
  function FieldOf(i: Issue): (r: Option<string>)
    ensures r.Some? <==> |i.path| > 0 && i.path[0] != ""
    ensures r.Some? ==> r.value == i.path[0]
  {
    if |i.path| > 0 && i.path[0] != "" then Some(i.path[0]) else None
  }

  /** Issue `k` is the last one reported against `field`. */
  ghost predicate LastFor(issues: seq<Issue>, field: string, k: int) {
    && 0 <= k < |issues| && FieldOf(issues[k]) == Some(field)
    && forall j :: k < j < |issues| ==> FieldOf(issues[j]) != Some(field)
  }

  /** `errors` is what the fold leaves after `issues`: one entry per field
      some issue names, holding the message of the last such issue. */
  ghost predicate Collected(issues: seq<Issue>, errors: map<string, string>) {
    && (forall f :: f in errors <==> exists k :: 0 <= k < |issues| && FieldOf(issues[k]) == Some(f))
    && (forall f :: f in errors ==> exists k :: LastFor(issues, f, k) && errors[f] == issues[k].message)
  }

  /** One more issue: recorded under its field if it names one, dropped
      otherwise. */
  lemma CollectStep(issues: seq<Issue>, errors: map<string, string>, i: Issue)
    requires Collected(issues, errors)
    ensures FieldOf(i).Some? ==> Collected(issues + [i], errors[FieldOf(i).value := i.message])
    ensures FieldOf(i).None? ==> Collected(issues + [i], errors)
  {
    var next := issues + [i];
    var errors' := if FieldOf(i).Some? then errors[FieldOf(i).value := i.message] else errors;
    forall f | f in errors'
      ensures exists k :: LastFor(next, f, k) && errors'[f] == next[k].message
    {
      if FieldOf(i) == Some(f) {
        assert LastFor(next, f, |issues|);
      } else {
        var k :| LastFor(issues, f, k) && errors[f] == issues[k].message;
        assert LastFor(next, f, k);
      }
    }
    forall f | exists k :: 0 <= k < |next| && FieldOf(next[k]) == Some(f)
      ensures f in errors'
    {
      var k :| 0 <= k < |next| && FieldOf(next[k]) == Some(f);
      if k < |issues| { assert FieldOf(issues[k]) == Some(f); }
    }
    forall f | f in errors'
      ensures exists k :: 0 <= k < |next| && FieldOf(next[k]) == Some(f)
    {
      var k :| LastFor(next, f, k) && errors'[f] == next[k].message;
    }
  }

  /** The `forEach` over a validation error's issues: one entry per field
      some issue names, holding the message of the last such issue; issues
      that name no field are dropped. */
  method CollectFieldErrors(issues: seq<Issue>) returns (errors: map<string, string>)
    ensures forall f :: f in errors <==> exists k :: 0 <= k < |issues| && FieldOf(issues[k]) == Some(f)
    ensures forall f :: f in errors ==> exists k :: LastFor(issues, f, k) && errors[f] == issues[k].message
  {
    errors := map[];
    var n := 0;
    while n < |issues|
      invariant 0 <= n <= |issues|
      invariant Collected(issues[..n], errors)
    {
      CollectStep(issues[..n], errors, issues[n]);
      assert issues[..n + 1] == issues[..n] + [issues[n]];
      var field := FieldOf(issues[n]);
      if field.Some? {
        errors := errors[field.value := issues[n].message];
      }
      n := n + 1;
    }
    assert issues[..n] == issues;
  }

  /** The outcome of `handleSubmit`: the insert posted to `/api/contacts`
      together with the error map it leaves (cleared by `setErrors({})`
      before the post), or the field errors to show. */
  datatype Submission = Post(body: Body, errors: map<string, string>) | ShowErrors(errors: map<string, string>)

  /** `handleSubmit`: validate; on success post the validated insert (the
      errors are cleared as it is sent), otherwise show the field errors. */
  method Submit(form: Form) returns (s: Submission)
    ensures s.Post? <==> ParseInsertContact(SubmissionBody(form)).Ok?
    ensures s.Post? ==> s.body == EncodeInsertContact(ParseInsertContact(SubmissionBody(form)).value)
    ensures s.Post? ==> s.errors == map[]
    ensures s.ShowErrors? ==> Collected(ParseInsertContact(SubmissionBody(form)).error, s.errors)
  {
    var parsed := ParseInsertContact(SubmissionBody(form));
    if parsed.Ok? {
      return Post(EncodeInsertContact(parsed.value), map[]);
    }
    var errors := CollectFieldErrors(parsed.error);
    s := ShowErrors(errors);
  }

  /** Every submission is posted, and the server accepts what is posted as
      the typed contact. */
  lemma SubmitAlwaysPosts(form: Form)
    ensures ParseInsertContact(SubmissionBody(form)).Ok?
    ensures ParseInsertContact(EncodeInsertContact(ParseInsertContact(SubmissionBody(form)).value))
      == Ok(InsertContact(form.name, form.phone, if form.email == "" then None else Some(form.email), None, None))
  {
    SubmissionAlwaysValid(form);
    InsertContactRoundTrip(ParseInsertContact(SubmissionBody(form)).value);
  }

  // ---------------------------------------------------------------------
  // Editing and resetting
  // ---------------------------------------------------------------------

  /** `{ ...prev, [field]: value }` */
  function SetField(form: Form, f: FormField, v: string): (r: Form)
    ensures Get(r, f) == v
    ensures forall g :: g != f ==> Get(r, g) == Get(form, g)
  {
    match f
    case NameField => form.(name := v)
    case PhoneField => form.(phone := v)
    case EmailField => form.(email := v)
  }

  /** `handleChange(field, value)`: the field takes the value and no other
      field changes; a message showing under that field is blanked, and
      every other entry of the error map stays as it was. */
  function Change(s: DialogState, f: FormField, v: string): (r: DialogState)
    ensures Get(r.form, f) == v
    ensures forall g :: g != f ==> Get(r.form, g) == Get(s.form, g)
    ensures r.errors.Keys == s.errors.Keys
    ensures forall k :: k in s.errors ==> r.errors[k] == if k == Key(f) then "" else s.errors[k]
  {
    var errors := if Key(f) in s.errors && s.errors[Key(f)] != "" then s.errors[Key(f) := ""] else s.errors;
    DialogState(SetField(s.form, f, v), errors)
  }

  /** The success handler: back to the empty form with no errors, whatever
      the state was. */
  function AfterCreated(s: DialogState): (r: DialogState)
    ensures forall f :: Get(r.form, f) == ""
    ensures r.errors == map[]
  {
    Initial
  }
}
