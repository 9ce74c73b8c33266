/** The contact page's form (src/pages/ContactUs.jsx): name, email, subject
    and message are required, the department select is not checked, and the
    page renders an input for every field, so a filled-in form goes through. */
module ContactUs {
  import opened Forms

  /** The defaults: everything empty, department 'general'. */
  const DefaultContactForm: Form := map[
    "name" := "", "email" := "", "subject" := "", "message" := "", "department" := "general"]

  const ContactRequired: seq<string> := ["name", "email", "subject", "message"]

  /** The inputs the page renders for the form. */
  const RenderedContactFields: seq<string> := ["name", "email", "department", "subject", "message"]

  /** The department select's option values. */
  const Departments: seq<string> := ["general", "sales", "technical", "billing", "returns", "partnerships"]

  /** The page's `contactForm` state. */
  method NewContactForm() returns (f: FormState)
    ensures fresh(f)
    ensures f.fields == DefaultContactForm && f.defaults == DefaultContactForm && f.required == ContactRequired
  {
    f := new FormState(DefaultContactForm, ContactRequired);
  }

  /** The submit check spelled out: all four text fields truthy. */
  lemma ContactRequiredFields(form: Form)
    ensures AllFilled(form, ContactRequired) <==>
      Filled(form, "name") && Filled(form, "email") && Filled(form, "subject") && Filled(form, "message")
  {
    if Filled(form, "name") && Filled(form, "email") && Filled(form, "subject") && Filled(form, "message") {
      forall i | 0 <= i < |ContactRequired| ensures Filled(form, ContactRequired[i]) {
        assert ContactRequired[i] == "name" || ContactRequired[i] == "email"
          || ContactRequired[i] == "subject" || ContactRequired[i] == "message";
      }
    }
    if AllFilled(form, ContactRequired) {
      assert Filled(form, ContactRequired[0]) && Filled(form, ContactRequired[1]);
      assert Filled(form, ContactRequired[2]) && Filled(form, ContactRequired[3]);
    }
  }

  /** The department never decides a submit. */
  lemma DepartmentNotChecked(form: Form, value: string)
    ensures AllFilled(Change(form, "department", value), ContactRequired) <==> AllFilled(form, ContactRequired)
  {
    assert "department" !in ContactRequired;
    ChangeOutsideRequired(form, ContactRequired, "department", value);
  }

  /** The reset form is rejected until the visitor fills it in again, and
      its department is 'general'. */
  lemma DefaultsRejected()
    ensures !AllFilled(DefaultContactForm, ContactRequired)
    ensures Field(DefaultContactForm, "department") == "general"
  {
    assert !Filled(DefaultContactForm, ContactRequired[0]);
  }

  /** Every required field has a rendered input. */
  lemma RequiredAreRendered()
    ensures forall i :: 0 <= i < |ContactRequired| ==> ContactRequired[i] in RenderedContactFields
  {
  }

  /** Typing a non-empty name, email, subject and message into the rendered
      inputs, in that order, makes the form acceptable whatever came before. */
  lemma FilledInFormAccepted(form: Form, name: string, email: string, subject: string, message: string)
    requires name != "" && email != "" && subject != "" && message != ""
    ensures AllFilled(ApplyEvents(form, [InputEvent("name", name), InputEvent("email", email),
      InputEvent("subject", subject), InputEvent("message", message)]), ContactRequired)
  {
    var events := [InputEvent("name", name), InputEvent("email", email),
      InputEvent("subject", subject), InputEvent("message", message)];
    LastEventWins(form, events, 0);
    LastEventWins(form, events, 1);
    LastEventWins(form, events, 2);
    LastEventWins(form, events, 3);
    ContactRequiredFields(ApplyEvents(form, events));
  }
}
