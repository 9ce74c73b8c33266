/** The returns page's form (src/pages/Returns.jsx): order number, email and
    reason are required; the description and the refund method are optional. */
module Returns {
  import opened Forms

  /** The defaults: everything empty, refund method 'original'. */
  const DefaultReturnForm: Form := map[
    "orderNumber" := "", "email" := "", "reason" := "", "description" := "", "refundMethod" := "original"]

  const ReturnRequired: seq<string> := ["orderNumber", "email", "reason"]

  /** The reason select's options after the empty 'Select a reason'. */
  const ReturnReasons: seq<string> := [
    "Defective/Damaged item", "Wrong item received", "Item not as described",
    "Changed my mind", "Found better price elsewhere", "Other"]

  /** The page's `returnForm` state. */
  method NewReturnForm() returns (f: FormState)
    ensures fresh(f)
    ensures f.fields == DefaultReturnForm && f.defaults == DefaultReturnForm && f.required == ReturnRequired
  {
    f := new FormState(DefaultReturnForm, ReturnRequired);
  }

  /** The submit check spelled out: the three required fields truthy. */
  lemma ReturnRequiredFields(form: Form)
    ensures AllFilled(form, ReturnRequired) <==>
      Filled(form, "orderNumber") && Filled(form, "email") && Filled(form, "reason")
  {
    if Filled(form, "orderNumber") && Filled(form, "email") && Filled(form, "reason") {
      forall i | 0 <= i < |ReturnRequired| ensures Filled(form, ReturnRequired[i]) {
        assert ReturnRequired[i] == "orderNumber" || ReturnRequired[i] == "email" || ReturnRequired[i] == "reason";
      }
    }
    if AllFilled(form, ReturnRequired) {
      assert Filled(form, ReturnRequired[0]) && Filled(form, ReturnRequired[1]) && Filled(form, ReturnRequired[2]);
    }
  }

  /** The description and the refund method never decide a submit. */
  lemma OptionalFieldsNotChecked(form: Form, name: string, value: string)
    requires name == "description" || name == "refundMethod"
    ensures AllFilled(Change(form, name, value), ReturnRequired) <==> AllFilled(form, ReturnRequired)
  {
    assert name !in ReturnRequired;
    ChangeOutsideRequired(form, ReturnRequired, name, value);
  }

  /** The reset form is rejected until the visitor fills it in again, and its
      refund method is 'original'. */
  lemma DefaultsRejected()
    ensures !AllFilled(DefaultReturnForm, ReturnRequired)
    ensures Field(DefaultReturnForm, "refundMethod") == "original"
  {
    assert !Filled(DefaultReturnForm, ReturnRequired[0]);
  }

  /** Picking a listed reason fills the reason; the placeholder option's
      empty value leaves it unfilled. */
  lemma ChosenReasonFills(form: Form, i: nat)
    requires i < |ReturnReasons|
    ensures Filled(Change(form, "reason", ReturnReasons[i]), "reason")
    ensures !Filled(Change(form, "reason", ""), "reason")
  {
  }
}
