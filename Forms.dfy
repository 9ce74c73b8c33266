/** The controlled forms of the help, contact and returns pages. Each keeps
    its fields in one object; an input event copies the object with the named
    field replaced (`{...form, [e.target.name]: e.target.value}`), and a
    submit either shows an error toast and leaves the form alone, when a
    required field is falsy, or accepts and puts the defaults back. A field the object
    does not hold reads as `undefined`, which is falsy like the empty string. */
module Forms {
  type Form = map<string, string>

  /** `form[name]`, with `undefined` read as the empty string. */
  function Field(form: Form, name: string): string
  {
    if name in form then form[name] else ""
  }

  /** The field is truthy: a non-empty string. */
  predicate Filled(form: Form, name: string)
  {
    Field(form, name) != ""
  }

  /** Every required field is truthy. */
  predicate AllFilled(form: Form, required: seq<string>)
  {
    forall i :: 0 <= i < |required| ==> Filled(form, required[i])
  }

  /** `{...form, [name]: value}`. */
  function Change(form: Form, name: string, value: string): (r: Form)
    ensures Field(r, name) == value
    ensures forall n :: n != name ==> Field(r, n) == Field(form, n)
    ensures r.Keys == form.Keys + {name}
  {
    form[name := value]
  }

  /** A field the submit check does not read never decides it. */
  lemma ChangeOutsideRequired(form: Form, required: seq<string>, name: string, value: string)
    requires name !in required
    ensures AllFilled(Change(form, name, value), required) <==> AllFilled(form, required)
  {
    assert forall i :: 0 <= i < |required| ==> required[i] != name;
  }

  /** One input's change event: the input's `name` and its new `value`. */
  datatype InputEvent = InputEvent(name: string, value: string)

  /** The form after a run of change events, oldest first. */
  function ApplyEvents(form: Form, events: seq<InputEvent>): Form
    decreases |events|
  {
    if events == [] then form
    else ApplyEvents(Change(form, events[0].name, events[0].value), events[1..])
  }

  /** A field no event names keeps its value. */
  lemma {:induction false} EventsKeepUntouched(form: Form, events: seq<InputEvent>, name: string)
    requires forall i :: 0 <= i < |events| ==> events[i].name != name
    ensures Field(ApplyEvents(form, events), name) == Field(form, name)
    decreases |events|
  {
    if events != [] {
      var next := Change(form, events[0].name, events[0].value);
      assert forall i :: 0 <= i < |events[1..]| ==> events[1..][i] == events[i + 1];
      EventsKeepUntouched(next, events[1..], name);
    }
  }

  /** Events after the last one naming a field leave that field as it set it. */
  lemma {:induction false} LastEventWins(form: Form, events: seq<InputEvent>, k: nat)
    requires k < |events|
    requires forall i :: k < i < |events| ==> events[i].name != events[k].name
    ensures Field(ApplyEvents(form, events), events[k].name) == events[k].value
    decreases |events|
  {
    var next := Change(form, events[0].name, events[0].value);
    assert forall i :: 0 <= i < |events[1..]| ==> events[1..][i] == events[i + 1];
    if k == 0 {
      EventsKeepUntouched(next, events[1..], events[0].name);
    } else {
      LastEventWins(next, events[1..], k - 1);
    }
  }

  /** A form object: the page's current fields, the values it starts from and
      returns to, and the fields its submit handler requires. */
  class FormState {
    var fields: Form
    const defaults: Form
    const required: seq<string>

    constructor(defaults: Form, required: seq<string>)
      ensures fields == defaults && this.defaults == defaults && this.required == required
    {
      fields := defaults;
      this.defaults := defaults;
      this.required := required;
    }

    /** `handleInputChange`. */
    method InputChange(name: string, value: string)
      modifies this
      ensures fields == Change(old(fields), name, value)
    {
      fields := Change(fields, name, value);
    }

    /** `handleFormSubmit`: `accepted` tells the success toast from the error
        toast. A rejected submit leaves the fields alone; an accepted one
        resets them. */
    method Submit() returns (accepted: bool)
      modifies this
      ensures accepted <==> AllFilled(old(fields), required)
      ensures fields == if accepted then defaults else old(fields)
    {
      if !AllFilled(fields, required) {
        return false;
      }
      fields := defaults;
      return true;
    }
  }
}
