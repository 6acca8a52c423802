/**
 * The contact form (src/components/Contact/Contact.tsx).
 *
 * `formData` is a record keyed by the controls' `name` attributes; a change
 * event writes the event's value under the event's name with the spread
 * `{...prev, [name]: value}`, so it is modelled as a map. Submitting resets
 * every field and shows a success message that a 5000 ms timeout hides; the
 * timeouts fire here as explicit calls.
 */
module Contact {

  /** The `name` attributes of the four controls. */
  const ControlNames: set<string> := {"name", "email", "subject", "message"}

  /** The record the form starts with and is reset to: every control empty. */
  const EmptyForm: map<string, string> := map["name" := "", "email" := "", "subject" := "", "message" := ""]

  predicate IsEmptyForm(formData: map<string, string>) {
    formData.Keys == ControlNames && forall f :: f in formData ==> formData[f] == ""
  }

  lemma EmptyFormIsEmpty()
    ensures IsEmptyForm(EmptyForm)
  {
  }

  /** The updater `prev => ({...prev, [name]: value})` that a change event passes to `setFormData`. */
  function ChangeField(prev: map<string, string>, name: string, value: string): (next: map<string, string>)
    ensures next.Keys == prev.Keys + {name}
    ensures next[name] == value
    ensures forall f :: f in prev && f != name ==> next[f] == prev[f]
  {
    prev[name := value]
  }

  /** A change from one of the four controls keeps the record's shape; any other name would add a key. */
  lemma ChangeKeepsShape(prev: map<string, string>, name: string, value: string)
    requires prev.Keys == ControlNames
    ensures ChangeField(prev, name, value).Keys == ControlNames <==> name in ControlNames
  {
    if name !in ControlNames {
      assert name in ChangeField(prev, name, value).Keys;
    }
  }

  /** Typing into each control in turn fills exactly the four fields. */
  lemma FillingTheForm(name: string, email: string, subject: string, message: string)
    ensures ChangeField(ChangeField(ChangeField(ChangeField(EmptyForm, "name", name), "email", email),
                                    "subject", subject), "message", message)
            == map["name" := name, "email" := email, "subject" := subject, "message" := message]
  {
  }

  class ContactForm {
    var formData: map<string, string>
    var isSubmitted: bool
    /** Success-message timeouts scheduled and not yet fired. */
    var pendingHides: nat

    /** Every control has a value to show. */
    ghost predicate Valid()
      reads this
    {
      ControlNames <= formData.Keys
    }

    constructor ()
      ensures Valid()
      ensures formData == EmptyForm && IsEmptyForm(formData)
      ensures !isSubmitted && pendingHides == 0
    {
      formData := EmptyForm;
      isSubmitted := false;
      pendingHides := 0;
    }

    /** `handleChange`: the field named by the event takes its value; every other field is kept. */
    method HandleChange(name: string, value: string)
      requires Valid()
      modifies this`formData
      ensures Valid()
      ensures formData == ChangeField(old(formData), name, value)
      ensures name in ControlNames ==> formData.Keys == old(formData).Keys
    {
      formData := ChangeField(formData, name, value);
    }

    /** `handleSubmit`: show the success message, reset every field, and schedule the hide. */
    method HandleSubmit()
      requires Valid()
      modifies this
      ensures Valid()
      ensures isSubmitted
      ensures formData == EmptyForm && IsEmptyForm(formData)
      ensures pendingHides == old(pendingHides) + 1
    {
      isSubmitted := true;
      formData := EmptyForm;
      pendingHides := pendingHides + 1;
    }

    /**
     * A scheduled timeout fires: the success message is hidden and the form
     * is left as it is. Each submission schedules its own timeout, so the
     * first one to fire hides the message even after a later submission.
     */
    method SuccessTimeout()
      requires Valid()
      modifies this`isSubmitted, this`pendingHides
      ensures Valid()
      ensures old(pendingHides) > 0 ==> !isSubmitted && pendingHides == old(pendingHides) - 1
      ensures old(pendingHides) == 0 ==> isSubmitted == old(isSubmitted) && pendingHides == 0
    {
      if pendingHides > 0 {
        isSubmitted := false;
        pendingHides := pendingHides - 1;
      }
    }
  }
}
