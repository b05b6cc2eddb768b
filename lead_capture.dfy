/** The "free automation guide" form: four fields, all of them required.
    A submit that finds an empty field leaves the form as it is; one that
    finds all four filled clears them. The submit handler checks only
    emptiness: it trims nothing and does not test the e-mail's shape. */
module LeadCapture {

  /** The form's state, `formData`. */
  datatype FormData = FormData(name: string, email: string, business: string, automationType: string)

  datatype Field = Name | Email | Business | AutomationType

  /** The form as it first shows and as a successful submit leaves it. */
  const Cleared: FormData := FormData("", "", "", "")

  /** The choices of the "Primary Automation Interest" list, in order. */
  const AutomationTypes: seq<string> := [
    "Customer Service Automation",
    "Lead Generation Automation",
    "Social Media Automation",
    "Email Marketing Automation",
    "Inventory Management",
    "Appointment Scheduling",
    "Other"
  ]

  function Get(f: FormData, field: Field): string
  {
    match field
    case Name => f.name
    case Email => f.email
    case Business => f.business
    case AutomationType => f.automationType
  }

  /** The `onChange` update `{ ...formData, field: value }`: the field gets
      the new value and every other field keeps its own. */
  function Set(f: FormData, field: Field, value: string): (g: FormData)
    ensures Get(g, field) == value
    ensures forall other :: other != field ==> Get(g, other) == Get(f, other)
  {
    match field
    case Name => f.(name := value)
    case Email => f.(email := value)
    case Business => f.(business := value)
    case AutomationType => f.(automationType := value)
  }

  /** The submit check: every one of the four fields is non-empty. */
  predicate Complete(f: FormData)
  {
    f.name != "" && f.email != "" && f.business != "" && f.automationType != ""
  }

  /** The check, field by field: the form is complete exactly when no field
      is the empty text. */
  lemma CompleteIffNoneEmpty(f: FormData)
    ensures Complete(f) <==> forall field :: Get(f, field) != ""
  {
    if !Complete(f) {
      var field := if f.name == "" then Name else if f.email == "" then Email
        else if f.business == "" then Business else AutomationType;
      assert Get(f, field) == "";
    }
  }

  /** A form filled with blanks passes: the check does not trim. */
  lemma WhitespaceAccepted(f: FormData)
    requires forall field :: Get(f, field) == " "
    ensures Complete(f)
  {
    CompleteIffNoneEmpty(f);
  }

  /** The cleared form does not pass, so submitting again straight after a
      successful submit is rejected. */
  lemma ClearedRejected()
    ensures !Complete(Cleared)
    ensures forall field :: Get(Cleared, field) == ""
  {
    assert Get(Cleared, Name) == "";
  }

  /** Edits of two different fields do not interfere: either order gives
      the same form. */
  lemma EditsCommute(f: FormData, x: Field, a: string, y: Field, b: string)
    requires x != y
    ensures Set(Set(f, x, a), y, b) == Set(Set(f, y, b), x, a)
  {
  }

  /** Filling the four fields of the cleared form, in any values, gives a
      form that passes exactly when none of the values is empty. */
  lemma FilledForm(name: string, email: string, business: string, choice: nat)
    requires choice < |AutomationTypes|
    ensures var f := Set(Set(Set(Set(Cleared, Name, name), Email, email), Business, business),
                         AutomationType, AutomationTypes[choice]);
            Complete(f) <==> name != "" && email != "" && business != ""
  {
    assert AutomationTypes[choice] != "";
  }

  /** Every choice of the list is a non-empty text, so choosing one always
      fills the field; the last choice is "Other". */
  lemma ChoicesNonEmpty()
    ensures |AutomationTypes| == 7 && AutomationTypes[6] == "Other"
    ensures forall k :: 0 <= k < |AutomationTypes| ==> AutomationTypes[k] != ""
  {
  }

  class LeadCaptureForm {
    var data: FormData

    constructor ()
      ensures data == Cleared
    {
      data := Cleared;
    }

    /** Typing in the name, e-mail or business box. */
    method Edit(field: Field, value: string)
      requires field != AutomationType
      modifies this
      ensures data == Set(old(data), field, value)
    {
      data := Set(data, field, value);
    }

    /** Picking entry `choice` of the automation list. */
    method SelectAutomation(choice: nat)
      requires choice < |AutomationTypes|
      modifies this
      ensures data == Set(old(data), AutomationType, AutomationTypes[choice])
      ensures Get(data, AutomationType) != ""
    {
      data := data.(automationType := AutomationTypes[choice]);
    }

    /** `handleSubmit`: accepted exactly when all four fields are filled;
        an accepted form is cleared, a rejected one is left unchanged. */
    method Submit() returns (accepted: bool)
      modifies this
      ensures accepted <==> forall field :: Get(old(data), field) != ""
      ensures data == (if accepted then Cleared else old(data))
    {
      CompleteIffNoneEmpty(data);
      if !Complete(data) {
        accepted := false;
        return;
      }
      accepted := true;
      data := Cleared;
    }
  }
}
