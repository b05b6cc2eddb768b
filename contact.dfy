/** The "custom quote" form: name, e-mail and project details are required,
    the business name is optional. A submit that finds a required field
    empty leaves the form as it is; one that finds them filled clears all
    four fields, the business name included. The submit handler checks
    only emptiness. */
module Contact {

  /** The form's state, `formData`. */
  datatype FormData = FormData(name: string, email: string, business: string, message: string)

  datatype Field = Name | Email | Business | Message

  /** The form as it first shows and as a successful submit leaves it. */
  const Cleared: FormData := FormData("", "", "", "")

  function Get(f: FormData, field: Field): string
  {
    match field
    case Name => f.name
    case Email => f.email
    case Business => f.business
    case Message => f.message
  }

  /** The `onChange` update `{ ...formData, field: value }`: the field gets
      the new value and every other field keeps its own. */
  function Set(f: FormData, field: Field, value: string): (g: FormData)
    ensures Get(g, field) == value
    ensures forall other :: other != field ==> Get(g, other) == Get(f, other)
  {
    match field
    case Name => f.(name := value)
    case Email => f.(email := value)
    case Business => f.(business := value)
    case Message => f.(message := value)
  }

  /** The fields the submit check looks at. */
  predicate Required(field: Field) { field != Business }

  /** The submit check: name, e-mail and message are non-empty. */
  predicate Complete(f: FormData)
  {
    f.name != "" && f.email != "" && f.message != ""
  }

  /** The check, field by field: the form is complete exactly when no
      required field is the empty text. */
  lemma CompleteIffRequiredFilled(f: FormData)
    ensures Complete(f) <==> forall field :: Required(field) ==> Get(f, field) != ""
  {
    if !Complete(f) {
      var field := if f.name == "" then Name else if f.email == "" then Email else Message;
      assert Required(field) && Get(f, field) == "";
    }
  }

  /** The business name is optional: whatever it holds, the check gives the
      same verdict; in particular an empty business name is accepted. */
  lemma BusinessOptional(f: FormData, business: string)
    ensures Complete(Set(f, Business, business)) <==> Complete(f)
  {
    CompleteIffRequiredFilled(f);
    CompleteIffRequiredFilled(Set(f, Business, business));
  }

  /** Blank required fields pass: the check does not trim. */
  lemma WhitespaceAccepted(f: FormData)
    requires forall field :: Required(field) ==> Get(f, field) == " "
    ensures Complete(f)
  {
    CompleteIffRequiredFilled(f);
  }

  /** The cleared form does not pass, so submitting again straight after a
      successful submit is rejected. */
  lemma ClearedRejected()
    ensures !Complete(Cleared)
    ensures forall field :: Get(Cleared, field) == ""
  {
    assert Get(Cleared, Name) == "";
  }

  /** Edits of two different fields do not interfere: either order gives
      the same form. */
  lemma EditsCommute(f: FormData, x: Field, a: string, y: Field, b: string)
    requires x != y
    ensures Set(Set(f, x, a), y, b) == Set(Set(f, y, b), x, a)
  {
  }

  class ContactForm {
    var data: FormData

    constructor ()
      ensures data == Cleared
    {
      data := Cleared;
    }

    /** Typing in one of the four boxes. */
    method Edit(field: Field, value: string)
      modifies this
      ensures data == Set(old(data), field, value)
    {
      data := Set(data, field, value);
    }

    /** `handleSubmit`: accepted exactly when every required field is
        filled; an accepted form is cleared, a rejected one is left
        unchanged. */
    method Submit() returns (accepted: bool)
      modifies this
      ensures accepted <==> forall field :: Required(field) ==> Get(old(data), field) != ""
      ensures data == (if accepted then Cleared else old(data))
    {
      CompleteIffRequiredFilled(data);
      if !Complete(data) {
        accepted := false;
        return;
      }
      accepted := true;
      data := Cleared;
    }
  }
}
