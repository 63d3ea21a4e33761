/** The older contact component (src/components/Contacts.tsx): a three-field form whose
    submit only records that it was sent. */
module LegacyContacts {

  datatype MessageForm = MessageForm(name: string, email: string, message: string)

  /** The `name` attributes of the component's three controls. */
  datatype MessageField = Name | Email | Message

  const EmptyForm: MessageForm := MessageForm("", "", "")

  function Get(f: MessageForm, field: MessageField): string
  {
    match field
    case Name => f.name
    case Email => f.email
    case Message => f.message
  }

  /** `{ ...form, [name]: value }`: the named field takes the value, the other two keep theirs. */
  function Set(f: MessageForm, field: MessageField, value: string): (r: MessageForm)
    ensures Get(r, field) == value
    ensures forall g :: g != field ==> Get(r, g) == Get(f, g)
  {
    match field
    case Name => f.(name := value)
    case Email => f.(email := value)
    case Message => f.(message := value)
  }

  /** What the right-hand column renders. */
  datatype Panel = ThankYou | FormPanel(form: MessageForm)

  class ContactSection {
    var form: MessageForm
    var submitted: bool

    constructor ()
      ensures form == EmptyForm && !submitted
    {
      form, submitted := EmptyForm, false;
    }

    /** The thank-you note replaces the form exactly once something was submitted. */
    function Render(): (p: Panel)
      reads this
      ensures p.ThankYou? <==> submitted
      ensures p.FormPanel? ==> p.form == form
    {
      if submitted then ThankYou else FormPanel(form)
    }

    /** `handleChange`: only the named field changes; the flag is kept. */
    method HandleChange(field: MessageField, value: string)
      modifies this`form
      ensures form == Set(old(form), field, value)
    {
      form := Set(form, field, value);
    }

    /** `handleSubmit`: there is no failure path; the form is kept and the flag is set. */
    method HandleSubmit()
      modifies this`submitted
      ensures submitted
      ensures Render() == ThankYou
    {
      submitted := true;
    }
  }

  /** Once the thank-you note shows, a later edit or a later submit leaves it in place:
      nothing in the component ever clears the flag. */
  method EventsAfterThankYou(section: ContactSection, field: MessageField, value: string)
    requires section.Render() == ThankYou
    modifies section
    ensures section.Render() == ThankYou
    ensures section.form == Set(old(section.form), field, value)
  {
    section.HandleChange(field, value);
    assert section.Render() == ThankYou;
    section.HandleSubmit();
  }
}
