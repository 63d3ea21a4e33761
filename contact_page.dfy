/** The contact page (src/pages/Contacts.tsx): a four-field form whose submission goes
    through an external mail relay, with a submitting flag and a result banner. */
module ContactPage {
  import opened Wrappers

  datatype ContactForm = ContactForm(name: string, email: string, subject: string, message: string)

  /** The `name` attributes of the form's four controls. */
  datatype ContactField = Name | Email | Subject | Message

  const EmptyForm: ContactForm := ContactForm("", "", "", "")

  function Get(f: ContactForm, field: ContactField): string
  {
    match field
    case Name => f.name
    case Email => f.email
    case Subject => f.subject
    case Message => f.message
  }

  /** `{ ...prev, [name]: value }`: the named field takes the value, the other three keep theirs. */
  function Set(f: ContactForm, field: ContactField, value: string): (r: ContactForm)
    ensures Get(r, field) == value
    ensures forall g :: g != field ==> Get(r, g) == Get(f, g)
  {
    match field
    case Name => f.(name := value)
    case Email => f.(email := value)
    case Subject => f.(subject := value)
    case Message => f.(message := value)
  }

  /** `submitResult` when it is not null. */
  datatype SubmitResult = SubmitResult(success: bool, error: Option<string>)

  /** What the relay call throws: an `Error` with its message, or any other value. */
  datatype Thrown = ErrorValue(message: string) | OtherValue

  /** How the relay's promise settles. */
  datatype RelayOutcome = Delivered | Rejected(thrown: Thrown)

  const FallbackError: string := "Неизвестная ошибка при отправке"

  /** The banner text for a rejection: the error's message, or the fixed text for a
      thrown value that is not an `Error`. */
  function ErrorMessage(t: Thrown): (m: string)
    ensures t.ErrorValue? ==> m == t.message
    ensures t.OtherValue? ==> m == FallbackError
  {
    match t
    case ErrorValue(message) => message
    case OtherValue => FallbackError
  }

  /** The error text a result renders, empty where the result holds none. */
  function ErrorText(r: SubmitResult): string
  {
    match r.error
    case Some(e) => e
    case None => ""
  }

  const SendCaption: string := "Отправить"
  const SendingCaption: string := "Отправка..."

  /** What the form renders: the success banner, the error banner with its text, whether
      each input and the button is disabled, and the button's caption. */
  datatype ContactView = ContactView(successBanner: bool, errorBanner: Option<string>,
                                     nameDisabled: bool, emailDisabled: bool, subjectDisabled: bool,
                                     messageDisabled: bool, buttonDisabled: bool, caption: string)

  /** The page's React state; `formRef` is reduced to whether the form element is mounted,
      which the caller passes to `StartSubmit`. */
  class ContactPageState {
    var formData: ContactForm
    var isSubmitting: bool
    var submitResult: Option<SubmitResult>

    /** Results only ever take the two shapes the handler writes, and no result is held
        while a submission is outstanding. */
    predicate Valid()
      reads this
    {
      && (isSubmitting ==> submitResult == None)
      && (submitResult.Some? ==> (submitResult.value.success <==> submitResult.value.error == None))
    }

    constructor ()
      ensures Valid()
      ensures formData == EmptyForm && !isSubmitting && submitResult == None
    {
      formData, isSubmitting, submitResult := EmptyForm, false, None;
    }

    /** The form as rendered from the state: the banners appear on `success` being true or
        false, every control is disabled exactly while submitting. In a valid state the
        three displays (idle, submitting, result) exclude each other. */
    function Render(): (v: ContactView)
      reads this
      ensures !(v.successBanner && v.errorBanner.Some?)
      ensures v.successBanner || v.errorBanner.Some? <==> submitResult.Some?
      ensures v.nameDisabled == v.emailDisabled == v.subjectDisabled == v.messageDisabled == v.buttonDisabled == isSubmitting
      ensures v.caption == (if isSubmitting then SendingCaption else SendCaption)
      ensures Valid() && v.caption == SendingCaption ==> !v.successBanner && v.errorBanner == None
    {
      var success := submitResult.Some? && submitResult.value.success;
      var failed := submitResult.Some? && !submitResult.value.success;
      ContactView(success,
                  if failed then Some(ErrorText(submitResult.value)) else None,
                  isSubmitting, isSubmitting, isSubmitting, isSubmitting, isSubmitting,
                  if isSubmitting then SendingCaption else SendCaption)
    }

    /** `handleChange`: only the named field changes. */
    method HandleChange(field: ContactField, value: string)
      requires Valid()
      modifies this`formData
      ensures Valid()
      ensures formData == Set(old(formData), field, value)
    {
      formData := Set(formData, field, value);
    }

    /** `handleSubmit` up to the relay call: without a mounted form nothing happens;
        otherwise the submitting flag goes up and the previous result is cleared. */
    method StartSubmit(formMounted: bool) returns (started: bool)
      requires Valid()
      modifies this`isSubmitting, this`submitResult
      ensures Valid()
      ensures started == formMounted
      ensures !started ==> isSubmitting == old(isSubmitting) && submitResult == old(submitResult)
      ensures started ==> isSubmitting && submitResult == None
    {
      if !formMounted {
        return false;
      }
      isSubmitting := true;
      submitResult := None;
      started := true;
    }

    /** `handleSubmit` after the relay call settles: on delivery the result is a success and
        the four fields are cleared; on rejection the result carries the error text and the
        fields are kept; either way the submitting flag goes down. */
    method SettleSubmit(outcome: RelayOutcome)
      requires Valid()
      modifies this
      ensures Valid()
      ensures !isSubmitting
      ensures outcome.Delivered? ==> submitResult == Some(SubmitResult(true, None)) && formData == EmptyForm
      ensures outcome.Rejected? ==> formData == old(formData)
      ensures outcome.Rejected? && outcome.thrown.ErrorValue? ==>
                submitResult == Some(SubmitResult(false, Some(outcome.thrown.message)))
      ensures outcome == Rejected(OtherValue) ==>
                submitResult == Some(SubmitResult(false, Some(FallbackError)))
    {
      match outcome {
        case Delivered =>
          submitResult := Some(SubmitResult(true, None));
          formData := EmptyForm;
        case Rejected(thrown) =>
          submitResult := Some(SubmitResult(false, Some(ErrorMessage(thrown))));
      }
      isSubmitting := false;
    }
  }

  /** One whole submission of a mounted form: the page ends idle, showing exactly one
      banner, with the fields cleared only on delivery. */
  method SubmitOnce(page: ContactPageState, outcome: RelayOutcome)
    requires page.Valid()
    modifies page
    ensures page.Valid() && !page.isSubmitting
    ensures outcome.Delivered? <==> page.Render().successBanner
    ensures outcome.Rejected? && outcome.thrown.ErrorValue? ==>
              page.Render().errorBanner == Some(outcome.thrown.message)
    ensures outcome == Rejected(OtherValue) ==> page.Render().errorBanner == Some(FallbackError)
    ensures page.formData == if outcome.Delivered? then EmptyForm else old(page.formData)
  {
    var started := page.StartSubmit(true);
    page.SettleSubmit(outcome);
  }
}
