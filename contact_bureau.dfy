/**
 * The contact form of the contact scene
 * (src/components/ContactBureau.tsx).
 *
 * Four text fields, an in-flight flag that disables the submit button, and
 * a status banner. Submitting sends the fields to an email service; on
 * success the form is cleared, on failure it is kept, the flag is lowered
 * either way, and a 3 s timer later returns the banner to idle.
 */
module ContactBureau {
  import opened Wrappers

  datatype FormData = FormData(name: string, email: string, subject: string, message: string)

  /** The input names of the form (the `name` attribute of each input). */
  datatype Field = Name | Email | Subject | Message

  datatype SubmitStatus = Idle | Success | Error

  /** What the email service's promise did. */
  datatype SendOutcome = Sent | Failed

  /** The template parameters handed to the email service. */
  datatype EmailParams = EmailParams(
    name: string, reply_to: string, subject: string, message: string,
    time: string, to_name: string)

  /** The fixed recipient name of every message. */
  const RecipientName: string := "Supun Hashintha"

  /** The form's initial and cleared contents. */
  function EmptyForm(): (f: FormData)
    ensures forall fld: Field :: Get(f, fld) == ""
  {
    FormData("", "", "", "")
  }

  /** The value of one field. */
  function Get(f: FormData, fld: Field): string {
    match fld
    case Name => f.name
    case Email => f.email
    case Subject => f.subject
    case Message => f.message
  }

  /** handleChange's new form: one field replaced, the others kept. */
  function WithField(f: FormData, fld: Field, v: string): (r: FormData)
    ensures Get(r, fld) == v
    ensures forall other: Field :: other != fld ==> Get(r, other) == Get(f, other)
  {
    match fld
    case Name => f.(name := v)
    case Email => f.(email := v)
    case Subject => f.(subject := v)
    case Message => f.(message := v)
  }

  /** The parameters sent for a form, with the formatted submission time. */
  function Params(f: FormData, time: string): (p: EmailParams)
    ensures p.to_name == RecipientName && p.time == time
  {
    EmailParams(f.name, f.email, f.subject, f.message, time, RecipientName)
  }

  /** The form the parameters were built from. */
  function FormOf(p: EmailParams): FormData {
    FormData(p.name, p.reply_to, p.subject, p.message)
  }

  /** No field is lost or swapped on the way to the service. */
  lemma ParamsRoundTrip(f: FormData, time: string)
    ensures FormOf(Params(f, time)) == f
    ensures Params(f, time).reply_to == f.email
  {
  }

  /** The form component's state, as a value. */
  datatype Form = Form(
    formData: FormData, isSubmitting: bool, submitStatus: SubmitStatus,
    pendingResets: nat)  // status-reset timers scheduled and not yet fired

  function InitialForm(): (s: Form)
    ensures !s.isSubmitting && s.submitStatus == Idle && s.pendingResets == 0
    ensures forall fld: Field :: Get(s.formData, fld) == ""
  {
    Form(EmptyForm(), false, Idle, 0)
  }

  /** The effect of the promise settling: the try, catch and finally blocks. */
  function Settled(s: Form, outcome: SendOutcome): (s': Form)
    ensures !s'.isSubmitting
    ensures s'.pendingResets == s.pendingResets + 1
    ensures outcome == Sent ==> s'.submitStatus == Success && s'.formData == EmptyForm()
    ensures outcome == Failed ==> s'.submitStatus == Error && s'.formData == s.formData
  {
    match outcome
    case Sent => Form(EmptyForm(), false, Success, s.pendingResets + 1)
    case Failed => Form(s.formData, false, Error, s.pendingResets + 1)
  }

  /** A status-reset timer firing: only the banner changes. */
  function ResetFired(s: Form): (s': Form)
    requires s.pendingResets > 0
    ensures s'.submitStatus == Idle && s'.pendingResets == s.pendingResets - 1
    ensures s'.formData == s.formData && s'.isSubmitting == s.isSubmitting
  {
    s.(submitStatus := Idle, pendingResets := s.pendingResets - 1)
  }

  /**
   * A failed send keeps what the user typed, so the user can retry
   * straight away: the button is enabled again before the banner clears.
   */
  lemma FailureKeepsInputForRetry(s: Form)
    requires s.isSubmitting
    ensures var s' := Settled(s, Failed);
      s'.formData == s.formData && !s'.isSubmitting && s'.submitStatus == Error
  {
  }

  /** The form as the stateful component ContactBureau keeps. */
  class ContactForm {
    var formData: FormData
    var isSubmitting: bool
    var submitStatus: SubmitStatus
    var pendingResets: nat

    function State(): Form
      reads this
    {
      Form(formData, isSubmitting, submitStatus, pendingResets)
    }

    constructor ()
      ensures State() == InitialForm()
    {
      formData := EmptyForm();
      isSubmitting := false;
      submitStatus := Idle;
      pendingResets := 0;
    }

    /** handleChange for the input named `fld`. */
    method HandleChange(fld: Field, v: string)
      modifies this
      ensures formData == WithField(old(formData), fld, v)
      ensures isSubmitting == old(isSubmitting) && submitStatus == old(submitStatus)
      ensures pendingResets == old(pendingResets)
    {
      formData := WithField(formData, fld, v);
    }

    /** Whether the submit button accepts a press. */
    function SubmitEnabled(): (enabled: bool)
      reads this
      ensures enabled <==> !isSubmitting
    {
      !isSubmitting
    }

    /**
     * A press of the submit button, with the formatted current time. While
     * a submission is in flight the button is disabled and nothing happens
     * (None); otherwise handleSubmit raises the in-flight flag and hands
     * the current form to the email service.
     */
    method Submit(time: string) returns (sent: Option<EmailParams>)
      modifies this
      ensures sent.Some? <==> old(SubmitEnabled())
      ensures sent.Some? ==> sent.value == Params(old(formData), time)
      ensures isSubmitting
      ensures formData == old(formData) && submitStatus == old(submitStatus)
      ensures pendingResets == old(pendingResets)
    {
      if isSubmitting {
        sent := None;
      } else {
        isSubmitting := true;
        sent := Some(Params(formData, time));
      }
    }

    /**
     * The email service's promise settling with `outcome`: the rest of
     * handleSubmit. The fields typed while the send was in flight are the
     * ones a failure keeps and a success clears.
     */
    method Settle(outcome: SendOutcome)
      requires isSubmitting
      modifies this
      ensures State() == Settled(old(State()), outcome)
      ensures SubmitEnabled()
    {
      match outcome {
        case Sent =>
          submitStatus := Success;
          formData := EmptyForm();
        case Failed =>
          submitStatus := Error;
      }
      pendingResets := pendingResets + 1;
      isSubmitting := false;
    }

    /**
     * One of the status resets firing; each is scheduled 3000 ms after the
     * send settled. The model has no clock, so the delay is not represented.
     */
    method ResetTimerFires()
      requires pendingResets > 0
      modifies this
      ensures State() == ResetFired(old(State()))
      ensures submitStatus == Idle
      ensures formData == old(formData) && isSubmitting == old(isSubmitting)
    {
      submitStatus := Idle;
      pendingResets := pendingResets - 1;
    }
  }
}
