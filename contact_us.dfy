/** The contact form of the Contact Us section (src/components/ContactUs.jsx):
    the `formData` record, the subject dropdown and the submission state.
    `formData` is a JavaScript object updated with a computed key, so it is
    a map from field name to value here; a text input stores a string and a
    checkbox a boolean. */
module ContactUs {
  import opened Wrappers

  /** What one field of `formData` holds. */
  datatype FieldValue = Text(text: string) | Flag(flag: bool)

  type FormData = map<string, FieldValue>

  /** The six string fields. */
  const TextFields: set<string> := {"name", "email", "phone", "company", "subject", "message"}

  /** The checkbox field. */
  const RobotField: string := "isNotRobot"

  /** The initial `formData`, and the one a successful submission restores. */
  const EmptyForm: FormData := map[
    "name" := Text(""), "email" := Text(""), "phone" := Text(""),
    "company" := Text(""), "subject" := Text(""), "message" := Text(""),
    "isNotRobot" := Flag(false)]

  /** `formData` has exactly the seven fields, each holding its own kind. */
  predicate WellFormed(data: FormData)
  {
    && data.Keys == TextFields + {RobotField}
    && (forall f :: f in TextFields ==> data[f].Text?)
    && data[RobotField].Flag?
  }

  /** The parts of `e.target` that `handleInputChange` reads. */
  datatype InputEvent = InputEvent(name: string, value: string, inputType: string, checked: bool)

  /** The events the page's own inputs send: a text input, e-mail input,
      telephone input or text area named after a string field, or the
      checkbox named `isNotRobot`. */
  predicate FromPage(e: InputEvent)
  {
    || (e.name in TextFields && e.inputType != "checkbox")
    || (e.name == RobotField && e.inputType == "checkbox")
  }

  /** `handleInputChange`'s update: the field the event names gets `checked`
      for a checkbox and `value` otherwise; every other field is kept. */
  function WithInput(data: FormData, e: InputEvent): (r: FormData)
    ensures r.Keys == data.Keys + {e.name}
    ensures r[e.name] == if e.inputType == "checkbox" then Flag(e.checked) else Text(e.value)
    ensures forall f :: f in data && f != e.name ==> r[f] == data[f]
  {
    data[e.name := if e.inputType == "checkbox" then Flag(e.checked) else Text(e.value)]
  }

  /** `handleSubjectSelect`'s update of `formData`: only `subject` changes. */
  function WithSubject(data: FormData, subject: string): (r: FormData)
    ensures r.Keys == data.Keys + {"subject"}
    ensures r["subject"] == Text(subject)
    ensures forall f :: f in data && f != "subject" ==> r[f] == data[f]
  {
    data["subject" := Text(subject)]
  }

  /** The form starts well formed. */
  lemma EmptyFormWellFormed()
    ensures WellFormed(EmptyForm)
    ensures forall f :: f in TextFields ==> EmptyForm[f] == Text("")
    ensures EmptyForm[RobotField] == Flag(false)
  {
  }

  /** The page's own inputs and the subject menu keep `formData` well formed. */
  lemma PageUpdatesKeepShape(data: FormData, e: InputEvent, subject: string)
    requires WellFormed(data)
    ensures FromPage(e) ==> WellFormed(WithInput(data, e))
    ensures WellFormed(WithSubject(data, subject))
  {
  }

  /** A checkbox event naming a string field stores a boolean there: the
      update does not look at which field it writes. */
  lemma CheckboxOnTextField(data: FormData, e: InputEvent)
    requires WellFormed(data)
    requires e.name in TextFields && e.inputType == "checkbox"
    ensures !WellFormed(WithInput(data, e))
  {
    assert WithInput(data, e)[e.name].Flag?;
  }

  /** Two edits of the same field: the later one wins. */
  lemma LaterInputWins(data: FormData, e1: InputEvent, e2: InputEvent)
    requires e1.name == e2.name
    ensures WithInput(WithInput(data, e1), e2) == WithInput(data, e2)
  {
  }

  /** Edits of different fields do not interfere: their order does not matter. */
  lemma InputsOnDistinctFieldsCommute(data: FormData, e1: InputEvent, e2: InputEvent)
    requires e1.name != e2.name
    ensures WithInput(WithInput(data, e1), e2) == WithInput(WithInput(data, e2), e1)
  {
  }

  /** Picking a subject from the menu updates `formData` as typing it into a
      text input named `subject` would. */
  lemma SubjectIsTextInput(data: FormData, subject: string)
    ensures WithSubject(data, subject) == WithInput(data, InputEvent("subject", subject, "text", false))
  {
  }

  /** How the last submission ended: `submitStatus` is null before the first
      and while one is pending. */
  datatype SubmitStatus = Success | Error

  /** The form's React state. */
  class ContactForm {
    var formData: FormData
    var isSubmitting: bool
    var submitStatus: Option<SubmitStatus>
    var isSubjectOpen: bool

    constructor ()
      ensures formData == EmptyForm && !isSubmitting
      ensures submitStatus == None && !isSubjectOpen
    {
      formData := EmptyForm;
      isSubmitting := false;
      submitStatus := None;
      isSubjectOpen := false;
    }

    /** `handleInputChange`. */
    method HandleInputChange(e: InputEvent)
      modifies this`formData
      ensures formData == WithInput(old(formData), e)
    {
      formData := WithInput(formData, e);
    }

    /** `handleSubjectSelect`: store the subject and close the menu. */
    method HandleSubjectSelect(subject: string)
      modifies this`formData, this`isSubjectOpen
      ensures formData == WithSubject(old(formData), subject)
      ensures !isSubjectOpen
    {
      formData := WithSubject(formData, subject);
      isSubjectOpen := false;
    }

    /** The subject button: open a closed menu, close an open one. */
    method ToggleSubjectMenu()
      modifies this`isSubjectOpen
      ensures isSubjectOpen == !old(isSubjectOpen)
    {
      isSubjectOpen := !isSubjectOpen;
    }

    /** `handleSubmit` up to its `await` (after `preventDefault`). */
    method StartSubmit()
      modifies this`isSubmitting, this`submitStatus
      ensures isSubmitting && submitStatus == None
    {
      isSubmitting := true;
      submitStatus := None;
    }

    /** `handleSubmit` after its `await`: the `try` branch when the wait
        succeeded, the `catch` branch when it threw, then the `finally`. */
    method SettleSubmit(succeeded: bool)
      modifies this`formData, this`isSubmitting, this`submitStatus
      ensures submitStatus == Some(if succeeded then Success else Error)
      ensures formData == if succeeded then EmptyForm else old(formData)
      ensures !isSubmitting
    {
      if succeeded {
        submitStatus := Some(Success);
        formData := EmptyForm;
      } else {
        submitStatus := Some(Error);
      }
      isSubmitting := false;
    }

    /** The submit button's `disabled`. */
    predicate SubmitDisabled()
      reads this
    {
      isSubmitting
    }

    /** The whole of `handleSubmit`; reports whether the button was disabled
        while the submission was pending. */
    method HandleSubmit(succeeded: bool) returns (disabledWhilePending: bool)
      modifies this`formData, this`isSubmitting, this`submitStatus
      ensures disabledWhilePending && !SubmitDisabled()
      ensures submitStatus == Some(if succeeded then Success else Error)
      ensures formData == if succeeded then EmptyForm else old(formData)
    {
      StartSubmit();
      disabledWhilePending := SubmitDisabled();
      SettleSubmit(succeeded);
    }
  }

  /** A rejected submission keeps what was typed, shows the error and
      enables the button again; a later successful one clears the form. */
  method RejectedThenAccepted() returns (afterReject: FormData, status: Option<SubmitStatus>, disabled: bool, afterAccept: FormData)
    ensures "name" in afterReject && afterReject["name"] == Text("Ada")
    ensures "isNotRobot" in afterReject && afterReject["isNotRobot"] == Flag(true)
    ensures status == Some(Error) && !disabled
    ensures afterAccept == EmptyForm
  {
    var form := new ContactForm();
    form.HandleInputChange(InputEvent("name", "Ada", "text", false));
    form.HandleInputChange(InputEvent("isNotRobot", "on", "checkbox", true));
    var pending := form.HandleSubmit(false);
    afterReject, status, disabled := form.formData, form.submitStatus, form.SubmitDisabled();
    pending := form.HandleSubmit(true);
    afterAccept := form.formData;
  }

  /** Two presses of the subject button leave the menu as it was. */
  method ToggleSubjectTwice(form: ContactForm)
    modifies form
    ensures form.isSubjectOpen == old(form.isSubjectOpen)
    ensures form.formData == old(form.formData)
  {
    form.ToggleSubjectMenu();
    form.ToggleSubjectMenu();
  }
}
