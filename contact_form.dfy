/**
 * The reusable contact form component: its schema and its submit handler,
 * which also calls the optional `onSuccess` callback after a successful
 * submission. The library email check is the parameter `isEmail`.
 */
module ContactForm {
  import opened FormSubmit

  datatype ContactFormData = ContactFormData(
    firstName: string,
    lastName: string,
    email: string,
    phone: string,
    projectType: string,
    budget: string,
    description: string,
    timeline: string,
    company: string)

  /** The fields the schema checks; `phone`, `timeline` and `company` are optional. */
  datatype Field = FirstName | LastName | Email | ProjectType | Budget | Description

  /** The minimum description length of this component. */
  const MinDescription: nat := 20

  /** An untouched form; the selects start on their "" placeholder option. */
  const EmptyContact: ContactFormData := ContactFormData("", "", "", "", "", "", "", "", "")

  /** Whether the schema's rule for one field accepts the form. */
  predicate FieldPasses(f: ContactFormData, field: Field, isEmail: string -> bool)
  {
    match field
    case FirstName => |f.firstName| >= 2
    case LastName => |f.lastName| >= 2
    case Email => isEmail(f.email)
    case ProjectType => |f.projectType| >= 1
    case Budget => |f.budget| >= 1
    case Description => |f.description| >= MinDescription
  }

  /** The fields shown with an error message after a submit attempt. */
  function FieldErrors(f: ContactFormData, isEmail: string -> bool): set<Field>
  {
    set field: Field | !FieldPasses(f, field, isEmail)
  }

  /** `contactSchema` accepts the form. */
  predicate IsValidContact(f: ContactFormData, isEmail: string -> bool)
  {
    FieldErrors(f, isEmail) == {}
  }

  /** The schema, rule by rule. */
  lemma ValidContactIffRules(f: ContactFormData, isEmail: string -> bool)
    ensures IsValidContact(f, isEmail) <==>
      |f.firstName| >= 2 && |f.lastName| >= 2 && isEmail(f.email)
      && f.projectType != "" && f.budget != "" && |f.description| >= 20
  {
    if IsValidContact(f, isEmail) {
      assert FirstName !in FieldErrors(f, isEmail);
      assert LastName !in FieldErrors(f, isEmail);
      assert Email !in FieldErrors(f, isEmail);
      assert ProjectType !in FieldErrors(f, isEmail);
      assert Budget !in FieldErrors(f, isEmail);
      assert Description !in FieldErrors(f, isEmail);
    } else {
      var field :| field in FieldErrors(f, isEmail);
    }
  }

  /** The optional fields never affect validity. */
  lemma OptionalFieldsIgnored(f: ContactFormData, phone: string, timeline: string, company: string, isEmail: string -> bool)
    ensures IsValidContact(f.(phone := phone, timeline := timeline, company := company), isEmail)
      == IsValidContact(f, isEmail)
  {
    var g := f.(phone := phone, timeline := timeline, company := company);
    assert FieldErrors(g, isEmail) == FieldErrors(f, isEmail) by {
      forall field
        ensures FieldPasses(g, field, isEmail) == FieldPasses(f, field, isEmail)
      {
      }
    }
  }

  /** Leaving a select on its placeholder fails: the "" option is never a valid choice. */
  lemma PlaceholderOptionRejected(f: ContactFormData, isEmail: string -> bool)
    requires f.projectType == "" || f.budget == ""
    ensures !IsValidContact(f, isEmail)
    ensures f.projectType == "" ==> ProjectType in FieldErrors(f, isEmail)
    ensures f.budget == "" ==> Budget in FieldErrors(f, isEmail)
  {
    if f.projectType == "" {
      assert ProjectType in FieldErrors(f, isEmail);
    } else {
      assert Budget in FieldErrors(f, isEmail);
    }
  }

  /** An untouched form is rejected on every field but possibly the email. */
  lemma EmptyContactRejected(isEmail: string -> bool)
    ensures !IsValidContact(EmptyContact, isEmail)
    ensures FieldErrors(EmptyContact, isEmail) - {Email} == {FirstName, LastName, ProjectType, Budget, Description}
  {
    assert FirstName in FieldErrors(EmptyContact, isEmail);
  }

  /**
   * `handleSubmit(onSubmit)` for the component: a valid form is submitted,
   * and a successful submission resets it and calls `onSuccess` when the
   * parent passed one.
   */
  method HandleSubmit(form: SubmitState<ContactFormData>, isEmail: string -> bool, succeeded: bool)
    modifies form`values, form`isSubmitting, form`status, form`onSuccessCalls
    ensures !IsValidContact(old(form.values), isEmail) ==>
      (form.values == old(form.values) && form.status == old(form.status)
       && form.isSubmitting == old(form.isSubmitting) && form.onSuccessCalls == old(form.onSuccessCalls))
    ensures IsValidContact(old(form.values), isEmail) ==> !form.isSubmitting
    ensures IsValidContact(old(form.values), isEmail) && succeeded ==>
      form.status == Success && form.values == form.defaults
    ensures IsValidContact(old(form.values), isEmail) && succeeded && form.hasOnSuccess ==>
      form.onSuccessCalls == old(form.onSuccessCalls) + 1
    ensures IsValidContact(old(form.values), isEmail) && !succeeded ==>
      (form.status == Error && form.values == old(form.values) && form.onSuccessCalls == old(form.onSuccessCalls))
  {
    form.Submit(IsValidContact(form.values, isEmail), succeeded);
  }
}
