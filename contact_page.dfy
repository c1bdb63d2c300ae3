/**
 * The contact page's own form: the same fields as the contact form
 * component minus `timeline` and `company`, a shorter minimum description,
 * and a submit handler without an `onSuccess` callback. The library email
 * check is the parameter `isEmail`.
 */
module ContactPage {
  import opened FormSubmit
  import ContactForm

  datatype ContactPageData = ContactPageData(
    firstName: string,
    lastName: string,
    email: string,
    phone: string,
    projectType: string,
    budget: string,
    description: string)

  /** The fields the schema checks; `phone` is optional. */
  datatype Field = FirstName | LastName | Email | ProjectType | Budget | Description

  /** The page accepts descriptions half as long as the component does. */
  const MinDescription: nat := 10

  const EmptyPageForm: ContactPageData := ContactPageData("", "", "", "", "", "", "")

  /** Whether the schema's rule for one field accepts the form. */
  predicate FieldPasses(f: ContactPageData, field: Field, isEmail: string -> bool)
  {
    match field
    case FirstName => |f.firstName| >= 2
    case LastName => |f.lastName| >= 2
    case Email => isEmail(f.email)
    case ProjectType => |f.projectType| >= 1
    case Budget => |f.budget| >= 1
    case Description => |f.description| >= MinDescription
  }

  function FieldErrors(f: ContactPageData, isEmail: string -> bool): set<Field>
  {
    set field: Field | !FieldPasses(f, field, isEmail)
  }

  /** `contactFormSchema` accepts the form. */
  predicate IsValidPageForm(f: ContactPageData, isEmail: string -> bool)
  {
    FieldErrors(f, isEmail) == {}
  }

  /** The schema, rule by rule. */
  lemma ValidPageFormIffRules(f: ContactPageData, isEmail: string -> bool)
    ensures IsValidPageForm(f, isEmail) <==>
      |f.firstName| >= 2 && |f.lastName| >= 2 && isEmail(f.email)
      && f.projectType != "" && f.budget != "" && |f.description| >= 10
  {
    if IsValidPageForm(f, isEmail) {
      assert FirstName !in FieldErrors(f, isEmail);
      assert LastName !in FieldErrors(f, isEmail);
      assert Email !in FieldErrors(f, isEmail);
      assert ProjectType !in FieldErrors(f, isEmail);
      assert Budget !in FieldErrors(f, isEmail);
      assert Description !in FieldErrors(f, isEmail);
    } else {
      var field :| field in FieldErrors(f, isEmail);
    }
  }

  /** The optional phone never affects validity. */
  lemma PhoneIgnored(f: ContactPageData, phone: string, isEmail: string -> bool)
    ensures IsValidPageForm(f.(phone := phone), isEmail) == IsValidPageForm(f, isEmail)
  {
    var g := f.(phone := phone);
    assert FieldErrors(g, isEmail) == FieldErrors(f, isEmail) by {
      forall field
        ensures FieldPasses(g, field, isEmail) == FieldPasses(f, field, isEmail)
      {
      }
    }
  }

  /** Leaving a select on its placeholder fails. */
  lemma PlaceholderOptionRejected(f: ContactPageData, isEmail: string -> bool)
    requires f.projectType == "" || f.budget == ""
    ensures !IsValidPageForm(f, isEmail)
  {
    if f.projectType == "" {
      assert ProjectType in FieldErrors(f, isEmail);
    } else {
      assert Budget in FieldErrors(f, isEmail);
    }
  }

  /** The page's fields, read as a submission of the contact form component. */
  function AsComponentForm(f: ContactPageData, timeline: string, company: string): ContactForm.ContactFormData
  {
    ContactForm.ContactFormData(f.firstName, f.lastName, f.email, f.phone, f.projectType, f.budget,
      f.description, timeline, company)
  }

  /** Whatever the component accepts, the page accepts too. */
  lemma ComponentStricterThanPage(f: ContactPageData, timeline: string, company: string, isEmail: string -> bool)
    requires ContactForm.IsValidContact(AsComponentForm(f, timeline, company), isEmail)
    ensures IsValidPageForm(f, isEmail)
  {
    ContactForm.ValidContactIffRules(AsComponentForm(f, timeline, company), isEmail);
    ValidPageFormIffRules(f, isEmail);
  }

  /** A description of 10 to 19 characters passes the page but fails the component. */
  lemma MidLengthDescriptionSplitsTheForms(f: ContactPageData, timeline: string, company: string, isEmail: string -> bool)
    requires 10 <= |f.description| < 20
    ensures !ContactForm.IsValidContact(AsComponentForm(f, timeline, company), isEmail)
    ensures Description !in FieldErrors(f, isEmail)
  {
    assert ContactForm.Description in ContactForm.FieldErrors(AsComponentForm(f, timeline, company), isEmail);
  }

  /** `handleSubmit(onSubmit)` for the page: there is no `onSuccess` callback here. */
  method HandleSubmit(form: SubmitState<ContactPageData>, isEmail: string -> bool, succeeded: bool)
    requires !form.hasOnSuccess
    modifies form`values, form`isSubmitting, form`status, form`onSuccessCalls
    ensures !IsValidPageForm(old(form.values), isEmail) ==>
      (form.values == old(form.values) && form.status == old(form.status) && form.isSubmitting == old(form.isSubmitting))
    ensures IsValidPageForm(old(form.values), isEmail) ==> !form.isSubmitting
    ensures IsValidPageForm(old(form.values), isEmail) && succeeded ==>
      form.status == Success && form.values == form.defaults
    ensures IsValidPageForm(old(form.values), isEmail) && !succeeded ==>
      form.status == Error && form.values == old(form.values)
    ensures form.onSuccessCalls == old(form.onSuccessCalls)
  {
    form.Submit(IsValidPageForm(form.values, isEmail), succeeded);
  }
}
