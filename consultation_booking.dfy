/**
 * The consultation booking form: the list of bookable dates (the next 30
 * days without Saturdays and Sundays), the booking schema, and the submit
 * handler.
 *
 * The calendar is abstracted to day offsets from today and today's weekday
 * (0 = Sunday … 6 = Saturday, as `getDay()` numbers them); the date strings
 * and labels built from them are not modelled. The library email check is
 * the parameter `isEmail`.
 */
module ConsultationBooking {
  import opened Wrappers
  import opened FormSubmit

  // ---------------------------------------------------------------- dates

  /** How many days ahead the date list looks. */
  const WindowDays: nat := 30

  /** The weekday of the day `offset` days after a day with weekday `today`. */
  function Weekday(today: nat, offset: nat): nat
  {
    (today + offset) % 7
  }

  predicate IsBusinessDay(weekday: nat)
  {
    weekday != 0 && weekday != 6
  }

  /** The number of business days among offsets 1..n. */
  ghost function BusinessDays(today: nat, n: nat): nat
  {
    if n == 0 then 0
    else BusinessDays(today, n - 1) + BusinessDayCount(today, n)
  }

  /** 1 when the day at `offset` is a business day, else 0. */
  function BusinessDayCount(today: nat, offset: nat): nat
  {
    if IsBusinessDay(Weekday(today, offset)) then 1 else 0
  }

  /** `getAvailableDates`: the offsets 1..30 whose weekday is neither Sunday nor Saturday, in order. */
  method GetAvailableDates(today: nat) returns (dates: seq<nat>)
    requires today < 7
    ensures forall k :: 0 <= k < |dates| ==> 1 <= dates[k] <= WindowDays && IsBusinessDay(Weekday(today, dates[k]))
    ensures forall i :: 1 <= i <= WindowDays && IsBusinessDay(Weekday(today, i)) ==> i in dates
    ensures forall k, l :: 0 <= k < l < |dates| ==> dates[k] < dates[l]
    ensures |dates| == BusinessDays(today, WindowDays)
    ensures 20 <= |dates| <= 22
  {
    dates := [];
    var i := 1;
    while i <= WindowDays
      invariant 1 <= i <= WindowDays + 1
      invariant forall k :: 0 <= k < |dates| ==> 1 <= dates[k] < i && IsBusinessDay(Weekday(today, dates[k]))
      invariant forall j :: 1 <= j < i && IsBusinessDay(Weekday(today, j)) ==> j in dates
      invariant forall k, l :: 0 <= k < l < |dates| ==> dates[k] < dates[l]
      invariant |dates| == BusinessDays(today, i - 1)
    {
      var day := Weekday(today, i);
      if day != 0 && day != 6 {
        dates := dates + [i];
      }
      i := i + 1;
    }
    WindowHoldsTwentyToTwentyTwo(today);
  }

  /** The weekday of the next day. */
  lemma NextWeekday(today: nat, n: nat)
    ensures Weekday(today, n + 1) == if Weekday(today, n) == 6 then 0 else Weekday(today, n) + 1
  {
    var x := today + n;
    assert x == 7 * (x / 7) + x % 7;
    if x % 7 == 6 {
      assert x + 1 == 7 * (x / 7 + 1);
    } else {
      assert x + 1 == 7 * (x / 7) + (x % 7 + 1);
    }
  }

  /** Any seven consecutive days hold exactly five business days. */
  lemma WeekHasFiveBusinessDays(today: nat, n: nat)
    ensures BusinessDays(today, n + 7) == BusinessDays(today, n) + 5
  {
    assert BusinessDays(today, n + 1) == BusinessDays(today, n) + BusinessDayCount(today, n + 1);
    assert BusinessDays(today, n + 2) == BusinessDays(today, n + 1) + BusinessDayCount(today, n + 2);
    assert BusinessDays(today, n + 3) == BusinessDays(today, n + 2) + BusinessDayCount(today, n + 3);
    assert BusinessDays(today, n + 4) == BusinessDays(today, n + 3) + BusinessDayCount(today, n + 4);
    assert BusinessDays(today, n + 5) == BusinessDays(today, n + 4) + BusinessDayCount(today, n + 5);
    assert BusinessDays(today, n + 6) == BusinessDays(today, n + 5) + BusinessDayCount(today, n + 6);
    assert BusinessDays(today, n + 7) == BusinessDays(today, n + 6) + BusinessDayCount(today, n + 7);
    NextWeekday(today, n + 1);
    NextWeekday(today, n + 2);
    NextWeekday(today, n + 3);
    NextWeekday(today, n + 4);
    NextWeekday(today, n + 5);
    NextWeekday(today, n + 6);
  }

  /** The 30-day window always offers between 20 and 22 dates. */
  lemma WindowHoldsTwentyToTwentyTwo(today: nat)
    ensures 20 <= BusinessDays(today, WindowDays) <= 22
  {
    WeekHasFiveBusinessDays(today, 2);
    WeekHasFiveBusinessDays(today, 9);
    WeekHasFiveBusinessDays(today, 16);
    WeekHasFiveBusinessDays(today, 23);
    assert BusinessDays(today, 1) == BusinessDayCount(today, 1);
    assert BusinessDays(today, 2) == BusinessDays(today, 1) + BusinessDayCount(today, 2);
  }

  // ---------------------------------------------------------------- schema

  datatype BookingForm = BookingForm(
    name: string,
    email: string,
    phone: string,
    company: string,
    projectType: string,
    budget: string,
    preferredDate: string,
    preferredTime: string,
    meetingType: string,
    message: string)

  /** The fields the schema checks; `company` and `message` are optional. */
  datatype Field = Name | Email | Phone | ProjectType | Budget | PreferredDate | PreferredTime | MeetingType

  /** The three meeting kinds of the radio group. */
  const MeetingTypes: seq<string> := ["video", "phone", "in-person"]

  /** An untouched form: every input empty and no meeting type chosen. */
  const EmptyBooking: BookingForm := BookingForm("", "", "", "", "", "", "", "", "", "")

  /** Whether the schema's rule for one field accepts the form. */
  predicate FieldPasses(f: BookingForm, field: Field, isEmail: string -> bool)
  {
    match field
    case Name => |f.name| >= 2
    case Email => isEmail(f.email)
    case Phone => |f.phone| >= 10
    case ProjectType => |f.projectType| >= 1
    case Budget => |f.budget| >= 1
    case PreferredDate => |f.preferredDate| >= 1
    case PreferredTime => |f.preferredTime| >= 1
    case MeetingType => f.meetingType in MeetingTypes
  }

  /** The fields shown with an error message after a submit attempt. */
  function FieldErrors(f: BookingForm, isEmail: string -> bool): set<Field>
  {
    set field: Field | !FieldPasses(f, field, isEmail)
  }

  /** `bookingSchema` accepts the form: no field has an error. */
  predicate IsValidBooking(f: BookingForm, isEmail: string -> bool)
  {
    FieldErrors(f, isEmail) == {}
  }

  /** The schema, rule by rule. */
  lemma ValidBookingIffRules(f: BookingForm, isEmail: string -> bool)
    ensures IsValidBooking(f, isEmail) <==>
      |f.name| >= 2 && isEmail(f.email) && |f.phone| >= 10
      && f.projectType != "" && f.budget != "" && f.preferredDate != "" && f.preferredTime != ""
      && (f.meetingType == "video" || f.meetingType == "phone" || f.meetingType == "in-person")
  {
    if IsValidBooking(f, isEmail) {
      assert Name !in FieldErrors(f, isEmail);
      assert Email !in FieldErrors(f, isEmail);
      assert Phone !in FieldErrors(f, isEmail);
      assert ProjectType !in FieldErrors(f, isEmail);
      assert Budget !in FieldErrors(f, isEmail);
      assert PreferredDate !in FieldErrors(f, isEmail);
      assert PreferredTime !in FieldErrors(f, isEmail);
      assert MeetingType !in FieldErrors(f, isEmail);
    } else {
      var field :| field in FieldErrors(f, isEmail);
    }
  }

  /** The optional fields never affect validity. */
  lemma OptionalFieldsIgnored(f: BookingForm, company: string, message: string, isEmail: string -> bool)
    ensures IsValidBooking(f.(company := company, message := message), isEmail) == IsValidBooking(f, isEmail)
  {
    var g := f.(company := company, message := message);
    assert FieldErrors(g, isEmail) == FieldErrors(f, isEmail) by {
      forall field
        ensures FieldPasses(g, field, isEmail) == FieldPasses(f, field, isEmail)
      {
      }
    }
  }

  /** An untouched form is rejected, with an error on every required field but possibly the email. */
  lemma EmptyBookingRejected(isEmail: string -> bool)
    ensures !IsValidBooking(EmptyBooking, isEmail)
    ensures FieldErrors(EmptyBooking, isEmail) - {Email} ==
      {Name, Phone, ProjectType, Budget, PreferredDate, PreferredTime, MeetingType}
  {
    assert Name in FieldErrors(EmptyBooking, isEmail);
  }

  // ---------------------------------------------------------------- submit

  /** `handleSubmit(onSubmit)` for the booking form. */
  method HandleSubmit(form: SubmitState<BookingForm>, isEmail: string -> bool, succeeded: bool)
    requires !form.hasOnSuccess
    modifies form`values, form`isSubmitting, form`status, form`onSuccessCalls
    ensures form.onSuccessCalls == old(form.onSuccessCalls)
    ensures !IsValidBooking(old(form.values), isEmail) ==>
      (form.values == old(form.values) && form.status == old(form.status) && form.isSubmitting == old(form.isSubmitting))
    ensures IsValidBooking(old(form.values), isEmail) ==> !form.isSubmitting
    ensures IsValidBooking(old(form.values), isEmail) && succeeded ==>
      form.status == Success && form.values == form.defaults
    ensures IsValidBooking(old(form.values), isEmail) && !succeeded ==>
      form.status == Error && form.values == old(form.values)
  {
    form.Submit(IsValidBooking(form.values, isEmail), succeeded);
  }
}
