/**
 * The submit state shared by the booking form and both contact forms: an
 * `isSubmitting` flag, a three-valued status, the form values that `reset()`
 * restores, and (for the contact form component) the optional `onSuccess`
 * callback, recorded as a count of calls.
 *
 * The awaited 2-second delay is not modelled: a submission is the step
 * that starts it and the step that finishes it, and whether the `try`
 * block completes is a parameter of the finishing step.
 */
module FormSubmit {

  datatype SubmitStatus = Idle | Success | Error

  class SubmitState<T> {
    /** The current contents of the form fields. */
    var values: T
    /** What `reset()` restores. */
    const defaults: T
    var isSubmitting: bool
    var status: SubmitStatus
    /** Whether the parent passed an `onSuccess` callback. */
    const hasOnSuccess: bool
    /** How many times `onSuccess` has been called. */
    var onSuccessCalls: nat

    constructor (defaults: T, hasOnSuccess: bool)
      ensures this.defaults == defaults && values == defaults
      ensures this.hasOnSuccess == hasOnSuccess
      ensures !isSubmitting && status == Idle && onSuccessCalls == 0
    {
      this.defaults := defaults;
      values := defaults;
      this.hasOnSuccess := hasOnSuccess;
      isSubmitting := false;
      status := Idle;
      onSuccessCalls := 0;
    }

    /** The user editing the fields. */
    method Edit(v: T)
      modifies this`values
      ensures values == v
    {
      values := v;
    }

    /** The first two statements of `onSubmit`. */
    method Start()
      modifies this`isSubmitting, this`status
      ensures isSubmitting && status == Idle
    {
      isSubmitting := true;
      status := Idle;
    }

    /**
     * The rest of `onSubmit`: on success the status becomes success, the
     * form is reset and `onSuccess` is called if present; on failure the
     * status becomes error and nothing else changes; the `finally` clears
     * `isSubmitting` either way.
     */
    method Finish(succeeded: bool)
      modifies this`values, this`isSubmitting, this`status, this`onSuccessCalls
      ensures !isSubmitting
      ensures succeeded ==> status == Success && values == defaults
      ensures succeeded && hasOnSuccess ==> onSuccessCalls == old(onSuccessCalls) + 1
      ensures !(succeeded && hasOnSuccess) ==> onSuccessCalls == old(onSuccessCalls)
      ensures !succeeded ==> status == Error && values == old(values)
    {
      if succeeded {
        status := Success;
        values := defaults;
        if hasOnSuccess {
          onSuccessCalls := onSuccessCalls + 1;
        }
      } else {
        status := Error;
      }
      isSubmitting := false;
    }

    /**
     * `handleSubmit(onSubmit)`: `onSubmit` runs only when the values pass the
     * schema; otherwise the state is left as it was and the field errors
     * are shown.
     */
    method Submit(valid: bool, succeeded: bool)
      modifies this`values, this`isSubmitting, this`status, this`onSuccessCalls
      ensures !valid ==> (values == old(values) && isSubmitting == old(isSubmitting)
        && status == old(status) && onSuccessCalls == old(onSuccessCalls))
      ensures valid ==> !isSubmitting
      ensures valid && succeeded ==> status == Success && values == defaults
      ensures valid && succeeded && hasOnSuccess ==> onSuccessCalls == old(onSuccessCalls) + 1
      ensures !(valid && succeeded && hasOnSuccess) ==> onSuccessCalls == old(onSuccessCalls)
      ensures valid && !succeeded ==> status == Error && values == old(values)
    {
      if !valid {
        return;
      }
      Start();
      Finish(succeeded);
    }
  }
}
