/** The details form of src/components/cards/DetailsCard.tsx: three text
    fields set by their inputs, a submit guard, and the submit button's
    `disabled` flag. */
module DetailsCard {
  import opened FortuneTypes

  /** The guard of `handleSubmit` (DetailsCard.tsx:21): JavaScript truthiness of
      two strings, so both must be non-empty. The birth time has no say. */
  predicate SubmitAllowed(name: string, dob: string) {
    name != "" && dob != ""
  }

  /** The button's `disabled={!name || !dob}` (DetailsCard.tsx:87). */
  predicate ButtonDisabled(name: string, dob: string) {
    name == "" || dob == ""
  }

  /** The button is disabled exactly when a submission would be ignored. */
  lemma DisabledIffNotAllowed(name: string, dob: string)
    ensures ButtonDisabled(name, dob) <==> !SubmitAllowed(name, dob)
  {
  }

  /** The arguments `onSubmit` receives. */
  datatype Submission = Submission(name: string, dob: string, birthTime: string)

  class DetailsForm {
    var name: string
    var dob: string
    var birthTime: string

    /** All three fields start empty (DetailsCard.tsx:14-16). */
    constructor ()
      ensures name == "" && dob == "" && birthTime == ""
    {
      name, dob, birthTime := "", "", "";
    }

    /** The `onChange` of the name input. */
    method SetName(value: string)
      modifies this
      ensures name == value && dob == old(dob) && birthTime == old(birthTime)
    {
      name := value;
    }

    /** The `onChange` of the date input. */
    method SetDob(value: string)
      modifies this
      ensures dob == value && name == old(name) && birthTime == old(birthTime)
    {
      dob := value;
    }

    /** The `onChange` of the time input. */
    method SetBirthTime(value: string)
      modifies this
      ensures birthTime == value && name == old(name) && dob == old(dob)
    {
      birthTime := value;
    }

    /** `handleSubmit` (DetailsCard.tsx:19-24): calls `onSubmit` with the current
        fields exactly when name and date are both filled; returns the call
        made, if any. The form itself does not change. */
    method HandleSubmit() returns (call: Option<Submission>)
      ensures call.Some? <==> name != "" && dob != ""
      ensures call.Some? ==> call.value == Submission(name, dob, birthTime)
    {
      if SubmitAllowed(name, dob) {
        call := Some(Submission(name, dob, birthTime));
      } else {
        call := None;
      }
    }

    /** Whether the submit button is disabled now. */
    function SubmitDisabled(): (d: bool)
      reads this
      ensures d <==> name == "" || dob == ""
    {
      ButtonDisabled(name, dob)
    }
  }
}
