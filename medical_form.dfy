/**
 * The medical-attention report form: two state fields, the reset driven by
 * the page's counter, and the call it makes on submit.
 */
module MedicalForm {
  import opened Wrappers
  import opened JsText
  import opened GrievanceService
  import opened UserDashboard

  /** The object handed to `handleSubmit`: `{ details, location }` only. */
  function MedicalDetails(details: string, location: string): (fd: FormDetails)
    ensures fd.details == details && fd.location == Some(location)
    ensures fd.personName.None? && fd.lastSeenLocation.None? && fd.lastSeenHour.None?
    ensures fd.lastSeenMinute.None? && fd.photoDataUri.None?
  {
    FormDetails(details, Some(location), None, None, None, None, None)
  }

  /** A medical report stores its details and stores its location exactly when
      one was chosen; it never stores a person, a last-seen text or a photo. */
  lemma StoredMedicalReport(details: string, location: string, user: UserProfile)
    ensures var p := Payload(GrievanceDataOf(MedicalAttention, MedicalDetails(details, location), user));
      && p[TypeKey] == TypeValue(MedicalAttention) && p[DetailsKey] == Text(details)
      && (LocationKey in p <==> location != "")
      && (LocationKey in p ==> p[LocationKey] == Text(location))
      && PersonNameKey !in p && LastSeenKey !in p && PhotoDataUriKey !in p
      && p[SubmittedByKey] == Text(user.email) && p[EmailKey] == Text(user.email)
  {
  }

  /** The browser's constraint validation: the location select and the
      details are `required`, so the form is submitted only when both are
      non-empty, and the location then always reaches the store. */
  predicate SubmitAllowed(details: string, location: string)
    ensures SubmitAllowed(details, location) ==> Truthy(MedicalDetails(details, location).location)
  {
    details != "" && location != ""
  }

  /** A medical report the browser lets through stores exactly the mandatory
      properties and the location. */
  lemma SubmittedReportStoresLocation(details: string, location: string, user: UserProfile)
    requires SubmitAllowed(details, location)
    ensures var p := Payload(GrievanceDataOf(MedicalAttention, MedicalDetails(details, location), user));
      p.Keys == MandatoryKeys + {LocationKey} && p[LocationKey] == Text(location)
  {
    var p := Payload(GrievanceDataOf(MedicalAttention, MedicalDetails(details, location), user));
    StoredMedicalReport(details, location, user);
    assert p.Keys <= MandatoryKeys + OptionalKeys;
  }

  /** The state of one `MedicalAttentionForm` component. */
  class MedicalFormState {
    var medicalDetails: string
    var medicalLocation: string
    /** The `resetCounter` prop the reset effect last ran for. */
    var seenResetCounter: int

    constructor (resetCounter: int)
      ensures medicalDetails == "" && medicalLocation == "" && seenResetCounter == resetCounter
    {
      medicalDetails := "";
      medicalLocation := "";
      seenResetCounter := resetCounter;
    }

    /** `onReset`: both fields become ''. */
    method OnReset()
      modifies this`medicalDetails, this`medicalLocation
      ensures medicalDetails == "" && medicalLocation == ""
    {
      medicalDetails := "";
      medicalLocation := "";
    }

    /** The effect on `[resetCounter]`: a reset whenever the counter changed. */
    method ResetCounterChanged(resetCounter: int)
      modifies this
      ensures seenResetCounter == resetCounter
      ensures resetCounter != old(seenResetCounter) ==> medicalDetails == "" && medicalLocation == ""
      ensures resetCounter == old(seenResetCounter) ==>
        medicalDetails == old(medicalDetails) && medicalLocation == old(medicalLocation)
    {
      if resetCounter != seenResetCounter {
        OnReset();
      }
      seenResetCounter := resetCounter;
    }

    /** The location select's `onValueChange`. */
    method SetLocation(location: string)
      modifies this`medicalLocation
      ensures medicalLocation == location
    {
      medicalLocation := location;
    }

    /** The details textarea's `onChange`. */
    method SetDetails(details: string)
      modifies this`medicalDetails
      ensures medicalDetails == details
    {
      medicalDetails := details;
    }

    /** Submitting the form. While `loading` its submit button is disabled, and
        the browser blocks a submit with an empty required field; otherwise
        `onSubmit` makes one `handleSubmit('Medical Attention', { details, location }, user)` call. */
    method Submit(user: Option<UserProfile>, loading: bool) returns (call: Option<SubmitCall>)
      ensures call.None? <==> loading || !SubmitAllowed(medicalDetails, medicalLocation)
      ensures call.Some? ==> call.value.kind == MedicalAttention && call.value.user == user
      ensures call.Some? ==> call.value.details == MedicalDetails(medicalDetails, medicalLocation)
    {
      if loading || !SubmitAllowed(medicalDetails, medicalLocation) {
        return None;
      }
      call := Some(SubmitCall(MedicalAttention, MedicalDetails(medicalDetails, medicalLocation), user));
    }
  }
}
