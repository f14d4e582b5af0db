/**
 * The missing-person report form: its hour and minute option lists, its six
 * state fields with their handlers, the reset driven by the page's counter,
 * and the call it makes on submit.
 */
module MissingPersonForm {
  import opened Wrappers
  import opened JsText
  import opened GrievanceService
  import opened UserDashboard

  /** `Array.from({ length: n }, (_, i) => i.toString().padStart(2, '0'))`. */
  function TwoDigitOptions(n: nat): (r: seq<string>)
    requires n <= 100
    ensures |r| == n
  {
    seq(n, i requires 0 <= i < n => TwoDigits(i))
  }

  /** The hour select's options, one per hour of the day. */
  function Hours(): (r: seq<string>)
    ensures |r| == 24
  {
    TwoDigitOptions(24)
  }

  /** The minute select's options, one per minute of the hour. */
  function Minutes(): (r: seq<string>)
    ensures |r| == 60
  {
    TwoDigitOptions(60)
  }

  /** Option i is a two-digit numeral reading back as i, so the options are
      strictly increasing and all distinct. */
  lemma TwoDigitOptionsRead(n: nat)
    requires n <= 100
    ensures forall i :: 0 <= i < n ==>
      |TwoDigitOptions(n)[i]| == 2 && IsDigits(TwoDigitOptions(n)[i]) && ParseDecimal(TwoDigitOptions(n)[i]) == i
    ensures forall i, j :: 0 <= i < j < n ==> ParseDecimal(TwoDigitOptions(n)[i]) < ParseDecimal(TwoDigitOptions(n)[j])
  {
    forall i | 0 <= i < n
      ensures |TwoDigitOptions(n)[i]| == 2 && IsDigits(TwoDigitOptions(n)[i]) && ParseDecimal(TwoDigitOptions(n)[i]) == i
    {
      TwoDigitsRoundTrip(i);
    }
  }

  /** The hour options: entry i is a two-digit numeral reading back as i. */
  lemma HoursAreTwoDigitNumerals()
    ensures forall i :: 0 <= i < 24 ==> |Hours()[i]| == 2 && IsDigits(Hours()[i]) && ParseDecimal(Hours()[i]) == i
  {
    TwoDigitOptionsRead(24);
  }

  /** The hour options run from "00" to "23". */
  lemma HoursRange()
    ensures Hours()[0] == "00" && Hours()[23] == "23"
  {
    assert Hours()[0] == TwoDigits(0) && Hours()[23] == TwoDigits(23);
    TwoDigitsShape(0);
    TwoDigitsShape(23);
    assert DigitChar(0) == '0' && DigitChar(2) == '2' && DigitChar(3) == '3';
  }

  /** The minute options: entry i is a two-digit numeral reading back as i. */
  lemma MinutesAreTwoDigitNumerals()
    ensures forall i :: 0 <= i < 60 ==> |Minutes()[i]| == 2 && IsDigits(Minutes()[i]) && ParseDecimal(Minutes()[i]) == i
  {
    TwoDigitOptionsRead(60);
  }

  /** The minute options run from "00" to "59". */
  lemma MinutesRange()
    ensures Minutes()[0] == "00" && Minutes()[59] == "59"
  {
    assert Minutes()[0] == TwoDigits(0) && Minutes()[59] == TwoDigits(59);
    TwoDigitsShape(0);
    TwoDigitsShape(59);
    assert DigitChar(0) == '0' && DigitChar(5) == '5' && DigitChar(9) == '9';
  }

  /** The form's data, `MissingPersonFormData`. */
  datatype FormData = FormData(
    personName: string,
    lastSeenLocation: string,
    lastSeenHour: string,
    lastSeenMinute: string,
    details: string,
    photoDataUri: Option<string>)
  {
    /** The data with one text field replaced. */
    function With(field: TextField, value: string): FormData
    {
      match field
      case PersonName => this.(personName := value)
      case LastSeenLocation => this.(lastSeenLocation := value)
      case LastSeenHour => this.(lastSeenHour := value)
      case LastSeenMinute => this.(lastSeenMinute := value)
      case Details => this.(details := value)
    }
  }

  /** The five text inputs and selects, each with its own setter. */
  datatype TextField = PersonName | LastSeenLocation | LastSeenHour | LastSeenMinute | Details

  const Cleared := FormData("", "", "", "", "", None)

  /** The object handed to `handleSubmit`: the six fields, and no `location`. */
  function DetailsOf(d: FormData): (fd: FormDetails)
    ensures fd.location.None?
    ensures fd.personName == Some(d.personName) && fd.details == d.details
    ensures fd.lastSeenLocation == Some(d.lastSeenLocation)
    ensures fd.lastSeenHour == Some(d.lastSeenHour) && fd.lastSeenMinute == Some(d.lastSeenMinute)
    ensures fd.photoDataUri == d.photoDataUri
  {
    FormDetails(d.details, None, Some(d.personName), Some(d.lastSeenLocation),
                Some(d.lastSeenHour), Some(d.lastSeenMinute), d.photoDataUri)
  }

  /** A missing-person report stores no `location`; it stores `personName`,
      `lastSeen` and the photo exactly when they are non-empty, and the last-seen
      text carries the time only when both hour and minute were chosen. */
  lemma StoredMissingPersonReport(d: FormData, user: UserProfile)
    ensures var p := Payload(GrievanceDataOf(MissingPerson, DetailsOf(d), user));
      && LocationKey !in p
      && (PersonNameKey in p <==> d.personName != "")
      && (LastSeenKey in p <==> d.lastSeenLocation != "")
      && (PhotoDataUriKey in p <==> Truthy(d.photoDataUri))
      && p[TypeKey] == TypeValue(MissingPerson)
      && (d.lastSeenLocation != "" && d.lastSeenHour != "" && d.lastSeenMinute != "" ==>
            p[LastSeenKey] == Text(d.lastSeenLocation + " at " + d.lastSeenHour + ":" + d.lastSeenMinute))
      && (d.lastSeenLocation != "" && (d.lastSeenHour == "" || d.lastSeenMinute == "") ==>
            p[LastSeenKey] == Text(d.lastSeenLocation))
  {
  }

  /** The browser's constraint validation: the name input, the three selects
      and the description are `required`, so the form is submitted only when
      none of them is empty. The photo is optional. A freshly reset form is
      never submitted. */
  predicate SubmitAllowed(d: FormData)
    ensures SubmitAllowed(d) ==> d != Cleared
  {
    d.personName != "" && d.lastSeenLocation != "" && d.lastSeenHour != ""
    && d.lastSeenMinute != "" && d.details != ""
  }

  /** A report the browser lets through stores the name and the full last-seen
      text with its time; the photo is the only optional property that may be
      missing, and `location` is never stored. */
  lemma SubmittedReportStoresNameAndTime(d: FormData, user: UserProfile)
    requires SubmitAllowed(d)
    ensures var p := Payload(GrievanceDataOf(MissingPerson, DetailsOf(d), user));
      && p.Keys == MandatoryKeys + {PersonNameKey, LastSeenKey} + (if Truthy(d.photoDataUri) then {PhotoDataUriKey} else {})
      && p[PersonNameKey] == Text(d.personName)
      && p[LastSeenKey] == Text(d.lastSeenLocation + " at " + d.lastSeenHour + ":" + d.lastSeenMinute)
  {
    var p := Payload(GrievanceDataOf(MissingPerson, DetailsOf(d), user));
    StoredMissingPersonReport(d, user);
    assert p.Keys <= MandatoryKeys + OptionalKeys;
  }

  /** A click on the submit button: disabled while `loading`, and blocked by
      validation when a required field is empty; otherwise `onSubmit` makes
      one `handleSubmit('Missing Person', {...}, user)` call with the form's data. */
  function SubmitButtonCall(d: FormData, user: Option<UserProfile>, loading: bool): (call: Option<SubmitCall>)
    ensures call.None? <==> loading || !SubmitAllowed(d)
    ensures call.Some? ==> call.value.kind == MissingPerson && call.value.user == user
    ensures call.Some? ==> call.value.details == DetailsOf(d)
  {
    if loading || !SubmitAllowed(d) then None else Some(SubmitCall(MissingPerson, DetailsOf(d), user))
  }

  /** A click on the remove-photo button: the photo becomes null and nothing
      else changes. The button has no `type`, so it is a submit button, but the
      click's own update unmounts it before the browser would submit, and a
      button outside the form submits nothing. */
  function RemovePhotoClick(d: FormData): (r: FormData)
    ensures r.photoDataUri.None? && r.(photoDataUri := d.photoDataUri) == d
    ensures SubmitAllowed(r) <==> SubmitAllowed(d)
  {
    d.(photoDataUri := None)
  }

  /** Enter in the name input as written: implicit submission clicks the form's
      first submit button. While a photo is shown that is the remove-photo
      button, so Enter only clears the photo; otherwise it is the submit button. */
  function EnterInName(d: FormData, user: Option<UserProfile>, loading: bool): (r: (FormData, Option<SubmitCall>))
    ensures r.1.None? <==> Truthy(d.photoDataUri) || loading || !SubmitAllowed(d)
    ensures r.1.Some? ==> r.1.value == SubmitCall(MissingPerson, DetailsOf(d), user)
    ensures r.0 == if Truthy(d.photoDataUri) then RemovePhotoClick(d) else d
  {
    if Truthy(d.photoDataUri) then (RemovePhotoClick(d), None) else (d, SubmitButtonCall(d, user, loading))
  }

  /** Enter in the name input as evidently intended, with the remove-photo
      button a `type="button"` like the upload button beside it: the submit
      button is then always the default button, so Enter sends the report
      exactly when a click on it would, and never changes the form. */
  function EnterInNameAsIntended(d: FormData, user: Option<UserProfile>, loading: bool): (r: (FormData, Option<SubmitCall>))
    ensures r.0 == d
    ensures r.1.None? <==> loading || !SubmitAllowed(d)
    ensures r.1.Some? ==> r.1.value == SubmitCall(MissingPerson, DetailsOf(d), user)
  {
    (d, SubmitButtonCall(d, user, loading))
  }

  /** On a filled form with a photo shown and no report pending, Enter in the
      name input sends nothing and drops the photo, where the intended form
      would send the report with its photo. */
  lemma EnterWithPhotoShownDropsPhoto(d: FormData, user: Option<UserProfile>)
    requires SubmitAllowed(d) && Truthy(d.photoDataUri)
    ensures EnterInName(d, user, false).1.None? && EnterInName(d, user, false).0.photoDataUri.None?
    ensures EnterInNameAsIntended(d, user, false).1 == Some(SubmitCall(MissingPerson, DetailsOf(d), user))
    ensures EnterInNameAsIntended(d, user, false).1.value.details.photoDataUri == d.photoDataUri
  {
  }

  /** The state of one `MissingPersonForm` component. */
  class MissingPersonFormState {
    var personName: string
    var lastSeenLocation: string
    var lastSeenHour: string
    var lastSeenMinute: string
    var details: string
    var photoDataUri: Option<string>
    /** The value of the hidden file input. */
    var fileInputValue: string
    /** The `resetCounter` prop the reset effect last ran for. */
    var seenResetCounter: int

    function Data(): FormData
      reads this
    {
      FormData(personName, lastSeenLocation, lastSeenHour, lastSeenMinute, details, photoDataUri)
    }

    /** Mounting: every field starts empty and the reset effect runs once. */
    constructor (resetCounter: int)
      ensures Data() == Cleared && fileInputValue == "" && seenResetCounter == resetCounter
    {
      personName, lastSeenLocation, lastSeenHour, lastSeenMinute, details := "", "", "", "", "";
      photoDataUri := None;
      fileInputValue := "";
      seenResetCounter := resetCounter;
    }

    /** `onReset`: the five text fields become '' and the photo null; the file input is cleared. */
    method OnReset()
      modifies this
      ensures Data() == Cleared && fileInputValue == ""
      ensures seenResetCounter == old(seenResetCounter)
    {
      personName := "";
      lastSeenLocation := "";
      lastSeenHour := "";
      lastSeenMinute := "";
      details := "";
      photoDataUri := None;
      fileInputValue := "";
    }

    /** The effect on `[resetCounter]`: a reset whenever the counter changed. */
    method ResetCounterChanged(resetCounter: int)
      modifies this
      ensures seenResetCounter == resetCounter
      ensures resetCounter != old(seenResetCounter) ==> Data() == Cleared && fileInputValue == ""
      ensures resetCounter == old(seenResetCounter) ==>
        Data() == old(Data()) && fileInputValue == old(fileInputValue)
    {
      if resetCounter != seenResetCounter {
        OnReset();
      }
      seenResetCounter := resetCounter;
    }

    /** The `onChange` / `onValueChange` setter of one text field. */
    method Edit(field: TextField, value: string)
      modifies this
      ensures Data() == old(Data()).With(field, value)
      ensures fileInputValue == old(fileInputValue) && seenResetCounter == old(seenResetCounter)
    {
      match field {
        case PersonName => personName := value;
        case LastSeenLocation => lastSeenLocation := value;
        case LastSeenHour => lastSeenHour := value;
        case LastSeenMinute => lastSeenMinute := value;
        case Details => details := value;
      }
    }

    /** A change of the hidden file input, handled by `handlePhotoChange`.
        `selection` is the input's new value, `None` when the change leaves no
        file chosen; `readResult` is the `FileReader`'s result when the read
        of the chosen file ends, `None` (null) when the read failed. A chosen
        file replaces the photo with that result; no file leaves it as it was. */
    method PhotoChanged(selection: Option<string>, readResult: Option<string>)
      modifies this`photoDataUri, this`fileInputValue
      ensures fileInputValue == selection.GetOr("")
      ensures photoDataUri == if selection.Some? then readResult else old(photoDataUri)
    {
      fileInputValue := selection.GetOr("");
      if selection.Some? {
        photoDataUri := readResult;
      }
    }

    /** A click on the remove-photo button: the photo becomes null and the
        file input is cleared; no report is sent. */
    method RemovePhoto()
      modifies this`photoDataUri, this`fileInputValue
      ensures Data() == RemovePhotoClick(old(Data())) && fileInputValue == ""
    {
      photoDataUri := None;
      fileInputValue := "";
    }

    /** A click on the submit button at the foot of the form. */
    method Submit(user: Option<UserProfile>, loading: bool) returns (call: Option<SubmitCall>)
      ensures call == SubmitButtonCall(Data(), user, loading)
    {
      if loading || !SubmitAllowed(Data()) {
        return None;
      }
      call := Some(SubmitCall(MissingPerson, DetailsOf(Data()), user));
    }

    /** Enter in the name input, as `EnterInName` describes it. */
    method PressEnterInName(user: Option<UserProfile>, loading: bool) returns (call: Option<SubmitCall>)
      modifies this`photoDataUri, this`fileInputValue
      ensures (Data(), call) == EnterInName(old(Data()), user, loading)
      ensures fileInputValue == if Truthy(old(photoDataUri)) then "" else old(fileInputValue)
    {
      if Truthy(photoDataUri) {
        RemovePhoto();
        call := None;
      } else {
        call := Submit(user, loading);
      }
    }
  }
}
