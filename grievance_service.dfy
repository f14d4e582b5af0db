/**
 * `createGrievance`: builds the record stored for a user report and hands it
 * to the document store once. The store call itself is not modelled: its
 * outcome (the new document's id, or the value it threw) is a parameter.
 */
module GrievanceService {
  import opened Wrappers
  import opened JsText

  datatype GrievanceType = MedicalAttention | MissingPerson | GeneralGrievance

  function TypeName(t: GrievanceType): string
  {
    match t
    case MedicalAttention => "Medical Attention"
    case MissingPerson => "Missing Person"
    case GeneralGrievance => "General Grievance"
  }

  datatype GrievanceStatus = New | Resolved

  /** The argument of `createGrievance`: four mandatory fields and four
      optional ones (absent, `null` or a string). */
  datatype GrievanceData = GrievanceData(
    kind: GrievanceType,
    details: string,
    submittedBy: string,
    email: string,
    location: Option<string>,
    personName: Option<string>,
    lastSeen: Option<string>,
    photoDataUri: Option<string>)

  /** The property names a stored grievance may carry. */
  datatype Key =
    | TypeKey | DetailsKey | SubmittedByKey | EmailKey | StatusKey | SubmittedAtKey
    | LocationKey | PersonNameKey | LastSeenKey | PhotoDataUriKey

  /** A property value: a string, the type or status enumeration, or the
      store's server-side timestamp marker. */
  datatype Field =
    | Text(text: string)
    | TypeValue(kind: GrievanceType)
    | StatusValue(status: GrievanceStatus)
    | ServerTimestamp

  type Record = map<Key, Field>

  const MandatoryKeys: set<Key> := {TypeKey, DetailsKey, SubmittedByKey, EmailKey, StatusKey, SubmittedAtKey}
  const OptionalKeys: set<Key> := {LocationKey, PersonNameKey, LastSeenKey, PhotoDataUriKey}

  /** The six always-set properties, as the payload literal writes them. */
  function InitialPayload(data: GrievanceData): (p: Record)
    ensures p.Keys == MandatoryKeys
  {
    map[
      TypeKey := TypeValue(data.kind),
      DetailsKey := Text(data.details),
      SubmittedByKey := Text(data.submittedBy),
      EmailKey := Text(data.email),
      StatusKey := StatusValue(New),
      SubmittedAtKey := ServerTimestamp]
  }

  /** `if (value) payload[k] = value`. */
  function SetIfTruthy(payload: Record, k: Key, value: Option<string>): Record
  {
    if Truthy(value) then payload[k := Text(value.value)] else payload
  }

  /** The record `createGrievance` stores for `data`: the literal, then each
      optional property in turn, set only when its input is a non-empty string. */
  function Payload(data: GrievanceData): (p: Record)
    ensures p.Keys <= MandatoryKeys + OptionalKeys
    ensures MandatoryKeys <= p.Keys
    ensures p[StatusKey] == StatusValue(New)
    ensures p[TypeKey] == TypeValue(data.kind)
    ensures p[DetailsKey] == Text(data.details)
    ensures p[SubmittedByKey] == Text(data.submittedBy)
    ensures p[EmailKey] == Text(data.email)
    ensures p[SubmittedAtKey] == ServerTimestamp
    ensures LocationKey in p <==> Truthy(data.location)
    ensures LocationKey in p ==> p[LocationKey] == Text(data.location.value)
    ensures PersonNameKey in p <==> Truthy(data.personName)
    ensures PersonNameKey in p ==> p[PersonNameKey] == Text(data.personName.value)
    ensures LastSeenKey in p <==> Truthy(data.lastSeen)
    ensures LastSeenKey in p ==> p[LastSeenKey] == Text(data.lastSeen.value)
    ensures PhotoDataUriKey in p <==> Truthy(data.photoDataUri)
    ensures PhotoDataUriKey in p ==> p[PhotoDataUriKey] == Text(data.photoDataUri.value)
  {
    var p0 := InitialPayload(data);
    var p1 := SetIfTruthy(p0, LocationKey, data.location);
    var p2 := SetIfTruthy(p1, PersonNameKey, data.personName);
    var p3 := SetIfTruthy(p2, LastSeenKey, data.lastSeen);
    SetIfTruthy(p3, PhotoDataUriKey, data.photoDataUri)
  }

  /** What the thrown value of a failed store call can be. */
  datatype Thrown = ErrorObject(message: string) | OtherValue

  /** The outcome of the single `addDoc` call. */
  datatype StoreOutcome = Added(id: string) | Threw(thrown: Thrown)

  const UnknownErrorMessage := "An unknown error occurred"

  /** `{ success: true, grievanceId }`, or the message of the `Error` thrown. */
  datatype Created = Created(success: bool, grievanceId: string)
  datatype CreateResult = Ok(created: Created) | Err(message: string)

  /** `createGrievance(data)`: builds the payload field by field, stores it
      once (`stored` is the record handed to the store), and reports the outcome. */
  method CreateGrievance(data: GrievanceData, store: StoreOutcome) returns (stored: Record, result: CreateResult)
    ensures stored == Payload(data)
    ensures store.Added? ==> result == Ok(Created(true, store.id))
    ensures store.Threw? && store.thrown.ErrorObject? ==> result == Err(store.thrown.message)
    ensures store.Threw? && store.thrown.OtherValue? ==> result == Err(UnknownErrorMessage)
  {
    var payload := InitialPayload(data);
    if Truthy(data.location) { payload := payload[LocationKey := Text(data.location.value)]; }
    if Truthy(data.personName) { payload := payload[PersonNameKey := Text(data.personName.value)]; }
    if Truthy(data.lastSeen) { payload := payload[LastSeenKey := Text(data.lastSeen.value)]; }
    if Truthy(data.photoDataUri) { payload := payload[PhotoDataUriKey := Text(data.photoDataUri.value)]; }

    stored := payload;
    match store
    case Added(id) =>
      result := Ok(Created(true, id));
    case Threw(thrown) =>
      result := Err(if thrown.ErrorObject? then thrown.message else UnknownErrorMessage);
  }
}
