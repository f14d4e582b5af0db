/**
 * The user dashboard page: relative timestamps on missing-person cards, the
 * grievance submit handler shared by both report forms, and the page state
 * that navigation requests change.
 */
module UserDashboard {
  import opened Wrappers
  import opened JsText
  import opened GrievanceService
  import Chatbot

  /** A venue location offered by the report forms. */
  datatype Location = Location(name: string, area: string)

  /** The signed-in user's profile. */
  datatype UserProfile = UserProfile(id: string, fullName: string, email: string, phone: string)

  /** A store timestamp; only its whole seconds are read. */
  datatype Timestamp = Timestamp(seconds: int)

  // ---------------------------------------------------------------------------
  // formatTimestamp

  /** `Math.floor((now - seconds * 1000) / 60000)`: whole minutes elapsed,
      rounded down (so a timestamp in the future gives a negative count). */
  function MinutesSince(seconds: int, nowMs: int): (d: int)
    ensures d * 60000 <= nowMs - seconds * 1000 < (d + 1) * 60000
  {
    (nowMs - seconds * 1000) / 60000
  }

  /** `formatTimestamp(timestamp)` at time `nowMs` (milliseconds since the
      epoch); `localeDate` stands for `Date.prototype.toLocaleDateString`. */
  function FormatTimestamp(ts: Option<Timestamp>, nowMs: int, localeDate: int -> string): (r: string)
    ensures ts.None? ==> r == "N/A"
    ensures ts.Some? && nowMs < ts.value.seconds * 1000 + 60000 ==> r == "Just now"
    ensures ts.Some? && nowMs >= ts.value.seconds * 1000 + 1440 * 60000 ==> r == localeDate(ts.value.seconds * 1000)
  {
    match ts
    case None => "N/A"
    case Some(t) =>
      var d := MinutesSince(t.seconds, nowMs);
      if d < 1 then "Just now"
      else if d < 60 then NatToDecimal(d) + "m ago"
      else if d < 1440 then NatToDecimal(d / 60) + "h ago"
      else localeDate(t.seconds * 1000)
  }

  /** Between one minute and an hour: the decimal minute count followed by "m ago". */
  lemma FormatMinutesAgo(t: Timestamp, nowMs: int, localeDate: int -> string)
    requires 1 <= MinutesSince(t.seconds, nowMs) < 60
    ensures var r := FormatTimestamp(Some(t), nowMs, localeDate);
      && |r| > 5 && r[|r| - 5..] == "m ago"
      && IsDigits(r[..|r| - 5]) && ParseDecimal(r[..|r| - 5]) == MinutesSince(t.seconds, nowMs)
  {
    var d := MinutesSince(t.seconds, nowMs);
    var r := FormatTimestamp(Some(t), nowMs, localeDate);
    assert r == NatToDecimal(d) + "m ago";
    assert r[..|r| - 5] == NatToDecimal(d);
    ParseNatToDecimal(d);
  }

  /** Between an hour and a day: the whole hours, 1 to 23, followed by "h ago". */
  lemma FormatHoursAgo(t: Timestamp, nowMs: int, localeDate: int -> string)
    requires 60 <= MinutesSince(t.seconds, nowMs) < 1440
    ensures var r := FormatTimestamp(Some(t), nowMs, localeDate);
      && |r| > 5 && r[|r| - 5..] == "h ago" && IsDigits(r[..|r| - 5])
      && var h := ParseDecimal(r[..|r| - 5]);
         1 <= h <= 23 && h * 60 <= MinutesSince(t.seconds, nowMs) < (h + 1) * 60
  {
    var d := MinutesSince(t.seconds, nowMs);
    var r := FormatTimestamp(Some(t), nowMs, localeDate);
    assert r == NatToDecimal(d / 60) + "h ago";
    assert r[..|r| - 5] == NatToDecimal(d / 60);
    ParseNatToDecimal(d / 60);
  }

  // ---------------------------------------------------------------------------
  // The submit handler

  /** The fields a report form hands to `handleSubmit`; fields a form does not
      send are `None`, as is a `null` photo. */
  datatype FormDetails = FormDetails(
    details: string,
    location: Option<string>,
    personName: Option<string>,
    lastSeenLocation: Option<string>,
    lastSeenHour: Option<string>,
    lastSeenMinute: Option<string>,
    photoDataUri: Option<string>)

  /** One call of a form's `handleSubmit(type, details, user)` prop. */
  datatype SubmitCall = SubmitCall(kind: GrievanceType, details: FormDetails, user: Option<UserProfile>)

  /** The `lastSeen` text: "<location> at <hour>:<minute>" when all three are
      truthy, otherwise the location as it is. */
  function LastSeen(location: Option<string>, hour: Option<string>, minute: Option<string>): (r: Option<string>)
    ensures Truthy(r) <==> Truthy(location)
    ensures !(Truthy(hour) && Truthy(minute)) ==> r == location
    ensures Truthy(location) && Truthy(hour) && Truthy(minute) ==>
      r.Some? && StartsWith(r.value, location.value + " at ")
      && r.value[|location.value| + 4..] == hour.value + ":" + minute.value
  {
    if Truthy(location) && Truthy(hour) && Truthy(minute)
    then
      var text := location.value + " at " + hour.value + ":" + minute.value;
      assert text[..|location.value| + 4] == location.value + " at ";
      Some(text)
    else location
  }

  /** The argument `handleGrievanceSubmit` passes to `createGrievance`: both
      `submittedBy` and `email` are the user's email. */
  function GrievanceDataOf(kind: GrievanceType, details: FormDetails, user: UserProfile): (g: GrievanceData)
    ensures g.kind == kind && g.details == details.details
    ensures g.submittedBy == user.email && g.email == user.email
    ensures g.location == details.location && g.personName == details.personName
    ensures g.photoDataUri == details.photoDataUri
    ensures Truthy(g.lastSeen) <==> Truthy(details.lastSeenLocation)
  {
    GrievanceData(
      kind, details.details, user.email, user.email,
      details.location, details.personName,
      LastSeen(details.lastSeenLocation, details.lastSeenHour, details.lastSeenMinute),
      details.photoDataUri)
  }

  datatype Toast = Toast(title: string, description: string, destructive: bool)

  /** The callbacks `handleGrievanceSubmit` invokes, and the store call it makes. */
  datatype Effect = SetLoading(on: bool) | ShowToast(toast: Toast) | StoreCall(record: Record) | ResetForms

  const NotSignedIn := Toast("Error", "You must be logged in to submit a grievance.", true)

  function SubmittedToast(kind: GrievanceType): Toast
  {
    Toast("Grievance Submitted", "Your report for \"" + TypeName(kind) + "\" has been received.", false)
  }

  function FailedToast(message: string): Toast
  {
    Toast("Error", "Failed to submit grievance: " + message, true)
  }

  /** The sign-in toast is destructive and the success toast is not; the
      success toast names the report's type in quotes. */
  lemma ToastsOfSubmit(kind: GrievanceType)
    ensures NotSignedIn.destructive && NotSignedIn.title == "Error"
    ensures var t := SubmittedToast(kind);
      && t.title == "Grievance Submitted" && !t.destructive
      && |t.description| > 18 + |TypeName(kind)|
      && t.description[16] == '"' && t.description[17 + |TypeName(kind)|] == '"'
      && t.description[17..17 + |TypeName(kind)|] == TypeName(kind)
  {
  }

  /** The failure toast is destructive and ends with the error's message. */
  lemma FailedToastCarriesMessage(message: string)
    ensures var t := FailedToast(message);
      && t.title == "Error" && t.destructive
      && |t.description| == 28 + |message| && t.description[28..] == message
  {
  }

  /** The effects after the store call: a success toast and the reset, or a
      failure toast with the thrown error's message. */
  function OutcomeEffects(kind: GrievanceType, store: StoreOutcome): (o: seq<Effect>)
    ensures 1 <= |o| <= 2
    ensures forall i :: 0 <= i < |o| ==> !o[i].SetLoading? && !o[i].StoreCall?
    ensures ResetForms in o <==> store.Added?
  {
    match store
    case Added(_) => [ShowToast(SubmittedToast(kind)), ResetForms]
    case Threw(thrown) => [ShowToast(FailedToast(if thrown.ErrorObject? then thrown.message else UnknownErrorMessage))]
  }

  /** The store call and the effects after it, inside the `setLoading(true)` /
      `finally { setLoading(false) }` bracket. */
  function Bracketed(stored: Record, outcome: seq<Effect>): (r: seq<Effect>)
    requires forall i :: 0 <= i < |outcome| ==> !outcome[i].SetLoading? && !outcome[i].StoreCall?
    ensures |r| == |outcome| + 3 && r[0] == SetLoading(true) && r[|r| - 1] == SetLoading(false)
    ensures r[1] == StoreCall(stored) && r[2..] == outcome + [SetLoading(false)]
    ensures forall i :: 0 < i < |r| - 1 ==> !r[i].SetLoading?
    ensures exists i :: 0 <= i < |r| && r[i].StoreCall?
    ensures ResetForms in r <==> ResetForms in outcome
  {
    var r := [SetLoading(true), StoreCall(stored)] + outcome + [SetLoading(false)];
    assert r[1].StoreCall?;
    assert r[2..|r| - 1] == outcome;
    r
  }

  /** The effects of one submit, in order: the store is called exactly when a
      user is signed in, inside a loading bracket; the forms are reset only
      when the store succeeded. */
  function SubmitEffects(kind: GrievanceType, details: FormDetails, user: Option<UserProfile>, store: StoreOutcome)
    : (r: seq<Effect>)
    ensures user.None? ==> r == [ShowToast(NotSignedIn)]
    ensures user.Some? ==>
      && |r| >= 4 && r[0] == SetLoading(true) && r[|r| - 1] == SetLoading(false)
      && r[1] == StoreCall(Payload(GrievanceDataOf(kind, details, user.value)))
      && (forall i :: 0 < i < |r| - 1 ==> !r[i].SetLoading?)
    ensures user.Some? && store.Added? ==>
      r[2..] == [ShowToast(SubmittedToast(kind)), ResetForms, SetLoading(false)]
    ensures user.Some? && store.Threw? ==>
      r[2..] == [ShowToast(FailedToast(if store.thrown.ErrorObject? then store.thrown.message else UnknownErrorMessage)),
                 SetLoading(false)]
    ensures (exists i :: 0 <= i < |r| && r[i].StoreCall?) <==> user.Some?
    ensures (exists i :: 0 <= i < |r| && r[i] == ResetForms) <==> user.Some? && store.Added?
  {
    match user
    case None => [ShowToast(NotSignedIn)]
    case Some(u) => Bracketed(Payload(GrievanceDataOf(kind, details, u)), OutcomeEffects(kind, store))
  }

  /** `handleGrievanceSubmit(type, details, user, setLoading, toast, resetForms)`:
      `effects` lists the callback invocations and the store call in the order made. */
  method HandleGrievanceSubmit(kind: GrievanceType, details: FormDetails, user: Option<UserProfile>, store: StoreOutcome)
    returns (effects: seq<Effect>)
    ensures effects == SubmitEffects(kind, details, user, store)
  {
    if user.None? {
      effects := [ShowToast(NotSignedIn)];
      return;
    }
    effects := [SetLoading(true)];
    var data := GrievanceDataOf(kind, details, user.value);
    var stored, result := CreateGrievance(data, store);
    effects := effects + [StoreCall(stored)];
    var outcome: seq<Effect>;
    match result {
      case Ok(_) =>
        outcome := [ShowToast(SubmittedToast(kind)), ResetForms];
      case Err(message) =>
        outcome := [ShowToast(FailedToast(message))];
    }
    assert outcome == OutcomeEffects(kind, store);
    effects := effects + outcome + [SetLoading(false)];
    assert effects == Bracketed(stored, outcome);
  }

  /** A stored report carries `lastSeen` exactly when the form gave a non-empty
      last-seen location, whether or not a time was chosen. */
  lemma LastSeenStoredIffLocation(kind: GrievanceType, details: FormDetails, user: UserProfile)
    ensures LastSeenKey in Payload(GrievanceDataOf(kind, details, user)) <==> Truthy(details.lastSeenLocation)
  {
  }

  // ---------------------------------------------------------------------------
  // Navigation

  /** What `handleNavigation(action, tab?)` does. */
  datatype NavOutcome = OpenMap | PushRoute(route: string) | SelectTab(tab: string) | NoChange

  function NavigationOutcome(action: string, tab: Option<string>): (r: NavOutcome)
    ensures r.OpenMap? <==> action == "SHOW_USER_MAP"
    ensures r.PushRoute? <==> action != "SHOW_USER_MAP" && StartsWith(action, "/")
    ensures r.PushRoute? ==> r.route == action
    ensures r.SelectTab? <==> action != "SHOW_USER_MAP" && !StartsWith(action, "/") && Truthy(tab)
    ensures r.SelectTab? ==> r.tab == tab.value
  {
    if action == "SHOW_USER_MAP" then OpenMap
    else if StartsWith(action, "/") then PushRoute(action)
    else if Truthy(tab) then SelectTab(tab.value)
    else NoChange
  }

  /** Every chatbot action lands on the page: the two form actions select
      their tabs (their "user/dashboard" is not a route, having no leading
      '/'), and the map action opens the map. */
  lemma ChatActionsOnPage(a: Chatbot.ChatAction)
    ensures var call := Chatbot.NavigationFor(Some(a)).value;
      NavigationOutcome(call.action, call.tab) ==
        match a
        case NavigateToEmergencyForm => SelectTab("medical")
        case NavigateToMissingPersonForm => SelectTab("missing")
        case ShowUserMap => OpenMap
  {
    assert "user/dashboard"[..1] == "u";
  }

  /** The state of `UserDashboardPage` that its handlers change. */
  class DashboardPage {
    var activeTab: string
    var showMapView: bool
    /** Routes pushed on the router, in order. */
    var routes: seq<string>
    var formLoading: bool
    var formResetCounter: int

    constructor ()
      ensures activeTab == "chatbot" && !showMapView && routes == []
      ensures !formLoading && formResetCounter == 0
    {
      activeTab := "chatbot";
      showMapView := false;
      routes := [];
      formLoading := false;
      formResetCounter := 0;
    }

    /** `handleNavigation(action, tab?)`. */
    method HandleNavigation(action: string, tab: Option<string>)
      modifies this
      ensures var o := NavigationOutcome(action, tab);
        && showMapView == (o.OpenMap? || old(showMapView))
        && routes == (if o.PushRoute? then old(routes) + [action] else old(routes))
        && activeTab == (if o.SelectTab? then o.tab else old(activeTab))
      ensures formLoading == old(formLoading) && formResetCounter == old(formResetCounter)
    {
      if action == "SHOW_USER_MAP" {
        showMapView := true;
      } else if StartsWith(action, "/") {
        routes := routes + [action];
      } else {
        if Truthy(tab) {
          activeTab := tab.value;
        }
      }
    }

    /** The "Close Map" button. */
    method CloseMap()
      modifies this`showMapView
      ensures !showMapView
    {
      showMapView := false;
    }

    /** The `setLoading` callback handed to the submit handler. */
    method SetFormLoading(on: bool)
      modifies this`formLoading
      ensures formLoading == on
    {
      formLoading := on;
    }

    /** `resetAllForms`: bumping the counter makes both forms clear themselves. */
    method ResetAllForms()
      modifies this`formResetCounter
      ensures formResetCounter == old(formResetCounter) + 1
    {
      formResetCounter := formResetCounter + 1;
    }
  }

  /** `locations.map(loc => <SelectItem key={loc.area} value={loc.name}>)`:
      one option per location, in order, valued by its name. */
  datatype SelectOption = SelectOption(key: string, value: string)

  function LocationOptions(locations: seq<Location>): (r: seq<SelectOption>)
    ensures |r| == |locations|
    ensures forall i :: 0 <= i < |r| ==> r[i] == SelectOption(locations[i].area, locations[i].name)
  {
    if locations == [] then []
    else [SelectOption(locations[0].area, locations[0].name)] + LocationOptions(locations[1..])
  }
}
