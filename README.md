# Event-safety dashboard: report submission, chat assistant and header rules

The dashboard lets a signed-in attendee do three things:

- report a medical emergency or a missing person through two forms;
- talk to an assistant that can send them to either form or open the venue map;
- see their profile badge in the header.

Staff get a language-model summary of the guard roster.

This project models the rules behind those screens and proves what they
guarantee. The modules follow the program's files:

| module | file it models |
|---|---|
| `GrievanceService` | `src/services/grievance-service.ts` |
| `DashboardSummary` | `src/ai/flows/summarize-dashboard.ts` |
| `UserDashboard` | `src/app/user/dashboard/page.tsx` |
| `Header` | `src/components/header.tsx` |
| `Chatbot` | `src/components/user-dashboard/chatbot.tsx` |
| `MissingPersonForm` | `src/components/user-dashboard/missing-person-form.tsx` |
| `MedicalForm` | `src/components/user-dashboard/medical-form.tsx` |

Two helper modules support them:

- `Wrappers` holds `Option`.
- `JsText` gives the JavaScript string behaviour the code depends on:
  - truthiness of a `string | null | undefined`: present and not empty;
  - `||`;
  - `split` on one character and `join`;
  - `trim` with the full ECMAScript white-space set;
  - `toUpperCase`;
  - `String(n)` and `padStart`.

The model takes the same form as the source.

- **Pure code becomes functions.** `getInitials`, `formatTimestamp`, the `lastSeen` text, the guard counts and the hour/minute lists are functions. Their properties are stated as `ensures` and as lemmas.
- **State updated in place becomes classes.** The component state that handlers change is a class with the component's fields, and each handler is a method with `modifies`: the chat panel, the two forms, the page's tab/map/loading/reset-counter state, and the header's profile badge.
- **`createGrievance` builds its record field by field.** It is a method that assembles the map in the same steps, and its result is proved equal to `Payload`. `Payload` is defined by the same four conditional steps; what is stored is stated separately, in its `ensures`, property by property.
- **The browser's guards are part of the model.** A form with an empty `required` field is not submitted, a disabled submit button does not submit, and a disabled chat input takes no typing. The forms' submit clicks and the chat panel's `SetInput` model the event as the browser delivers it. The missing-person form's remove-photo button has no `type`, so while a photo is shown it is the form's first submit button: Enter in the name input clicks it and only removes the photo (see Findings).
- **`handleGrievanceSubmit` returns its callback trace.** The method returns the calls it makes, in order: `setLoading`, `toast`, the store call and `resetForms`. It is proved equal to `SubmitEffects`.

Everything outside the program becomes a parameter:

- the outcome of the store call (the new id, or the value thrown);
- the chatbot's reply (an output or a failure);
- the results of the header's two queries and the value in local storage;
- the current time in milliseconds;
- the locale date formatter;
- `nanoid` ids;
- the file input's new value and the file reader's result (a data URL, or null when the read fails).

## Model

| member | source | states |
|---|---|---|
| GrievanceService.InitialPayload | src/services/grievance-service.ts:26-33 | the payload literal sets exactly the six always-set properties |
| GrievanceService.Payload | src/services/grievance-service.ts:24-38 | the stored record has the six always-set properties and only the four optional ones besides; status is always new; type, details, submittedBy and email are copied unchanged; each optional property is present exactly when its input is a non-empty string, and then equals it |
| GrievanceService.CreateGrievance | src/services/grievance-service.ts:24-47 | the record built step by step and handed to the store equals `Payload(data)`; a successful store gives success with the returned id; a thrown Error gives its message, any other thrown value "An unknown error occurred" |
| DashboardSummary.FilterStatus | src/ai/flows/summarize-dashboard.ts:118-120 | the filtered list is no longer than the roster and holds only guards of the asked status |
| DashboardSummary.FiltersPartition | src/ai/flows/summarize-dashboard.ts:118-120 | the Active, Standby and Alert lists together are exactly the roster, as multisets |
| DashboardSummary.CountsPartition | src/ai/flows/summarize-dashboard.ts:118-120 | activeGuards + standbyGuards + alertGuards equals the number of guards |
| DashboardSummary.AppendGuardCounts | src/ai/flows/summarize-dashboard.ts:118-120 | appending a guard of status S raises the count for S by one and leaves the other two unchanged |
| DashboardSummary.CountIsPositions | src/ai/flows/summarize-dashboard.ts:118-120 | `filter(...).length` equals the number of roster positions holding that status (an independent counting definition) |
| DashboardSummary.PromptInputOf | src/ai/flows/summarize-dashboard.ts:116-128 | the prompt input keeps guards, alerts and grievances unchanged and adds the three counts, each equal to the positional count, each at most the roster size, summing to it, all zero for an empty roster |
| UserDashboard.MinutesSince | src/app/user/dashboard/page.tsx:58-60 | the minute difference is the floor of the elapsed milliseconds over 60000, negative for a future timestamp |
| UserDashboard.FormatTimestamp | src/app/user/dashboard/page.tsx:56-66 | a missing timestamp gives "N/A"; less than one whole minute elapsed, including a future time, gives "Just now"; a day or more gives the locale date of the timestamp |
| UserDashboard.FormatMinutesAgo | src/app/user/dashboard/page.tsx:63 | for 1 to 59 minutes the text is a decimal numeral followed by "m ago", and the numeral reads back as the minute count |
| UserDashboard.FormatHoursAgo | src/app/user/dashboard/page.tsx:64 | for 60 to 1439 minutes the text is a numeral h followed by "h ago" with 1 <= h <= 23 and h*60 <= minutes < (h+1)*60 |
| UserDashboard.LastSeen | src/app/user/dashboard/page.tsx:203-205 | the text is "<loc> at <hh>:<mm>" when location, hour and minute are all non-empty ("00" counts as given), otherwise the location as it is; it is non-empty exactly when the location is |
| UserDashboard.GrievanceDataOf | src/app/user/dashboard/page.tsx:203-217 | the argument of `createGrievance` has the form's type, details, location, name and photo unchanged, the user's email as both `submittedBy` and `email`, and a `lastSeen` that is non-empty exactly when the last-seen location is |
| UserDashboard.ToastsOfSubmit | src/app/user/dashboard/page.tsx:197-222 | the not-signed-in toast is a destructive "Error"; the success toast is "Grievance Submitted", not destructive, with the report's type between quotes in its text |
| UserDashboard.FailedToastCarriesMessage | src/app/user/dashboard/page.tsx:227 | the failure toast is a destructive "Error" whose text ends with the error message, after the fixed 28-character lead |
| UserDashboard.OutcomeEffects | src/app/user/dashboard/page.tsx:219-228 | after the store call come one or two effects, never a loading change or a store call, with a form reset exactly when the store succeeded |
| UserDashboard.Bracketed | src/app/user/dashboard/page.tsx:199-231 | the store call and what follows it sit between loading on and loading off, with no other loading change; the store is called; a reset happens exactly when the outcome holds one |
| UserDashboard.SubmitEffects | src/app/user/dashboard/page.tsx:188-231 | with no user: one error toast, no store call and no loading change; with a user: loading on first and off last with no other loading change, the store receives the payload built from the form and the user's email, then the success toast and a form reset, or the failure toast with the message and no reset; a store call happens iff a user is signed in, a reset iff a user is signed in and the store succeeded |
| UserDashboard.HandleGrievanceSubmit | src/app/user/dashboard/page.tsx:188-231 | the calls made, in order, are exactly `SubmitEffects`, with the record built by `CreateGrievance` |
| UserDashboard.LastSeenStoredIffLocation | src/app/user/dashboard/page.tsx:203-217 | a stored report carries lastSeen exactly when the form gave a non-empty last-seen location, whether or not a time was chosen |
| UserDashboard.NavigationOutcome | src/app/user/dashboard/page.tsx:249-259 | "SHOW_USER_MAP" opens the map; otherwise an action starting with '/' pushes itself as a route; otherwise a non-empty tab is selected, and nothing changes without one (each direction stated) |
| UserDashboard.ChatActionsOnPage | src/app/user/dashboard/page.tsx:249-259 | each chatbot navigation lands on the page: the two form actions select the medical and missing tabs and are never pushed as routes, the map action opens the map |
| UserDashboard.DashboardPage.constructor | src/app/user/dashboard/page.tsx:238-243 | the page starts on the chatbot tab, map hidden, no form loading, reset counter 0 |
| UserDashboard.DashboardPage.HandleNavigation | src/app/user/dashboard/page.tsx:249-259 | the map flag, the pushed routes and the active tab change exactly as `NavigationOutcome` says and nothing else changes |
| UserDashboard.DashboardPage.CloseMap | src/app/user/dashboard/page.tsx:354 | the map view is hidden |
| UserDashboard.DashboardPage.SetFormLoading | src/app/user/dashboard/page.tsx:238 | the forms' loading flag takes the given value |
| UserDashboard.DashboardPage.ResetAllForms | src/app/user/dashboard/page.tsx:245-247 | the reset counter goes up by one |
| UserDashboard.LocationOptions | src/components/user-dashboard/medical-form.tsx:49 | one option per location, in the given order, keyed by area and valued by name |
| Header.FirstChars | src/components/header.tsx:93 | no more characters than pieces |
| Header.GetInitials | src/components/header.tsx:91-94 | a missing or empty name gives "A"; the initials never contain a lower-case letter |
| Header.FirstCharsOfSplit | src/components/header.tsx:93 | the first characters of `s.split(' ')` are exactly the characters of s that begin a word (an independent definition) |
| Header.InitialsAreWordStarts | src/components/header.tsx:93 | the initials of a non-empty name are its upper-cased word-starting characters |
| Header.FirstCharsLength | src/components/header.tsx:93 | empty pieces contribute nothing: one character per non-empty piece |
| Header.InitialsLength | src/components/header.tsx:93 | the initials have as many characters as `name.split(' ')` has non-empty pieces |
| Header.AllSpacesGiveNoInitials | src/components/header.tsx:93 | a name made only of spaces gives "", not "A" |
| Header.ProfileOf | src/components/header.tsx:48-54 | the display name is username when truthy, else fullName; phone is "" when missing or empty; id and email are copied |
| Header.AvatarFallback | src/components/header.tsx:51 | the display name is truthy iff username or fullName is, and the avatar shows "A" when neither is |
| Header.CollectionsQueried | src/components/header.tsx:36-43 | admin is always queried first; users is queried iff the admin query returned no documents |
| Header.FetchedProfile | src/components/header.tsx:36-57 | the first admin document wins, else the first users document; no profile iff a query failed or both came back empty |
| Header.ProfileDisplay.constructor | src/components/header.tsx:20-21 | no user and loading |
| Header.ProfileDisplay.FetchUser | src/components/header.tsx:25-65 | without a stored email nothing is queried and the user is unchanged; otherwise the collections and the user are as in `CollectionsQueried` and `FetchedProfile`; loading always ends false |
| Chatbot.NavigationFor | src/components/user-dashboard/chatbot.tsx:60-72 | a null action makes no navigation call and every action makes one; only the dashboard actions carry a tab |
| Chatbot.BotMessage | src/components/user-dashboard/chatbot.tsx:56-76 | the appended message is from the bot, with the reply's response, or the fixed apology when the call failed |
| Chatbot.NavigationCalls | src/components/user-dashboard/chatbot.tsx:60-72 | at most one call; none on failure; none iff the action is null |
| Chatbot.IgnoredInput | src/components/user-dashboard/chatbot.tsx:42 | `!input.trim()` holds exactly when every character of the input is white space |
| Chatbot.ChatbotPanel.constructor | src/components/user-dashboard/chatbot.tsx:25-27 | no messages, empty input, not loading |
| Chatbot.ChatbotPanel.Mount | src/components/user-dashboard/chatbot.tsx:36-38 | the list becomes exactly the one bot greeting |
| Chatbot.ChatbotPanel.SetInput | src/components/user-dashboard/chatbot.tsx:114-119 | typing sets the input, except while a reply is pending, when the disabled input keeps its text; nothing else changes |
| Chatbot.ChatbotPanel.BeginSubmit | src/components/user-dashboard/chatbot.tsx:40-54 | nothing is sent and nothing changes iff the input is all white space or a reply is pending; otherwise the user message is appended at the end, the input becomes "", loading is set, and the request carries the input and the history before the new message |
| Chatbot.ChatbotPanel.FinishSubmit | src/components/user-dashboard/chatbot.tsx:56-79 | the bot's answer or the apology is appended, the action's navigation call recorded, and loading ends false |
| Chatbot.ChatbotPanel.HandleChatSubmit | src/components/user-dashboard/chatbot.tsx:40-80 | the whole submit: the guard as above, otherwise user then bot message appended and navigation as `NavigationCalls`; within one mount of the panel, existing messages are never changed or removed |
| MissingPersonForm.TwoDigitOptions | src/components/user-dashboard/missing-person-form.tsx:41-42 | `Array.from({ length: n }, …)` has n entries; their content is stated by `TwoDigitOptionsRead` |
| MissingPersonForm.Hours | src/components/user-dashboard/missing-person-form.tsx:41 | one hour option per hour of the day, 24 in all |
| MissingPersonForm.Minutes | src/components/user-dashboard/missing-person-form.tsx:42 | one minute option per minute, 60 in all |
| MissingPersonForm.TwoDigitOptionsRead | src/components/user-dashboard/missing-person-form.tsx:41-42 | entry i of the n-entry list is two digits reading back as i, so the list is strictly increasing |
| MissingPersonForm.HoursAreTwoDigitNumerals | src/components/user-dashboard/missing-person-form.tsx:41 | each hour option is two digits, entry i reading back as i |
| MissingPersonForm.HoursRange | src/components/user-dashboard/missing-person-form.tsx:41 | the hour options start at "00" and end at "23" |
| MissingPersonForm.MinutesAreTwoDigitNumerals | src/components/user-dashboard/missing-person-form.tsx:42 | each minute option is two digits, entry i reading back as i |
| MissingPersonForm.MinutesRange | src/components/user-dashboard/missing-person-form.tsx:42 | the minute options start at "00" and end at "59" |
| MissingPersonForm.DetailsOf | src/components/user-dashboard/missing-person-form.tsx:80-87 | the submitted object carries exactly the six field values and no location |
| MissingPersonForm.StoredMissingPersonReport | src/components/user-dashboard/missing-person-form.tsx:80-87 | a missing-person report never stores a location; it stores the name, last-seen text and photo exactly when non-empty, with the time only when hour and minute were both chosen |
| MissingPersonForm.SubmitAllowed | src/components/user-dashboard/missing-person-form.tsx:91-127 | the form is submitted only with a name, a last-seen location, hour and minute, and a description (the `required` fields); a freshly reset form never is |
| MissingPersonForm.SubmittedReportStoresNameAndTime | src/components/user-dashboard/missing-person-form.tsx:78-127 | a report the browser lets through stores exactly the six always-set properties, the name, the last-seen text with its time and, when there is one, the photo |
| MissingPersonForm.MissingPersonFormState.constructor | src/components/user-dashboard/missing-person-form.tsx:33-38 | every field starts empty |
| MissingPersonForm.MissingPersonFormState.OnReset | src/components/user-dashboard/missing-person-form.tsx:44-54 | the five text fields become "", the photo null, the file input cleared |
| MissingPersonForm.MissingPersonFormState.ResetCounterChanged | src/components/user-dashboard/missing-person-form.tsx:56-58 | a changed counter resets the form; an unchanged one leaves it as it was |
| MissingPersonForm.MissingPersonFormState.Edit | src/components/user-dashboard/missing-person-form.tsx:91-127 | exactly the edited field takes the new value |
| MissingPersonForm.MissingPersonFormState.PhotoChanged | src/components/user-dashboard/missing-person-form.tsx:60-69 | the file input takes its new value; with a file chosen the photo becomes the reader's result, null when the read failed; with no file the photo is unchanged |
| MissingPersonForm.SubmitButtonCall | src/components/user-dashboard/missing-person-form.tsx:78-145 | the submit button sends nothing while loading or with an empty required field; otherwise one call with type Missing Person, the form's six values and the user |
| MissingPersonForm.RemovePhotoClick | src/components/user-dashboard/missing-person-form.tsx:131-137 | the click makes the photo null and changes nothing else, so the form can be sent afterwards exactly when it could before |
| MissingPersonForm.EnterInName | src/components/user-dashboard/missing-person-form.tsx:91-145 | Enter in the name input sends the report iff no photo is shown, nothing is pending and validation passes; with a photo shown it only removes the photo |
| MissingPersonForm.EnterWithPhotoShownDropsPhoto | src/components/user-dashboard/missing-person-form.tsx:91-145 | on a filled form with a photo and nothing pending, Enter sends nothing and drops the photo, where the intended form sends the report with the photo |
| MissingPersonForm.EnterInNameAsIntended | src/components/user-dashboard/missing-person-form.tsx:134-145 | with the remove-photo button a `type="button"`, Enter never changes the form and sends the report exactly when the submit button would |
| MissingPersonForm.MissingPersonFormState.RemovePhoto | src/components/user-dashboard/missing-person-form.tsx:131-137 | the form data become `RemovePhotoClick` of the old data and the file input is cleared; no report is sent |
| MissingPersonForm.MissingPersonFormState.PressEnterInName | src/components/user-dashboard/missing-person-form.tsx:91-145 | the new form data and the call are those of `EnterInName`; the file input is cleared exactly when the photo was shown |
| MissingPersonForm.MissingPersonFormState.Submit | src/components/user-dashboard/missing-person-form.tsx:78-145 | a click on the submit button makes the call `SubmitButtonCall` gives for the current fields |
| MedicalForm.MedicalDetails | src/components/user-dashboard/medical-form.tsx:40 | the submitted object carries details and location only |
| MedicalForm.StoredMedicalReport | src/components/user-dashboard/medical-form.tsx:40 | a medical report stores its details, its location exactly when one was chosen, the user's email twice, and never a person, last-seen text or photo |
| MedicalForm.SubmitAllowed | src/components/user-dashboard/medical-form.tsx:44-55 | the form is submitted only with a location and details (the `required` fields), so the location then reaches the store |
| MedicalForm.SubmittedReportStoresLocation | src/components/user-dashboard/medical-form.tsx:38-55 | a medical report the browser lets through stores exactly the six always-set properties and the location |
| MedicalForm.MedicalFormState.constructor | src/components/user-dashboard/medical-form.tsx:21-22 | both fields start empty |
| MedicalForm.MedicalFormState.OnReset | src/components/user-dashboard/medical-form.tsx:24-27 | both fields become "" |
| MedicalForm.MedicalFormState.ResetCounterChanged | src/components/user-dashboard/medical-form.tsx:29 | a changed counter resets the form; an unchanged one leaves it as it was |
| MedicalForm.MedicalFormState.SetLocation | src/components/user-dashboard/medical-form.tsx:44 | the location takes the selected value |
| MedicalForm.MedicalFormState.SetDetails | src/components/user-dashboard/medical-form.tsx:55 | the details take the typed value |
| MedicalForm.MedicalFormState.Submit | src/components/user-dashboard/medical-form.tsx:38-57 | no call while loading or with an empty required field; otherwise one call with type Medical Attention, `{details, location}` equal to the current fields, and the user |
| JsText.Truthy | src/services/grievance-service.ts:35-38 | the falsy values of an optional string are exactly null, undefined and "" |
| JsText.Or | src/components/header.tsx:51-53 | JavaScript's or on optional strings gives a or b; it is truthy iff one of them is; it is a when a is truthy |
| JsText.StartsWith | src/app/user/dashboard/page.tsx:252 | `s.startsWith(p)` holds exactly when s is p followed by the rest of s |
| JsText.Split | src/components/header.tsx:93 | at least one piece, and no piece contains the separator |
| JsText.Join | src/components/header.tsx:93 | no pieces join to ""; otherwise the result starts with the first piece |
| JsText.JoinSplit | src/components/header.tsx:93 | joining the pieces of a split with the separator gives the string back |
| JsText.TrimStart | src/components/user-dashboard/chatbot.tsx:42 | a suffix of the input that does not start with white space, everything cut being white space |
| JsText.TrimEnd | src/components/user-dashboard/chatbot.tsx:42 | a prefix of the input that does not end with white space, everything cut being white space |
| JsText.Trim | src/components/user-dashboard/chatbot.tsx:42 | `s.trim()` is no longer than s and neither starts nor ends with white space |
| JsText.TrimEmptyIffBlank | src/components/user-dashboard/chatbot.tsx:42 | `s.trim()` is empty exactly when every character of s is white space |
| JsText.ToUpper | src/components/header.tsx:93 | same length, each character upper-cased, no lower-case letter left |
| JsText.NatToDecimal | src/app/user/dashboard/page.tsx:63 | a non-empty string of digits without a leading zero |
| JsText.ParseNatToDecimal | src/app/user/dashboard/page.tsx:63 | the decimal numeral of n reads back as n |
| JsText.PadStart | src/components/user-dashboard/missing-person-form.tsx:41 | the result is at least the width, ends with the input, and is filled in front with the pad character |
| JsText.TwoDigitsRoundTrip | src/components/user-dashboard/missing-person-form.tsx:41 | `i.toString().padStart(2, '0')` for i < 100 is two digits reading back as i |

## Findings

| source | as written | input that shows it | evidently intended | confidence | as-written member | corrected member |
|---|---|---|---|---|---|---|
| src/components/user-dashboard/missing-person-form.tsx:134 | the remove-photo `Button` inside the form has no `type`, so it is a submit button, and while a photo is shown it comes before the submit button at :145 and is the form's default button | a form with every required field filled and a photo, nothing pending: Enter in the name input clicks the remove-photo button, which drops the photo and sends nothing | `type="button"`, as on the upload button at :139: Enter submits through :145 and the report keeps its photo | medium, not executed; it depends on the `Button` wrapper rendering a plain `<button>` | MissingPersonForm.EnterWithPhotoShownDropsPhoto | MissingPersonForm.EnterInNameAsIntended |

## Left out

- Database access is not modelled. Each query, `addDoc` call and `updateDoc` call is a parameter holding its result, or a recorded call. This covers the page's own user lookup (the users collection, `limit(1)`), the missing-person snapshot subscription and the notifications panel with its mark-as-read.
- The language-model calls are not modelled. The summary prompt and its text are not part of this model. The chatbot flow is an arbitrary `ChatReply`.
- The page's location fetch from the feed backend (`fetchLocations` and its error toast) is not modelled; the locations are an input of `LocationOptions`.
- `toLocaleDateString` is an opaque function parameter. The clock is a `nowMs` parameter.
- `nanoid`, `FileReader`, `localStorage`, the router and the toast are parameters or recorded calls. A pushed route is a list entry and a toast is an `Effect` value.
- Rendering is not modelled: layout, icons, skeletons, the carousel markup, the "Change Photo"/"Upload Photo" label and scrolling the chat to the bottom.
- Browser validation is modelled only as a `required` field blocking a submit when its value is empty; a value of white space passes, as in the browser. The native validation message is not modelled.
- `createGrievance` is a server action (`'use server'`): the call crosses from the browser to the server. How the framework serialises its argument, its result and a thrown error on the way is not modelled; the thrown value arrives as it was thrown.
- MissingPersonForm.MissingPersonFormState.PhotoChanged: the asynchronous file read is collapsed into the change event; a second change made before the first read ends is not modelled.
- The header's `handleLogout` is not modelled. It removes a local-storage key and pushes a route.
- React scheduling is not modelled. A `useEffect` on `[resetCounter]` becomes an explicit `ResetCounterChanged(c)` call. Batched asynchronous state updates are treated as taking effect in program order.
- The live video stream reconnect and backoff logic is not in any of the modelled files; it is not part of this model.
- JsText.ToUpper: upper-cases the ASCII letters only. JavaScript's Unicode case mapping, including length-changing mappings such as "ß" to "SS", is not modelled.
- Header.GetInitials: `n[0]` is taken per UTF-16 code unit in JavaScript; here a string is a sequence of Unicode characters, so a name starting with an astral character differs.
- JsText.Split: models `split` with a one-character separator only, the only form the code uses.
- UserDashboard.FormatTimestamp: JavaScript numbers are modelled as unbounded integers. Fractional seconds, and the truthiness of the timestamp object beyond present or absent, are not modelled.
- DashboardSummary.PromptInputOf: the prompt's output (`output!`) is not modelled, because it comes from the language model.
- Console logging is left out.
- DashboardSummary.FeedAlert: `current_count` is a JavaScript number, which may be fractional; it is modelled as an integer. No property here depends on it.
- MissingPersonForm.MissingPersonFormState.RemovePhoto: the click submits nothing although the button is a submit button, because React applies the click's own update, which unmounts the button, before the browser runs the button's submit, and a button no longer in the form submits nothing. The form components' `Button` wrapper is not part of this model; it is taken to render a plain `<button>` with the type it is given.
- Chatbot.ChatbotPanel.HandleChatSubmit: the chat and both forms keep their state for one mount only. While the map view is shown (`SHOW_USER_MAP`, src/app/user/dashboard/page.tsx:348-362) the page renders only the map, which unmounts the chat panel and both forms; closing the map mounts them afresh, the chat with only its greeting and the forms empty. A model object stands for one mount.
- MissingPersonForm.MissingPersonFormState.PressEnterInName: Enter in the other controls is not modelled. The description is a `textarea`, where Enter adds a line, and the selects open their lists.
- The carousel's outer guard returns early on an empty list. The "N/A" branch of `formatTimestamp` is modelled as written, but the page never reaches it: src/app/user/dashboard/page.tsx:109 shows "a few moments ago" for a report with no timestamp and calls `formatTimestamp` only with one.
