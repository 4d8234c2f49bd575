# Check-booking workflow, modelled in Dafny

This project models the check-booking feature of an office-space booking web
client. The user types a booking transaction ID and a phone number. The form is
validated, then the booking is looked up. The user can then edit the customer
fields in a draft and save them, or cancel the booking after a confirmation
prompt. The feature exists twice, almost identically: as the state of the
`CheckBooking` page and as the `CheckBookingProvider` context provider.

Both hold the same seven pieces of state: `formData`, `formError`, `isLoading`,
`bookingDetails`, `error`, `editingData` and `isEditing`.

- `Workflow` states, once and as values, what every handler does to that state
  and which effects it emits. A lookup is split into the step before its
  awaited request (`SubmitStart`) and the step after it (`SubmitFinish`).
  Effects are requests, the confirmation prompt, alerts and navigation.
- The classes `CheckBookingPage.CheckBooking` and
  `CheckBookingContext.CheckBookingProvider` hold the seven fields. Their
  methods update those fields step by step, and each method is proved to
  produce exactly the state and effects that `Workflow` gives.
- `Run` replays a sequence of user actions, each completed before the next; a
  lookup completes within its action. The lemmas about it state what holds
  after every completed action:
  - between actions, the loading flag is down;
  - the component is in edit mode exactly when it holds a draft;
  - typing into the draft never touches the displayed booking;
  - a save goes to the update endpoint of the booking that was loaded when
    editing began;
  - through the context, whose value leaves out `handleUpdate`, edit mode can
    never be entered.
- `Validation` models the two zod schemas as functions that return the list of
  issues (field path and message). `Booking` holds the record types, the rule
  that turns a failed request into error text, and the endpoint paths. `Decimal`
  renders numbers, parses them back and groups digits with dots for the amount.

Behaviour of the code that the model keeps as written:
- A valid submit does not clear `formError`, and neither starting nor
  completing a lookup clears `error`; `error` is set only when a request fails
  (src/pages/CheckBooking.tsx:58-85).
- A failed save keeps `isEditing` and the draft; only success leaves edit mode
  (src/pages/CheckBooking.tsx:116-126).
- Starting a new lookup does not discard the draft or leave edit mode
  (src/pages/CheckBooking.tsx:55-86).
- Save never raises `isLoading`; it only clears it
  (src/pages/CheckBooking.tsx:127-129). Delete does not touch `isLoading` at
  all (src/pages/CheckBooking.tsx:133-156).
- `bookingSchema` checks `started_at` only with the date-parse refinement; an
  empty string is rejected only because it does not parse as a date
  (src/types/validationBooking.ts:6).

## Model

| member | source | states |
|---|---|---|
| `Workflow.Initial` | src/pages/CheckBooking.tsx:33-45 | empty form fields, no issues, not loading, no booking, no error, no draft, not editing |
| `Workflow.HandleChange` | src/pages/CheckBooking.tsx:48-53 | the named form input takes the value, the other input keeps its own, and nothing else in the state changes |
| `Workflow.SubmitStart` | src/pages/CheckBooking.tsx:55-74 | an invalid form replaces `formError` with the schema's issues, sends no request and changes nothing else; a valid form raises only `isLoading` and posts the form to `check-booking` |
| `Workflow.SubmitFinish` | src/pages/CheckBooking.tsx:76-85 | `isLoading` drops after either outcome; success replaces the booking and keeps `error`; failure stores the error text and keeps the booking; form, issues, draft and edit mode are untouched |
| `Workflow.HandleSubmit` | src/pages/CheckBooking.tsx:55-86 | a whole lookup: an invalid form yields no request and only new issues; a valid one yields exactly one POST, ends not loading, and either replaces the booking or stores the error text, with every other field unchanged |
| `Workflow.HandleUpdate` | src/pages/CheckBooking.tsx:88-92 | without a booking nothing changes; otherwise edit mode starts with a draft equal to the booking, and nothing else changes |
| `Workflow.HandleEditChange` | src/pages/CheckBooking.tsx:94-100 | without a draft nothing changes; otherwise the named draft field takes the value, every other draft field keeps its own, and the booking and all other state are untouched |
| `Workflow.HandleSaveUpdate` | src/pages/CheckBooking.tsx:102-131 | without a draft nothing happens; otherwise the whole draft is PATCHed to `update-booking/{draft id}`; success installs the server record, leaves edit mode, drops the draft and navigates to "/"; failure stores the error text, alerts, and keeps booking, draft and edit mode; `isLoading` is never raised |
| `Workflow.HandleDelete` | src/pages/CheckBooking.tsx:133-156 | without a booking nothing happens; otherwise the user is prompted first; a refusal changes nothing and sends nothing; after a yes, `cancel-booking/{id}` is called; success clears the booking and alerts; failure stores the error text and keeps the booking; only `bookingDetails` and `error` can change |
| `Workflow.RunSettled` | src/pages/CheckBooking.tsx:88-131 | after every completed action from mount (a lookup completes within its action), no lookup is loading and the page is in edit mode exactly when it holds a draft |
| `Workflow.DraftTypingKeepsBooking` | src/pages/CheckBooking.tsx:94-100 | any run of draft edits leaves the displayed booking and the edit mode unchanged, and the draft keeps its id and every non-editable field |
| `Workflow.SaveTargetsLoadedBooking` | src/pages/CheckBooking.tsx:88-114 | entering edit mode, typing, then saving PATCHes the edited draft to the update endpoint of the booking that was on display, and that booking is still displayed before the save |
| `Workflow.LastTypedValueInDraft` | src/pages/CheckBooking.tsx:94-100 | after a run of draft edits, the last field typed into holds the last value typed |
| `Workflow.LookupIdempotent` | src/pages/CheckBooking.tsx:55-86 | repeating a lookup with the same form and the same answer lands on the same state and emits the same effects |
| `Booking.SetFormValue` | src/pages/CheckBooking.tsx:49-52 | the spread update sets the named form field and keeps the other |
| `Booking.SetDraftValue` | src/pages/CheckBooking.tsx:96-99 | the spread update sets the named draft field; all other fields of the record are kept |
| `Booking.ErrorText` | src/pages/CheckBooking.tsx:77-82 | an HTTP-client error shows its own message; any other failure shows exactly "An unexpected error occurred" |
| `Workflow.SameErrorRuleEverywhere` | src/pages/CheckBooking.tsx:120-126 | a failed lookup, a failed save and a failed cancellation store the same text for the same failure: the HTTP-client error's own message, or "An unexpected error occurred" for anything else |
| `Booking.UpdatePath` | src/pages/CheckBooking.tsx:107 | the path is `update-booking/` followed by the id's canonical numeral: digits only, no leading zero, reading back as the booking id |
| `Booking.PathsOfFirstBooking` | src/tests/unit/CheckBooking.test.tsx:200-202 | booking 1 is saved to exactly `update-booking/1` and cancelled at `cancel-booking/1` |
| `Booking.CancelPath` | src/pages/CheckBooking.tsx:139 | the path is `cancel-booking/` followed by the id's canonical numeral: digits only, no leading zero, reading back as the booking id |
| `Booking.EndpointsDistinct` | src/pages/CheckBooking.tsx:106-145 | two update paths, or two cancel paths, are equal exactly when the ids are; an update path never equals a cancel path |
| `Validation.MinLength1` | src/types/validationBooking.ts:11 | a string field passes exactly when it has at least one character; otherwise it gives one issue at its own path with its message |
| `Validation.ViewBookingIssues` | src/types/validationBooking.ts:10-13 | no issue exactly when both fields are non-empty; an issue names `booking_trx_id` (resp. `phone_number`) exactly when that field is empty; every issue has that field's path and message; one issue per violated field, `booking_trx_id` first |
| `Validation.NumberMin1` | src/types/validationBooking.ts:7 | a JavaScript number passes exactly when it is not NaN and at least 1, fractions included; NaN gives one issue with zod's type message, a number below 1 one issue with the field's message |
| `Validation.OfficeSpaceIdCases` | src/types/validationBooking.ts:7 | 1.5 passes, 0.5 is reported as required, NaN is reported as not a number |
| `Validation.BookingIssues` | src/types/validationBooking.ts:3-8 | no issue exactly when name and phone are non-empty, `started_at` parses as a date and `office_space_id` is a number of at least 1; each field is reported exactly when its check fails, once, with its own message ("Invalid Date"; "Office space ID is required" for a number below 1, zod's type message for NaN), in the schema's key order: name, phone_number, started_at, office_space_id |
| `Decimal.DecimalString` | src/pages/CheckBooking.tsx:107 | the numeral JavaScript prints for a whole number below 2^53 in `${id}` and `{duration}` (lines 139, 411 too): one or more digits with no leading zero, a single digit exactly for numbers below 10 |
| `Decimal.ParseDecimalString` | src/pages/CheckBooking.tsx:410-411 | the numeral printed for a number reads back as that number |
| `Decimal.DecimalStringInjective` | src/pages/CheckBooking.tsx:107 | different ids print as different numerals |
| `Decimal.CanonicalNumeral` | src/pages/CheckBooking.tsx:107 | a digit string without leading zero is the printed numeral of its own value, so the canonical numeral of a number is unique |
| `Decimal.GroupThousands` | src/pages/CheckBooking.tsx:417 | the grouped string has one dot per full group of three digits, contains only digits and dots, and starts and ends with the first and last digit |
| `Decimal.GroupThousandsDotPositions` | src/pages/CheckBooking.tsx:417 | dots stand exactly at every fourth position counted from the end |
| `Decimal.GroupThousandsKeepsDigits` | src/pages/CheckBooking.tsx:417 | removing the dots gives back the digit string |
| `CheckBookingPage.PaidLabel` | src/pages/CheckBooking.tsx:388-402 | "SUCCESS" exactly when `is_paid` is truthy, "PENDING" exactly when it is falsy |
| `CheckBookingPage.DurationText` | src/pages/CheckBooking.tsx:410-412 | the text is the duration's canonical numeral (no leading zero, reading back as the duration), followed by " Days Working" |
| `CheckBookingPage.DurationOfSevenDays` | src/tests/unit/CheckBooking.test.tsx:134-136 | a duration of 7 shows as "7 Days Working" |
| `CheckBookingPage.AmountText` | src/pages/CheckBooking.tsx:414-418 | the text is non-empty and starts with a digit, has dots at exactly every fourth position from the end, and removing the dots leaves the amount's canonical numeral |
| `CheckBookingPage.AmountOfSevenMillion` | src/tests/unit/CheckBooking.test.tsx:138-140 | 7000000 shows as "7.000.000" |
| `CheckBookingPage.ThumbnailUrl` | src/pages/CheckBooking.tsx:252-256 | the image source is the storage base `http://localhost:8000/storage/`, one more '/', then the stored thumbnail path |
| `CheckBookingPage.ActionButton` | src/pages/CheckBooking.tsx:461-497 | the edit, save and cancel buttons are disabled exactly while loading, and read "Loading.." then and their own caption otherwise |
| `CheckBookingPage.SubmitButton` | src/pages/CheckBooking.tsx:235-244 | the submit button is disabled exactly while loading and reads "Loading.." then, "Check Booking" otherwise |
| `CheckBookingPage.FieldErrorLines` | src/pages/CheckBooking.tsx:202-233 | the error line under an input shows exactly when some issue's path names that input, with the page's fixed text |
| `CheckBookingPage.EmptyInputShowsItsError` | src/pages/CheckBooking.tsx:55-62 | submitting with an empty input sends nothing, and the error lines shown are exactly those of the empty inputs |
| `CheckBookingPage.CheckBooking.constructor` | src/pages/CheckBooking.tsx:33-45 | the page mounts in the initial state |
| `CheckBookingPage.CheckBooking.HandleChange` | src/pages/CheckBooking.tsx:48-53 | the fields become `Workflow.HandleChange` of the old state; only `formData` changes |
| `CheckBookingPage.CheckBooking.HandleSubmit` | src/pages/CheckBooking.tsx:55-74 | the fields and emitted effects are those of `Workflow.SubmitStart`; a request goes out only with `isLoading` raised |
| `CheckBookingPage.CheckBooking.ResumeSubmit` | src/pages/CheckBooking.tsx:76-85 | the fields become `Workflow.SubmitFinish` of the old state; `isLoading` ends false |
| `CheckBookingPage.CheckBooking.HandleUpdate` | src/pages/CheckBooking.tsx:88-92 | the fields become `Workflow.HandleUpdate` of the old state; only the draft and the edit flag can change |
| `CheckBookingPage.CheckBooking.HandleEditChange` | src/pages/CheckBooking.tsx:94-100 | the fields become `Workflow.HandleEditChange` of the old state; only the draft can change |
| `CheckBookingPage.CheckBooking.HandleSaveUpdate` | src/pages/CheckBooking.tsx:102-131 | the fields and effects are those of `Workflow.HandleSaveUpdate` with the page's alert text |
| `CheckBookingPage.CheckBooking.HandleDelete` | src/pages/CheckBooking.tsx:133-156 | the fields and effects are those of `Workflow.HandleDelete` with the page's prompt; draft, edit flag and loading flag are untouched |
| `CheckBookingContext.CheckBookingProvider.constructor` | src/context/CheckBookingContext.tsx:15-26 | the provider starts in the initial state |
| `CheckBookingContext.CheckBookingProvider.ContextValue` | src/context/CheckBookingContext.tsx:129-142 | the value carries the seven state fields as they are and exactly the handlers change, submit, editChange, saveUpdate and delete, not `handleUpdate` |
| `CheckBookingContext.CheckBookingProvider.HandleChange` | src/context/CheckBookingContext.tsx:30-32 | the fields become `Workflow.HandleChange` of the old state |
| `CheckBookingContext.CheckBookingProvider.HandleSubmit` | src/context/CheckBookingContext.tsx:34-49 | the fields and effects are those of `Workflow.SubmitStart` |
| `CheckBookingContext.CheckBookingProvider.ResumeSubmit` | src/context/CheckBookingContext.tsx:50-61 | the fields become `Workflow.SubmitFinish` of the old state |
| `CheckBookingContext.CheckBookingProvider.HandleUpdate` | src/context/CheckBookingContext.tsx:63-67 | the fields become `Workflow.HandleUpdate` of the old state |
| `CheckBookingContext.CheckBookingProvider.HandleEditChange` | src/context/CheckBookingContext.tsx:69-72 | the fields become `Workflow.HandleEditChange` of the old state |
| `CheckBookingContext.CheckBookingProvider.HandleSaveUpdate` | src/context/CheckBookingContext.tsx:74-102 | the fields and effects are those of `Workflow.HandleSaveUpdate` with the provider's alert text |
| `CheckBookingContext.CheckBookingProvider.HandleDelete` | src/context/CheckBookingContext.tsx:104-127 | the fields and effects are those of `Workflow.HandleDelete` with the provider's prompt |
| `CheckBookingContext.UseBooking` | src/context/CheckBookingContext.tsx:151-157 | outside a provider it fails with "useBooking must be used within a BookingProvider"; inside one it returns the provider's value unchanged |
| `CheckBookingContext.ContextNeverEdits` | src/context/CheckBookingContext.tsx:129-142 | whatever a consumer does through the context value, after every completed action (a lookup completes within its action) the provider is not in edit mode, holds no draft, and is not loading |
| `CheckBookingContext.ContextSaveAndEditAreInert` | src/context/CheckBookingContext.tsx:69-102 | through the context, saving sends nothing and changes nothing, and typing into the draft changes nothing |

## Left out

- Network I/O: each request becomes a recorded effect, and its response an outcome passed in as a parameter. The host `http://localhost:8000/api/` and the `X-API-KEY` header are not modelled; endpoints are paths relative to the API base.
- Concurrency: overlapping requests, stale responses, unmounting while a request is pending, and React's batching of state setters are not modelled. Each setter takes effect at once, and every action completes before the next begins. Only the lookup is split at its `await`. A save or a delete is one step, because nothing the model reads can change while they await.
- `window.confirm`, `alert` and `navigate("/")`: the user's answer is a boolean parameter; prompts, alerts and navigation are recorded effects.
- `Date.parse`: a date string's validity is a predicate the caller supplies to `Validation.BookingIssues`.
- zod: an issue keeps only its path and message. Its `code`, `minimum` and the other fields are not modelled. Inputs of the wrong JavaScript type (a number where a string is expected, and the reverse) are not modelled; the fields are typed.
- Validation.BookingIssues: `office_space_id` is a finite real or NaN. Infinite values are not modelled, since whether `z.number()` accepts them depends on the zod version. The NaN message is the wording of zod 3.
- Field names: `handleChange` and `handleEditChange` spread `[e.target.name]`. The model covers the inputs the page renders (`booking_trx_id`, `phone_number`; `name`, `phone_number`, `started_at`). It does not cover events with any other name, which in the source would add a new key to the object.
- Copy versus shared reference: the page clones the booking into the draft and the provider shares it. On values the two behave the same, so aliasing is not captured.
- JSX markup, CSS classes, image paths, and the texts of the booking panel beyond those modelled above are not modelled. This includes the choice between `Date` and string for the `started_at` input's value.
- CheckBookingPage.AmountText: covers non-negative whole amounts only; negative and fractional numbers, and the rest of the "id-ID" locale rules, are not modelled. The `|| "N/A"` fallback is never taken for a number, because `toLocaleString` never returns an empty string.
- Booking record: src/types/type.ts is not part of this model. The fields of `BookingDetails` are taken from their uses in the page and its tests. `id`, `duration` and `total_amount` are natural numbers, and `is_paid` is a boolean or a number.
- Number width: ids, durations and amounts are unbounded naturals in the model. The model's printing agrees with JavaScript only below 2^53. At and above 2^53 a JavaScript number is no longer exact (`${2**60}` prints "1152921504606847000"), and from 10^21 on it prints in exponent form ("1e+21"). Those values are not modelled.
- src/components/BrowseOfficeWrapper.tsx is not part of this model: it fetches and renders a listing, with no workflow logic.
