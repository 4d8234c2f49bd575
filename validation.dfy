/**
 * The two form schemas: `viewBookingScheme` for the lookup form and
 * `bookingSchema` for a booking's editable fields. Each schema is a list of
 * per-field checks; parsing reports one issue for every field whose check
 * fails, all together and in the schema's field order, and succeeds exactly
 * when there is none.
 */
module Validation {
  import opened Booking

  /** A schema violation: the path of the offending field and its message. */
  datatype Issue = Issue(path: seq<string>, message: string)

  const TRX_ID_KEY := "booking_trx_id"
  const PHONE_KEY := "phone_number"
  const NAME_KEY := "name"
  const STARTED_AT_KEY := "started_at"
  const OFFICE_SPACE_ID_KEY := "office_space_id"

  const TRX_ID_REQUIRED := "Booking transaction ID is required"
  const PHONE_REQUIRED := "Phone number is required"
  const NAME_REQUIRED := "Name is required"
  const INVALID_DATE := "Invalid Date"
  const OFFICE_SPACE_ID_REQUIRED := "Office space ID is required"
  /** zod's own message when `z.number()` receives NaN. */
  const NOT_A_NUMBER := "Expected number, received nan"

  /** Some issue names `key` in its path (what `error.path.includes(key)` looks for). */
  predicate Reports(issues: seq<Issue>, key: string) {
    exists i :: 0 <= i < |issues| && key in issues[i].path
  }

  /** One field check: no issue when it holds, otherwise a single issue at `key`. */
  function Check(ok: bool, key: string, message: string): (r: seq<Issue>)
    ensures ok ==> r == []
    ensures !ok ==> r == [Issue([key], message)]
    ensures forall other :: Reports(r, other) <==> !ok && other == key
  {
    assert !ok ==> Issue([key], message) == [Issue([key], message)][0];
    if ok then [] else [Issue([key], message)]
  }

  /** `z.string().min(1, message)` */
  function MinLength1(key: string, value: string, message: string): (r: seq<Issue>)
    ensures r == [] <==> |value| >= 1
    ensures r != [] ==> r == [Issue([key], message)]
  {
    Check(|value| >= 1, key, message)
  }

  /** The issues `viewBookingScheme.safeParse(form)` reports. */
  function ViewBookingIssues(f: LookupForm): (r: seq<Issue>)
    ensures r == [] <==> |f.bookingTrxId| >= 1 && |f.phoneNumber| >= 1
    ensures Reports(r, TRX_ID_KEY) <==> f.bookingTrxId == ""
    ensures Reports(r, PHONE_KEY) <==> f.phoneNumber == ""
    ensures forall i :: 0 <= i < |r| ==>
      r[i] == Issue([TRX_ID_KEY], TRX_ID_REQUIRED) || r[i] == Issue([PHONE_KEY], PHONE_REQUIRED)
    ensures |r| == (if f.bookingTrxId == "" then 1 else 0) + (if f.phoneNumber == "" then 1 else 0)
    ensures f.bookingTrxId == "" ==> r[0] == Issue([TRX_ID_KEY], TRX_ID_REQUIRED)
    ensures f.phoneNumber == "" ==> r[|r| - 1] == Issue([PHONE_KEY], PHONE_REQUIRED)
  {
    var r := MinLength1(TRX_ID_KEY, f.bookingTrxId, TRX_ID_REQUIRED)
      + MinLength1(PHONE_KEY, f.phoneNumber, PHONE_REQUIRED);
    assert f.bookingTrxId == "" ==> r[0].path == [TRX_ID_KEY];
    assert f.phoneNumber == "" ==> r[|r| - 1].path == [PHONE_KEY];
    r
  }

  /** A JavaScript number as `z.number()` sees it: a finite value, or NaN. */
  datatype JsNumber = Finite(value: real) | NaN

  /**
   * `z.number().min(1, message)`: NaN fails the type check, with zod's own
   * message, and `min` is then not applied; a number below 1, fractions
   * included, fails `min`.
   */
  function NumberMin1(key: string, n: JsNumber, message: string): (r: seq<Issue>)
    ensures r == [] <==> n.Finite? && n.value >= 1.0
    ensures n.NaN? ==> r == [Issue([key], NOT_A_NUMBER)]
    ensures n.Finite? && n.value < 1.0 ==> r == [Issue([key], message)]
    ensures forall other :: Reports(r, other) <==> r != [] && other == key
  {
    match n
    case NaN => Check(false, key, NOT_A_NUMBER)
    case Finite(v) => Check(v >= 1.0, key, message)
  }

  /** The fields `bookingSchema` checks. */
  datatype BookingInput = BookingInput(name: string, phoneNumber: string, startedAt: string, officeSpaceId: JsNumber)

  /** `office_space_id` passes `z.number().min(1)`. */
  predicate OfficeSpaceIdValid(n: JsNumber) {
    n.Finite? && n.value >= 1.0
  }

  /**
   * The issues `bookingSchema.safeParse(input)` reports: one for each field
   * that fails its check, and none when all pass. Whether a string is a date
   * `Date.parse` accepts is the caller's predicate `parsesAsDate`.
   */
  function BookingIssues(b: BookingInput, parsesAsDate: string -> bool): (r: seq<Issue>)
    ensures r == [] <==>
      |b.name| >= 1 && |b.phoneNumber| >= 1 && parsesAsDate(b.startedAt) && OfficeSpaceIdValid(b.officeSpaceId)
    ensures Reports(r, NAME_KEY) <==> b.name == ""
    ensures Reports(r, PHONE_KEY) <==> b.phoneNumber == ""
    ensures Reports(r, STARTED_AT_KEY) <==> !parsesAsDate(b.startedAt)
    ensures Reports(r, OFFICE_SPACE_ID_KEY) <==> !OfficeSpaceIdValid(b.officeSpaceId)
    ensures |r| == (if b.name == "" then 1 else 0) + (if b.phoneNumber == "" then 1 else 0)
      + (if parsesAsDate(b.startedAt) then 0 else 1) + (if OfficeSpaceIdValid(b.officeSpaceId) then 0 else 1)
    ensures forall i :: 0 <= i < |r| ==>
      r[i] in [Issue([NAME_KEY], NAME_REQUIRED), Issue([PHONE_KEY], PHONE_REQUIRED),
               Issue([STARTED_AT_KEY], INVALID_DATE), Issue([OFFICE_SPACE_ID_KEY], OFFICE_SPACE_ID_REQUIRED),
               Issue([OFFICE_SPACE_ID_KEY], NOT_A_NUMBER)]
    ensures b.officeSpaceId.NaN? ==> Issue([OFFICE_SPACE_ID_KEY], NOT_A_NUMBER) in r
    ensures b.officeSpaceId.Finite? && b.officeSpaceId.value < 1.0 ==>
      Issue([OFFICE_SPACE_ID_KEY], OFFICE_SPACE_ID_REQUIRED) in r
    // zod reports the fields in the schema's key order: name, phone_number, started_at, office_space_id
    ensures b.name == "" ==> r[0] == Issue([NAME_KEY], NAME_REQUIRED)
    ensures b.phoneNumber == "" ==> r[if b.name == "" then 1 else 0] == Issue([PHONE_KEY], PHONE_REQUIRED)
    ensures !parsesAsDate(b.startedAt) ==>
      r[|r| - (if OfficeSpaceIdValid(b.officeSpaceId) then 1 else 2)] == Issue([STARTED_AT_KEY], INVALID_DATE)
    ensures !OfficeSpaceIdValid(b.officeSpaceId) ==> r[|r| - 1].path == [OFFICE_SPACE_ID_KEY]
  {
    var nameIssues := MinLength1(NAME_KEY, b.name, NAME_REQUIRED);
    var phoneIssues := MinLength1(PHONE_KEY, b.phoneNumber, PHONE_REQUIRED);
    var dateIssues := Check(parsesAsDate(b.startedAt), STARTED_AT_KEY, INVALID_DATE);
    var officeIssues := NumberMin1(OFFICE_SPACE_ID_KEY, b.officeSpaceId, OFFICE_SPACE_ID_REQUIRED);
    var r := nameIssues + phoneIssues + dateIssues + officeIssues;
    ReportsAppend4(nameIssues, phoneIssues, dateIssues, officeIssues, NAME_KEY);
    ReportsAppend4(nameIssues, phoneIssues, dateIssues, officeIssues, PHONE_KEY);
    ReportsAppend4(nameIssues, phoneIssues, dateIssues, officeIssues, STARTED_AT_KEY);
    ReportsAppend4(nameIssues, phoneIssues, dateIssues, officeIssues, OFFICE_SPACE_ID_KEY);
    r
  }

  /**
   * `office_space_id` as JavaScript delivers it: 1.5 passes, 0.5 is reported as
   * required, and NaN is reported with zod's type message.
   */
  lemma OfficeSpaceIdCases(key: string, message: string)
    ensures NumberMin1(key, Finite(1.5), message) == []
    ensures NumberMin1(key, Finite(0.5), message) == [Issue([key], message)]
    ensures NumberMin1(key, NaN, message) == [Issue([key], NOT_A_NUMBER)]
  {
  }

  /** An issue list built from four parts reports a key iff one of the parts does. */
  lemma ReportsAppend4(a: seq<Issue>, b: seq<Issue>, c: seq<Issue>, d: seq<Issue>, key: string)
    ensures Reports(a + b + c + d, key) <==> Reports(a, key) || Reports(b, key) || Reports(c, key) || Reports(d, key)
  {
    var r := a + b + c + d;
    if Reports(r, key) {
      var i :| 0 <= i < |r| && key in r[i].path;
      if i < |a| {
        assert r[i] == a[i];
      } else if i < |a| + |b| {
        assert r[i] == b[i - |a|];
      } else if i < |a| + |b| + |c| {
        assert r[i] == c[i - |a| - |b|];
      } else {
        assert r[i] == d[i - |a| - |b| - |c|];
      }
    }
    if Reports(a, key) {
      var i :| 0 <= i < |a| && key in a[i].path;
      assert r[i] == a[i];
    }
    if Reports(b, key) {
      var i :| 0 <= i < |b| && key in b[i].path;
      assert r[|a| + i] == b[i];
    }
    if Reports(c, key) {
      var i :| 0 <= i < |c| && key in c[i].path;
      assert r[|a| + |b| + i] == c[i];
    }
    if Reports(d, key) {
      var i :| 0 <= i < |d| && key in d[i].path;
      assert r[|a| + |b| + |c| + i] == d[i];
    }
  }
}
