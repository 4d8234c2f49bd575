/**
 * The records the check-booking workflow passes around: the booking the server
 * returns, the lookup form, the named input fields, the outcome of a request,
 * the rule that turns a failed request into the text shown to the user, the
 * endpoint paths, and the side effects a handler emits.
 */
module Booking {
  import opened Wrappers
  import Decimal

  /** `is_paid` arrives as a boolean or as a number (the server sends 0 or 1). */
  datatype PaidFlag = PaidBool(b: bool) | PaidNumber(n: int)

  /** JavaScript truthiness of the paid flag. */
  predicate Truthy(p: PaidFlag) {
    match p
    case PaidBool(b) => b
    case PaidNumber(n) => n != 0
  }

  datatype Office = Office(name: string, cityName: string, thumbnail: string)

  /** The booking record the server returns for a lookup or an update. */
  datatype BookingDetails = BookingDetails(
    id: nat,
    bookingTrxId: string,
    name: string,
    phoneNumber: string,
    startedAt: string,
    endedAt: string,
    duration: nat,
    totalAmount: nat,
    isPaid: PaidFlag,
    office: Office)

  /** The lookup form: `{ booking_trx_id, phone_number }`. */
  datatype LookupForm = LookupForm(bookingTrxId: string, phoneNumber: string)

  /** The inputs of the lookup form, by their `name` attribute. */
  datatype LookupField = LookupTrxId | LookupPhone

  /** The inputs shown in edit mode, by their `name` attribute. */
  datatype DraftField = DraftName | DraftPhone | DraftStartedAt

  function FormValue(f: LookupForm, field: LookupField): string {
    match field
    case LookupTrxId => f.bookingTrxId
    case LookupPhone => f.phoneNumber
  }

  /** `{ ...formData, [name]: value }` for one of the form's inputs. */
  function SetFormValue(f: LookupForm, field: LookupField, value: string): (r: LookupForm)
    ensures FormValue(r, field) == value
    ensures forall other :: other != field ==> FormValue(r, other) == FormValue(f, other)
  {
    match field
    case LookupTrxId => f.(bookingTrxId := value)
    case LookupPhone => f.(phoneNumber := value)
  }

  function DraftValue(b: BookingDetails, field: DraftField): string {
    match field
    case DraftName => b.name
    case DraftPhone => b.phoneNumber
    case DraftStartedAt => b.startedAt
  }

  /** `a` and `b` agree on every field an edit input cannot reach. */
  predicate SameExceptDraftFields(a: BookingDetails, b: BookingDetails) {
    a == b.(name := a.name, phoneNumber := a.phoneNumber, startedAt := a.startedAt)
  }

  /** `{ ...editingData, [name]: value }` for one of the edit inputs. */
  function SetDraftValue(b: BookingDetails, field: DraftField, value: string): (r: BookingDetails)
    ensures DraftValue(r, field) == value
    ensures forall other :: other != field ==> DraftValue(r, other) == DraftValue(b, other)
    ensures SameExceptDraftFields(r, b)
  {
    match field
    case DraftName => b.(name := value)
    case DraftPhone => b.(phoneNumber := value)
    case DraftStartedAt => b.(startedAt := value)
  }

  /**
   * How a request ends: the response payload, a rejection the HTTP client
   * recognises as its own error (carrying its message), or any other exception.
   */
  datatype Outcome<+T> = Ok(value: T) | TransportErr(message: string) | OtherErr

  const UNEXPECTED_ERROR := "An unexpected error occurred"

  /** The text a handler stores in `error` when its request fails. */
  function ErrorText<T>(o: Outcome<T>): (r: string)
    requires !o.Ok?
    ensures o.TransportErr? ==> r == o.message
    ensures o.OtherErr? ==> r == UNEXPECTED_ERROR
  {
    if o.TransportErr? then o.message else UNEXPECTED_ERROR
  }

  /** Endpoint paths, relative to the API base. */
  const CHECK_BOOKING_PATH := "check-booking"
  const UPDATE_PREFIX := "update-booking/"
  const CANCEL_PREFIX := "cancel-booking/"

  /** `update-booking/${id}`. */
  function UpdatePath(id: nat): (p: string)
    ensures |p| > |UPDATE_PREFIX| && p[..|UPDATE_PREFIX|] == UPDATE_PREFIX
    ensures Decimal.Canonical(p[|UPDATE_PREFIX|..])
    ensures Decimal.ParseDecimal(p[|UPDATE_PREFIX|..]) == id
  {
    var digits := Decimal.DecimalString(id);
    Decimal.ParseDecimalString(id);
    assert (UPDATE_PREFIX + digits)[|UPDATE_PREFIX|..] == digits;
    UPDATE_PREFIX + digits
  }

  /** `cancel-booking/${id}`. */
  function CancelPath(id: nat): (p: string)
    ensures |p| > |CANCEL_PREFIX| && p[..|CANCEL_PREFIX|] == CANCEL_PREFIX
    ensures Decimal.Canonical(p[|CANCEL_PREFIX|..])
    ensures Decimal.ParseDecimal(p[|CANCEL_PREFIX|..]) == id
  {
    var digits := Decimal.DecimalString(id);
    Decimal.ParseDecimalString(id);
    assert (CANCEL_PREFIX + digits)[|CANCEL_PREFIX|..] == digits;
    CANCEL_PREFIX + digits
  }

  /** The booking with id 1 is saved to "update-booking/1" and cancelled at "cancel-booking/1". */
  lemma PathsOfFirstBooking()
    ensures UpdatePath(1) == "update-booking/1" && CancelPath(1) == "cancel-booking/1"
  {
    assert Decimal.DecimalString(1) == "1";
  }

  /** Each booking has its own update and cancel endpoints, and the two kinds never meet. */
  lemma EndpointsDistinct(a: nat, b: nat)
    ensures UpdatePath(a) == UpdatePath(b) <==> a == b
    ensures CancelPath(a) == CancelPath(b) <==> a == b
    ensures UpdatePath(a) != CancelPath(b)
  {
    var u, c := UpdatePath(a), CancelPath(b);
    assert u[0] != c[0];
  }

  /** What a handler does outside its state: requests, prompts, alerts, navigation. */
  datatype Effect =
    | PostLookup(path: string, form: LookupForm)
    | PatchBooking(path: string, body: BookingDetails)
    | DeleteBooking(path: string)
    | Confirm(prompt: string)
    | Alert(message: string)
    | Navigate(to: string)
}
