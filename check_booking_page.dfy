/**
 * The `CheckBooking` page: a component holding the seven pieces of workflow
 * state in its own fields, whose handlers update them step by step, and the
 * values the page derives from that state for display.
 */
module CheckBookingPage {
  import opened Wrappers
  import opened Booking
  import Decimal
  import V = Validation
  import W = Workflow

  const PAGE_TEXTS := W.Texts(
    "Are you sure you want to cancel this transaction?",
    "Failed to updated booking information, Please try again")

  class CheckBooking {
    var formData: LookupForm
    var formError: seq<V.Issue>
    var isLoading: bool
    var bookingDetails: Option<BookingDetails>
    var error: Option<string>
    var editingData: Option<BookingDetails>
    var isEditing: bool

    /** The component's state as a value. */
    function Snapshot(): W.State
      reads this
    {
      W.State(formData, formError, isLoading, bookingDetails, error, editingData, isEditing)
    }

    constructor ()
      ensures Snapshot() == W.Initial()
    {
      formData := LookupForm("", "");
      formError := [];
      isLoading := false;
      bookingDetails := None;
      error := None;
      editingData := None;
      isEditing := false;
    }

    method HandleChange(field: LookupField, value: string)
      modifies this
      ensures Snapshot() == W.HandleChange(old(Snapshot()), field, value)
      ensures FormValue(formData, field) == value
      ensures unchanged(this`formError, this`isLoading, this`bookingDetails, this`error, this`editingData, this`isEditing)
    {
      formData := SetFormValue(formData, field, value);
    }

    /** The synchronous part of `handleSubmit`, up to the awaited request. */
    method HandleSubmit() returns (effects: seq<Effect>)
      modifies this
      ensures var tr := W.SubmitStart(old(Snapshot()));
        Snapshot() == tr.next && effects == tr.effects
      ensures effects != [] ==> isLoading
      ensures unchanged(this`formData, this`bookingDetails, this`error, this`editingData, this`isEditing)
    {
      var issues := V.ViewBookingIssues(formData);
      if issues != [] {
        formError := issues;
        return [];
      }
      isLoading := true;
      effects := [PostLookup(CHECK_BOOKING_PATH, formData)];
    }

    /** The rest of `handleSubmit`, once the request has settled. */
    method ResumeSubmit(response: Outcome<BookingDetails>)
      modifies this
      ensures Snapshot() == W.SubmitFinish(old(Snapshot()), response)
      ensures !isLoading
      ensures unchanged(this`formData, this`formError, this`editingData, this`isEditing)
    {
      match response {
        case Ok(record) =>
          bookingDetails := Some(record);
        case _ =>
          error := Some(ErrorText(response));
      }
      isLoading := false;
    }

    method HandleUpdate()
      modifies this
      ensures Snapshot() == W.HandleUpdate(old(Snapshot()))
      ensures unchanged(this`formData, this`formError, this`isLoading, this`bookingDetails, this`error)
    {
      if bookingDetails.None? {
        return;
      }
      isEditing := true;
      editingData := bookingDetails;
    }

    method HandleEditChange(field: DraftField, value: string)
      modifies this
      ensures Snapshot() == W.HandleEditChange(old(Snapshot()), field, value)
      ensures unchanged(this`formData, this`formError, this`isLoading, this`bookingDetails, this`error, this`isEditing)
    {
      if editingData.None? {
        return;
      }
      editingData := Some(SetDraftValue(editingData.value, field, value));
    }

    method HandleSaveUpdate(response: Outcome<BookingDetails>) returns (effects: seq<Effect>)
      modifies this
      ensures var tr := W.HandleSaveUpdate(old(Snapshot()), PAGE_TEXTS, response);
        Snapshot() == tr.next && effects == tr.effects
      ensures unchanged(this`formData, this`formError)
    {
      if editingData.None? {
        return [];
      }
      var draft := editingData.value;
      effects := [PatchBooking(UpdatePath(draft.id), draft)];
      match response {
        case Ok(record) =>
          bookingDetails := Some(record);
          isEditing := false;
          editingData := None;
          effects := effects + [Navigate(W.HOME)];
        case _ =>
          error := Some(ErrorText(response));
          effects := effects + [Alert(PAGE_TEXTS.saveFailedAlert)];
      }
      isLoading := false;
    }

    method HandleDelete(confirmed: bool, response: Outcome<()>) returns (effects: seq<Effect>)
      modifies this
      ensures var tr := W.HandleDelete(old(Snapshot()), PAGE_TEXTS, confirmed, response);
        Snapshot() == tr.next && effects == tr.effects
      ensures unchanged(this`formData, this`formError, this`isLoading, this`editingData, this`isEditing)
    {
      if bookingDetails.None? {
        return [];
      }
      effects := [Confirm(PAGE_TEXTS.confirmPrompt)];
      if !confirmed {
        return;
      }
      effects := effects + [DeleteBooking(CancelPath(bookingDetails.value.id))];
      match response {
        case Ok(_) =>
          bookingDetails := None;
          effects := effects + [Alert(W.CANCEL_SUCCEEDED_ALERT)];
        case _ =>
          error := Some(ErrorText(response));
      }
    }
  }

  // Display derivations

  const STORAGE_BASE := "http://localhost:8000/storage/"
  const LOADING_LABEL := "Loading.."
  const DAYS_WORKING := " Days Working"
  const TRX_ID_ERROR_TEXT := "Booking transaction ID is requred"
  const PHONE_ERROR_TEXT := "Phone number is requred"

  /** The payment badge: "SUCCESS" exactly when `is_paid` is truthy, else "PENDING". */
  function PaidLabel(p: PaidFlag): (badge: string)
    ensures badge == "SUCCESS" <==> Truthy(p)
    ensures badge == "PENDING" <==> !Truthy(p)
  {
    if Truthy(p) then "SUCCESS" else "PENDING"
  }

  /** `{duration} Days Working`: the numeral of the duration, then the suffix. */
  function DurationText(duration: nat): (r: string)
    ensures |r| > |DAYS_WORKING| && r[|r| - |DAYS_WORKING|..] == DAYS_WORKING
    ensures var digits := r[..|r| - |DAYS_WORKING|];
      Decimal.Canonical(digits) && Decimal.ParseDecimal(digits) == duration
  {
    var digits := Decimal.DecimalString(duration);
    Decimal.ParseDecimalString(duration);
    var r := digits + DAYS_WORKING;
    assert r[..|r| - |DAYS_WORKING|] == digits;
    assert r[|r| - |DAYS_WORKING|..] == DAYS_WORKING;
    r
  }

  /** The booking of the page's own test shows "7 Days Working". */
  lemma DurationOfSevenDays()
    ensures DurationText(7) == "7 Days Working"
  {
    assert Decimal.DecimalString(7) == "7";
  }

  /**
   * `total_amount.toLocaleString("id-ID")` for a whole amount: its digits,
   * grouped in threes from the right with '.'. The text is never empty and
   * starts with a digit; removing the dots leaves the amount's own numeral.
   */
  function AmountText(amount: nat): (r: string)
    ensures |r| >= 1 && Decimal.IsDigit(r[0])
    ensures Decimal.DotEveryFourth(r)
    ensures Decimal.Canonical(Decimal.RemoveDots(r))
    ensures Decimal.ParseDecimal(Decimal.RemoveDots(r)) == amount
  {
    var digits := Decimal.DecimalString(amount);
    Decimal.GroupThousandsKeepsDigits(digits);
    Decimal.GroupThousandsDotPositions(digits);
    Decimal.ParseDecimalString(amount);
    Decimal.GroupThousands(digits)
  }

  /** The booking of the page's own test renders its amount as "7.000.000". */
  lemma AmountOfSevenMillion()
    ensures AmountText(7000000) == "7.000.000"
  {
    DigitsOfSevenMillion();
    assert Decimal.GroupThousands("7000") == "7.000";
  }

  lemma DigitsOfSevenMillion()
    ensures Decimal.DecimalString(7000000) == "7000000"
  {
    assert Decimal.DecimalString(7) == "7";
    assert Decimal.DecimalString(70) == "70";
    assert Decimal.DecimalString(700) == "700";
    assert Decimal.DecimalString(7000) == "7000";
    assert Decimal.DecimalString(70000) == "70000";
    assert Decimal.DecimalString(700000) == "700000";
  }

  /** The thumbnail's `src`: the storage base, a '/', then the stored path. */
  function ThumbnailUrl(thumbnail: string): (url: string)
    ensures |url| == |STORAGE_BASE| + 1 + |thumbnail|
    ensures url[..|STORAGE_BASE|] == STORAGE_BASE && url[|STORAGE_BASE|] == '/'
    ensures url[|STORAGE_BASE| + 1..] == thumbnail
  {
    STORAGE_BASE + "/" + thumbnail
  }

  /** A button's disabled flag and its label. */
  datatype Button = Button(disabled: bool, caption: string)

  /** The submit, edit, save and cancel buttons: disabled and labelled "Loading.." while loading. */
  function ActionButton(isLoading: bool, idleLabel: string): (b: Button)
    ensures b.disabled <==> isLoading
    ensures isLoading ==> b.caption == LOADING_LABEL
    ensures !isLoading ==> b.caption == idleLabel
  {
    Button(isLoading, if isLoading then LOADING_LABEL else idleLabel)
  }

  function SubmitButton(isLoading: bool): (b: Button)
    ensures b.disabled <==> isLoading
    ensures b.caption == (if isLoading then LOADING_LABEL else "Check Booking")
  {
    ActionButton(isLoading, "Check Booking")
  }

  /**
   * The error line under each lookup input: present exactly when some issue's
   * path names that input, with the page's fixed text.
   */
  function FieldErrorLines(issues: seq<V.Issue>): (lines: (Option<string>, Option<string>))
    ensures lines.0.Some? <==> V.Reports(issues, V.TRX_ID_KEY)
    ensures lines.1.Some? <==> V.Reports(issues, V.PHONE_KEY)
    ensures lines.0.Some? ==> lines.0.value == TRX_ID_ERROR_TEXT
    ensures lines.1.Some? ==> lines.1.value == PHONE_ERROR_TEXT
  {
    (if V.Reports(issues, V.TRX_ID_KEY) then Some(TRX_ID_ERROR_TEXT) else None,
     if V.Reports(issues, V.PHONE_KEY) then Some(PHONE_ERROR_TEXT) else None)
  }

  /**
   * Submitting a form with an empty input sends nothing and shows the error
   * line of exactly the empty inputs.
   */
  lemma EmptyInputShowsItsError(s: W.State, response: Outcome<BookingDetails>)
    requires s.formData.bookingTrxId == "" || s.formData.phoneNumber == ""
    ensures var tr := W.HandleSubmit(s, response);
      && tr.effects == []
      && (FieldErrorLines(tr.next.formError).0.Some? <==> s.formData.bookingTrxId == "")
      && (FieldErrorLines(tr.next.formError).1.Some? <==> s.formData.phoneNumber == "")
  {
  }
}
