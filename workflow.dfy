/**
 * The check-booking workflow as values: the seven pieces of state the page
 * and the context provider both hold, and one function per handler giving the
 * state after it and the effects it emits (requests, prompts, alerts,
 * navigation). The page and the provider run these same handlers; only two
 * user-facing strings differ between them (`Texts`).
 *
 * A lookup awaits its response, so it is split in two steps: `SubmitStart`
 * (validation, loading flag, request) and `SubmitFinish` (the response).
 * `Run` replays user actions one after another, each lookup completing before
 * the next action, and the lemmas at the end state what holds in every state
 * reached that way.
 */
module Workflow {
  import opened Wrappers
  import opened Booking
  import V = Validation

  datatype State = State(
    formData: LookupForm,
    formError: seq<V.Issue>,
    isLoading: bool,
    bookingDetails: Option<BookingDetails>,
    error: Option<string>,
    editingData: Option<BookingDetails>,
    isEditing: bool)

  /** The strings that differ between the page and the context provider. */
  datatype Texts = Texts(confirmPrompt: string, saveFailedAlert: string)

  const CANCEL_SUCCEEDED_ALERT := "Booking has been successfully canceled"
  const HOME := "/"

  /** A state and the effects emitted on the way to it, in order. */
  datatype Transition = Transition(next: State, effects: seq<Effect>)

  /** The state when the component mounts. */
  function Initial(): (s: State)
    ensures s.formData.bookingTrxId == "" && s.formData.phoneNumber == ""
    ensures s.formError == [] && !s.isLoading && s.error.None?
    ensures s.bookingDetails.None? && s.editingData.None? && !s.isEditing
  {
    State(LookupForm("", ""), [], false, None, None, None, false)
  }

  /** `handleChange`: the named form input takes the typed value; nothing else changes. */
  function HandleChange(s: State, field: LookupField, value: string): (t: State)
    ensures FormValue(t.formData, field) == value
    ensures forall other :: other != field ==> FormValue(t.formData, other) == FormValue(s.formData, other)
    ensures t == s.(formData := t.formData)
  {
    s.(formData := SetFormValue(s.formData, field, value))
  }

  /**
   * `handleSubmit` up to the awaited request. An invalid form replaces
   * `formError` and sends nothing; a valid one raises the loading flag and
   * posts the form. A valid form does not clear `formError`, and `error` is
   * left as it was.
   */
  function SubmitStart(s: State): (tr: Transition)
    ensures V.ViewBookingIssues(s.formData) != [] ==>
      tr.next == s.(formError := V.ViewBookingIssues(s.formData)) && tr.effects == []
    ensures V.ViewBookingIssues(s.formData) == [] ==>
      tr.next == s.(isLoading := true) && tr.effects == [PostLookup(CHECK_BOOKING_PATH, s.formData)]
  {
    var issues := V.ViewBookingIssues(s.formData);
    if issues != [] then Transition(s.(formError := issues), [])
    else Transition(s.(isLoading := true), [PostLookup(CHECK_BOOKING_PATH, s.formData)])
  }

  /**
   * `handleSubmit` after the request. The loading flag drops either way. A
   * response replaces the booking and leaves `error` as it was; a failure
   * stores its text and keeps the booking that was shown. Form, issues, draft
   * and edit mode are not touched.
   */
  function SubmitFinish(s: State, response: Outcome<BookingDetails>): (t: State)
    ensures !t.isLoading
    ensures response.Ok? ==> t.bookingDetails == Some(response.value) && t.error == s.error
    ensures !response.Ok? ==> t.bookingDetails == s.bookingDetails && t.error == Some(ErrorText(response))
    ensures t.formData == s.formData && t.formError == s.formError
    ensures t.editingData == s.editingData && t.isEditing == s.isEditing
  {
    var s' := match response
      case Ok(record) => s.(bookingDetails := Some(record))
      case _ => s.(error := Some(ErrorText(response)));
    s'.(isLoading := false)
  }

  /** A whole lookup: `SubmitStart`, then, when a request went out, `SubmitFinish`. */
  function HandleSubmit(s: State, response: Outcome<BookingDetails>): (tr: Transition)
    ensures V.ViewBookingIssues(s.formData) != [] ==>
      tr.effects == [] && tr.next == s.(formError := V.ViewBookingIssues(s.formData))
    ensures V.ViewBookingIssues(s.formData) == [] ==>
      tr.effects == [PostLookup(CHECK_BOOKING_PATH, s.formData)] && !tr.next.isLoading
    ensures V.ViewBookingIssues(s.formData) == [] && response.Ok? ==>
      tr.next == s.(isLoading := false, bookingDetails := Some(response.value))
    ensures V.ViewBookingIssues(s.formData) == [] && !response.Ok? ==>
      tr.next == s.(isLoading := false, error := Some(ErrorText(response)))
  {
    var start := SubmitStart(s);
    if start.effects == [] then start
    else Transition(SubmitFinish(start.next, response), start.effects)
  }

  /**
   * `handleUpdate`: without a booking nothing happens; otherwise edit mode
   * starts on a draft equal to the booking.
   */
  function HandleUpdate(s: State): (t: State)
    ensures s.bookingDetails.None? ==> t == s
    ensures s.bookingDetails.Some? ==>
      t.isEditing && t.editingData == s.bookingDetails && t == s.(isEditing := true, editingData := s.bookingDetails)
  {
    if s.bookingDetails.None? then s
    else s.(isEditing := true, editingData := s.bookingDetails)
  }

  /**
   * `handleEditChange`: without a draft nothing happens; otherwise the named
   * draft field takes the value, every other field of the draft keeps its own,
   * and the booking on display is not touched.
   */
  function HandleEditChange(s: State, field: DraftField, value: string): (t: State)
    ensures s.editingData.None? ==> t == s
    ensures s.editingData.Some? ==>
      && t.editingData.Some?
      && DraftValue(t.editingData.value, field) == value
      && SameExceptDraftFields(t.editingData.value, s.editingData.value)
      && (forall other :: other != field ==>
            DraftValue(t.editingData.value, other) == DraftValue(s.editingData.value, other))
      && t == s.(editingData := t.editingData)
  {
    match s.editingData
    case None => s
    case Some(draft) => s.(editingData := Some(SetDraftValue(draft, field, value)))
  }

  /**
   * `handleSaveUpdate`: without a draft nothing happens. Otherwise the whole
   * draft is sent to the draft's update endpoint. A response replaces the
   * booking, ends edit mode, drops the draft and goes home; a failure stores
   * its text, alerts, and keeps booking, draft and edit mode. The loading flag
   * is cleared, never raised.
   */
  function HandleSaveUpdate(s: State, texts: Texts, response: Outcome<BookingDetails>): (tr: Transition)
    ensures s.editingData.None? ==> tr == Transition(s, [])
    ensures tr.next.isLoading ==> s.isLoading
    ensures tr.next.formData == s.formData && tr.next.formError == s.formError
    ensures s.editingData.Some? ==>
      && |tr.effects| == 2
      && tr.effects[0] == PatchBooking(UpdatePath(s.editingData.value.id), s.editingData.value)
      && !tr.next.isLoading
    ensures s.editingData.Some? && response.Ok? ==>
      && tr.next.bookingDetails == Some(response.value)
      && !tr.next.isEditing && tr.next.editingData.None?
      && tr.next.error == s.error
      && tr.effects[1] == Navigate(HOME)
    ensures s.editingData.Some? && !response.Ok? ==>
      && tr.next.error == Some(ErrorText(response))
      && tr.next.bookingDetails == s.bookingDetails
      && tr.next.editingData == s.editingData && tr.next.isEditing == s.isEditing
      && tr.effects[1] == Alert(texts.saveFailedAlert)
  {
    match s.editingData
    case None => Transition(s, [])
    case Some(draft) =>
      var request := PatchBooking(UpdatePath(draft.id), draft);
      match response
      case Ok(record) =>
        Transition(s.(bookingDetails := Some(record), isEditing := false, editingData := None, isLoading := false),
                   [request, Navigate(HOME)])
      case _ =>
        Transition(s.(error := Some(ErrorText(response)), isLoading := false),
                   [request, Alert(texts.saveFailedAlert)])
  }

  /**
   * `handleDelete`: without a booking nothing happens. Otherwise the user is
   * asked; a refusal ends it there. After a yes, the booking's cancel endpoint
   * is called; a response clears the booking and alerts, a failure stores its
   * text and keeps the booking. Draft, edit mode, loading flag and form are
   * never touched.
   */
  function HandleDelete(s: State, texts: Texts, confirmed: bool, response: Outcome<()>): (tr: Transition)
    ensures s.bookingDetails.None? ==> tr == Transition(s, [])
    ensures tr.next == s.(bookingDetails := tr.next.bookingDetails, error := tr.next.error)
    ensures s.bookingDetails.Some? ==> |tr.effects| >= 1 && tr.effects[0] == Confirm(texts.confirmPrompt)
    ensures s.bookingDetails.Some? && !confirmed ==> tr == Transition(s, [Confirm(texts.confirmPrompt)])
    ensures s.bookingDetails.Some? && confirmed ==>
      |tr.effects| >= 2 && tr.effects[1] == DeleteBooking(CancelPath(s.bookingDetails.value.id))
    ensures s.bookingDetails.Some? && confirmed && response.Ok? ==>
      tr.next.bookingDetails.None? && tr.next.error == s.error
      && tr.effects == [Confirm(texts.confirmPrompt), DeleteBooking(CancelPath(s.bookingDetails.value.id)),
                        Alert(CANCEL_SUCCEEDED_ALERT)]
    ensures s.bookingDetails.Some? && confirmed && !response.Ok? ==>
      tr.next.bookingDetails == s.bookingDetails && tr.next.error == Some(ErrorText(response))
      && |tr.effects| == 2
  {
    match s.bookingDetails
    case None => Transition(s, [])
    case Some(booking) =>
      var ask := Confirm(texts.confirmPrompt);
      if !confirmed then Transition(s, [ask])
      else
        var request := DeleteBooking(CancelPath(booking.id));
        match response
        case Ok(_) => Transition(s.(bookingDetails := None), [ask, request, Alert(CANCEL_SUCCEEDED_ALERT)])
        case _ => Transition(s.(error := Some(ErrorText(response))), [ask, request])
  }

  /** A user action, with the answers of the outside world it meets. */
  datatype Action =
    | TypeLookup(lookupField: LookupField, lookupValue: string)
    | Submit(lookupResponse: Outcome<BookingDetails>)
    | EditClicked
    | TypeDraft(draftField: DraftField, draftValue: string)
    | SaveClicked(saveResponse: Outcome<BookingDetails>)
    | CancelClicked(confirmed: bool, cancelResponse: Outcome<()>)

  function Step(s: State, texts: Texts, a: Action): State {
    match a
    case TypeLookup(field, value) => HandleChange(s, field, value)
    case Submit(response) => HandleSubmit(s, response).next
    case EditClicked => HandleUpdate(s)
    case TypeDraft(field, value) => HandleEditChange(s, field, value)
    case SaveClicked(response) => HandleSaveUpdate(s, texts, response).next
    case CancelClicked(confirmed, response) => HandleDelete(s, texts, confirmed, response).next
  }

  /** The state after the actions, one after another, from `s`. */
  function Run(s: State, texts: Texts, actions: seq<Action>): State
    decreases |actions|
  {
    if actions == [] then s
    else Step(Run(s, texts, actions[..|actions| - 1]), texts, actions[|actions| - 1])
  }

  /**
   * Between actions no request is in flight and the loading flag is down, and
   * the component is in edit mode exactly when it holds a draft.
   */
  predicate Settled(s: State) {
    !s.isLoading && (s.isEditing <==> s.editingData.Some?)
  }

  lemma StepKeepsSettled(s: State, texts: Texts, a: Action)
    requires Settled(s)
    ensures Settled(Step(s, texts, a))
  {
  }

  /** After every completed action from mount (a lookup completes within its action) the state is settled. */
  lemma {:induction false} RunSettled(texts: Texts, actions: seq<Action>)
    ensures Settled(Run(Initial(), texts, actions))
    decreases |actions|
  {
    if actions != [] {
      RunSettled(texts, actions[..|actions| - 1]);
      StepKeepsSettled(Run(Initial(), texts, actions[..|actions| - 1]), texts, actions[|actions| - 1]);
    }
  }

  /** Actions that only type into the edit inputs. */
  predicate OnlyDraftTyping(actions: seq<Action>) {
    forall i :: 0 <= i < |actions| ==> actions[i].TypeDraft?
  }

  /**
   * Typing into the draft never changes the booking on display, and the draft
   * keeps the identity and every non-editable field it started with.
   */
  lemma {:induction false} DraftTypingKeepsBooking(s: State, texts: Texts, actions: seq<Action>)
    requires OnlyDraftTyping(actions)
    ensures var t := Run(s, texts, actions);
      && t.bookingDetails == s.bookingDetails
      && t.isEditing == s.isEditing
      && (t.editingData.Some? <==> s.editingData.Some?)
      && (s.editingData.Some? ==> SameExceptDraftFields(t.editingData.value, s.editingData.value))
    decreases |actions|
  {
    if actions != [] {
      var prefix := actions[..|actions| - 1];
      assert OnlyDraftTyping(prefix) by {
        forall i | 0 <= i < |prefix| ensures prefix[i].TypeDraft? {
          assert prefix[i] == actions[i];
        }
      }
      DraftTypingKeepsBooking(s, texts, prefix);
      assert actions[|actions| - 1].TypeDraft?;
    }
  }

  /**
   * Entering edit mode on a loaded booking, typing into the draft and saving
   * sends the edited draft to the update endpoint of the booking that was on
   * display; the display does not change before the save.
   */
  lemma {:induction false} SaveTargetsLoadedBooking(s: State, texts: Texts, actions: seq<Action>, response: Outcome<BookingDetails>)
    requires s.bookingDetails.Some?
    requires OnlyDraftTyping(actions)
    ensures var t := Run(HandleUpdate(s), texts, actions);
      && t.bookingDetails == s.bookingDetails
      && t.editingData.Some?
      && SameExceptDraftFields(t.editingData.value, s.bookingDetails.value)
      && HandleSaveUpdate(t, texts, response).effects[0]
           == PatchBooking(UpdatePath(s.bookingDetails.value.id), t.editingData.value)
  {
    DraftTypingKeepsBooking(HandleUpdate(s), texts, actions);
  }

  /** The last value typed into an edit input is the one the draft holds. */
  lemma {:induction false} LastTypedValueInDraft(s: State, texts: Texts, actions: seq<Action>)
    requires s.editingData.Some?
    requires OnlyDraftTyping(actions) && actions != []
    ensures var t := Run(s, texts, actions); var last := actions[|actions| - 1];
      t.editingData.Some? && DraftValue(t.editingData.value, last.draftField) == last.draftValue
  {
    DraftTypingKeepsBooking(s, texts, actions[..|actions| - 1]);
  }

  /**
   * Lookup, save and delete apply one rule to a failed request: each stores
   * the same text for the same failure.
   */
  lemma SameErrorRuleEverywhere(s: State, texts: Texts, message: string, transport: bool)
    requires s.bookingDetails.Some? && s.editingData.Some?
    ensures var lookupFailure: Outcome<BookingDetails> := if transport then TransportErr(message) else OtherErr;
      var cancelFailure: Outcome<()> := if transport then TransportErr(message) else OtherErr;
      var text := if transport then message else UNEXPECTED_ERROR;
      && SubmitFinish(s, lookupFailure).error == Some(text)
      && HandleSaveUpdate(s, texts, lookupFailure).next.error == Some(text)
      && HandleDelete(s, texts, true, cancelFailure).next.error == Some(text)
  {
  }

  /**
   * Repeating a lookup with the same form and the same answer changes nothing
   * more: the second one lands on the state the first one produced.
   */
  lemma LookupIdempotent(s: State, response: Outcome<BookingDetails>)
    ensures var once := HandleSubmit(s, response);
      HandleSubmit(once.next, response).next == once.next
      && HandleSubmit(once.next, response).effects == once.effects
  {
  }
}
