/**
 * `CheckBookingProvider`: the same workflow held by a context provider, the
 * value it hands to consumers, and `useBooking`, the consumers' access to it.
 *
 * The provider defines `handleUpdate` but does not put it in the value it
 * exports, so a consumer has no way into edit mode: through the context the
 * draft never exists, and saving or editing a draft does nothing.
 */
module CheckBookingContext {
  import opened Wrappers
  import opened Booking
  import V = Validation
  import W = Workflow

  const CONTEXT_TEXTS := W.Texts(
    "Are you sure you want to cancel this booking?",
    "Failed to update booking information, Please try again")

  const OUTSIDE_PROVIDER := "useBooking must be used within a BookingProvider"

  /** The provider's handlers, by name. */
  datatype Handler =
    | OnChange        // handleChange
    | OnSubmit        // handleSubmit
    | OnUpdate        // handleUpdate
    | OnEditChange    // handleEditChange
    | OnSaveUpdate    // handleSaveUpdate
    | OnDelete        // handleDelete

  /** The handlers the context value carries. */
  const EXPORTED: set<Handler> := {OnChange, OnSubmit, OnEditChange, OnSaveUpdate, OnDelete}

  /** The context value: the seven pieces of state and the exported handlers. */
  datatype CheckBookingProps = CheckBookingProps(
    formData: LookupForm,
    formError: seq<V.Issue>,
    isLoading: bool,
    bookingDetails: Option<BookingDetails>,
    error: Option<string>,
    editingData: Option<BookingDetails>,
    isEditing: bool,
    handlers: set<Handler>)

  class CheckBookingProvider {
    var formData: LookupForm
    var formError: seq<V.Issue>
    var isLoading: bool
    var bookingDetails: Option<BookingDetails>
    var error: Option<string>
    var editingData: Option<BookingDetails>
    var isEditing: bool

    function Snapshot(): W.State
      reads this
    {
      W.State(formData, formError, isLoading, bookingDetails, error, editingData, isEditing)
    }

    constructor ()
      ensures Snapshot() == W.Initial()
    {
      formData := LookupForm("", "");
      formError := [];
      isLoading := false;
      bookingDetails := None;
      error := None;
      editingData := None;
      isEditing := false;
    }

    /** `contextValue`: the current state and every handler except `handleUpdate`. */
    function ContextValue(): (v: CheckBookingProps)
      reads this
      ensures v.formData == formData && v.formError == formError && v.isLoading == isLoading
      ensures v.bookingDetails == bookingDetails && v.error == error
      ensures v.editingData == editingData && v.isEditing == isEditing
      ensures v.handlers == EXPORTED && OnUpdate !in v.handlers
    {
      CheckBookingProps(formData, formError, isLoading, bookingDetails, error, editingData, isEditing, EXPORTED)
    }

    method HandleChange(field: LookupField, value: string)
      modifies this
      ensures Snapshot() == W.HandleChange(old(Snapshot()), field, value)
    {
      formData := SetFormValue(formData, field, value);
    }

    /** The synchronous part of `handleSubmit`, up to the awaited request. */
    method HandleSubmit() returns (effects: seq<Effect>)
      modifies this
      ensures var tr := W.SubmitStart(old(Snapshot()));
        Snapshot() == tr.next && effects == tr.effects
    {
      var issues := V.ViewBookingIssues(formData);
      if issues != [] {
        formError := issues;
        return [];
      }
      isLoading := true;
      effects := [PostLookup(CHECK_BOOKING_PATH, formData)];
    }

    /** The rest of `handleSubmit`, once the request has settled. */
    method ResumeSubmit(response: Outcome<BookingDetails>)
      modifies this
      ensures Snapshot() == W.SubmitFinish(old(Snapshot()), response)
    {
      match response {
        case Ok(record) =>
          bookingDetails := Some(record);
        case _ =>
          error := Some(ErrorText(response));
      }
      isLoading := false;
    }

    /** Defined by the provider, but not exported (see `ContextValue`). */
    method HandleUpdate()
      modifies this
      ensures Snapshot() == W.HandleUpdate(old(Snapshot()))
    {
      if bookingDetails.None? {
        return;
      }
      isEditing := true;
      editingData := bookingDetails;
    }

    method HandleEditChange(field: DraftField, value: string)
      modifies this
      ensures Snapshot() == W.HandleEditChange(old(Snapshot()), field, value)
    {
      if editingData.None? {
        return;
      }
      editingData := Some(SetDraftValue(editingData.value, field, value));
    }

    method HandleSaveUpdate(response: Outcome<BookingDetails>) returns (effects: seq<Effect>)
      modifies this
      ensures var tr := W.HandleSaveUpdate(old(Snapshot()), CONTEXT_TEXTS, response);
        Snapshot() == tr.next && effects == tr.effects
    {
      if editingData.None? {
        return [];
      }
      var draft := editingData.value;
      effects := [PatchBooking(UpdatePath(draft.id), draft)];
      match response {
        case Ok(record) =>
          bookingDetails := Some(record);
          isEditing := false;
          editingData := None;
          effects := effects + [Navigate(W.HOME)];
        case _ =>
          error := Some(ErrorText(response));
          effects := effects + [Alert(CONTEXT_TEXTS.saveFailedAlert)];
      }
      isLoading := false;
    }

    method HandleDelete(confirmed: bool, response: Outcome<()>) returns (effects: seq<Effect>)
      modifies this
      ensures var tr := W.HandleDelete(old(Snapshot()), CONTEXT_TEXTS, confirmed, response);
        Snapshot() == tr.next && effects == tr.effects
    {
      if bookingDetails.None? {
        return [];
      }
      effects := [Confirm(CONTEXT_TEXTS.confirmPrompt)];
      if !confirmed {
        return;
      }
      effects := effects + [DeleteBooking(CancelPath(bookingDetails.value.id))];
      match response {
        case Ok(_) =>
          bookingDetails := None;
          effects := effects + [Alert(W.CANCEL_SUCCEEDED_ALERT)];
        case _ =>
          error := Some(ErrorText(response));
      }
    }
  }

  /** `useBooking`: the provider's value, or the error thrown outside a provider. */
  function UseBooking(context: Option<CheckBookingProps>): (r: Result<CheckBookingProps, string>)
    ensures context.None? <==> r.Failure?
    ensures context.None? ==> r.error == OUTSIDE_PROVIDER
    ensures context.Some? ==> r.value == context.value
  {
    match context
    case None => Failure(OUTSIDE_PROVIDER)
    case Some(value) => Success(value)
  }

  /** The handler an action calls. */
  function HandlerOf(a: W.Action): Handler {
    match a
    case TypeLookup(_, _) => OnChange
    case Submit(_) => OnSubmit
    case EditClicked => OnUpdate
    case TypeDraft(_, _) => OnEditChange
    case SaveClicked(_) => OnSaveUpdate
    case CancelClicked(_, _) => OnDelete
  }

  /** Actions a consumer can perform through the context value. */
  predicate ThroughContext(actions: seq<W.Action>) {
    forall i :: 0 <= i < |actions| ==> HandlerOf(actions[i]) in EXPORTED
  }

  /** No loading flag between actions, no draft and no edit mode. */
  predicate NeverEditing(s: W.State) {
    !s.isLoading && !s.isEditing && s.editingData.None?
  }

  /**
   * Whatever a consumer does through the context, from mount on, the provider
   * never enters edit mode and never holds a draft.
   */
  lemma {:induction false} ContextNeverEdits(actions: seq<W.Action>)
    requires ThroughContext(actions)
    ensures NeverEditing(W.Run(W.Initial(), CONTEXT_TEXTS, actions))
    decreases |actions|
  {
    if actions != [] {
      var prefix := actions[..|actions| - 1];
      assert ThroughContext(prefix) by {
        forall i | 0 <= i < |prefix| ensures HandlerOf(prefix[i]) in EXPORTED {
          assert prefix[i] == actions[i];
        }
      }
      ContextNeverEdits(prefix);
      assert HandlerOf(actions[|actions| - 1]) in EXPORTED;
    }
  }

  /**
   * Consequently, through the context, saving sends nothing and changes
   * nothing, and typing into the draft changes nothing.
   */
  lemma ContextSaveAndEditAreInert(actions: seq<W.Action>, response: Outcome<BookingDetails>,
                                   field: DraftField, value: string)
    requires ThroughContext(actions)
    ensures var s := W.Run(W.Initial(), CONTEXT_TEXTS, actions);
      && W.HandleSaveUpdate(s, CONTEXT_TEXTS, response) == W.Transition(s, [])
      && W.HandleEditChange(s, field, value) == s
  {
    ContextNeverEdits(actions);
  }
}
