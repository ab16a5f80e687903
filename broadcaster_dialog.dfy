/**
 * The "Add / Edit Broadcaster" dialog (`BroadcasterDialog`): one name field,
 * validated and trimmed on submit, sent as an update of the broadcaster
 * being edited or as a new broadcaster. The `broadcaster` prop is a field
 * the parent may change between renders; the asynchronous submit is split
 * at its `await` into `StartSubmit` and `FinishSubmit`.
 */
module BroadcasterDialog {
  import opened Wrappers
  import opened Text
  import opened ApiTypes

  /** `broadcaster?.display_name ?? ""`: the name the field starts from. */
  function InitialName(broadcaster: Option<Broadcaster>): (r: string)
    ensures broadcaster.Some? ==> r == broadcaster.value.display_name
    ensures broadcaster.None? ==> r == ""
  {
    if broadcaster.Some? then broadcaster.value.display_name else ""
  }

  /** The request a valid submit sends. */
  datatype BroadcasterRequest = Update(id: string, display_name: string) | Create(display_name: string)

  /** How a submit ends before the request: rejected with a toast, or the request sent. */
  datatype SubmitStart = Rejected(message: string) | Sent(request: BroadcasterRequest)

  /** The server action's result. */
  datatype ActionResult = Succeeded | Failed(error: string)

  /** The server action's error text: the API error's detail, or a fixed message per action. */
  function FailureText(request: BroadcasterRequest, detail: Option<string>): (r: string)
    ensures Truthy(detail) ==> r == detail.value
    ensures !Truthy(detail) && request.Update? ==> r == "Failed to update broadcaster"
    ensures !Truthy(detail) && request.Create? ==> r == "Failed to create broadcaster"
  {
    OrDefault(detail, if request.Update? then "Failed to update broadcaster" else "Failed to create broadcaster")
  }

  /** The toast raised, whether `onSuccess` is called and whether the dialog asks to close. */
  datatype Toast = Success(text: string) | Error(text: string)
  datatype SubmitEnd = SubmitEnd(toast: Toast, notifySuccess: bool, close: bool)

  /** The title and the submit button's text. */
  function Title(isEditing: bool): (r: string)
    ensures isEditing <==> r == "Edit Broadcaster"
    ensures !isEditing <==> r == "Add Broadcaster"
  {
    if isEditing then "Edit Broadcaster" else "Add Broadcaster"
  }

  function SubmitText(isEditing: bool): (r: string)
    ensures isEditing <==> r == "Save changes"
    ensures !isEditing <==> r == "Create"
  {
    if isEditing then "Save changes" else "Create"
  }

  class Dialog {
    var broadcaster: Option<Broadcaster>
    var displayName: string
    var isLoading: bool

    /** The first render: the name of the broadcaster given, not loading. */
    constructor(broadcaster: Option<Broadcaster>)
      ensures this.broadcaster == broadcaster
      ensures displayName == InitialName(broadcaster) && !isLoading
    {
      this.broadcaster := broadcaster;
      displayName := InitialName(broadcaster);
      isLoading := false;
    }

    /** `isEditing`: a broadcaster is given. */
    predicate IsEditing()
      reads this
    {
      broadcaster.Some?
    }

    /** The parent re-renders the dialog with another `broadcaster`; the state is kept. */
    method ReceiveBroadcaster(b: Option<Broadcaster>)
      modifies this`broadcaster
      ensures broadcaster == b
    {
      broadcaster := b;
    }

    method HandleNameChange(text: string)
      modifies this`displayName
      ensures displayName == text
    {
      displayName := text;
    }

    /**
     * `handleOpenChange`: opening loads the broadcaster's name, or clears it;
     * closing keeps it. Either way `newOpen` is handed on to the parent's
     * `onOpenChange`.
     */
    method HandleOpenChange(newOpen: bool) returns (forward: bool)
      modifies this`displayName
      ensures forward == newOpen
      ensures newOpen ==> displayName == InitialName(broadcaster)
      ensures !newOpen ==> displayName == old(displayName)
    {
      if newOpen && broadcaster.Some? {
        displayName := broadcaster.value.display_name;
      } else if newOpen && broadcaster.None? {
        displayName := "";
      }
      forward := newOpen;
    }

    /**
     * `handleSubmit` up to the request: a blank name is rejected with a
     * toast; otherwise loading starts and the trimmed name is sent, as an
     * update of the edited broadcaster or as a new one.
     */
    method StartSubmit() returns (r: SubmitStart)
      modifies this`isLoading
      ensures r.Rejected? <==> AllWhitespace(displayName)
      ensures r.Rejected? ==> r.message == "Name is required" && isLoading == old(isLoading)
      ensures r.Sent? ==> isLoading && r.request.display_name == Trim(displayName) && r.request.display_name != ""
      ensures r.Sent? ==> (r.request.Update? <==> IsEditing())
      ensures r.Sent? && IsEditing() ==> r.request.id == broadcaster.value.id
    {
      TrimEmptyIff(displayName);
      if Trim(displayName) == "" {
        return Rejected("Name is required");
      }
      isLoading := true;
      if broadcaster.Some? {
        r := Sent(Update(broadcaster.value.id, Trim(displayName)));
      } else {
        r := Sent(Create(Trim(displayName)));
      }
    }

    /**
     * `handleSubmit` after the request: success toasts, notifies and asks
     * to close; failure toasts the error and stays open; loading ends
     * either way.
     */
    method FinishSubmit(sent: BroadcasterRequest, result: ActionResult) returns (r: SubmitEnd)
      modifies this`isLoading
      ensures !isLoading
      ensures r.notifySuccess <==> result.Succeeded?
      ensures r.close <==> result.Succeeded?
      ensures result.Succeeded? ==> r.toast == Success(if sent.Update? then "Broadcaster updated" else "Broadcaster created")
      ensures result.Failed? ==> r.toast == Error(result.error)
    {
      if result.Succeeded? {
        r := SubmitEnd(Success(if sent.Update? then "Broadcaster updated" else "Broadcaster created"), true, true);
      } else {
        r := SubmitEnd(Error(result.error), false, false);
      }
      isLoading := false;
    }

    /**
     * Opening the dialog for `b` as the name field should: the prop and
     * the name it starts from change together.
     */
    method OpenFor(b: Option<Broadcaster>)
      modifies this`broadcaster, this`displayName
      ensures broadcaster == b && displayName == InitialName(b)
      ensures IsEditing() <==> b.Some?
    {
      broadcaster := b;
      displayName := InitialName(b);
    }
  }

  /**
   * As written, the table opens the dialog by setting its `open` prop;
   * the dialog library calls `handleOpenChange` only when it closes, so
   * the name is never reloaded. Editing a named broadcaster in a dialog
   * first shown for "Add" starts from the empty field, and saving it
   * unchanged is rejected.
   */
  method EditOpensWithStaleName(b: Broadcaster) returns (shown: string, submitted: SubmitStart)
    requires !AllWhitespace(b.display_name)
    ensures shown == "" && shown != b.display_name
    ensures submitted == Rejected("Name is required")
  {
    var d := new Dialog(None);
    d.ReceiveBroadcaster(Some(b));
    shown := d.displayName;
    submitted := d.StartSubmit();
  }

  /**
   * Opened for a broadcaster as intended, saving without typing sends an
   * update of that broadcaster with its own (trimmed) name.
   */
  method EditSavesTheSameName(d: Dialog, b: Broadcaster) returns (submitted: SubmitStart)
    requires !AllWhitespace(b.display_name)
    modifies d
    ensures submitted == Sent(Update(b.id, Trim(b.display_name)))
  {
    d.OpenFor(Some(b));
    submitted := d.StartSubmit();
  }
}
