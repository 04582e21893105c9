/**
 * The application-wide confirm dialog: one slot holding the dialog on
 * screen, filled by `showMessage` and emptied by either button.
 */
module GlobalMessage {
  import opened Wrappers

  /** An `onConfirm` handler, known only by a tag; running it is the caller's business. */
  datatype Callback = Callback(tag: nat)

  /** What a caller hands `showMessage`; `None` is an argument left out. */
  datatype MessageRequest = MessageRequest(
    title: string, message: string, kind: Option<string>,
    confirmText: Option<string>, cancelText: Option<string>, onConfirm: Option<Callback>)

  /** The dialog on screen. */
  datatype MessageConfig = MessageConfig(
    title: string, message: string, kind: string,
    confirmText: string, cancelText: string, onConfirm: Option<Callback>)

  const DefaultKind := "info"
  const DefaultConfirmText := "Ya"
  const DefaultCancelText := "Batal"

  function OrElse(o: Option<string>, fallback: string): string {
    if o.Some? then o.value else fallback
  }

  /** `showMessage`'s parameter defaults: type "info", confirm "Ya", cancel "Batal". */
  function Configure(req: MessageRequest): MessageConfig {
    MessageConfig(
      req.title, req.message, OrElse(req.kind, DefaultKind),
      OrElse(req.confirmText, DefaultConfirmText), OrElse(req.cancelText, DefaultCancelText), req.onConfirm)
  }

  /** The dialog's buttons: the confirm button's look, and the cancel button's. */
  datatype Variant = Primary | Secondary | Destructive | Ghost

  /** The confirm button: "danger" is destructive, "warning" secondary, anything else primary. */
  function ConfirmVariant(kind: string): (v: Variant)
    ensures v != Ghost
    ensures v == Destructive <==> kind == "danger"
    ensures v == Secondary <==> kind == "warning"
    ensures v == Primary <==> kind != "danger" && kind != "warning"
  {
    if kind == "danger" then Destructive
    else if kind == "warning" then Secondary
    else Primary
  }

  /** The cancel button always looks the same. */
  const CancelVariant := Ghost

  /**
   * Left-out arguments take the defaults, which give a primary confirm
   * button; given arguments are shown as they are.
   */
  lemma ConfigureDefaults(req: MessageRequest)
    ensures var c := Configure(req);
      && c.title == req.title && c.message == req.message && c.onConfirm == req.onConfirm
      && (req.kind.None? ==> c.kind == "info" && ConfirmVariant(c.kind) == Primary)
      && (req.confirmText.None? ==> c.confirmText == "Ya")
      && (req.cancelText.None? ==> c.cancelText == "Batal")
      && (req.kind.Some? ==> c.kind == req.kind.value)
      && (req.confirmText.Some? ==> c.confirmText == req.confirmText.value)
      && (req.cancelText.Some? ==> c.cancelText == req.cancelText.value)
  {
  }

  /** The provider's state: the one dialog slot. */
  class MessageProvider {
    var config: Option<MessageConfig>

    constructor ()
      ensures config.None?
    {
      config := None;
    }

    /** `showMessage`: the new dialog takes the slot, replacing any dialog still open. */
    method ShowMessage(req: MessageRequest)
      modifies this
      ensures config == Some(Configure(req))
    {
      config := Some(Configure(req));
    }

    /** `close`, the cancel button: the slot empties and no handler runs. */
    method Close()
      modifies this
      ensures config.None?
    {
      config := None;
    }

    /** `handleConfirm`: the open dialog's handler runs, if it has one, then the slot empties. */
    method HandleConfirm() returns (ran: Option<Callback>)
      modifies this
      ensures ran == if old(config).Some? then old(config).value.onConfirm else None
      ensures config.None?
    {
      ran := if config.Some? then config.value.onConfirm else None;
      config := None;
    }
  }

  /** Two dialogs in a row leave only the second on screen, and confirming runs only the second's handler. */
  method ShowTwiceConfirm(first: MessageRequest, second: MessageRequest) returns (ran: Option<Callback>)
    ensures ran == second.onConfirm
  {
    var p := new MessageProvider();
    p.ShowMessage(first);
    p.ShowMessage(second);
    ran := p.HandleConfirm();
  }
}
