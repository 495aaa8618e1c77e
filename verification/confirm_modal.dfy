/**
 * The confirmation dialog component: what it shows for a set of props, and
 * which callback a click on each of its three clickable areas invokes.
 */
module ConfirmModal {
  import opened Common

  const DefaultConfirmText := "Confirm"
  const DefaultCancelText := "Cancel"
  const ProcessingLabel := "Processing..."

  /**
   * The props the dialog reads. `None` is a prop the caller leaves out, which
   * then takes its default. Title and description are text only and are
   * carried by the caller.
   */
  datatype Props = Props(
    open: bool,
    confirmText: Option<string>,
    cancelText: Option<string>,
    loading: Option<bool>,
    danger: Option<bool>)

  /** The props with every default filled in. */
  function ConfirmText(p: Props): string { p.confirmText.GetOr(DefaultConfirmText) }
  function CancelText(p: Props): string { p.cancelText.GetOr(DefaultCancelText) }
  predicate Loading(p: Props) { p.loading.GetOr(false) }
  predicate Danger(p: Props) { p.danger.GetOr(false) }

  /** What an open dialog puts on screen. The overlay is always clickable. */
  datatype Dialog = Dialog(
    cancelLabel: string,
    confirmLabel: string,
    cancelEnabled: bool,
    confirmEnabled: bool,
    dangerStyle: bool)

  /** The rendered dialog, or `None` when nothing is rendered. */
  function Render(p: Props): (r: Option<Dialog>)
    ensures r.None? <==> !p.open
    ensures r.Some? ==> (r.value.cancelEnabled <==> !Loading(p))
    ensures r.Some? ==> (r.value.confirmEnabled <==> !Loading(p))
    ensures r.Some? && Loading(p) ==> r.value.confirmLabel == ProcessingLabel
    ensures r.Some? && !Loading(p) ==> r.value.confirmLabel == ConfirmText(p)
    ensures r.Some? ==> r.value.cancelLabel == CancelText(p)
    ensures r.Some? ==> (r.value.dangerStyle <==> Danger(p))
  {
    if !p.open then None
    else
      var busy := Loading(p);
      Some(Dialog(
        cancelLabel := CancelText(p),
        confirmLabel := if busy then ProcessingLabel else ConfirmText(p),
        cancelEnabled := !busy,
        confirmEnabled := !busy,
        dangerStyle := Danger(p)))
  }

  /** The three clickable areas of the dialog. */
  datatype Action = OverlayClick | CancelClick | ConfirmClick

  /** The caller's callbacks. */
  datatype Callback = OnConfirm | OnCancel

  /**
   * The callback a click invokes: none when the dialog is not rendered or the
   * clicked button is disabled.
   */
  function Fire(p: Props, a: Action): (r: Option<Callback>)
    ensures !p.open ==> r.None?
    ensures r == Some(OnConfirm) <==> p.open && a == ConfirmClick && !Loading(p)
    ensures r == Some(OnCancel) <==> p.open && (a == OverlayClick || (a == CancelClick && !Loading(p)))
  {
    match Render(p)
    case None => None
    case Some(d) =>
      match a
      case OverlayClick => Some(OnCancel)
      case CancelClick => if d.cancelEnabled then Some(OnCancel) else None
      case ConfirmClick => if d.confirmEnabled then Some(OnConfirm) else None
  }

  /**
   * The overlay has no loading guard: even a busy dialog hands an overlay
   * click to the caller's cancel callback.
   */
  lemma OverlayCancelsWhileLoading(p: Props)
    requires p.open && Loading(p)
    ensures Fire(p, OverlayClick) == Some(OnCancel)
    ensures Fire(p, CancelClick).None? && Fire(p, ConfirmClick).None?
  {
  }

  /** Props that set only `open` render the default labels and no busy state. */
  lemma DefaultsRender(open: bool)
    requires open
    ensures Render(Props(open, None, None, None, None))
      == Some(Dialog(DefaultCancelText, DefaultConfirmText, true, true, false))
  {
  }
}
