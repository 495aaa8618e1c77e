/**
 * The Dashboard's delete flow: a row's Delete button picks a target, the
 * confirmation dialog gates confirm and cancel, and a delete in flight is
 * marked by the id it is deleting. The delete and the dashboard refetch that
 * follows it are outcomes passed in.
 */
module Dashboard {
  import opened Common
  import opened PaymentRecord
  import ConfirmModal
  import PaymentsPage

  /** The dialog's target, the id of the delete in flight (`""` when none) and the error line. */
  datatype DeleteState = DeleteState(target: Option<Payment>, deletingId: string, error: string)

  const Idle := DeleteState(None, "", "")

  const DeleteFailedMessage := "Failed to delete payment. Please try again."

  datatype DashboardRequest = DeletePayment(id: string) | FetchDashboard

  /** The state after an event and the requests it sent, in order. */
  datatype DeleteStep = DeleteStep(state: DeleteState, requests: seq<DashboardRequest>)

  /** The delete call either succeeds or throws. The refetch that follows never throws. */
  datatype DeleteOutcome = Deleted | DeleteFailed

  predicate DialogOpen(s: DeleteState) { s.target.Some? }
  predicate InFlight(s: DeleteState) { s.deletingId != "" }

  /** A row's Delete button is disabled exactly while that row's id is being deleted. */
  predicate DeleteButtonDisabled(s: DeleteState, row: Payment) {
    s.deletingId == row.id
  }

  const DeleteLabel := "Delete"
  const DeletingLabel := "Deleting..."

  /** A row's Delete button as rendered. */
  datatype RowButton = RowButton(caption: string, disabled: bool)

  function RowDeleteButton(s: DeleteState, row: Payment): (r: RowButton)
    ensures r.disabled <==> s.deletingId == row.id
    ensures r.disabled ==> r.caption == DeletingLabel
    ensures !r.disabled ==> r.caption == DeleteLabel
  {
    if DeleteButtonDisabled(s, row) then RowButton(DeletingLabel, true) else RowButton(DeleteLabel, false)
  }

  /** The props the Dashboard passes to the dialog. */
  function ModalProps(s: DeleteState): (p: ConfirmModal.Props)
    ensures p.open <==> DialogOpen(s)
    ensures ConfirmModal.Loading(p) <==> InFlight(s)
    ensures ConfirmModal.Danger(p)
  {
    ConfirmModal.Props(s.target.Some?, Some("Delete"), Some("Cancel"), Some(s.deletingId != ""), Some(true))
  }

  /** A click on a row's Delete button: the row becomes the target unless its button is disabled. */
  function SelectRow(s: DeleteState, row: Payment): (r: DeleteState)
    ensures DeleteButtonDisabled(s, row) ==> r == s
    ensures !DeleteButtonDisabled(s, row) ==> r.target == Some(row)
    ensures r.deletingId == s.deletingId && r.error == s.error
  {
    if RowDeleteButton(s, row).disabled then s else s.(target := Some(row))
  }

  /** `handleDeletePayment` up to the delete call; a no-op without a target. */
  function StartDelete(s: DeleteState): (r: DeleteStep)
    ensures s.target.None? ==> r == DeleteStep(s, [])
    ensures s.target.Some? ==>
      && r.state == DeleteState(s.target, s.target.value.id, "")
      && r.requests == [DeletePayment(s.target.value.id)]
  {
    match s.target
    case None => DeleteStep(s, [])
    case Some(p) => DeleteStep(s.(error := "", deletingId := p.id), [DeletePayment(p.id)])
  }

  /**
   * `handleDeletePayment` after the delete call settles: a success refetches
   * the dashboard and then closes the dialog; a failure keeps the dialog
   * open and sets the page's error line to the retry message. Either way
   * nothing is in flight afterwards.
   */
  function FinishDelete(s: DeleteState, o: DeleteOutcome): (r: DeleteStep)
    ensures r.state.deletingId == ""
    ensures o == Deleted ==> r.state.target.None? && r.state.error == s.error
    ensures o == Deleted ==> r.requests == [FetchDashboard]
    ensures o == DeleteFailed ==> r.state.target == s.target && r.state.error == DeleteFailedMessage
    ensures o == DeleteFailed ==> r.requests == []
  {
    match o
    case Deleted => DeleteStep(s.(target := None, deletingId := ""), [FetchDashboard])
    case DeleteFailed => DeleteStep(s.(error := DeleteFailedMessage, deletingId := ""), [])
  }

  /** The Dashboard's `onCancel`: it clears the target only when no delete is in flight. */
  function CancelDelete(s: DeleteState): (r: DeleteState)
    ensures InFlight(s) ==> r == s
    ensures !InFlight(s) ==> r.target.None?
    ensures r.deletingId == s.deletingId && r.error == s.error
  {
    if s.deletingId == "" then s.(target := None) else s
  }

  /** A click somewhere on the dialog, routed through the dialog's own gating. */
  function ClickDialog(s: DeleteState, a: ConfirmModal.Action): (r: DeleteStep)
    ensures !DialogOpen(s) ==> r == DeleteStep(s, [])
    ensures InFlight(s) ==> r == DeleteStep(s, [])
    ensures DialogOpen(s) && !InFlight(s) && a == ConfirmModal.ConfirmClick ==> r == StartDelete(s)
    ensures DialogOpen(s) && !InFlight(s) && a != ConfirmModal.ConfirmClick ==>
      r == DeleteStep(s.(target := None), [])
    ensures forall id :: DeletePayment(id) in r.requests ==> DialogOpen(s) && !InFlight(s) && id == s.target.value.id
  {
    match ConfirmModal.Fire(ModalProps(s), a)
    case None => DeleteStep(s, [])
    case Some(callback) =>
      match callback
      case OnConfirm => StartDelete(s)
      case OnCancel => DeleteStep(CancelDelete(s), [])
  }

  datatype DeleteEvent =
    | RowDelete(row: Payment)
    | DialogClick(action: ConfirmModal.Action)
    | DeleteSettled(outcome: DeleteOutcome)

  function Apply(s: DeleteState, e: DeleteEvent): DeleteStep {
    match e
    case RowDelete(row) => DeleteStep(SelectRow(s, row), [])
    case DialogClick(a) => ClickDialog(s, a)
    case DeleteSettled(o) => FinishDelete(s, o)
  }

  function Run(s: DeleteState, events: seq<DeleteEvent>): DeleteState
    decreases |events|
  {
    if events == [] then s else Run(Apply(s, events[0]).state, events[1..])
  }

  // ---------------------------------------------------------------------------
  // Properties of the delete flow

  /** While a delete is in flight the dialog is open. */
  predicate DialogHeldOpen(s: DeleteState) {
    InFlight(s) ==> DialogOpen(s)
  }

  /**
   * No click, whether the Cancel button or the overlay, closes the dialog
   * or starts a second delete while one is in flight.
   */
  lemma ClickWhileInFlight(s: DeleteState, a: ConfirmModal.Action)
    requires InFlight(s)
    ensures ClickDialog(s, a) == DeleteStep(s, [])
  {
  }

  /**
   * Once a delete has started, the targeted row's button is the only one
   * disabled, and it reads "Deleting...".
   */
  lemma StartDeleteDisablesOnlyTarget(s: DeleteState, row: Payment)
    requires s.target.Some?
    ensures var b := RowDeleteButton(StartDelete(s).state, row);
      (b.disabled <==> row.id == s.target.value.id) && (b.disabled ==> b.caption == DeletingLabel)
  {
  }

  /** Without a target nothing happens on confirm: no state change and no request. */
  lemma ConfirmWithoutTarget(s: DeleteState, a: ConfirmModal.Action)
    requires s.target.None?
    ensures ClickDialog(s, a) == DeleteStep(s, [])
    ensures StartDelete(s) == DeleteStep(s, [])
  {
  }

  /** A confirmed and successful delete ends closed, idle and without an error. */
  lemma ConfirmThenSuccess(s: DeleteState)
    requires s.target.Some?
    ensures var started := StartDelete(s).state;
      FinishDelete(started, Deleted).state == Idle
  {
  }

  /** A confirmed delete that fails keeps the same target open with the retry message. */
  lemma ConfirmThenFailure(s: DeleteState)
    requires s.target.Some?
    ensures var started := StartDelete(s).state;
      FinishDelete(started, DeleteFailed).state == DeleteState(s.target, "", DeleteFailedMessage)
  {
  }

  /** Each event keeps the dialog open while a delete is in flight. */
  lemma ApplyKeepsDialogHeldOpen(s: DeleteState, e: DeleteEvent)
    requires DialogHeldOpen(s)
    ensures DialogHeldOpen(Apply(s, e).state)
  {
  }

  /** From a state where the dialog is held open, every run of events keeps it so. */
  lemma {:induction false} RunKeepsDialogHeldOpen(s: DeleteState, events: seq<DeleteEvent>)
    requires DialogHeldOpen(s)
    ensures DialogHeldOpen(Run(s, events))
    decreases |events|
  {
    if events != [] {
      ApplyKeepsDialogHeldOpen(s, events[0]);
      RunKeepsDialogHeldOpen(Apply(s, events[0]).state, events[1..]);
    }
  }

  /**
   * Every settled delete leaves nothing in flight, and a run that ends with a
   * settled delete ends with `deletingId` empty whatever came before.
   */
  lemma RunEndingInSettleIsIdle(s: DeleteState, events: seq<DeleteEvent>, o: DeleteOutcome)
    ensures !InFlight(Run(s, events + [DeleteSettled(o)]))
  {
    RunSnoc(s, events, DeleteSettled(o));
  }

  lemma {:induction false} RunSnoc(s: DeleteState, events: seq<DeleteEvent>, e: DeleteEvent)
    ensures Run(s, events + [e]) == Apply(Run(s, events), e).state
    decreases |events|
  {
    if events == [] {
      assert events + [e] == [e];
    } else {
      assert (events + [e])[1..] == events[1..] + [e];
      RunSnoc(Apply(s, events[0]).state, events[1..], e);
    }
  }

  // ---------------------------------------------------------------------------
  // The recent-payments table

  /**
   * The ID cell of the recent-payments table: the first 20 characters of the
   * payment id followed by "...", else the same for the order id, else the
   * placeholder.
   */
  function RecentIdCell(p: Payment): (r: string)
    ensures Truthy(p.razorpayPaymentId) ==>
      r == Prefix(p.razorpayPaymentId.value, IdCellWidth) + "..."
    ensures !Truthy(p.razorpayPaymentId) && Truthy(p.razorpayOrderId) ==>
      r == Prefix(p.razorpayOrderId.value, IdCellWidth) + "..."
    ensures !HasDisplayId(p) ==> r == Placeholder
  {
    if Truthy(p.razorpayPaymentId) then Prefix(p.razorpayPaymentId.value, IdCellWidth) + "..."
    else if Truthy(p.razorpayOrderId) then Prefix(p.razorpayOrderId.value, IdCellWidth) + "..."
    else Placeholder
  }

  /**
   * The two tables pick the same identifier: the Dashboard's cell is the
   * Payments page's cell with "..." appended, or both show the placeholder.
   */
  lemma IdCellsAgree(p: Payment)
    ensures HasDisplayId(p) ==> RecentIdCell(p) == PaymentsPage.PaymentIdCell(p) + "..."
    ensures !HasDisplayId(p) ==> RecentIdCell(p) == PaymentsPage.PaymentIdCell(p) == Placeholder
  {
  }
}
