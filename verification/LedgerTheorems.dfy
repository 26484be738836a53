/** The main results about the ledger: exactly which transactions keep the books,
  * and what holds after every run.
  */
module LedgerTheorems {
  import opened Values
  import opened LedgerModel
  import opened LedgerBooks
  import opened LedgerSteps
  import opened LedgerUnsafe

  /* ---- every writer, without exception ---- */

  lemma RecognitionKeepsRowsSound(s: State, id: Id, posted: bool)
    requires RowsSound(s) && id in s.receipts
    ensures RowsSound(RecognizeOnReceipt(Floored, s, id, posted))
  {}

  lemma LiquidationKeepsRowsSound(s: State, req: Option<Id>)
    requires RowsSound(s)
    ensures RowsSound(Liquidate(Floored, s, req))
  {}

  lemma EncumbranceKeepsRowsSound(s: State, id: Id)
    requires RowsSound(s) && id in s.orders && ApplyOrderEncumbrance(Floored, s, id).Ok?
    ensures RowsSound(ApplyOrderEncumbrance(Floored, s, id).value)
  {
    LiquidationKeepsRowsSound(s, s.orders[id].requisition);
  }

  lemma RaiseKeepsRowsSound(s: State, id: Id, budget: Option<Id>, req: Option<Id>, total: int,
                            lines: seq<OrderLine>, creator: Actor)
    requires RowsSound(s) && RaiseOrder(Floored, s, id, budget, req, total, lines, creator).Ok?
    ensures RowsSound(RaiseOrder(Floored, s, id, budget, req, total, lines, creator).value)
  {
    var o := Order(total, budget, req, InitialStatus(s.threshold, total), creator, lines, false, 0);
    var s1 := PutOrder(s, id, o);
    var u := if req.Some? then PutRequisition(s1, req.value, s1.requisitions[req.value].(status := Ordered)) else s1;
    EncumbranceKeepsRowsSound(u, id);
  }

  lemma SettleKeepsRowsSound(s: State, id: Id, outcome: Outcome, status: RequisitionStatus)
    requires RowsSound(s) && SettleRequisition(Floored, s, id, outcome, status).Ok?
    ensures RowsSound(SettleRequisition(Floored, s, id, outcome, status).value)
  {}

  lemma UpdateOrderKeepsRowsSound(s: State, id: Id, p: OrderPatch)
    requires RowsSound(s) && UpdateOrder(Floored, s, id, p).Ok?
    ensures RowsSound(UpdateOrder(Floored, s, id, p).value)
  {}

  lemma DeletionKeepsRowsSound(s: State, id: Id)
    requires RowsSound(s)
    ensures DeleteOrder(Floored, s, id).Ok? ==> RowsSound(DeleteOrder(Floored, s, id).value)
    ensures DeleteRequisition(Floored, s, id).Ok? ==> RowsSound(DeleteRequisition(Floored, s, id).value)
    ensures DeleteBudget(s, id).Ok? ==> RowsSound(DeleteBudget(s, id).value)
  {}

  // remaining = allotted - pre-committed - committed - spent, and no stage is
  // negative, whatever is done: lapses, edits of allocations and the unsafe
  // transactions included.
  lemma RowsSoundAlways(s: State, op: Op)
    requires RowsSound(s)
    ensures RowsSound(Step(Floored, s, op))
  {
    if Apply(Floored, s, op).Err? {
      return;
    }
    match op
    case OpSettleRequisition(id, outcome, status) => SettleKeepsRowsSound(s, id, outcome, status);
    case OpUpdateOrder(id, p) => UpdateOrderKeepsRowsSound(s, id, p);
    case OpDeleteOrder(id) => DeletionKeepsRowsSound(s, id);
    case OpDeleteRequisition(id) => DeletionKeepsRowsSound(s, id);
    case OpDeleteBudget(id) => DeletionKeepsRowsSound(s, id);
    case OpCreateOrder(id, budget, req, lines, creator) =>
      RaiseKeepsRowsSound(s, id, budget, req, LinesValue(lines), OrderLines(lines), creator);
    case OpAwardOrder(id, budget, req, amount, creator) =>
      RaiseKeepsRowsSound(s, id, AwardBudget(s, budget, req), req, amount, [], creator);
    case OpCreateReceipt(id, order, status, lines, critical, released) =>
      var u := PutReceipt(s, id, Receipt(order, status, critical, released, lines, false, 0));
      RecognitionKeepsRowsSound(u, id, status == Posted);
    case OpUpdateReceipt(id, p) =>
      var n := PatchedReceipt(s.receipts[id], p);
      RecognitionKeepsRowsSound(PutReceipt(s, id, n), id, n.status == Posted);
    case OpDeleteReceipt(id) =>
      RecognitionKeepsRowsSound(s, id, false);
    case _ =>
  }

  /* ---- the exact condition ---- */

  lemma TracksSelf(s: State)
    requires Documents(s) && RowsSound(s)
    ensures Tracks(s, s)
  {
    OpenSigns(s);
    HeldSigns(s);
  }

  lemma SafeStepTracks(s: State, op: Op)
    requires Documents(s) && RowsSound(s) && Safe(s, op) && !IsLapse(op)
    ensures Documents(Step(Floored, s, op)) && Tracks(s, Step(Floored, s, op))
  {
    if Apply(Floored, s, op).Err? {
      TracksSelf(s);
      return;
    }
    match op
    case OpCreateRequisition(_, _, _, _, _) => CreateRequisitionTracks(s, op);
    case OpUpdateRequisition(_, _, _, _) => UpdateRequisitionTracks(s, op);
    case OpSettleRequisition(_, _, _) => SettleRequisitionTracks(s, op);
    case OpDeleteRequisition(_) => DeleteRequisitionTracks(s, op);
    case OpCreateOrder(id, budget, req, lines, creator) =>
      RaiseOrderTracks(s, id, budget, req, LinesValue(lines), OrderLines(lines), creator);
    case OpAwardOrder(id, budget, req, amount, creator) =>
      RaiseOrderTracks(s, id, AwardBudget(s, budget, req), req, amount, [], creator);
    case OpUpdateOrder(_, _) => UpdateOrderTracks(s, op);
    case OpDeleteOrder(_) => DeleteOrderTracks(s, op);
    case OpCreateReceipt(_, _, _, _, _, _) => CreateReceiptTracks(s, op);
    case OpUpdateReceipt(_, _) => UpdateReceiptTracks(s, op);
    case OpDeleteReceipt(_) => DeleteReceiptTracks(s, op);
    case _ => BudgetStepTracks(s, op);
  }

  lemma EmptyLapseKeepsBooks(s: State, op: Op)
    requires Books(s) && IsLapse(op) && Guard(s, op)
    ensures Books(Step(Floored, s, op))
  {}

  // Balances that equalled their sums, and follow them, equal them still.
  lemma TracksKeepsBooks(s: State, t: State)
    requires Books(s) && Documents(t) && RowsSound(t) && Tracks(s, t)
    ensures Books(t)
  {
    OpenSigns(s);
    HeldSigns(s);
    forall b | b in t.budgets
      ensures t.budgets[b].committed == Open(t.orders, b) && t.budgets[b].preCommitted == Held(t.requisitions, b)
    {
      assert CommittedOf(s, b) == Open(s.orders, b) && PreCommittedOf(s, b) == Held(s.requisitions, b);
      assert Follows(CommittedOf(s, b), Open(s.orders, b), CommittedOf(t, b), Open(t.orders, b));
    }
  }

  // Balances that were no more than their sums, and follow them, are no more still.
  lemma TracksKeepsLapsedBooks(s: State, t: State)
    requires LapsedBooks(s) && Documents(t) && RowsSound(t) && Tracks(s, t)
    ensures LapsedBooks(t)
  {
    OpenSigns(s);
    HeldSigns(s);
    forall b | b in t.budgets
      ensures t.budgets[b].committed <= Open(t.orders, b) && t.budgets[b].preCommitted <= Held(t.requisitions, b)
    {
      assert CommittedOf(s, b) <= Open(s.orders, b) && PreCommittedOf(s, b) <= Held(s.requisitions, b);
      assert Follows(CommittedOf(s, b), Open(s.orders, b), CommittedOf(t, b), Open(t.orders, b));
    }
  }

  // A safe transaction leaves the books balanced.
  lemma SafeStepKeepsBooks(s: State, op: Op)
    requires Books(s) && Safe(s, op)
    ensures Books(Step(Floored, s, op))
  {
    if IsLapse(op) {
      EmptyLapseKeepsBooks(s, op);
    } else {
      SafeStepTracks(s, op);
      RowsSoundAlways(s, op);
      TracksKeepsBooks(s, Step(Floored, s, op));
    }
  }

  // The books stay balanced exactly when the transaction is safe.
  lemma BooksIffSafe(s: State, op: Op)
    requires Books(s)
    ensures Books(Step(Floored, s, op)) <==> Safe(s, op)
  {
    if Safe(s, op) {
      SafeStepKeepsBooks(s, op);
    } else {
      match op
      case OpCloseBudgetPeriod(_, _, _) => FullLapseBreaksBooks(s, op);
      case OpUpdateRequisition(_, _, _, _) => ReservationEditBreaksBooks(s, op);
      case OpSettleRequisition(_, _, _) => SecondReservationBreaksBooks(s, op);
      case OpUpdateOrder(_, _) => RebudgetBreaksBooks(s, op);
      case OpCreateReceipt(_, _, _, _, _, _) => CreateReceiptBreaksBooks(s, op);
      case OpUpdateReceipt(_, _) => UpdateReceiptBreaksBooks(s, op);
      case _ => DeleteReceiptBreaksBooks(s, op);
    }
  }
}
