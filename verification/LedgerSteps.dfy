/** One transaction at a time: which ones keep the balances in step with the sums. */
module LedgerSteps {
  import opened Values
  import opened Totals
  import opened LedgerModel
  import opened LedgerBooks

  /* ---- the caller-side condition under which a transaction keeps the books ---- */

  predicate KnownOrder(s: State, p: Option<Id>) {
    p.Some? && p.value in s.orders
  }

  // Posting takes money from `committed`; only an order that put it there, or a
  // budget with nothing committed, can stand that.
  predicate PostSafe(s: State, order: Option<Id>) {
    KnownOrder(s, order) ==>
      var o := s.orders[order.value];
      || o.total <= o.recognized
      || o.budget.None?
      || o.encumbered
      || (o.budget.value in s.budgets && s.budgets[o.budget.value].committed == 0)
  }

  // Reversal puts money back into `committed` for the order the receipt names
  // when it is reversed.
  predicate ReverseSafe(s: State, g: Receipt, target: Option<Id>) {
    g.amount == 0 ||
    if !KnownOrder(s, target) then !KnownOrder(s, g.order)
    else if target == g.order then s.orders[target.value].budget.None? || s.orders[target.value].encumbered
    else !KnownOrder(s, g.order) && s.orders[target.value].recognized == 0 && s.orders[target.value].budget.None?
  }

  predicate Guard(s: State, op: Op) {
    match op
    case OpCloseBudgetPeriod(policy, f, today) =>
      policy.Lapse? ==> forall b :: b in s.budgets && Closes(f, today, b, s.budgets[b]) ==>
        s.budgets[b].committed == 0 && s.budgets[b].preCommitted == 0
    case OpUpdateRequisition(id, total, budget, _) =>
      id in s.requisitions && s.requisitions[id].encumbered && !s.requisitions[id].preReleased ==>
        total.GetOr(s.requisitions[id].total) == s.requisitions[id].total
        && (budget.Some? ==> budget == s.requisitions[id].budget)
    case OpSettleRequisition(id, outcome, _) =>
      id in s.requisitions && outcome.OutcomeApproved? && s.requisitions[id].preReleased ==>
        s.requisitions[id].encumbered || s.requisitions[id].budget.None? || s.requisitions[id].total <= 0
    case OpUpdateOrder(id, p) =>
      id in s.orders && s.orders[id].encumbered ==>
        var n := PatchedOrder(s.orders[id], p);
        Ends(n.status) || n.budget == s.orders[id].budget || n.total == s.orders[id].recognized
    case OpCreateReceipt(_, order, status, _, _, _) =>
      status == Posted ==> PostSafe(s, order)
    case OpUpdateReceipt(id, p) =>
      id in s.receipts ==>
        var g := s.receipts[id];
        var n := PatchedReceipt(g, p);
        if !g.recognized then n.status == Posted ==> PostSafe(s, n.order)
        else if n.status == Posted then
          g.amount == 0 || n.order == g.order || (!KnownOrder(s, g.order) && !KnownOrder(s, n.order))
        else ReverseSafe(s, g, n.order)
    case OpDeleteReceipt(id) =>
      id in s.receipts && s.receipts[id].recognized ==> ReverseSafe(s, s.receipts[id], s.receipts[id].order)
    case _ => true
  }

  // A refused transaction is always safe.
  predicate Safe(s: State, op: Op) {
    Apply(Floored, s, op).Ok? ==> Guard(s, op)
  }

  predicate IsLapse(op: Op) {
    op.OpCloseBudgetPeriod? && op.policy.Lapse?
  }

  /* ---- balances that follow their sums ---- */

  // The balance moves by what the sum moved by, stopping at zero.
  predicate Follows(balance: int, sum: int, balance': int, sum': int) {
    sum' >= 0 && balance' == Less(Floored, balance, sum - sum')
  }

  function CommittedOf(s: State, b: Id): int {
    if b in s.budgets then s.budgets[b].committed else 0
  }

  function PreCommittedOf(s: State, b: Id): int {
    if b in s.budgets then s.budgets[b].preCommitted else 0
  }

  ghost predicate Tracks(s: State, t: State) {
    && (forall b :: b in t.budgets ==>
          Follows(CommittedOf(s, b), Open(s.orders, b), CommittedOf(t, b), Open(t.orders, b)))
    && (forall b :: b in t.budgets ==>
          Follows(PreCommittedOf(s, b), Held(s.requisitions, b), PreCommittedOf(t, b), Held(t.requisitions, b)))
  }

  lemma BudgetStepTracks(s: State, op: Op)
    requires Documents(s) && RowsSound(s)
    requires op.OpCreateBudget? || op.OpUpdateBudget? || op.OpDeleteBudget? || op.OpCloseBudgetPeriod?
    requires !IsLapse(op)
    requires Apply(Floored, s, op).Ok?
    ensures Documents(Step(Floored, s, op)) && Tracks(s, Step(Floored, s, op))
  {
    OpenSigns(s);
    HeldSigns(s);
  }

  // A requisition row is written and at most one budget gives or takes a reservation.
  lemma RequisitionWriteTracks(s: State, t: State, id: Id, row: Requisition)
    requires Documents(s) && RowsSound(s)
    requires t == s.(budgets := t.budgets, requisitions := s.requisitions[id := row])
    requires t.budgets.Keys == s.budgets.Keys
    requires RequisitionOk(s.budgets, row)
    requires forall b :: b in s.budgets ==> t.budgets[b].committed == s.budgets[b].committed
    requires forall b :: b in s.budgets ==>
      t.budgets[b].preCommitted == Less(Floored, s.budgets[b].preCommitted,
        (if id in s.requisitions then ReservedPart(b, s.requisitions[id]) else 0) - ReservedPart(b, row))
    ensures Documents(t) && Tracks(s, t)
  {
    OpenSigns(s);
    HeldPut(s.requisitions, id, row);
    RequisitionRowFits(s, t, id, row);
    HeldSigns(t);
  }

  lemma RequisitionRowFits(s: State, t: State, id: Id, row: Requisition)
    requires Documents(s) && t == s.(budgets := t.budgets, requisitions := s.requisitions[id := row])
    requires t.budgets.Keys == s.budgets.Keys && RequisitionOk(s.budgets, row)
    ensures Documents(t)
  {}

  lemma CreateRequisitionTracks(s: State, op: Op)
    requires Documents(s) && RowsSound(s)
    requires op.OpCreateRequisition? && Apply(Floored, s, op).Ok?
    ensures Documents(Step(Floored, s, op)) && Tracks(s, Step(Floored, s, op))
  {
    var t := Step(Floored, s, op);
    RequisitionWriteTracks(s, t, op.id, t.requisitions[op.id]);
  }

  lemma UpdateRequisitionTracks(s: State, op: Op)
    requires Documents(s) && RowsSound(s)
    requires op.OpUpdateRequisition? && Apply(Floored, s, op).Ok? && Guard(s, op)
    ensures Documents(Step(Floored, s, op)) && Tracks(s, Step(Floored, s, op))
  {
    var t := Step(Floored, s, op);
    assert RequisitionOk(s.budgets, s.requisitions[op.id]);
    RequisitionWriteTracks(s, t, op.id, t.requisitions[op.id]);
  }

  lemma SettlementMoves(s: State, op: Op)
    requires Documents(s) && RowsSound(s)
    requires op.OpSettleRequisition? && Apply(Floored, s, op).Ok? && Guard(s, op)
    ensures var t := Step(Floored, s, op);
            && op.id in s.requisitions && op.id in t.requisitions
            && t == s.(budgets := t.budgets, requisitions := s.requisitions[op.id := t.requisitions[op.id]])
            && t.budgets.Keys == s.budgets.Keys && RequisitionOk(s.budgets, t.requisitions[op.id])
            && forall b :: b in s.budgets ==>
                 && t.budgets[b].committed == s.budgets[b].committed
                 && t.budgets[b].preCommitted == Less(Floored, s.budgets[b].preCommitted,
                      ReservedPart(b, s.requisitions[op.id]) - ReservedPart(b, t.requisitions[op.id]))
  {
    assert RequisitionOk(s.budgets, s.requisitions[op.id]);
  }

  lemma SettleRequisitionTracks(s: State, op: Op)
    requires Documents(s) && RowsSound(s)
    requires op.OpSettleRequisition? && Apply(Floored, s, op).Ok? && Guard(s, op)
    ensures Documents(Step(Floored, s, op)) && Tracks(s, Step(Floored, s, op))
  {
    SettlementMoves(s, op);
    var t := Step(Floored, s, op);
    RequisitionWriteTracks(s, t, op.id, t.requisitions[op.id]);
  }

  // A requisition row goes and its reservation goes with it.
  lemma RequisitionDropTracks(s: State, t: State, id: Id)
    requires Documents(s) && RowsSound(s) && id in s.requisitions
    requires t == s.(budgets := t.budgets, requisitions := s.requisitions - {id})
    requires t.budgets.Keys == s.budgets.Keys
    requires forall b :: b in s.budgets ==> t.budgets[b].committed == s.budgets[b].committed
    requires forall b :: b in s.budgets ==>
      t.budgets[b].preCommitted == Less(Floored, s.budgets[b].preCommitted, ReservedPart(b, s.requisitions[id]))
    ensures Documents(t) && Tracks(s, t)
  {
    OpenSigns(s);
    HeldDrop(s.requisitions, id);
    assert Documents(t);
    HeldSigns(t);
  }

  lemma DeleteRequisitionTracks(s: State, op: Op)
    requires Documents(s) && RowsSound(s)
    requires op.OpDeleteRequisition? && Apply(Floored, s, op).Ok?
    ensures Documents(Step(Floored, s, op)) && Tracks(s, Step(Floored, s, op))
  {
    RequisitionDropTracks(s, Step(Floored, s, op), op.id);
  }

  /* ---- purchase orders ---- */

  // An order row is written and at most one budget's `committed` answers.
  lemma OrderWriteTracks(s: State, t: State, id: Id, row: Order)
    requires Documents(s) && RowsSound(s)
    requires t == s.(budgets := t.budgets, orders := s.orders[id := row])
    requires t.budgets.Keys == s.budgets.Keys
    requires OrderOk(s.budgets, row) && row.recognized == Receipted(s.receipts, id)
    requires forall b :: b in s.budgets ==> t.budgets[b].preCommitted == s.budgets[b].preCommitted
    requires forall b :: b in s.budgets ==>
      t.budgets[b].committed == Less(Floored, s.budgets[b].committed,
        (if id in s.orders then OpenPart(b, s.orders[id]) else 0) - OpenPart(b, row))
    ensures Documents(t) && Tracks(s, t)
  {
    HeldSigns(s);
    OpenPut(s.orders, id, row);
    assert Documents(t);
    OpenSigns(t);
  }

  // An order row goes and its open part goes with it.
  lemma OrderDropTracks(s: State, t: State, id: Id)
    requires Documents(s) && RowsSound(s) && id in s.orders
    requires t == s.(budgets := t.budgets, orders := s.orders - {id})
    requires t.budgets.Keys == s.budgets.Keys
    requires forall b :: b in s.budgets ==> t.budgets[b].preCommitted == s.budgets[b].preCommitted
    requires forall b :: b in s.budgets ==>
      t.budgets[b].committed == Less(Floored, s.budgets[b].committed, OpenPart(b, s.orders[id]))
    ensures Documents(t) && Tracks(s, t)
  {
    HeldSigns(s);
    OpenDrop(s.orders, id);
    assert Documents(t);
    OpenSigns(t);
  }

  lemma DeleteOrderTracks(s: State, op: Op)
    requires Documents(s) && RowsSound(s)
    requires op.OpDeleteOrder? && Apply(Floored, s, op).Ok?
    ensures Documents(Step(Floored, s, op)) && Tracks(s, Step(Floored, s, op))
  {
    assert OrderOk(s.budgets, s.orders[op.id]);
    OrderDropTracks(s, Step(Floored, s, op), op.id);
  }

  // What an edit does to the budgets: `committed` answers to the open part.
  lemma UpdateOrderWrites(s: State, id: Id, p: OrderPatch)
    requires RowsSound(s) && UpdateOrder(Floored, s, id, p).Ok? && id in s.orders && OrderOk(s.budgets, s.orders[id])
    requires var n := PatchedOrder(s.orders[id], p);
             s.orders[id].encumbered ==>
               Ends(n.status) || n.budget == s.orders[id].budget || n.total == s.orders[id].recognized
    ensures var t := UpdateOrder(Floored, s, id, p).value;
            && id in t.orders && t == s.(budgets := t.budgets, orders := s.orders[id := t.orders[id]])
            && t.budgets.Keys == s.budgets.Keys
            && OrderOk(s.budgets, t.orders[id]) && t.orders[id].recognized == s.orders[id].recognized
            && (forall b :: b in s.budgets ==> t.budgets[b].preCommitted == s.budgets[b].preCommitted)
            && forall b :: b in s.budgets ==>
                 t.budgets[b].committed ==
                   Less(Floored, s.budgets[b].committed, OpenPart(b, s.orders[id]) - OpenPart(b, t.orders[id]))
  {}

  lemma UpdateOrderTracks(s: State, op: Op)
    requires Documents(s) && RowsSound(s)
    requires op.OpUpdateOrder? && Apply(Floored, s, op).Ok? && Guard(s, op)
    ensures Documents(Step(Floored, s, op)) && Tracks(s, Step(Floored, s, op))
  {
    var t := UpdateOrder(Floored, s, op.id, op.orderPatch).value;
    assert OrderOk(s.budgets, s.orders[op.id]);
    UpdateOrderWrites(s, op.id, op.orderPatch);
    OrderWriteTracks(s, t, op.id, t.orders[op.id]);
  }

  // A fresh order liquidates its requisition's reservation, then commits its
  // own total: two balances, possibly of two budgets.
  lemma LiquidateTracks(s: State, req: Option<Id>)
    requires Documents(s) && RowsSound(s)
    ensures var t := Liquidate(Floored, s, req);
            Documents(t) && RowsSound(t) && Tracks(s, t) && t.orders == s.orders && t.receipts == s.receipts
            && t.budgets.Keys == s.budgets.Keys
            && forall b :: b in s.budgets ==> t.budgets[b].committed == s.budgets[b].committed
  {
    var t := Liquidate(Floored, s, req);
    if req.Some? && req.value in s.requisitions && Reserved(s.requisitions[req.value]) {
      var r := s.requisitions[req.value];
      assert RequisitionOk(s.budgets, r);
      RequisitionWriteTracks(s, t, req.value, r.(preReleased := true));
    } else {
      OpenSigns(s);
      HeldSigns(s);
    }
  }

  lemma NewOrderTracks(s: State, id: Id, o: Order, req: Option<Id>)
    requires Documents(s) && RowsSound(s) && !OrderIdTaken(s, id)
    requires OrderOk(s.budgets, o) && !o.encumbered && o.recognized == 0
    requires req.Some? ==> req.value in s.requisitions
    ensures var s1 := PutOrder(s, id, o);
            var t := if req.Some? then PutRequisition(s1, req.value, s1.requisitions[req.value].(status := Ordered))
                     else s1;
            && Documents(t) && (forall b :: Open(t.orders, b) == Open(s.orders, b))
            && (forall b :: Held(t.requisitions, b) == Held(s.requisitions, b))
  {
    TotalZero(s.receipts, RecognizedOn(id));
    var s1 := PutOrder(s, id, o);
    OpenPut(s.orders, id, o);
    OrderWriteTracks(s, s1, id, o);
    if req.Some? {
      var row := s1.requisitions[req.value].(status := Ordered);
      assert RequisitionOk(s.budgets, s.requisitions[req.value]);
      HeldPut(s.requisitions, req.value, row);
      RequisitionWriteTracks(s1, PutRequisition(s1, req.value, row), req.value, row);
    }
  }

  lemma TracksInTwo(s: State, u: State, t: State)
    requires Tracks(s, u) && Tracks(u, t)
    requires s.budgets.Keys == u.budgets.Keys == t.budgets.Keys
    requires s.orders == u.orders && u.requisitions == t.requisitions
    requires forall b :: b in s.budgets ==> s.budgets[b].committed == u.budgets[b].committed
    requires forall b :: b in s.budgets ==> u.budgets[b].preCommitted == t.budgets[b].preCommitted
    ensures Tracks(s, t)
  {}

  lemma CommitTracks(u: State, t: State, id: Id, row: Order, b: Id)
    requires Documents(u) && RowsSound(u) && id in u.orders && !u.orders[id].encumbered && b in u.budgets
    requires row == u.orders[id].(encumbered := true) && row.budget == Some(b) && row.total > 0 && row.recognized == 0
    requires t == PutOrder(PutBudget(u, b, Commit(u.budgets[b], row.total)), id, row)
    ensures Documents(t) && Tracks(u, t) && t.requisitions == u.requisitions
    ensures forall c :: c in u.budgets ==> u.budgets[c].preCommitted == t.budgets[c].preCommitted
  {
    assert OrderOk(u.budgets, u.orders[id]);
    OrderWriteTracks(u, t, id, row);
  }

  lemma LiquidateThenCommitTracks(s: State, u: State, t: State, id: Id, b: Id)
    requires Documents(u) && RowsSound(u) && Tracks(s, u) && u.orders == s.orders && u.budgets.Keys == s.budgets.Keys
    requires forall c :: c in s.budgets ==> s.budgets[c].committed == u.budgets[c].committed
    requires id in u.orders && !u.orders[id].encumbered && u.orders[id].recognized == 0
    requires b in u.budgets && u.orders[id].budget == Some(b) && u.orders[id].total > 0
    requires t == PutOrder(PutBudget(u, b, Commit(u.budgets[b], u.orders[id].total)), id,
                           u.orders[id].(encumbered := true))
    ensures Documents(t) && Tracks(s, t)
  {
    CommitTracks(u, t, id, u.orders[id].(encumbered := true), b);
    TracksInTwo(s, u, t);
  }

  lemma EncumbranceTracks(s: State, id: Id)
    requires Documents(s) && RowsSound(s) && id in s.orders && !s.orders[id].encumbered && s.orders[id].recognized == 0
    requires ApplyOrderEncumbrance(Floored, s, id).Ok?
    ensures var t := ApplyOrderEncumbrance(Floored, s, id).value; Documents(t) && Tracks(s, t)
  {
    var o := s.orders[id];
    assert OrderOk(s.budgets, o);
    if o.budget.None? || o.total <= 0 {
      OpenSigns(s);
      HeldSigns(s);
    } else {
      var u := Liquidate(Floored, s, o.requisition);
      LiquidateTracks(s, o.requisition);
      LiquidateThenCommitTracks(s, u, ApplyOrderEncumbrance(Floored, s, id).value, id, o.budget.value);
    }
  }

  lemma TracksFrom(s: State, u: State, t: State)
    requires Tracks(u, t) && u.budgets == s.budgets
    requires forall b :: Open(u.orders, b) == Open(s.orders, b) && Held(u.requisitions, b) == Held(s.requisitions, b)
    ensures Tracks(s, t)
  {}

  lemma RaiseOrderTracks(s: State, id: Id, budget: Option<Id>, req: Option<Id>, total: int,
                         lines: seq<OrderLine>, creator: Actor)
    requires Documents(s) && RowsSound(s)
    requires RaiseOrder(Floored, s, id, budget, req, total, lines, creator).Ok?
    ensures var t := RaiseOrder(Floored, s, id, budget, req, total, lines, creator).value; Documents(t) && Tracks(s, t)
  {
    var o := Order(total, budget, req, InitialStatus(s.threshold, total), creator, lines, false, 0);
    var s1 := PutOrder(s, id, o);
    var u := if req.Some? then PutRequisition(s1, req.value, s1.requisitions[req.value].(status := Ordered)) else s1;
    NewOrderTracks(s, id, o, req);
    EncumbranceTracks(u, id);
    TracksFrom(s, u, ApplyOrderEncumbrance(Floored, u, id).value);
  }

  /* ---- goods receipts ---- */

  function RecognizedBefore(s: State, id: Id, p: Id): int {
    if id in s.receipts then RecognizedPart(p, s.receipts[id]) else 0
  }

  // A receipt row is written without changing what any order has recognized.
  lemma ReceiptWriteTracks(s: State, t: State, id: Id, row: Receipt)
    requires Documents(s) && RowsSound(s)
    requires t == PutReceipt(s, id, row) && ReceiptOk(row)
    requires forall p :: p in s.orders ==> RecognizedPart(p, row) == RecognizedBefore(s, id, p)
    ensures Documents(t) && Tracks(s, t)
  {
    OpenSigns(s);
    HeldSigns(s);
    ReceiptedPut(s.receipts, id, row);
  }

  lemma RecognitionDocuments(s: State, t: State, id: Id, row: Receipt, p: Id, o: Order)
    requires Documents(s) && p in s.orders
    requires t == s.(budgets := t.budgets, orders := s.orders[p := o], receipts := s.receipts[id := row])
    requires t.budgets.Keys == s.budgets.Keys
    requires OrderOk(s.budgets, o) && ReceiptOk(row)
    requires o.recognized == s.orders[p].recognized + RecognizedPart(p, row) - RecognizedBefore(s, id, p)
    requires forall q :: q in s.orders && q != p ==> RecognizedPart(q, row) == RecognizedBefore(s, id, q)
    ensures Documents(t)
  {
    ReceiptedPut(s.receipts, id, row);
  }

  // A receipt and its order are written together, and the budget answers.
  lemma RecognitionTracks(s: State, t: State, id: Id, row: Receipt, p: Id, o: Order)
    requires Documents(s) && RowsSound(s) && p in s.orders
    requires t == s.(budgets := t.budgets, orders := s.orders[p := o], receipts := s.receipts[id := row])
    requires t.budgets.Keys == s.budgets.Keys
    requires OrderOk(s.budgets, o) && ReceiptOk(row)
    requires o.recognized == s.orders[p].recognized + RecognizedPart(p, row) - RecognizedBefore(s, id, p)
    requires forall q :: q in s.orders && q != p ==> RecognizedPart(q, row) == RecognizedBefore(s, id, q)
    requires forall b :: b in s.budgets ==> t.budgets[b].preCommitted == s.budgets[b].preCommitted
    requires forall b :: b in s.budgets ==>
      t.budgets[b].committed == Less(Floored, s.budgets[b].committed, OpenPart(b, s.orders[p]) - OpenPart(b, o))
    ensures Documents(t) && Tracks(s, t)
  {
    HeldSigns(s);
    RecognitionDocuments(s, t, id, row, p, o);
    OpenPut(s.orders, p, o);
    OpenSigns(t);
  }

  lemma RestatedKeepsMoney(o: Order)
    ensures Restated(o).(status := o.status) == o
  {}

  lemma RecognizeTracks(s: State, id: Id)
    requires Documents(s) && RowsSound(s) && id in s.receipts && !s.receipts[id].recognized
    requires PostSafe(s, s.receipts[id].order)
    ensures var t := Recognize(Floored, s, id); Documents(t) && Tracks(s, t)
  {
    var g := s.receipts[id];
    var t := Recognize(Floored, s, id);
    if !KnownOrder(s, g.order) {
      OpenSigns(s);
      HeldSigns(s);
    } else {
      var p := g.order.value;
      assert OrderOk(s.budgets, s.orders[p]);
      if s.orders[p].total <= s.orders[p].recognized {
        ReceiptWriteTracks(s, t, id, t.receipts[id]);
      } else {
        var amt := Clamp(LinesValue(g.lines), s.orders[p].total - s.orders[p].recognized);
        RestatedKeepsMoney(s.orders[p].(recognized := s.orders[p].recognized + amt,
                                        lines := Accept(s.orders[p].lines, g.lines)));
        RecognitionTracks(s, t, id, t.receipts[id], p, t.orders[p]);
      }
    }
  }

  // Reversal of the receipt `g` whose row has just been rewritten as `n`.
  lemma UnrecognizeTracks(s: State, id: Id, n: Receipt)
    requires Documents(s) && RowsSound(s) && id in s.receipts
    requires var g := s.receipts[id]; g.recognized && n.recognized && n.amount == g.amount && ReverseSafe(s, g, n.order)
    ensures var t := Unrecognize(Floored, PutReceipt(s, id, n), id); Documents(t) && Tracks(s, t)
  {
    var g := s.receipts[id];
    var clean := n.(recognized := false, amount := 0);
    var t := Unrecognize(Floored, PutReceipt(s, id, n), id);
    assert s.receipts[id := n][id := clean] == s.receipts[id := clean];
    assert ReceiptOk(g);
    if !KnownOrder(s, n.order) || g.amount == 0 {
      ReceiptWriteTracks(s, t, id, clean);
    } else {
      var p := n.order.value;
      var o := s.orders[p];
      assert OrderOk(s.budgets, o);
      ReceiptedSigns(s);
      RestatedKeepsMoney(o.(recognized := Less(Floored, o.recognized, g.amount),
                            lines := Withdraw(Floored, o.lines, n.lines)));
      RecognitionTracks(s, t, id, clean, p, t.orders[p]);
    }
  }

  // The row is written first, and posting or not is settled on the new row.
  lemma WriteThenRecognizeTracks(s: State, id: Id, row: Receipt, posted: bool)
    requires Documents(s) && RowsSound(s) && ReceiptOk(row)
    requires forall p :: p in s.orders ==> RecognizedPart(p, row) == RecognizedBefore(s, id, p)
    requires posted && !row.recognized ==> PostSafe(s, row.order)
    ensures var u := PutReceipt(s, id, row);
            var t := if posted && !row.recognized then Recognize(Floored, u, id) else u;
            Documents(t) && Tracks(s, t)
  {
    var u := PutReceipt(s, id, row);
    ReceiptWriteTracks(s, u, id, row);
    if posted && !row.recognized {
      RecognizeTracks(u, id);
      TracksFrom(s, u, Recognize(Floored, u, id));
    }
  }

  lemma CreateReceiptTracks(s: State, op: Op)
    requires Documents(s) && RowsSound(s)
    requires op.OpCreateReceipt? && Apply(Floored, s, op).Ok? && Guard(s, op)
    ensures Documents(Step(Floored, s, op)) && Tracks(s, Step(Floored, s, op))
  {
    var g := Receipt(op.order, op.receiptStatus, op.critical, op.released, op.lines, false, 0);
    WriteThenRecognizeTracks(s, op.id, g, op.receiptStatus == Posted);
  }

  lemma UpdateReceiptTracks(s: State, op: Op)
    requires Documents(s) && RowsSound(s)
    requires op.OpUpdateReceipt? && Apply(Floored, s, op).Ok? && Guard(s, op)
    ensures Documents(Step(Floored, s, op)) && Tracks(s, Step(Floored, s, op))
  {
    var g := s.receipts[op.id];
    var n := PatchedReceipt(g, op.receiptPatch);
    assert ReceiptOk(g);
    if g.recognized && n.status != Posted {
      UnrecognizeTracks(s, op.id, n);
    } else {
      WriteThenRecognizeTracks(s, op.id, n, n.status == Posted);
    }
  }

  lemma RemovalTracks(s: State, u: State, id: Id)
    requires Documents(u) && Tracks(s, u) && id in u.receipts && !u.receipts[id].recognized
    ensures var t := u.(receipts := u.receipts - {id}); Documents(t) && Tracks(s, t)
  {
    ReceiptedDrop(u.receipts, id);
  }

  lemma DeleteReceiptTracks(s: State, op: Op)
    requires Documents(s) && RowsSound(s)
    requires op.OpDeleteReceipt? && Apply(Floored, s, op).Ok? && Guard(s, op)
    ensures Documents(Step(Floored, s, op)) && Tracks(s, Step(Floored, s, op))
  {
    var g := s.receipts[op.id];
    assert PutReceipt(s, op.id, g) == s;
    if g.recognized {
      UnrecognizeTracks(s, op.id, g);
    } else {
      ReceiptWriteTracks(s, s, op.id, g);
    }
    RemovalTracks(s, RecognizeOnReceipt(Floored, s, op.id, false), op.id);
  }
}
