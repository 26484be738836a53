/** The transactions that break the books, each with the sum it breaks. */
module LedgerUnsafe {
  import opened Values
  import opened LedgerModel
  import opened LedgerBooks
  import opened LedgerSteps

  lemma FullLapseBreaksBooks(s: State, op: Op)
    requires Books(s) && op.OpCloseBudgetPeriod? && !Guard(s, op)
    ensures !Books(Step(Floored, s, op))
  {
    var b :| b in s.budgets && Closes(op.filter, op.today, b, s.budgets[b])
             && (s.budgets[b].committed != 0 || s.budgets[b].preCommitted != 0);
    var t := Step(Floored, s, op);
    assert b in t.budgets && t.budgets[b].committed == 0 && t.budgets[b].preCommitted == 0;
  }

  // Editing the total or the budget of a live reservation.
  lemma ReservationEditBreaksBooks(s: State, op: Op)
    requires Books(s) && op.OpUpdateRequisition? && Apply(Floored, s, op).Ok? && !Guard(s, op)
    ensures !Books(Step(Floored, s, op))
  {
    var r := s.requisitions[op.id];
    var t := Step(Floored, s, op);
    assert RequisitionOk(s.budgets, r);
    HeldPut(s.requisitions, op.id, t.requisitions[op.id]);
    var b := r.budget.value;
    assert b in t.budgets && t.budgets[b] == s.budgets[b];
    assert Held(t.requisitions, b) != Held(s.requisitions, b);
  }

  // Approving again after the reservation was turned into an order.
  lemma SecondReservationBreaksBooks(s: State, op: Op)
    requires Books(s) && op.OpSettleRequisition? && Apply(Floored, s, op).Ok? && !Guard(s, op)
    ensures !Books(Step(Floored, s, op))
  {
    var r := s.requisitions[op.id];
    var t := Step(Floored, s, op);
    assert RequisitionOk(s.budgets, r);
    assert t.requisitions == s.requisitions[op.id := t.requisitions[op.id]];
    HeldPut(s.requisitions, op.id, t.requisitions[op.id]);
    var b := r.budget.value;
    assert b in t.budgets && t.budgets[b].preCommitted == s.budgets[b].preCommitted + r.total;
  }

  // Moving an order that still has an open part to another budget.
  lemma RebudgetBreaksBooks(s: State, op: Op)
    requires Books(s) && op.OpUpdateOrder? && Apply(Floored, s, op).Ok? && !Guard(s, op)
    ensures !Books(Step(Floored, s, op))
  {
    var o := s.orders[op.id];
    var n := PatchedOrder(o, op.orderPatch);
    var t := Step(Floored, s, op);
    assert OrderOk(s.budgets, o);
    assert t.orders == s.orders[op.id := n];
    OpenPut(s.orders, op.id, n);
    var b := n.budget.value;
    assert b in t.budgets && t.budgets[b] == s.budgets[b];
    assert Open(t.orders, b) == Open(s.orders, b) + n.total - n.recognized;
  }

  // Posting against an order whose encumbrance is gone eats into what other
  // orders have committed.
  lemma LatePostingBreaksBooks(s: State, id: Id)
    requires Books(s) && id in s.receipts && !s.receipts[id].recognized && !PostSafe(s, s.receipts[id].order)
    ensures !Books(Recognize(Floored, s, id))
  {
    var p := s.receipts[id].order.value;
    var o := s.orders[p];
    var t := Recognize(Floored, s, id);
    assert OrderOk(s.budgets, o);
    OpenPut(s.orders, p, t.orders[p]);
    var b := o.budget.value;
    assert b in t.budgets && t.budgets[b].committed < s.budgets[b].committed;
    assert Open(t.orders, b) == Open(s.orders, b);
  }

  // Un-posting after release commits money to an order that no longer holds any.
  lemma LateUnpostBreaksBooks(s: State, t: State, id: Id, p: Id, b: Id)
    requires Books(s) && p in s.orders && p in t.orders && t.orders == s.orders[p := t.orders[p]]
    requires s.orders[p].budget == Some(b) && b in s.budgets && b in t.budgets
    requires t.orders[p].budget == Some(b) && t.orders[p].encumbered == s.orders[p].encumbered
    requires s.orders[p].encumbered ==>
               t.orders[p].total - t.orders[p].recognized == s.orders[p].total - s.orders[p].recognized
    requires t.budgets[b].committed != s.budgets[b].committed
    ensures !Books(t)
  {
    OpenPut(s.orders, p, t.orders[p]);
    assert Open(t.orders, b) == Open(s.orders, b);
  }

  // A receipt moved to another order and then reversed takes from the wrong one.
  lemma MovedReversalBreaksBooks(s: State, t: State, id: Id, clean: Receipt, p: Id)
    requires Books(s) && id in s.receipts && t.receipts == s.receipts[id := clean]
    requires !clean.recognized && p in s.orders && p in t.orders
    requires t.orders[p].recognized != s.orders[p].recognized - RecognizedPart(p, s.receipts[id])
    ensures !Books(t)
  {
    ReceiptedPut(s.receipts, id, clean);
  }

  // What reversal writes: the named order gives up the amount, its budget takes
  // it back as committed, and no other order is touched.
  predicate ReversalWrites(s: State, t: State, id: Id, n: Receipt) {
    && t.receipts == s.receipts[id := n.(recognized := false, amount := 0)]
    && t.orders.Keys == s.orders.Keys
    && (forall q :: q in s.orders && n.order != Some(q) ==> t.orders[q] == s.orders[q])
    && (KnownOrder(s, n.order) ==>
          var p := n.order.value;
          var o := s.orders[p];
          && t.orders == s.orders[p := t.orders[p]]
          && t.orders[p].recognized == Less(Floored, o.recognized, n.amount)
          && t.orders[p].(recognized := o.recognized, lines := o.lines, status := o.status) == o
          && (o.budget.Some? && o.budget.value in s.budgets ==>
                o.budget.value in t.budgets
                && t.budgets[o.budget.value].committed == s.budgets[o.budget.value].committed + n.amount))
  }

  lemma UnrecognizeWrites(s: State, id: Id, n: Receipt)
    requires id in s.receipts && n.amount > 0
    ensures ReversalWrites(s, Unrecognize(Floored, PutReceipt(s, id, n), id), id, n)
  {
    assert s.receipts[id := n][id := n.(recognized := false, amount := 0)] ==
        s.receipts[id := n.(recognized := false, amount := 0)];
  }

  lemma BadReversalBreaksBooks(s: State, t: State, id: Id, n: Receipt)
    requires Books(s) && id in s.receipts && n.amount > 0 && ReversalWrites(s, t, id, n)
    requires var g := s.receipts[id]; g.recognized && n.amount == g.amount && !ReverseSafe(s, g, n.order)
    ensures !Books(t)
  {
    var g := s.receipts[id];
    var clean := n.(recognized := false, amount := 0);
    ReceiptedSigns(s);
    if KnownOrder(s, g.order) && n.order != g.order {
      MovedReversalBreaksBooks(s, t, id, clean, g.order.value);
    } else {
      var p := n.order.value;
      assert OrderOk(s.budgets, s.orders[p]);
      if n.order != g.order && s.orders[p].recognized > 0 {
        MovedReversalBreaksBooks(s, t, id, clean, p);
      } else {
        LateUnpostBreaksBooks(s, t, id, p, s.orders[p].budget.value);
      }
    }
  }

  lemma LateReversalBreaksBooks(s: State, id: Id, n: Receipt)
    requires Books(s) && id in s.receipts
    requires var g := s.receipts[id];
             g.recognized && n.recognized && n.amount == g.amount && !ReverseSafe(s, g, n.order)
    ensures !Books(Unrecognize(Floored, PutReceipt(s, id, n), id))
  {
    assert ReceiptOk(s.receipts[id]);
    UnrecognizeWrites(s, id, n);
    BadReversalBreaksBooks(s, Unrecognize(Floored, PutReceipt(s, id, n), id), id, n);
  }

  lemma MovedReceiptBreaksBooks(s: State, id: Id, n: Receipt)
    requires Books(s) && id in s.receipts
    requires var g := s.receipts[id]; g.recognized && n.recognized && n.amount == g.amount != 0 && n.order != g.order
    requires KnownOrder(s, s.receipts[id].order) || KnownOrder(s, n.order)
    ensures !Books(PutReceipt(s, id, n))
  {
    var t := PutReceipt(s, id, n);
    ReceiptedPut(s.receipts, id, n);
    var p := if KnownOrder(s, n.order) then n.order.value else s.receipts[id].order.value;
    assert p in t.orders && t.orders[p].recognized == s.orders[p].recognized;
  }

  lemma CreateReceiptBreaksBooks(s: State, op: Op)
    requires Books(s) && op.OpCreateReceipt? && Apply(Floored, s, op).Ok? && !Guard(s, op)
    ensures !Books(Step(Floored, s, op))
  {
    var g := Receipt(op.order, op.receiptStatus, op.critical, op.released, op.lines, false, 0);
    ReceiptWriteTracks(s, PutReceipt(s, op.id, g), op.id, g);
    SafeWriteKeepsBooks(s, op.id, g);
    LatePostingBreaksBooks(PutReceipt(s, op.id, g), op.id);
  }

  lemma SafeWriteKeepsBooks(s: State, id: Id, row: Receipt)
    requires Books(s) && Documents(PutReceipt(s, id, row))
    ensures Books(PutReceipt(s, id, row))
  {}

  lemma UpdateReceiptBreaksBooks(s: State, op: Op)
    requires Books(s) && op.OpUpdateReceipt? && Apply(Floored, s, op).Ok? && !Guard(s, op)
    ensures !Books(Step(Floored, s, op))
  {
    var g := s.receipts[op.id];
    var n := PatchedReceipt(g, op.receiptPatch);
    assert ReceiptOk(g);
    if !g.recognized {
      ReceiptWriteTracks(s, PutReceipt(s, op.id, n), op.id, n);
      SafeWriteKeepsBooks(s, op.id, n);
      LatePostingBreaksBooks(PutReceipt(s, op.id, n), op.id);
    } else if n.status == Posted {
      MovedReceiptBreaksBooks(s, op.id, n);
    } else {
      LateReversalBreaksBooks(s, op.id, n);
    }
  }

  // Removing a receipt that recognizes nothing cannot repair the books.
  lemma RemovalRepairsNothing(u: State, id: Id)
    requires id in u.receipts && !u.receipts[id].recognized && u.receipts[id].amount == 0
    requires Books(u.(receipts := u.receipts - {id}))
    ensures Books(u)
  {
    ReceiptedDrop(u.receipts, id);
    var t := u.(receipts := u.receipts - {id});
    forall g | g in u.receipts ensures ReceiptOk(u.receipts[g]) {
      assert g != id ==> g in t.receipts && t.receipts[g] == u.receipts[g];
    }
  }

  lemma DeleteReceiptBreaksBooks(s: State, op: Op)
    requires Books(s) && op.OpDeleteReceipt? && Apply(Floored, s, op).Ok? && !Guard(s, op)
    ensures !Books(Step(Floored, s, op))
  {
    var g := s.receipts[op.id];
    assert PutReceipt(s, op.id, g) == s;
    LateReversalBreaksBooks(s, op.id, g);
    if Books(Step(Floored, s, op)) {
      RemovalRepairsNothing(Unrecognize(Floored, s, op.id), op.id);
    }
  }
}
