/** Received quantities of order lines, and the invariants no patch can break. */
module LedgerQuantities {
  import opened Values
  import opened Totals
  import opened LedgerModel
  import opened LedgerSteps

  /* ---- what an order line has received ---- */

  function QtyPart(p: Id, item: Id, g: Receipt): int {
    if g.recognized && g.amount > 0 && g.order == Some(p) then QtyOf(g.lines, item) else 0
  }

  ghost function QtyOn(p: Id, item: Id): Receipt -> int { (g: Receipt) => QtyPart(p, item, g) }

  // Quantity of an item over the receipts of an order that recognized money.
  ghost function Delivered(receipts: map<Id, Receipt>, p: Id, item: Id): int { Total(receipts, QtyOn(p, item)) }

  ghost predicate LinesMatch(receipts: map<Id, Receipt>, p: Id, lines: seq<OrderLine>) {
    forall i :: 0 <= i < |lines| ==> lines[i].received == Delivered(receipts, p, lines[i].item)
  }

  ghost predicate Quantities(s: State) {
    && (forall g :: g in s.receipts ==> ValidLines(s.receipts[g].lines))
    && (forall p :: p in s.orders ==> LinesMatch(s.receipts, p, s.orders[p].lines))
  }

  lemma {:induction false} QtyOfNonNegative(ls: seq<Line>, item: Id)
    requires ValidLines(ls)
    ensures QtyOf(ls, item) >= 0
  {
    if ls != [] {
      QtyOfNonNegative(ls[..|ls| - 1], item);
    }
  }

  lemma DeliveredPut(receipts: map<Id, Receipt>, g: Id, row: Receipt)
    ensures forall p, item ::
      Delivered(receipts[g := row], p, item)
      == Delivered(receipts, p, item) + QtyPart(p, item, row)
         - (if g in receipts then QtyPart(p, item, receipts[g]) else 0)
  {
    forall p, item
      ensures Delivered(receipts[g := row], p, item)
           == Delivered(receipts, p, item) + QtyPart(p, item, row)
              - (if g in receipts then QtyPart(p, item, receipts[g]) else 0)
    {
      TotalPut(receipts, g, row, QtyOn(p, item));
    }
  }

  lemma DeliveredDrop(receipts: map<Id, Receipt>, g: Id)
    requires g in receipts
    ensures forall p, item ::
      Delivered(receipts - {g}, p, item) == Delivered(receipts, p, item) - QtyPart(p, item, receipts[g])
  {
    forall p, item
      ensures Delivered(receipts - {g}, p, item) == Delivered(receipts, p, item) - QtyPart(p, item, receipts[g])
    {
      TotalRemove(receipts, g, QtyOn(p, item));
    }
  }

  lemma DeliveredCovers(s: State, g: Id, p: Id, item: Id)
    requires Quantities(s) && g in s.receipts
    ensures Delivered(s.receipts, p, item) >= QtyPart(p, item, s.receipts[g])
  {
    forall k | k in s.receipts ensures QtyOn(p, item)(s.receipts[k]) >= 0 {
      QtyOfNonNegative(s.receipts[k].lines, item);
    }
    TotalCovers(s.receipts, g, QtyOn(p, item));
  }

  // Replaced lines start from zero, and a receipt that took money stays with
  // its order.
  ghost predicate KeepsQuantities(s: State, op: Op) {
    match op
    case OpUpdateOrder(id, p) =>
      p.lines.Some? ==> forall i :: 0 <= i < |p.lines.value| ==> Delivered(s.receipts, id, p.lines.value[i].item) == 0
    case OpUpdateReceipt(id, p) =>
      id in s.receipts && s.receipts[id].recognized && s.receipts[id].amount > 0 ==>
        PatchedReceipt(s.receipts[id], p).order == s.receipts[id].order
    case _ => true
  }

  // A receipt row is written and, when that changes what its order received,
  // the order's lines answer.
  lemma LinesFollow(s: State, t: State, id: Id, row: Receipt, p: Id)
    requires Quantities(s) && ValidLines(row.lines)
    requires t.receipts == s.receipts[id := row]
    requires t.orders.Keys == s.orders.Keys
    requires forall q :: q in s.orders && q != p ==> t.orders[q] == s.orders[q]
    requires forall q, item :: q in s.orders && q != p ==>
      QtyPart(q, item, row) == (if id in s.receipts then QtyPart(q, item, s.receipts[id]) else 0)
    requires p in s.orders ==> |t.orders[p].lines| == |s.orders[p].lines|
    requires p in s.orders ==> forall i :: 0 <= i < |s.orders[p].lines| ==>
      var l := s.orders[p].lines[i];
      t.orders[p].lines[i] == l.(received := l.received + QtyPart(p, l.item, row)
                                   - (if id in s.receipts then QtyPart(p, l.item, s.receipts[id]) else 0))
    ensures Quantities(t)
  {
    DeliveredPut(s.receipts, id, row);
    forall q | q in t.orders ensures LinesMatch(t.receipts, q, t.orders[q].lines) {
      assert LinesMatch(s.receipts, q, s.orders[q].lines);
    }
  }

  lemma RecognizeKeepsQuantities(s: State, id: Id)
    requires Quantities(s) && id in s.receipts && !s.receipts[id].recognized
    ensures Quantities(Recognize(Floored, s, id))
  {
    var g := s.receipts[id];
    var t := Recognize(Floored, s, id);
    if KnownOrder(s, g.order) {
      var p := g.order.value;
      var row := t.receipts[id];
      var lines := s.orders[p].lines;
      assert t.orders[p].lines == (if row.amount > 0 then Accept(lines, g.lines) else lines);
      LinesFollow(s, t, id, row, p);
    }
  }

  // The floor on a received quantity never takes effect.
  lemma WithdrawIsExact(s: State, id: Id, p: Id)
    requires Quantities(s) && id in s.receipts && p in s.orders
    requires var g := s.receipts[id]; g.recognized && g.amount > 0 && g.order == Some(p)
    ensures Withdraw(Floored, s.orders[p].lines, s.receipts[id].lines) ==
        Withdraw(Plain, s.orders[p].lines, s.receipts[id].lines)
  {
    var lines := s.orders[p].lines;
    assert LinesMatch(s.receipts, p, lines);
    forall i | 0 <= i < |lines| ensures lines[i].received >= QtyOf(s.receipts[id].lines, lines[i].item) {
      DeliveredCovers(s, id, p, lines[i].item);
    }
  }

  lemma UnrecognizeKeepsQuantities(s: State, id: Id, n: Receipt)
    requires Quantities(s) && id in s.receipts && s.receipts[id].recognized
    requires n.amount == s.receipts[id].amount && n.lines == s.receipts[id].lines
    requires n.amount > 0 ==> n.order == s.receipts[id].order
    ensures Quantities(Unrecognize(Floored, PutReceipt(s, id, n), id))
  {
    var g := s.receipts[id];
    var clean := n.(recognized := false, amount := 0);
    var t := Unrecognize(Floored, PutReceipt(s, id, n), id);
    assert s.receipts[id := n][id := clean] == s.receipts[id := clean];
    if g.amount > 0 && KnownOrder(s, n.order) {
      WithdrawIsExact(s, id, n.order.value);
    }
    LinesFollow(s, t, id, clean, if n.order.Some? then n.order.value else 0);
  }

  // Orders change, receipts do not.
  lemma OrdersKeepQuantities(s: State, t: State)
    requires Quantities(s) && t.receipts == s.receipts
    requires forall p :: p in t.orders ==>
      (p in s.orders && t.orders[p].lines == s.orders[p].lines) || LinesMatch(s.receipts, p, t.orders[p].lines)
    ensures Quantities(t)
  {
    forall p | p in t.orders ensures LinesMatch(t.receipts, p, t.orders[p].lines) {
      assert p in s.orders ==> LinesMatch(s.receipts, p, s.orders[p].lines);
    }
  }

  lemma RaiseKeepsQuantities(s: State, id: Id, budget: Option<Id>, req: Option<Id>, total: int,
                             lines: seq<OrderLine>, creator: Actor)
    requires Quantities(s) && RaiseOrder(Floored, s, id, budget, req, total, lines, creator).Ok?
    requires forall i :: 0 <= i < |lines| ==> lines[i].received == 0
    ensures Quantities(RaiseOrder(Floored, s, id, budget, req, total, lines, creator).value)
  {
    forall i | 0 <= i < |lines| ensures Delivered(s.receipts, id, lines[i].item) == 0 {
      TotalZero(s.receipts, QtyOn(id, lines[i].item));
    }
    OrdersKeepQuantities(s, RaiseOrder(Floored, s, id, budget, req, total, lines, creator).value);
  }

  lemma ReceiptStepKeepsQuantities(s: State, op: Op)
    requires Quantities(s) && KeepsQuantities(s, op) && Apply(Floored, s, op).Ok?
    requires op.OpCreateReceipt? || op.OpUpdateReceipt? || op.OpDeleteReceipt?
    ensures Quantities(Step(Floored, s, op))
  {
    match op
    case OpCreateReceipt(id, order, status, lines, critical, released) =>
      var g := Receipt(order, status, critical, released, lines, false, 0);
      WriteKeepsQuantities(s, id, g);
      if status == Posted {
        RecognizeKeepsQuantities(PutReceipt(s, id, g), id);
      }
    case OpUpdateReceipt(id, p) =>
      var g := s.receipts[id];
      var n := PatchedReceipt(g, p);
      if g.recognized && n.status != Posted {
        UnrecognizeKeepsQuantities(s, id, n);
      } else {
        WriteKeepsQuantities(s, id, n);
        if n.status == Posted && !g.recognized {
          RecognizeKeepsQuantities(PutReceipt(s, id, n), id);
        }
      }
    case OpDeleteReceipt(id) =>
      var g := s.receipts[id];
      assert PutReceipt(s, id, g) == s;
      if g.recognized {
        UnrecognizeKeepsQuantities(s, id, g);
      }
      var u := RecognizeOnReceipt(Floored, s, id, false);
      RemovalKeepsQuantities(u, id);
  }

  // A row that recognizes nothing, or recognizes what it did before.
  lemma WriteKeepsQuantities(s: State, id: Id, row: Receipt)
    requires Quantities(s) && ValidLines(row.lines)
    requires if id in s.receipts && s.receipts[id].recognized
             then row.recognized && row.lines == s.receipts[id].lines && row.amount == s.receipts[id].amount
                  && (row.amount > 0 ==> row.order == s.receipts[id].order)
             else !row.recognized
    ensures Quantities(PutReceipt(s, id, row))
  {
    DeliveredPut(s.receipts, id, row);
    var t := PutReceipt(s, id, row);
    forall p | p in t.orders ensures LinesMatch(t.receipts, p, t.orders[p].lines) {
      assert LinesMatch(s.receipts, p, s.orders[p].lines);
    }
  }

  lemma RemovalKeepsQuantities(u: State, id: Id)
    requires Quantities(u) && id in u.receipts && !u.receipts[id].recognized
    ensures Quantities(u.(receipts := u.receipts - {id}))
  {
    DeliveredDrop(u.receipts, id);
    var t := u.(receipts := u.receipts - {id});
    forall p | p in t.orders ensures LinesMatch(t.receipts, p, t.orders[p].lines) {
      assert LinesMatch(u.receipts, p, u.orders[p].lines);
    }
  }

  lemma UpdateOrderKeepsQuantities(s: State, id: Id, p: OrderPatch)
    requires Quantities(s) && KeepsQuantities(s, OpUpdateOrder(id, p)) && UpdateOrder(Floored, s, id, p).Ok?
    ensures Quantities(UpdateOrder(Floored, s, id, p).value)
  {
    var t := UpdateOrder(Floored, s, id, p).value;
    var n := PatchedOrder(s.orders[id], p);
    assert t.receipts == s.receipts && t.orders == s.orders[id := t.orders[id]] && t.orders[id].lines == n.lines;
    OrdersKeepQuantities(s, t);
  }

  lemma SettleKeepsQuantities(s: State, id: Id, outcome: Outcome, status: RequisitionStatus)
    requires Quantities(s) && SettleRequisition(Floored, s, id, outcome, status).Ok?
    ensures Quantities(SettleRequisition(Floored, s, id, outcome, status).value)
  {
    OrdersKeepQuantities(s, SettleRequisition(Floored, s, id, outcome, status).value);
  }

  // Every line's received quantity is what its item's receipts delivered, as
  // long as delivered lines are not replaced and receipts stay with their order.
  lemma QuantitiesStep(s: State, op: Op)
    requires Quantities(s) && KeepsQuantities(s, op)
    ensures Quantities(Step(Floored, s, op))
  {
    if Apply(Floored, s, op).Err? {
      return;
    }
    match op
    case OpCreateOrder(id, budget, req, lines, creator) =>
      RaiseKeepsQuantities(s, id, budget, req, LinesValue(lines), OrderLines(lines), creator);
    case OpAwardOrder(id, budget, req, amount, creator) =>
      RaiseKeepsQuantities(s, id, AwardBudget(s, budget, req), req, amount, [], creator);
    case OpUpdateOrder(id, p) => UpdateOrderKeepsQuantities(s, id, p);
    case OpSettleRequisition(id, outcome, status) => SettleKeepsQuantities(s, id, outcome, status);
    case OpCreateReceipt(_, _, _, _, _, _) => ReceiptStepKeepsQuantities(s, op);
    case OpUpdateReceipt(_, _) => ReceiptStepKeepsQuantities(s, op);
    case OpDeleteReceipt(_) => ReceiptStepKeepsQuantities(s, op);
    case _ => OrdersKeepQuantities(s, Step(Floored, s, op));
  }

  // For an order edit the condition is exact.
  lemma ReplacedLinesIff(s: State, op: Op)
    requires Quantities(s) && op.OpUpdateOrder? && Apply(Floored, s, op).Ok?
    ensures Quantities(Step(Floored, s, op)) <==> KeepsQuantities(s, op)
  {
    if KeepsQuantities(s, op) {
      QuantitiesStep(s, op);
    } else {
      var ls := op.orderPatch.lines.value;
      var i :| 0 <= i < |ls| && Delivered(s.receipts, op.id, ls[i].item) != 0;
      var t := Step(Floored, s, op);
      assert t.orders[op.id].lines[i] == OrderLine(ls[i].item, ls[i].qty, ls[i].price, 0);
    }
  }

  /* ---- recognition and the QC hold ---- */

  // Only a posted receipt recognizes spend, and a quality-critical one only
  // after QC released it.
  predicate GateHeld(g: Receipt) {
    g.recognized ==> g.status == Posted && (g.critical ==> g.released)
  }

  ghost predicate GatesHeld(s: State) {
    forall g :: g in s.receipts ==> GateHeld(s.receipts[g])
  }

  lemma RecognitionKeepsGates(s: State, id: Id, posted: bool)
    requires id in s.receipts && (forall g :: g in s.receipts && g != id ==> GateHeld(s.receipts[g]))
    requires var g := s.receipts[id]; posted ==> g.status == Posted && (g.critical ==> g.released)
    ensures GatesHeld(RecognizeOnReceipt(Floored, s, id, posted))
  {}

  predicate IsReceiptOp(op: Op) {
    op.OpCreateReceipt? || op.OpUpdateReceipt? || op.OpDeleteReceipt?
  }

  lemma OrdersLeaveReceipts(s: State, id: Id, budget: Option<Id>, req: Option<Id>, total: int,
                            lines: seq<OrderLine>, creator: Actor, patch: OrderPatch)
    ensures var r := RaiseOrder(Floored, s, id, budget, req, total, lines, creator);
            r.Ok? ==> r.value.receipts == s.receipts
    ensures var r := UpdateOrder(Floored, s, id, patch); r.Ok? ==> r.value.receipts == s.receipts
  {}

  lemma OtherOpsLeaveReceipts(s: State, op: Op)
    requires !IsReceiptOp(op)
    ensures Step(Floored, s, op).receipts == s.receipts
  {
    var none := OrderPatch(Blank, None, None, None, None);
    match op
    case OpCreateOrder(id, budget, req, lines, creator) =>
      OrdersLeaveReceipts(s, id, budget, req, LinesValue(lines), OrderLines(lines), creator, none);
    case OpAwardOrder(id, budget, req, amount, creator) =>
      OrdersLeaveReceipts(s, id, AwardBudget(s, budget, req), req, amount, [], creator, none);
    case OpUpdateOrder(id, patch) =>
      OrdersLeaveReceipts(s, id, None, None, 0, [], Blank, patch);
    case _ =>
  }

  // However flag, status, QC status and posting are patched.
  lemma GatesHeldAlways(s: State, op: Op)
    requires GatesHeld(s)
    ensures GatesHeld(Step(Floored, s, op))
  {
    if !IsReceiptOp(op) {
      OtherOpsLeaveReceipts(s, op);
      return;
    }
    if Apply(Floored, s, op).Err? {
      return;
    }
    match op
    case OpCreateReceipt(id, order, status, lines, critical, released) =>
      var g := Receipt(order, status, critical, released, lines, false, 0);
      RecognitionKeepsGates(PutReceipt(s, id, g), id, status == Posted);
    case OpUpdateReceipt(id, p) =>
      var n := PatchedReceipt(s.receipts[id], p);
      RecognitionKeepsGates(PutReceipt(s, id, n), id, n.status == Posted);
    case OpDeleteReceipt(id) =>
      RecognitionKeepsGates(s, id, false);
  }
}
