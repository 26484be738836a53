/** What orders recognized, against the spend of the budgets they are charged to:
  * over nearly every run, whether or not an order encumbers its budget.
  */
module LedgerSpend {
  import opened Values
  import opened Totals
  import opened LedgerModel
  import opened LedgerBooks
  import opened LedgerSteps
  import opened LedgerTheorems
  import opened LedgerQuantities
  import opened LedgerRuns

  function ChargedPart(b: Id, o: Order): int {
    if o.budget == Some(b) then o.recognized else 0
  }

  ghost function ChargedOn(b: Id): Order -> int { (o: Order) => ChargedPart(b, o) }

  // Total recognized by all orders charged to a budget, cancelled ones included.
  ghost function Charged(orders: map<Id, Order>, b: Id): int { Total(orders, ChargedOn(b)) }

  // Every order has recognized exactly what its recognized receipts say.
  ghost predicate Recorded(s: State) {
    && (forall g :: g in s.receipts ==> ReceiptOk(s.receipts[g]))
    && (forall p :: p in s.orders ==> s.orders[p].recognized == Receipted(s.receipts, p))
  }

  ghost predicate Backed(s: State) {
    && (forall p :: p in s.orders ==> KnownBudget(s, s.orders[p].budget))
    && (forall b :: b in s.budgets ==> s.budgets[b].spent >= Charged(s.orders, b))
  }

  ghost predicate Charges(s: State) {
    RowsSound(s) && Recorded(s) && Backed(s)
  }

  // A receipt that took money stays with its order, and an order that recognized
  // money stays with its budget.
  predicate KeepsCharges(s: State, op: Op) {
    match op
    case OpUpdateOrder(id, p) =>
      id in s.orders && s.orders[id].recognized != 0 ==> PatchedOrder(s.orders[id], p).budget == s.orders[id].budget
    case OpUpdateReceipt(id, p) =>
      id in s.receipts && s.receipts[id].recognized && s.receipts[id].amount > 0 ==>
        PatchedReceipt(s.receipts[id], p).order == s.receipts[id].order
    case _ => true
  }

  /* ---- sums under a change of one row ---- */

  lemma ChargedPut(orders: map<Id, Order>, p: Id, o: Order)
    ensures forall b :: Charged(orders[p := o], b)
                     == Charged(orders, b) + ChargedPart(b, o) - (if p in orders then ChargedPart(b, orders[p]) else 0)
  {
    forall b ensures Charged(orders[p := o], b)
                  == Charged(orders, b) + ChargedPart(b, o) - (if p in orders then ChargedPart(b, orders[p]) else 0)
    {
      TotalPut(orders, p, o, ChargedOn(b));
    }
  }

  lemma ChargedDrop(orders: map<Id, Order>, p: Id)
    requires p in orders
    ensures forall b :: Charged(orders - {p}, b) == Charged(orders, b) - ChargedPart(b, orders[p])
  {
    forall b ensures Charged(orders - {p}, b) == Charged(orders, b) - ChargedPart(b, orders[p]) {
      TotalRemove(orders, p, ChargedOn(b));
    }
  }

  lemma RecordedSigns(s: State)
    requires Recorded(s)
    ensures forall p :: p in s.orders ==> s.orders[p].recognized >= 0
    ensures forall p, g :: p in s.orders && g in s.receipts ==>
              s.orders[p].recognized >= RecognizedPart(p, s.receipts[g])
    ensures forall b, p :: p in s.orders ==> Charged(s.orders, b) >= ChargedPart(b, s.orders[p])
  {
    forall p | p in s.orders ensures s.orders[p].recognized >= 0 {
      TotalNonNegative(s.receipts, RecognizedOn(p));
    }
    forall p, g | p in s.orders && g in s.receipts
      ensures s.orders[p].recognized >= RecognizedPart(p, s.receipts[g])
    {
      TotalCovers(s.receipts, g, RecognizedOn(p));
    }
    forall b, p | p in s.orders ensures Charged(s.orders, b) >= ChargedPart(b, s.orders[p]) {
      TotalCovers(s.orders, p, ChargedOn(b));
    }
  }

  /* ---- receipts ---- */

  // A receipt row is written without changing what any order recognized.
  lemma RowKeepsRecorded(s: State, id: Id, row: Receipt)
    requires Recorded(s) && ReceiptOk(row)
    requires forall p :: p in s.orders ==> RecognizedPart(p, row) == RecognizedBefore(s, id, p)
    ensures Recorded(PutReceipt(s, id, row))
  {
    ReceiptedPut(s.receipts, id, row);
  }

  // A receipt and its order are written together.
  lemma MoneyKeepsRecorded(s: State, t: State, id: Id, row: Receipt, p: Id)
    requires Recorded(s) && p in s.orders && p in t.orders
    requires t.orders == s.orders[p := t.orders[p]] && t.receipts == s.receipts[id := row] && ReceiptOk(row)
    requires t.orders[p].recognized == s.orders[p].recognized + RecognizedPart(p, row) - RecognizedBefore(s, id, p)
    requires forall q :: q in s.orders && q != p ==> RecognizedPart(q, row) == RecognizedBefore(s, id, q)
    ensures Recorded(t)
  {
    ReceiptedPut(s.receipts, id, row);
  }

  lemma MoneyKeepsBacked(s: State, t: State, p: Id)
    requires Backed(s) && p in s.orders && p in t.orders
    requires t.orders == s.orders[p := t.orders[p]] && t.orders[p].budget == s.orders[p].budget
    requires t.budgets.Keys == s.budgets.Keys
    requires forall b :: b in s.budgets ==>
      t.budgets[b].spent >= s.budgets[b].spent + ChargedPart(b, t.orders[p]) - ChargedPart(b, s.orders[p])
    ensures Backed(t)
  {
    ChargedPut(s.orders, p, t.orders[p]);
  }

  lemma RecognizeKeepsCharges(s: State, id: Id)
    requires Recorded(s) && Backed(s) && id in s.receipts && !s.receipts[id].recognized
    ensures Recorded(Recognize(Floored, s, id)) && Backed(Recognize(Floored, s, id))
  {
    var g := s.receipts[id];
    var t := Recognize(Floored, s, id);
    if KnownOrder(s, g.order) {
      var p := g.order.value;
      if s.orders[p].total <= s.orders[p].recognized {
        RowKeepsRecorded(s, id, t.receipts[id]);
      } else {
        MoneyKeepsRecorded(s, t, id, t.receipts[id], p);
        MoneyKeepsBacked(s, t, p);
      }
    }
  }

  // What a reversal finds: the order has recognized the amount, and the order's
  // budget has spent it.
  lemma ReversalIsBacked(s: State, id: Id)
    requires Recorded(s) && Backed(s) && id in s.receipts && s.receipts[id].recognized
    requires KnownOrder(s, s.receipts[id].order)
    ensures var g := s.receipts[id];
            var o := s.orders[g.order.value];
            && o.recognized >= g.amount
            && (o.budget.Some? ==> o.budget.value in s.budgets && s.budgets[o.budget.value].spent >= g.amount)
  {
    var g := s.receipts[id];
    var p := g.order.value;
    RecordedSigns(s);
    assert s.orders[p].recognized >= RecognizedPart(p, g);
    if s.orders[p].budget.Some? {
      var b := s.orders[p].budget.value;
      assert Charged(s.orders, b) >= ChargedPart(b, s.orders[p]);
    }
  }

  // What a backed reversal writes: exact subtraction on both sides.
  lemma ReversalWritesBack(s: State, id: Id, n: Receipt)
    requires Recorded(s) && Backed(s) && id in s.receipts && s.receipts[id].recognized
    requires n.amount == s.receipts[id].amount && n.amount > 0
    requires n.order == s.receipts[id].order && KnownOrder(s, n.order)
    ensures var t := Unrecognize(Floored, PutReceipt(s, id, n), id);
            var p := n.order.value;
            && p in t.orders && t.orders == s.orders[p := t.orders[p]]
            && t.receipts == s.receipts[id := n.(recognized := false, amount := 0)]
            && t.orders[p].recognized == s.orders[p].recognized - n.amount && t.orders[p].budget == s.orders[p].budget
            && t.budgets.Keys == s.budgets.Keys
            && forall b :: b in s.budgets ==>
                 t.budgets[b].spent == s.budgets[b].spent - (if s.orders[p].budget == Some(b) then n.amount else 0)
  {
    ReversalIsBacked(s, id);
    assert s.receipts[id := n][id := n.(recognized := false, amount := 0)] ==
           s.receipts[id := n.(recognized := false, amount := 0)];
  }

  lemma UnrecognizeKeepsCharges(s: State, id: Id, n: Receipt)
    requires Recorded(s) && Backed(s) && id in s.receipts && s.receipts[id].recognized
    requires n.amount == s.receipts[id].amount && (n.amount > 0 ==> n.order == s.receipts[id].order)
    ensures var t := Unrecognize(Floored, PutReceipt(s, id, n), id); Recorded(t) && Backed(t)
  {
    var clean := n.(recognized := false, amount := 0);
    var t := Unrecognize(Floored, PutReceipt(s, id, n), id);
    assert ReceiptOk(s.receipts[id]);
    if n.amount > 0 && KnownOrder(s, n.order) {
      ReversalWritesBack(s, id, n);
      MoneyKeepsRecorded(s, t, id, clean, n.order.value);
      MoneyKeepsBacked(s, t, n.order.value);
    } else {
      assert s.receipts[id := n][id := clean] == s.receipts[id := clean];
      RowKeepsRecorded(s, id, clean);
    }
  }

  lemma WriteThenRecognizeKeepsCharges(s: State, id: Id, row: Receipt, posted: bool)
    requires Recorded(s) && Backed(s) && ReceiptOk(row)
    requires forall p :: p in s.orders ==> RecognizedPart(p, row) == RecognizedBefore(s, id, p)
    ensures var u := PutReceipt(s, id, row);
            var t := if posted && !row.recognized then Recognize(Floored, u, id) else u;
            Recorded(t) && Backed(t)
  {
    RowKeepsRecorded(s, id, row);
    if posted && !row.recognized {
      RecognizeKeepsCharges(PutReceipt(s, id, row), id);
    }
  }

  lemma RemovalKeepsCharges(u: State, id: Id)
    requires Recorded(u) && Backed(u) && id in u.receipts && !u.receipts[id].recognized
    ensures var t := u.(receipts := u.receipts - {id}); Recorded(t) && Backed(t)
  {
    ReceiptedDrop(u.receipts, id);
  }

  lemma ReceiptStepKeepsCharges(s: State, op: Op)
    requires Recorded(s) && Backed(s) && KeepsCharges(s, op) && Apply(Floored, s, op).Ok? && IsReceiptOp(op)
    ensures var t := Step(Floored, s, op); Recorded(t) && Backed(t)
  {
    match op
    case OpCreateReceipt(id, order, status, lines, critical, released) =>
      var g := Receipt(order, status, critical, released, lines, false, 0);
      WriteThenRecognizeKeepsCharges(s, id, g, status == Posted);
    case OpUpdateReceipt(id, p) =>
      var g := s.receipts[id];
      var n := PatchedReceipt(g, p);
      assert ReceiptOk(g);
      if g.recognized && n.status != Posted {
        UnrecognizeKeepsCharges(s, id, n);
      } else {
        WriteThenRecognizeKeepsCharges(s, id, n, n.status == Posted);
      }
    case OpDeleteReceipt(id) =>
      var g := s.receipts[id];
      assert PutReceipt(s, id, g) == s;
      if g.recognized {
        UnrecognizeKeepsCharges(s, id, g);
      }
      RemovalKeepsCharges(RecognizeOnReceipt(Floored, s, id, false), id);
  }

  /* ---- everything else ---- */

  // Spend stays as it was, and one order row is written with what it recognized.
  lemma OrderKeptKeepsCharges(s: State, t: State, id: Id)
    requires Recorded(s) && Backed(s) && SpendKept(s, t) && OrderKept(s, t, id) && t.receipts == s.receipts
    requires KnownBudget(t, t.orders[id].budget)
    requires if id in s.orders then t.orders[id].recognized != 0 ==> t.orders[id].budget == s.orders[id].budget
             else forall g :: g in s.receipts ==> s.receipts[g].order != Some(id)
    ensures Recorded(t) && Backed(t)
  {
    ChargedPut(s.orders, id, t.orders[id]);
    if id !in s.orders {
      TotalZero(s.receipts, RecognizedOn(id));
    }
  }

  lemma RaiseKeepsCharges(s: State, id: Id, budget: Option<Id>, req: Option<Id>, total: int,
                          lines: seq<OrderLine>, creator: Actor)
    requires Recorded(s) && Backed(s) && RaiseOrder(Floored, s, id, budget, req, total, lines, creator).Ok?
    ensures var t := RaiseOrder(Floored, s, id, budget, req, total, lines, creator).value; Recorded(t) && Backed(t)
  {
    var t := RaiseOrder(Floored, s, id, budget, req, total, lines, creator).value;
    RaiseKeepsSpend(s, id, budget, req, total, lines, creator);
    assert t.receipts == s.receipts && t.orders[id].budget == budget;
    OrderKeptKeepsCharges(s, t, id);
  }

  lemma UpdateOrderKeepsCharges(s: State, id: Id, p: OrderPatch)
    requires Charges(s) && KeepsCharges(s, OpUpdateOrder(id, p)) && UpdateOrder(Floored, s, id, p).Ok?
    ensures var t := UpdateOrder(Floored, s, id, p).value; Recorded(t) && Backed(t)
  {
    var t := UpdateOrder(Floored, s, id, p).value;
    UpdateOrderKeepsSpend(s, id, p);
    assert t.receipts == s.receipts && t.orders[id].budget == PatchedOrder(s.orders[id], p).budget;
    OrderKeptKeepsCharges(s, t, id);
  }

  lemma DeleteOrderKeepsCharges(s: State, id: Id)
    requires Charges(s) && DeleteOrder(Floored, s, id).Ok?
    ensures var t := DeleteOrder(Floored, s, id).value; Recorded(t) && Backed(t)
  {
    DeleteOrderKeepsSpend(s, id);
    RecordedSigns(s);
    ChargedDrop(s.orders, id);
  }

  lemma BudgetStepKeepsCharges(s: State, op: Op)
    requires Recorded(s) && Backed(s) && IsBudgetOp(op)
    ensures var t := Step(Floored, s, op); Recorded(t) && Backed(t)
  {
    forall b | b !in s.budgets ensures Charged(s.orders, b) == 0 {
      TotalZero(s.orders, ChargedOn(b));
    }
    var t := Step(Floored, s, op);
    assert t.orders == s.orders && t.receipts == s.receipts;
    assert forall b :: b in t.budgets ==> t.budgets[b].spent == if b in s.budgets then s.budgets[b].spent else 0;
  }

  lemma RequisitionStepKeepsCharges(s: State, op: Op)
    requires Recorded(s) && Backed(s) && Apply(Floored, s, op).Ok?
    requires op.OpCreateRequisition? || op.OpUpdateRequisition? || op.OpSettleRequisition? || op.OpDeleteRequisition?
    ensures var t := Step(Floored, s, op); Recorded(t) && Backed(t)
  {
    RequisitionStepKeepsSpend(s, op);
    OtherOpsLeaveReceipts(s, op);
  }

  // Cancelled and never-encumbered orders, lapses and edits of every kind
  // included, one transaction keeps every order's recognized spend equal to its
  // receipts, and every budget's spend at least what its orders recognized.
  lemma ChargesStep(s: State, op: Op)
    requires Charges(s) && KeepsCharges(s, op)
    ensures Charges(Step(Floored, s, op))
  {
    RowsSoundAlways(s, op);
    if Apply(Floored, s, op).Err? {
      return;
    }
    match op
    case OpCreateOrder(id, budget, req, lines, creator) =>
      RaiseKeepsCharges(s, id, budget, req, LinesValue(lines), OrderLines(lines), creator);
    case OpAwardOrder(id, budget, req, amount, creator) =>
      RaiseKeepsCharges(s, id, AwardBudget(s, budget, req), req, amount, [], creator);
    case OpUpdateOrder(id, p) => UpdateOrderKeepsCharges(s, id, p);
    case OpDeleteOrder(id) => DeleteOrderKeepsCharges(s, id);
    case OpCreateReceipt(_, _, _, _, _, _) => ReceiptStepKeepsCharges(s, op);
    case OpUpdateReceipt(_, _) => ReceiptStepKeepsCharges(s, op);
    case OpDeleteReceipt(_) => ReceiptStepKeepsCharges(s, op);
    case OpCreateBudget(_, _, _, _) => BudgetStepKeepsCharges(s, op);
    case OpUpdateBudget(_, _, _) => BudgetStepKeepsCharges(s, op);
    case OpDeleteBudget(_) => BudgetStepKeepsCharges(s, op);
    case OpCloseBudgetPeriod(_, _, _) => BudgetStepKeepsCharges(s, op);
    case _ => RequisitionStepKeepsCharges(s, op);
  }

  lemma {:induction false} ChargesRun(s: State, ops: seq<Op>)
    requires Charges(s) && AllAlong(s, ops, KeepsCharges)
    ensures Charges(Run(Floored, s, ops))
    decreases |ops|
  {
    if ops != [] {
      ChargesStep(s, ops[0]);
      ChargesRun(Step(Floored, s, ops[0]), ops[1..]);
    }
  }

  lemma EmptyTablesCharge()
    ensures Charges(EMPTY_TABLES) && Quantities(EMPTY_TABLES)
  {}

  /* ---- reversals are exact ---- */

  lemma ReversalIsExact(s: State, id: Id, n: Receipt)
    requires Charges(s) && Quantities(s) && id in s.receipts && s.receipts[id].recognized
    requires n.amount == s.receipts[id].amount && n.lines == s.receipts[id].lines
    requires n.amount > 0 ==> n.order == s.receipts[id].order
    ensures Unrecognize(Floored, PutReceipt(s, id, n), id) == Unrecognize(Plain, PutReceipt(s, id, n), id)
  {
    assert ReceiptOk(s.receipts[id]);
    if KnownOrder(s, n.order) && n.amount > 0 {
      ReversalIsBacked(s, id);
      WithdrawIsExact(s, id, n.order.value);
    }
  }

  lemma ReversalStepIsExact(s: State, op: Op)
    requires Charges(s) && Quantities(s) && KeepsCharges(s, op) && IsReversal(s, op)
    ensures Step(Floored, s, op) == Step(Plain, s, op)
  {
    var id := op.id;
    match op
    case OpUpdateReceipt(_, p) =>
      if Apply(Floored, s, op).Ok? {
        ReversalIsExact(s, id, PatchedReceipt(s.receipts[id], p));
      }
    case OpDeleteReceipt(_) =>
      assert PutReceipt(s, id, s.receipts[id]) == s;
      ReversalIsExact(s, id, s.receipts[id]);
  }

  ghost predicate KeepsChargesAndLines(s: State, op: Op) {
    KeepsCharges(s, op) && KeepsQuantities(s, op)
  }

  lemma {:induction false} ChargesAndLinesRun(s: State, ops: seq<Op>)
    requires Charges(s) && Quantities(s) && AllAlong(s, ops, KeepsChargesAndLines)
    ensures Charges(Run(Floored, s, ops)) && Quantities(Run(Floored, s, ops))
    decreases |ops|
  {
    if ops != [] {
      ChargesStep(s, ops[0]);
      QuantitiesStep(s, ops[0]);
      ChargesAndLinesRun(Step(Floored, s, ops[0]), ops[1..]);
    }
  }

  // At the end of any such run, un-posting or deleting a receipt subtracts exactly
  // what it added, whatever has become of its order and its budget.
  lemma ReversalsExactAnywhere(s: State, ops: seq<Op>, op: Op)
    requires Charges(s) && Quantities(s) && AllAlong(s, ops, KeepsChargesAndLines)
    requires var t := Run(Floored, s, ops); KeepsCharges(t, op) && IsReversal(t, op)
    ensures var t := Run(Floored, s, ops); Step(Floored, t, op) == Step(Plain, t, op)
  {
    ChargesAndLinesRun(s, ops);
    ReversalStepIsExact(Run(Floored, s, ops), op);
  }
}
