/** What holds after every run of the ledger. */
module LedgerRuns {
  import opened Values
  import opened Totals
  import opened LedgerModel
  import opened LedgerBooks
  import opened LedgerSteps
  import opened LedgerTheorems
  import opened LedgerQuantities

  // Every transaction meets `ok` at the moment it is made.
  ghost predicate AllAlong(s: State, ops: seq<Op>, ok: (State, Op) -> bool)
    decreases |ops|
  {
    ops == [] || (ok(s, ops[0]) && AllAlong(Step(Floored, s, ops[0]), ops[1..], ok))
  }

  // Every state on the way, the first and the last included, meets `inv`.
  ghost predicate Throughout(s: State, ops: seq<Op>, inv: State -> bool)
    decreases |ops|
  {
    inv(s) && (ops != [] ==> Throughout(Step(Floored, s, ops[0]), ops[1..], inv))
  }

  lemma EmptyTablesInOrder()
    ensures var s := EMPTY_TABLES;
            Books(s) && SpendCovered(s) && Ceiling(s) && Quantities(s) && GatesHeld(s) && RowsSound(s)
  {}

  /* ---- balances ---- */

  // From balanced books, the books are balanced all along a run exactly when
  // every transaction in it is safe when made.
  lemma {:induction false} BooksThroughoutIffSafe(s: State, ops: seq<Op>)
    requires Books(s)
    ensures Throughout(s, ops, Books) <==> AllAlong(s, ops, Safe)
    decreases |ops|
  {
    if ops != [] {
      BooksIffSafe(s, ops[0]);
      if Safe(s, ops[0]) {
        BooksThroughoutIffSafe(Step(Floored, s, ops[0]), ops[1..]);
      }
    }
  }

  predicate SafeOrLapse(s: State, op: Op) {
    Safe(s, op) || IsLapse(op)
  }

  lemma LapseKeepsLapsedBooks(s: State, op: Op)
    requires LapsedBooks(s) && IsLapse(op)
    ensures LapsedBooks(Step(Floored, s, op))
  {
    OpenSigns(s);
    HeldSigns(s);
  }

  lemma LapseStep(s: State, op: Op)
    requires LapsedBooks(s) && SafeOrLapse(s, op)
    ensures LapsedBooks(Step(Floored, s, op))
  {
    if IsLapse(op) {
      LapseKeepsLapsedBooks(s, op);
    } else {
      SafeStepTracks(s, op);
      RowsSoundAlways(s, op);
      TracksKeepsLapsedBooks(s, Step(Floored, s, op));
    }
  }

  // With lapse closes anywhere, a balance never exceeds the sum it stands for.
  lemma {:induction false} LapsedRun(s: State, ops: seq<Op>)
    requires LapsedBooks(s) && AllAlong(s, ops, SafeOrLapse)
    ensures LapsedBooks(Run(Floored, s, ops))
    decreases |ops|
  {
    if ops != [] {
      LapseStep(s, ops[0]);
      LapsedRun(Step(Floored, s, ops[0]), ops[1..]);
    }
  }

  // Whatever the run.
  lemma {:induction false} AnyRunKeepsRowsAndGates(s: State, ops: seq<Op>)
    requires RowsSound(s) && GatesHeld(s)
    ensures RowsSound(Run(Floored, s, ops)) && GatesHeld(Run(Floored, s, ops))
    decreases |ops|
  {
    if ops != [] {
      RowsSoundAlways(s, ops[0]);
      GatesHeldAlways(s, ops[0]);
      AnyRunKeepsRowsAndGates(Step(Floored, s, ops[0]), ops[1..]);
    }
  }

  /* ---- clean transactions ---- */

  // Money moves between `committed` and `spent` only through an order that
  // still encumbers its budget.
  predicate Live(s: State, p: Option<Id>) {
    KnownOrder(s, p) ==>
      var o := s.orders[p.value]; o.total <= o.recognized || o.budget.None? || o.encumbered
  }

  predicate Holding(s: State, p: Option<Id>) {
    KnownOrder(s, p) ==> s.orders[p.value].budget.None? || s.orders[p.value].encumbered
  }

  predicate CleanGuard(s: State, op: Op) {
    match op
    case OpCloseBudgetPeriod(_, _, _) => true
    case OpUpdateOrder(id, p) =>
      id in s.orders && s.orders[id].encumbered ==>
        var n := PatchedOrder(s.orders[id], p);
        Ends(n.status) || n.budget == s.orders[id].budget
    case OpCreateReceipt(_, order, status, _, _, _) =>
      status == Posted ==> Live(s, order)
    case OpUpdateReceipt(id, p) =>
      id in s.receipts ==>
        var g := s.receipts[id];
        var n := PatchedReceipt(g, p);
        if !g.recognized then n.status == Posted ==> Live(s, n.order)
        else g.amount == 0 || (n.order == g.order && (n.status == Posted || Holding(s, g.order)))
    case OpDeleteReceipt(id) =>
      id in s.receipts && s.receipts[id].recognized ==> s.receipts[id].amount == 0 || Holding(s, s.receipts[id].order)
    case _ => Guard(s, op)
  }

  predicate Clean(s: State, op: Op) {
    Apply(Floored, s, op).Ok? ==> CleanGuard(s, op)
  }

  lemma CleanIsSafe(s: State, op: Op)
    requires Clean(s, op) && !IsLapse(op)
    ensures Safe(s, op)
  {}

  /* ---- spend covers what orders received, lapses included ---- */

  lemma OrderWriteCovered(s: State, t: State, id: Id, row: Order)
    requires SpendCovered(s) && t.budgets.Keys == s.budgets.Keys && t.orders == s.orders[id := row]
    requires forall b :: b in s.budgets ==>
      t.budgets[b].spent >=
        s.budgets[b].spent + SpentPart(b, row) - (if id in s.orders then SpentPart(b, s.orders[id]) else 0)
    ensures SpendCovered(t)
  {
    OpenPut(s.orders, id, row);
  }

  lemma RecognizeCovered(s: State, id: Id)
    requires Documents(s) && SpendCovered(s)
    requires id in s.receipts && !s.receipts[id].recognized && Live(s, s.receipts[id].order)
    ensures SpendCovered(Recognize(Floored, s, id))
  {
    var g := s.receipts[id];
    var t := Recognize(Floored, s, id);
    if KnownOrder(s, g.order) && s.orders[g.order.value].total > s.orders[g.order.value].recognized {
      var p := g.order.value;
      assert OrderOk(s.budgets, s.orders[p]);
      OrderWriteCovered(s, t, p, t.orders[p]);
    }
  }

  // What reversing a receipt does to an order that still holds its budget.
  predicate Reverses(s: State, t: State, p: Id, amt: int) {
    && p in s.orders && p in t.orders && t.orders == s.orders[p := t.orders[p]]
    && s.orders[p].recognized >= amt && t.orders[p].recognized == s.orders[p].recognized - amt
    && t.orders[p].budget == s.orders[p].budget && t.orders[p].encumbered == s.orders[p].encumbered
    && (s.orders[p].budget.Some? ==> s.orders[p].encumbered)
    && t.budgets == match s.orders[p].budget
                    case Some(b) =>
                      if b in s.budgets then s.budgets[b := Unspend(Floored, s.budgets[b], amt)] else s.budgets
                    case None => s.budgets
  }

  lemma ReversalCovered(s: State, t: State, p: Id, amt: int)
    requires Documents(s) && SpendCovered(s) && Reverses(s, t, p, amt)
    ensures SpendCovered(t)
  {
    var o := s.orders[p];
    assert OrderOk(s.budgets, o);
    OpenSigns(s);
    if o.budget.Some? {
      assert s.budgets[o.budget.value].spent >= SpentPart(o.budget.value, o);
    }
    OrderWriteCovered(s, t, p, t.orders[p]);
  }

  // An order has recognized at least what each of its receipts did.
  lemma UnrecognizeReverses(s: State, id: Id, n: Receipt)
    requires Documents(s) && id in s.receipts && s.receipts[id].recognized && n.amount == s.receipts[id].amount
    requires n.amount > 0 && n.order == s.receipts[id].order && KnownOrder(s, n.order) && Holding(s, n.order)
    ensures Reverses(s, Unrecognize(Floored, PutReceipt(s, id, n), id), n.order.value, n.amount)
  {
    var p := n.order.value;
    ReceiptedSigns(s);
    assert s.orders[p].recognized >= RecognizedPart(p, s.receipts[id]);
  }

  lemma UnrecognizeCovered(s: State, id: Id, n: Receipt)
    requires Documents(s) && SpendCovered(s)
    requires id in s.receipts && s.receipts[id].recognized && n.amount == s.receipts[id].amount
    requires n.amount == 0 || (n.order == s.receipts[id].order && Holding(s, n.order))
    ensures SpendCovered(Unrecognize(Floored, PutReceipt(s, id, n), id))
  {
    assert ReceiptOk(s.receipts[id]);
    if KnownOrder(s, n.order) && n.amount > 0 {
      UnrecognizeReverses(s, id, n);
      ReversalCovered(s, Unrecognize(Floored, PutReceipt(s, id, n), id), n.order.value, n.amount);
    }
  }

  // Spend is unchanged, and no row leaves its allocation that was within it.
  predicate SpendKept(s: State, t: State) {
    && t.budgets.Keys == s.budgets.Keys
    && (forall b :: b in s.budgets ==> t.budgets[b].spent == s.budgets[b].spent)
    && (forall b :: b in s.budgets && WithinAllocation(s.budgets[b]) ==> WithinAllocation(t.budgets[b]))
  }

  // One order row is written and keeps what it recognized.
  predicate OrderKept(s: State, t: State, id: Id) {
    && id in t.orders && t.orders == s.orders[id := t.orders[id]]
    && t.orders[id].recognized == (if id in s.orders then s.orders[id].recognized else 0)
  }

  lemma EncumbranceKeepsSpend(s: State, id: Id)
    requires id in s.orders && ApplyOrderEncumbrance(Floored, s, id).Ok?
    ensures var t := ApplyOrderEncumbrance(Floored, s, id).value; SpendKept(s, t) && OrderKept(s, t, id)
  {}

  lemma RaiseKeepsSpend(s: State, id: Id, budget: Option<Id>, req: Option<Id>, total: int,
                        lines: seq<OrderLine>, creator: Actor)
    requires RaiseOrder(Floored, s, id, budget, req, total, lines, creator).Ok?
    ensures var t := RaiseOrder(Floored, s, id, budget, req, total, lines, creator).value;
            SpendKept(s, t) && id !in s.orders && OrderKept(s, t, id)
  {
    var o := Order(total, budget, req, InitialStatus(s.threshold, total), creator, lines, false, 0);
    var s1 := PutOrder(s, id, o);
    var u := if req.Some? then PutRequisition(s1, req.value, s1.requisitions[req.value].(status := Ordered)) else s1;
    EncumbranceKeepsSpend(u, id);
  }

  lemma SyncKeepsSpend(s: State, id: Id, o: Order, n: Order)
    requires RowsSound(s) && id in s.orders && s.orders[id] == n && SyncEncumbrance(Floored, s, id, o, n).Ok?
    requires o.encumbered ==> n.recognized == o.recognized
    ensures var t := SyncEncumbrance(Floored, s, id, o, n).value; SpendKept(s, t) && OrderKept(s, t, id)
  {}

  lemma UpdateOrderKeepsSpend(s: State, id: Id, p: OrderPatch)
    requires RowsSound(s) && UpdateOrder(Floored, s, id, p).Ok?
    ensures id in s.orders
    ensures var t := UpdateOrder(Floored, s, id, p).value; SpendKept(s, t) && OrderKept(s, t, id)
  {
    var n := PatchedOrder(s.orders[id], p);
    SyncKeepsSpend(PutOrder(s, id, n), id, s.orders[id], n);
  }

  lemma DeleteOrderKeepsSpend(s: State, id: Id)
    requires RowsSound(s) && DeleteOrder(Floored, s, id).Ok?
    ensures id in s.orders
    ensures var t := DeleteOrder(Floored, s, id).value; SpendKept(s, t) && t.orders == s.orders - {id}
  {}

  lemma RequisitionStepKeepsSpend(s: State, op: Op)
    requires Apply(Floored, s, op).Ok?
    requires op.OpCreateRequisition? || op.OpUpdateRequisition? || op.OpSettleRequisition? || op.OpDeleteRequisition?
    ensures SpendKept(s, Step(Floored, s, op)) && Step(Floored, s, op).orders == s.orders
  {}

  predicate IsBudgetOp(op: Op) {
    op.OpCreateBudget? || op.OpUpdateBudget? || op.OpDeleteBudget? || op.OpCloseBudgetPeriod?
  }

  lemma BudgetStepCovered(s: State, op: Op)
    requires Documents(s) && SpendCovered(s) && IsBudgetOp(op)
    ensures SpendCovered(Step(Floored, s, op))
  {
    forall b | b !in s.budgets ensures Spent(s.orders, b) == 0 {
      TotalZero(s.orders, SpentOn(b));
    }
    assert Step(Floored, s, op).orders == s.orders;
  }

  lemma ReceiptStepCovered(s: State, op: Op)
    requires LapsedBooks(s) && SpendCovered(s) && Clean(s, op) && Apply(Floored, s, op).Ok? && IsReceiptOp(op)
    ensures SpendCovered(Step(Floored, s, op))
  {
    match op
    case OpCreateReceipt(id, order, status, lines, critical, released) =>
      var g := Receipt(order, status, critical, released, lines, false, 0);
      ReceiptWriteTracks(s, PutReceipt(s, id, g), id, g);
      if status == Posted {
        RecognizeCovered(PutReceipt(s, id, g), id);
      }
    case OpUpdateReceipt(id, p) =>
      var g := s.receipts[id];
      var n := PatchedReceipt(g, p);
      assert ReceiptOk(g);
      if g.recognized && n.status != Posted {
        UnrecognizeCovered(s, id, n);
      } else if !g.recognized && n.status == Posted {
        ReceiptWriteTracks(s, PutReceipt(s, id, n), id, n);
        RecognizeCovered(PutReceipt(s, id, n), id);
      }
    case OpDeleteReceipt(id) =>
      assert PutReceipt(s, id, s.receipts[id]) == s;
      if s.receipts[id].recognized {
        UnrecognizeCovered(s, id, s.receipts[id]);
      }
  }

  // An order written with what it recognized before, on the same budget or none.
  lemma OrderKeptCovered(s: State, t: State, id: Id)
    requires SpendCovered(s) && SpendKept(s, t) && OrderKept(s, t, id)
    requires t.orders[id].encumbered && t.orders[id].recognized != 0 ==>
               id in s.orders && s.orders[id].encumbered && t.orders[id].budget == s.orders[id].budget
    requires id in s.orders && s.orders[id].encumbered ==> s.orders[id].recognized >= 0
    ensures SpendCovered(t)
  {
    OrderWriteCovered(s, t, id, t.orders[id]);
  }

  lemma UpdateOrderCovered(s: State, id: Id, p: OrderPatch)
    requires LapsedBooks(s) && SpendCovered(s) && Clean(s, OpUpdateOrder(id, p)) && UpdateOrder(Floored, s, id, p).Ok?
    ensures SpendCovered(UpdateOrder(Floored, s, id, p).value)
  {
    UpdateOrderKeepsSpend(s, id, p);
    assert OrderOk(s.budgets, s.orders[id]);
    OrderKeptCovered(s, UpdateOrder(Floored, s, id, p).value, id);
  }

  lemma RaiseCovered(s: State, id: Id, budget: Option<Id>, req: Option<Id>, total: int,
                     lines: seq<OrderLine>, creator: Actor)
    requires SpendCovered(s) && RaiseOrder(Floored, s, id, budget, req, total, lines, creator).Ok?
    ensures SpendCovered(RaiseOrder(Floored, s, id, budget, req, total, lines, creator).value)
  {
    RaiseKeepsSpend(s, id, budget, req, total, lines, creator);
    OrderKeptCovered(s, RaiseOrder(Floored, s, id, budget, req, total, lines, creator).value, id);
  }

  lemma DeleteOrderCovered(s: State, id: Id)
    requires LapsedBooks(s) && SpendCovered(s) && DeleteOrder(Floored, s, id).Ok?
    ensures SpendCovered(DeleteOrder(Floored, s, id).value)
  {
    DeleteOrderKeepsSpend(s, id);
    assert OrderOk(s.budgets, s.orders[id]);
    OpenDrop(s.orders, id);
  }

  lemma CleanStepCovered(s: State, op: Op)
    requires LapsedBooks(s) && SpendCovered(s) && Clean(s, op)
    ensures SpendCovered(Step(Floored, s, op))
  {
    if Apply(Floored, s, op).Err? {
      return;
    }
    match op
    case OpCreateOrder(id, budget, req, lines, creator) =>
      RaiseCovered(s, id, budget, req, LinesValue(lines), OrderLines(lines), creator);
    case OpAwardOrder(id, budget, req, amount, creator) =>
      RaiseCovered(s, id, AwardBudget(s, budget, req), req, amount, [], creator);
    case OpUpdateOrder(id, p) => UpdateOrderCovered(s, id, p);
    case OpDeleteOrder(id) => DeleteOrderCovered(s, id);
    case OpCreateReceipt(_, _, _, _, _, _) => ReceiptStepCovered(s, op);
    case OpUpdateReceipt(_, _) => ReceiptStepCovered(s, op);
    case OpDeleteReceipt(_) => ReceiptStepCovered(s, op);
    case OpCreateBudget(_, _, _, _) => BudgetStepCovered(s, op);
    case OpUpdateBudget(_, _, _) => BudgetStepCovered(s, op);
    case OpDeleteBudget(_) => BudgetStepCovered(s, op);
    case OpCloseBudgetPeriod(_, _, _) => BudgetStepCovered(s, op);
    case _ => RequisitionStepKeepsSpend(s, op);
  }

  ghost predicate Covered(s: State) {
    LapsedBooks(s) && SpendCovered(s)
  }

  // A clean transaction, lapse closes and lowered allocations included, leaves
  // the spend of every budget covering what its orders recognized.
  lemma CoveredStep(s: State, op: Op)
    requires Covered(s) && Clean(s, op)
    ensures Covered(Step(Floored, s, op))
  {
    if !IsLapse(op) {
      CleanIsSafe(s, op);
    }
    LapseStep(s, op);
    CleanStepCovered(s, op);
  }

  lemma {:induction false} CoveredRun(s: State, ops: seq<Op>)
    requires Covered(s) && AllAlong(s, ops, Clean)
    ensures Covered(Run(Floored, s, ops))
    decreases |ops|
  {
    if ops != [] {
      CoveredStep(s, ops[0]);
      CoveredRun(Step(Floored, s, ops[0]), ops[1..]);
    }
  }

  /* ---- the ceiling ---- */

  // Two ways past an allocation that nothing checks: an allocation below zero,
  // and one below what is already used.
  predicate Overdraws(s: State, op: Op) {
    || (op.OpCreateBudget? && op.id !in s.budgets && op.allotted < 0)
    || (op.OpUpdateBudget? && op.id in s.budgets && op.newAllotted.Some?
        && op.newAllotted.value < s.budgets[op.id].committed + s.budgets[op.id].spent)
  }

  // Two more, read from the rows: a posting that takes more than is committed and
  // more than is left, and a reversal that puts back more than was spent and more
  // than is left.
  predicate PostingOverspends(s: State, order: Option<Id>, value: int) {
    && KnownOrder(s, order)
    && var o := s.orders[order.value];
    && o.total > o.recognized && o.budget.Some? && o.budget.value in s.budgets
    && var b := s.budgets[o.budget.value];
    var amt := Clamp(value, o.total - o.recognized);
    b.committed < amt && b.spent + amt > b.allotted
  }

  predicate ReversalOverspends(s: State, order: Option<Id>, amt: int) {
    && amt > 0 && KnownOrder(s, order)
    && var o := s.orders[order.value];
    && o.budget.Some? && o.budget.value in s.budgets
    && var b := s.budgets[o.budget.value];
    b.spent < amt && b.committed + amt > b.allotted
  }

  predicate Overspends(s: State, op: Op) {
    Apply(Floored, s, op).Ok? &&
    match op
    case OpCreateReceipt(_, order, status, lines, _, _) =>
      status == Posted && PostingOverspends(s, order, LinesValue(lines))
    case OpUpdateReceipt(id, p) =>
      id in s.receipts &&
      var g := s.receipts[id];
      var n := PatchedReceipt(g, p);
      if g.recognized then n.status != Posted && ReversalOverspends(s, n.order, g.amount)
      else n.status == Posted && PostingOverspends(s, n.order, LinesValue(n.lines))
    case OpDeleteReceipt(id) =>
      && id in s.receipts && s.receipts[id].recognized
      && ReversalOverspends(s, s.receipts[id].order, s.receipts[id].amount)
    case _ => false
  }

  lemma OneRowCeiling(s: State, t: State, b: Id, row: Budget)
    requires Ceiling(s) && t.budgets == s.budgets[b := row]
    ensures Ceiling(t) <==> WithinAllocation(row)
  {
    assert t.budgets[b] == row;
    forall c | c in t.budgets && c != b ensures WithinAllocation(t.budgets[c]) {
      assert t.budgets[c] == s.budgets[c];
    }
  }

  lemma RecognizeCeiling(s: State, id: Id)
    requires RowsSound(s) && Ceiling(s) && id in s.receipts
    ensures Ceiling(Recognize(Floored, s, id)) <==>
            !PostingOverspends(s, s.receipts[id].order, LinesValue(s.receipts[id].lines))
  {
    var g := s.receipts[id];
    if KnownOrder(s, g.order) {
      var o := s.orders[g.order.value];
      if o.total > o.recognized && o.budget.Some? && o.budget.value in s.budgets {
        var b := o.budget.value;
        var amt := Clamp(LinesValue(g.lines), o.total - o.recognized);
        assert WithinAllocation(s.budgets[b]) && RowSound(s.budgets[b]);
        OneRowCeiling(s, Recognize(Floored, s, id), b, Spend(Floored, s.budgets[b], amt));
      }
    }
  }

  lemma UnrecognizeCeiling(s: State, id: Id)
    requires RowsSound(s) && Ceiling(s) && id in s.receipts
    ensures Ceiling(Unrecognize(Floored, s, id)) <==>
            !ReversalOverspends(s, s.receipts[id].order, s.receipts[id].amount)
  {
    var g := s.receipts[id];
    if KnownOrder(s, g.order) && g.amount > 0 {
      var o := s.orders[g.order.value];
      if o.budget.Some? && o.budget.value in s.budgets {
        var b := o.budget.value;
        assert WithinAllocation(s.budgets[b]) && RowSound(s.budgets[b]);
        OneRowCeiling(s, Unrecognize(Floored, s, id), b, Unspend(Floored, s.budgets[b], g.amount));
      }
    }
  }

  lemma RecognitionCeiling(s: State, id: Id, posted: bool)
    requires RowsSound(s) && Ceiling(s) && id in s.receipts
    ensures var g := s.receipts[id];
            Ceiling(RecognizeOnReceipt(Floored, s, id, posted)) <==>
              if g.recognized then posted || !ReversalOverspends(s, g.order, g.amount)
              else !posted || !PostingOverspends(s, g.order, LinesValue(g.lines))
  {
    RecognizeCeiling(s, id);
    UnrecognizeCeiling(s, id);
  }

  lemma ReceiptStepCeiling(s: State, op: Op)
    requires RowsSound(s) && Ceiling(s) && Apply(Floored, s, op).Ok? && IsReceiptOp(op)
    ensures Ceiling(Step(Floored, s, op)) <==> !Overspends(s, op)
  {
    match op
    case OpCreateReceipt(id, order, status, lines, critical, released) =>
      var u := PutReceipt(s, id, Receipt(order, status, critical, released, lines, false, 0));
      RecognitionCeiling(u, id, status == Posted);
    case OpUpdateReceipt(id, p) =>
      var n := PatchedReceipt(s.receipts[id], p);
      RecognitionCeiling(PutReceipt(s, id, n), id, n.status == Posted);
    case OpDeleteReceipt(id) =>
      RecognitionCeiling(s, id, false);
  }

  lemma BudgetStepCeiling(s: State, op: Op)
    requires RowsSound(s) && Ceiling(s) && IsBudgetOp(op)
    ensures Ceiling(Step(Floored, s, op)) <==> !Overdraws(s, op)
  {
    var t := Step(Floored, s, op);
    if Overdraws(s, op) {
      assert op.id in t.budgets && !WithinAllocation(t.budgets[op.id]);
    } else {
      forall b | b in t.budgets ensures WithinAllocation(t.budgets[b]) {
        assert b in s.budgets ==> WithinAllocation(s.budgets[b]) && RowSound(s.budgets[b]);
      }
    }
  }

  lemma OtherStepKeepsCeiling(s: State, op: Op)
    requires RowsSound(s) && Ceiling(s) && !IsBudgetOp(op) && !IsReceiptOp(op)
    ensures Ceiling(Step(Floored, s, op))
  {
    if Apply(Floored, s, op).Err? {
      return;
    }
    match op
    case OpCreateOrder(id, budget, req, lines, creator) =>
      RaiseKeepsSpend(s, id, budget, req, LinesValue(lines), OrderLines(lines), creator);
    case OpAwardOrder(id, budget, req, amount, creator) =>
      RaiseKeepsSpend(s, id, AwardBudget(s, budget, req), req, amount, [], creator);
    case OpUpdateOrder(id, p) => UpdateOrderKeepsSpend(s, id, p);
    case OpDeleteOrder(id) => DeleteOrderKeepsSpend(s, id);
    case _ => RequisitionStepKeepsSpend(s, op);
  }

  // The transaction is none of the four ways past an allocation.
  predicate Affords(s: State, op: Op) {
    !Overdraws(s, op) && !Overspends(s, op)
  }

  // The hard ceiling, for any transaction: every budget stays within its
  // allocation exactly when the transaction is none of the four.
  lemma CeilingIffAfforded(s: State, op: Op)
    requires RowsSound(s) && Ceiling(s)
    ensures Ceiling(Step(Floored, s, op)) <==> Affords(s, op)
  {
    if IsBudgetOp(op) {
      BudgetStepCeiling(s, op);
    } else if IsReceiptOp(op) {
      if Apply(Floored, s, op).Ok? {
        ReceiptStepCeiling(s, op);
      }
    } else {
      OtherStepKeepsCeiling(s, op);
    }
  }

  // Over any run at all, unsafe transactions and lapses included.
  lemma {:induction false} CeilingThroughoutIff(s: State, ops: seq<Op>)
    requires RowsSound(s) && Ceiling(s)
    ensures Throughout(s, ops, Ceiling) <==> AllAlong(s, ops, Affords)
    decreases |ops|
  {
    if ops != [] {
      CeilingIffAfforded(s, ops[0]);
      RowsSoundAlways(s, ops[0]);
      if Affords(s, ops[0]) {
        CeilingThroughoutIff(Step(Floored, s, ops[0]), ops[1..]);
      } else {
        assert !Throughout(Step(Floored, s, ops[0]), ops[1..], Ceiling);
      }
    }
  }

  ghost predicate Affordable(s: State) {
    Books(s) && SpendCovered(s) && Ceiling(s)
  }

  lemma CleanPostingIsAfforded(s: State, order: Option<Id>, value: int)
    requires Books(s) && Live(s, order)
    ensures !PostingOverspends(s, order, value)
  {
    if KnownOrder(s, order) && s.orders[order.value].budget.Some? {
      var o := s.orders[order.value];
      OpenSigns(s);
      assert OrderOk(s.budgets, o);
      assert s.budgets[o.budget.value].committed >= OpenPart(o.budget.value, o);
    }
  }

  lemma CleanReversalIsAfforded(s: State, id: Id)
    requires Books(s) && SpendCovered(s) && id in s.receipts && s.receipts[id].recognized
    requires s.receipts[id].amount == 0 || Holding(s, s.receipts[id].order)
    ensures !ReversalOverspends(s, s.receipts[id].order, s.receipts[id].amount)
  {
    var g := s.receipts[id];
    if KnownOrder(s, g.order) && g.amount > 0 && s.orders[g.order.value].budget.Some? {
      var p := g.order.value;
      var o := s.orders[p];
      OpenSigns(s);
      ReceiptedSigns(s);
      assert OrderOk(s.budgets, o);
      assert o.recognized >= RecognizedPart(p, g);
      assert s.budgets[o.budget.value].spent >= SpentPart(o.budget.value, o);
    }
  }

  // A clean transaction takes neither of the last two ways.
  lemma CleanNeverOverspends(s: State, op: Op)
    requires Affordable(s) && Clean(s, op)
    ensures !Overspends(s, op)
  {
    if Apply(Floored, s, op).Err? {
      return;
    }
    match op
    case OpCreateReceipt(_, order, status, lines, _, _) =>
      if status == Posted {
        CleanPostingIsAfforded(s, order, LinesValue(lines));
      }
    case OpUpdateReceipt(id, p) =>
      var g := s.receipts[id];
      var n := PatchedReceipt(g, p);
      if g.recognized && n.status != Posted {
        CleanReversalIsAfforded(s, id);
      } else if !g.recognized && n.status == Posted {
        CleanPostingIsAfforded(s, n.order, LinesValue(n.lines));
      }
    case OpDeleteReceipt(id) =>
      if s.receipts[id].recognized {
        CleanReversalIsAfforded(s, id);
      }
    case _ =>
  }

  predicate CleanNoLapse(s: State, op: Op) {
    Clean(s, op) && !IsLapse(op)
  }

  lemma AffordableStep(s: State, op: Op)
    requires Affordable(s) && CleanNoLapse(s, op) && !Overdraws(s, op)
    ensures Affordable(Step(Floored, s, op))
  {
    CleanIsSafe(s, op);
    SafeStepKeepsBooks(s, op);
    CleanStepCovered(s, op);
    CleanNeverOverspends(s, op);
    CeilingIffAfforded(s, op);
  }

  predicate WithinMeans(s: State, op: Op) {
    CleanNoLapse(s, op) && !Overdraws(s, op)
  }

  // However many orders, increases, receipts and reversals are made, a clean run
  // without a lapse that sets no allocation below zero or below its use stays
  // within every allocation.
  lemma {:induction false} CeilingRun(s: State, ops: seq<Op>)
    requires Affordable(s) && AllAlong(s, ops, WithinMeans)
    ensures Throughout(s, ops, Affordable)
    decreases |ops|
  {
    if ops != [] {
      AffordableStep(s, ops[0]);
      CeilingRun(Step(Floored, s, ops[0]), ops[1..]);
    }
  }

  // A budget accepted with an allocation below zero is past it at once.
  lemma NegativeAllocationIsPastItsCeiling()
    ensures var op := OpCreateBudget(1, -5, 0, None);
            Ceiling(EMPTY_TABLES) && Apply(Floored, EMPTY_TABLES, op).Ok? && !Ceiling(Step(Floored, EMPTY_TABLES, op))
  {
    EmptyTablesInOrder();
    CeilingIffAfforded(EMPTY_TABLES, OpCreateBudget(1, -5, 0, None));
  }

  /* ---- the floors never take effect ---- */

  lemma ReleaseReservationIsExact(s: State, r: Id)
    requires Books(s) && r in s.requisitions
    ensures ReleaseReservation(Floored, s, s.requisitions[r]) == ReleaseReservation(Plain, s, s.requisitions[r])
  {
    HeldSigns(s);
    if Reserved(s.requisitions[r]) {
      var b := s.requisitions[r].budget.value;
      assert Held(s.requisitions, b) >= ReservedPart(b, s.requisitions[r]);
    }
  }

  lemma SettleIsExact(s: State, id: Id, outcome: Outcome, status: RequisitionStatus)
    requires Books(s)
    ensures SettleRequisition(Floored, s, id, outcome, status) == SettleRequisition(Plain, s, id, outcome, status)
  {
    if id in s.requisitions {
      assert RequisitionOk(s.budgets, s.requisitions[id]);
      ReleaseReservationIsExact(s, id);
    }
  }

  lemma ReleaseOrderIsExact(s: State, u: State, p: Id)
    requires Books(s) && p in s.orders && s.orders[p].encumbered && u.budgets == s.budgets
    ensures ReleaseOrder(Floored, u, s.orders[p]) == ReleaseOrder(Plain, u, s.orders[p])
  {
    OpenSigns(s);
    if s.orders[p].budget.Some? {
      var b := s.orders[p].budget.value;
      assert Open(s.orders, b) >= OpenPart(b, s.orders[p]);
    }
  }

  lemma UpdateOrderIsExact(s: State, id: Id, p: OrderPatch)
    requires Books(s)
    ensures UpdateOrder(Floored, s, id, p) == UpdateOrder(Plain, s, id, p)
  {
    if id in s.orders && s.orders[id].encumbered {
      var o := s.orders[id];
      assert OrderOk(s.budgets, o);
      ReceiptedSigns(s);
      OpenSigns(s);
      ReleaseOrderIsExact(s, PutOrder(s, id, PatchedOrder(o, p)), id);
      var b := o.budget.value;
      assert s.budgets[b].committed >= OpenPart(b, o);
    }
  }

  lemma RaiseIsExact(s: State, id: Id, budget: Option<Id>, req: Option<Id>, total: int,
                     lines: seq<OrderLine>, creator: Actor)
    requires Books(s)
    ensures RaiseOrder(Floored, s, id, budget, req, total, lines, creator) ==
            RaiseOrder(Plain, s, id, budget, req, total, lines, creator)
  {
    if req.Some? && req.value in s.requisitions {
      ReleaseReservationIsExact(s, req.value);
    }
  }

  lemma RecognizeIsExact(s: State, id: Id)
    requires Books(s) && id in s.receipts && !s.receipts[id].recognized && Live(s, s.receipts[id].order)
    ensures Recognize(Floored, s, id) == Recognize(Plain, s, id)
  {
    var g := s.receipts[id];
    if KnownOrder(s, g.order) {
      var o := s.orders[g.order.value];
      assert OrderOk(s.budgets, o);
      OpenSigns(s);
      if o.budget.Some? {
        var b := o.budget.value;
        assert s.budgets[b].committed >= OpenPart(b, o);
      }
    }
  }

  lemma UnrecognizeIsExact(s: State, id: Id, n: Receipt)
    requires Documents(s) && SpendCovered(s) && Quantities(s) && id in s.receipts && s.receipts[id].recognized
    requires n.amount == s.receipts[id].amount && n.lines == s.receipts[id].lines
    requires n.amount == 0 || (n.order == s.receipts[id].order && Holding(s, n.order))
    ensures Unrecognize(Floored, PutReceipt(s, id, n), id) == Unrecognize(Plain, PutReceipt(s, id, n), id)
  {
    assert ReceiptOk(s.receipts[id]);
    if KnownOrder(s, n.order) && n.amount > 0 {
      var p := n.order.value;
      var o := s.orders[p];
      assert OrderOk(s.budgets, o);
      ReceiptedSigns(s);
      OpenSigns(s);
      WithdrawIsExact(s, id, p);
      assert o.recognized >= n.amount;
      if o.budget.Some? {
        assert s.budgets[o.budget.value].spent >= SpentPart(o.budget.value, o);
      }
    }
  }

  lemma PostingIsExact(s: State, id: Id, row: Receipt)
    requires Books(s) && ReceiptOk(row) && !row.recognized && Live(s, row.order)
    requires id in s.receipts ==> !s.receipts[id].recognized
    ensures var u := PutReceipt(s, id, row); Recognize(Floored, u, id) == Recognize(Plain, u, id)
  {
    ReceiptWriteTracks(s, PutReceipt(s, id, row), id, row);
    RecognizeIsExact(PutReceipt(s, id, row), id);
  }

  lemma ReceiptStepIsExact(s: State, op: Op)
    requires Books(s) && SpendCovered(s) && Quantities(s) && Clean(s, op) && IsReceiptOp(op)
    ensures Step(Floored, s, op) == Step(Plain, s, op)
  {
    if Apply(Floored, s, op).Err? {
      return;
    }
    match op
    case OpCreateReceipt(id, order, status, lines, critical, released) =>
      if status == Posted {
        PostingIsExact(s, id, Receipt(order, status, critical, released, lines, false, 0));
      }
    case OpUpdateReceipt(id, p) =>
      var g := s.receipts[id];
      var n := PatchedReceipt(g, p);
      assert ReceiptOk(g);
      if g.recognized && n.status != Posted {
        UnrecognizeIsExact(s, id, n);
      } else if !g.recognized && n.status == Posted {
        PostingIsExact(s, id, n);
      }
    case OpDeleteReceipt(id) =>
      if s.receipts[id].recognized {
        assert PutReceipt(s, id, s.receipts[id]) == s;
        UnrecognizeIsExact(s, id, s.receipts[id]);
      }
  }

  // On the books, with clean transactions, the floored arithmetic of the
  // program and plain subtraction are the same function.
  lemma FloorsIdleStep(s: State, op: Op)
    requires Books(s) && SpendCovered(s) && Quantities(s) && Clean(s, op)
    ensures Step(Floored, s, op) == Step(Plain, s, op)
  {
    match op
    case OpSettleRequisition(id, outcome, status) => SettleIsExact(s, id, outcome, status);
    case OpDeleteRequisition(id) =>
      if id in s.requisitions {
        ReleaseReservationIsExact(s, id);
      }
    case OpCreateOrder(id, budget, req, lines, creator) =>
      RaiseIsExact(s, id, budget, req, LinesValue(lines), OrderLines(lines), creator);
    case OpAwardOrder(id, budget, req, amount, creator) =>
      RaiseIsExact(s, id, AwardBudget(s, budget, req), req, amount, [], creator);
    case OpUpdateOrder(id, p) => UpdateOrderIsExact(s, id, p);
    case OpDeleteOrder(id) =>
      if id in s.orders && s.orders[id].encumbered {
        ReleaseOrderIsExact(s, s, id);
      }
    case OpCreateReceipt(_, _, _, _, _, _) => ReceiptStepIsExact(s, op);
    case OpUpdateReceipt(_, _) => ReceiptStepIsExact(s, op);
    case OpDeleteReceipt(_) => ReceiptStepIsExact(s, op);
    case _ =>
  }

  ghost predicate CleanWithLines(s: State, op: Op) {
    Clean(s, op) && KeepsQuantities(s, op)
  }

  ghost predicate Orderly(s: State, op: Op) {
    CleanNoLapse(s, op) && KeepsQuantities(s, op)
  }

  ghost predicate InOrder(s: State) {
    Books(s) && SpendCovered(s) && Quantities(s)
  }

  // Over a whole run no floor takes effect, and everything stays in order,
  // whatever becomes of the allocations.
  lemma {:induction false} FloorsIdleRun(s: State, ops: seq<Op>)
    requires InOrder(s) && AllAlong(s, ops, Orderly)
    ensures Run(Floored, s, ops) == Run(Plain, s, ops)
    ensures InOrder(Run(Floored, s, ops))
    decreases |ops|
  {
    if ops != [] {
      FloorsIdleStep(s, ops[0]);
      CleanIsSafe(s, ops[0]);
      SafeStepKeepsBooks(s, ops[0]);
      CleanStepCovered(s, ops[0]);
      QuantitiesStep(s, ops[0]);
      FloorsIdleRun(Step(Floored, s, ops[0]), ops[1..]);
    }
  }

  // Un-posting or deleting a recognized receipt.
  predicate IsReversal(s: State, op: Op) {
    match op
    case OpUpdateReceipt(id, p) =>
      id in s.receipts && s.receipts[id].recognized && PatchedReceipt(s.receipts[id], p).status != Posted
    case OpDeleteReceipt(id) => id in s.receipts && s.receipts[id].recognized
    case _ => false
  }

  lemma ReversalIsExact(s: State, op: Op)
    requires Documents(s) && SpendCovered(s) && Quantities(s) && Clean(s, op) && IsReversal(s, op)
    ensures Step(Floored, s, op) == Step(Plain, s, op)
  {
    var id := op.id;
    match op
    case OpUpdateReceipt(_, p) =>
      if Apply(Floored, s, op).Ok? {
        UnrecognizeIsExact(s, id, PatchedReceipt(s.receipts[id], p));
      }
    case OpDeleteReceipt(_) =>
      assert PutReceipt(s, id, s.receipts[id]) == s;
      UnrecognizeIsExact(s, id, s.receipts[id]);
  }

  // At the end of any clean run, lapses included, a reversal subtracts exactly
  // what its receipt added: no floor takes effect.
  lemma ReversalsExactAfterRun(s: State, ops: seq<Op>, op: Op)
    requires Covered(s) && Quantities(s) && AllAlong(s, ops, CleanWithLines)
    requires var t := Run(Floored, s, ops); Clean(t, op) && IsReversal(t, op)
    ensures var t := Run(Floored, s, ops); Step(Floored, t, op) == Step(Plain, t, op)
  {
    CoveredRunWithLines(s, ops);
    ReversalIsExact(Run(Floored, s, ops), op);
  }

  lemma {:induction false} CoveredRunWithLines(s: State, ops: seq<Op>)
    requires Covered(s) && Quantities(s) && AllAlong(s, ops, CleanWithLines)
    ensures Covered(Run(Floored, s, ops)) && Quantities(Run(Floored, s, ops))
    decreases |ops|
  {
    if ops != [] {
      CoveredStep(s, ops[0]);
      QuantitiesStep(s, ops[0]);
      CoveredRunWithLines(Step(Floored, s, ops[0]), ops[1..]);
    }
  }

  /* ---- quantities ---- */

  // Over any run that replaces no delivered lines and moves no receipt that took
  // money, every line's received quantity is what its receipts delivered.
  lemma {:induction false} QuantitiesRun(s: State, ops: seq<Op>)
    requires Quantities(s) && AllAlong(s, ops, KeepsQuantities)
    ensures Quantities(Run(Floored, s, ops))
    decreases |ops|
  {
    if ops != [] {
      QuantitiesStep(s, ops[0]);
      QuantitiesRun(Step(Floored, s, ops[0]), ops[1..]);
    }
  }
}
