/** The writers as the program has them: each updates the tables row by row and
  * rolls everything back when a check fails. Every writer is proved to do what
  * the transaction function of its name says, and to keep the books exactly when
  * that transaction is safe.
  */
module LedgerService {
  import opened Values
  import opened LedgerModel
  import opened LedgerBooks
  import opened LedgerSteps
  import opened LedgerTheorems

  // Line by line, refusing at the first line that is not valid.
  method TotalOf(lines: seq<Line>) returns (total: int, valid: bool)
    ensures valid == ValidLines(lines)
    ensures valid ==> total == LinesValue(lines)
  {
    total := 0;
    for i := 0 to |lines|
      invariant ValidLines(lines[..i])
      invariant total == LinesValue(lines[..i])
    {
      if lines[i].qty <= 0 || lines[i].price < 0 {
        assert !ValidLine(lines[i]);
        return total, false;
      }
      assert lines[..i + 1][..i] == lines[..i];
      total := total + lines[i].qty * lines[i].price;
    }
    assert lines[..|lines|] == lines;
    valid := true;
  }

  // SUM(qty * unit_price) over the lines of a receipt.
  method ReceivedValue(lines: seq<Line>) returns (total: int)
    ensures total == LinesValue(lines)
  {
    total := 0;
    for i := 0 to |lines|
      invariant total == LinesValue(lines[..i])
    {
      assert lines[..i + 1][..i] == lines[..i];
      total := total + lines[i].qty * lines[i].price;
    }
    assert lines[..|lines|] == lines;
  }

  method InsertedLines(lines: seq<Line>) returns (rows: seq<OrderLine>)
    ensures rows == OrderLines(lines)
  {
    rows := [];
    for i := 0 to |lines|
      invariant rows == OrderLines(lines[..i])
    {
      rows := rows + [OrderLine(lines[i].item, lines[i].qty, lines[i].price, 0)];
    }
    assert lines[..|lines|] == lines;
  }

  // SUM(qty) of one item over the lines of a receipt.
  method ReceivedQty(lines: seq<Line>, item: Id) returns (qty: int)
    ensures qty == QtyOf(lines, item)
  {
    qty := 0;
    for i := 0 to |lines|
      invariant qty == QtyOf(lines[..i], item)
    {
      assert lines[..i + 1][..i] == lines[..i];
      if lines[i].item == item {
        qty := qty + lines[i].qty;
      }
    }
    assert lines[..|lines|] == lines;
  }

  method RestatedStatus(o: Order) returns (next: Order)
    ensures next == Restated(o)
  {
    var full, any := 0, false;
    for i := 0 to |o.lines|
      invariant 0 <= full <= i
      invariant full == i <==> forall j :: 0 <= j < i ==> o.lines[j].received >= o.lines[j].qty
      invariant any <==> exists j :: 0 <= j < i && o.lines[j].received > 0
    {
      if o.lines[i].received >= o.lines[i].qty {
        full := full + 1;
      }
      any := any || o.lines[i].received > 0;
    }
    if |o.lines| == 0 || !Receivable(o.status) {
      return o;
    }
    var status := OrderApproved;
    if full == |o.lines| {
      status := Received;
    } else if any {
      status := PartiallyReceived;
    }
    next := o.(status := status);
  }

  // The transaction committed with the effect of `op`, or failed with none.
  predicate Did(before: State, op: Op, after: State, err: Option<Error>) {
    match Apply(Floored, before, op)
    case Ok(next) => err == None && after == next
    case Err(e) => err == Some(e) && after == before
  }

  // A writer that did its transaction left the books balanced exactly when the
  // transaction was safe, and the budget rows sound in any case.
  lemma DidKeepsBooks(before: State, op: Op, after: State, err: Option<Error>)
    requires Did(before, op, after, err)
    ensures Books(before) ==> (Books(after) <==> Safe(before, op))
    ensures RowsSound(before) ==> RowsSound(after)
  {
    assert after == Step(Floored, before, op);
    if Books(before) {
      BooksIffSafe(before, op);
    }
    if RowsSound(before) {
      RowsSoundAlways(before, op);
    }
  }

  class Ledger {
    const threshold: int
    var budgets: map<Id, Budget>
    var requisitions: map<Id, Requisition>
    var orders: map<Id, Order>
    var receipts: map<Id, Receipt>

    function Tables(): State
      reads this
    {
      State(threshold, budgets, requisitions, orders, receipts)
    }

    constructor (threshold: int)
      ensures Tables() == State(threshold, map[], map[], map[], map[])
      ensures Books(Tables())
    {
      this.threshold := threshold;
      budgets, requisitions, orders, receipts := map[], map[], map[], map[];
    }

    method Rollback(tx: State)
      requires tx.threshold == threshold
      modifies this
      ensures Tables() == tx
    {
      budgets, requisitions, orders, receipts := tx.budgets, tx.requisitions, tx.orders, tx.receipts;
    }

    /* ---- budgets ---- */

    method CreateBudget(id: Id, allotted: int, period: nat, periodEnd: Option<int>) returns (err: Option<Error>)
      modifies this
      ensures Did(old(Tables()), OpCreateBudget(id, allotted, period, periodEnd), Tables(), err)
    {
      if id in budgets {
        err := Some(Conflict);
      } else {
        var committed, spent := 0, 0;
        var remaining := allotted - committed - spent;
        budgets := budgets[id := Budget(allotted, 0, committed, spent, remaining, period, periodEnd, false)];
        err := None;
      }
    }

    method UpdateBudget(id: Id, allotted: Option<int>, period: Option<nat>) returns (err: Option<Error>)
      modifies this
      ensures Did(old(Tables()), OpUpdateBudget(id, allotted, period), Tables(), err)
    {
      if id !in budgets {
        err := Some(NotFound);
      } else {
        var b := budgets[id];
        if period.Some? {
          b := b.(period := period.value);
        }
        if allotted.Some? {
          b := b.(allotted := allotted.value);
        }
        b := b.(remaining := b.allotted - b.preCommitted - b.committed - b.spent);
        budgets := budgets[id := b];
        err := None;
      }
    }

    method DeleteBudget(id: Id) returns (err: Option<Error>)
      modifies this
      ensures Did(old(Tables()), OpDeleteBudget(id), Tables(), err)
    {
      if id !in budgets {
        err := Some(NotFound);
      } else if BudgetReferenced(Tables(), id) {
        err := Some(InvalidArgument);
      } else {
        budgets := budgets - {id};
        err := None;
      }
    }

    // Rows are closed one by one; the ids closed are returned.
    method CloseBudgetPeriod(policy: Policy, filter: CloseFilter, today: int) returns (closed: set<Id>)
      modifies this`budgets
      ensures Did(old(Tables()), OpCloseBudgetPeriod(policy, filter, today), Tables(), None)
      ensures closed == set b | b in old(budgets) && Closes(filter, today, b, old(budgets)[b])
    {
      ghost var before := budgets;
      var todo := budgets.Keys;
      closed := {};
      while todo != {}
        invariant todo <= before.Keys == budgets.Keys
        invariant forall b :: b in todo ==> budgets[b] == before[b]
        invariant forall b :: b in before && b !in todo ==> budgets[b] == RowClosed(policy, filter, today, b, before[b])
        invariant closed == set b | b in before && b !in todo && Closes(filter, today, b, before[b])
        decreases todo
      {
        var b :| b in todo;
        todo := todo - {b};
        var row := budgets[b];
        if Closes(filter, today, b, row) {
          if policy.Lapse? {
            row := row.(preCommitted := 0, committed := 0, remaining := row.allotted - row.spent);
          }
          budgets := budgets[b := row.(closed := true)];
          closed := closed + {b};
        }
      }
      assert budgets == map b | b in before :: RowClosed(policy, filter, today, b, before[b]);
    }

    /* ---- requisitions ---- */

    method CreateRequisition(id: Id, total: int, budget: Option<Id>, requester: Actor, status: RequisitionStatus)
      returns (err: Option<Error>)
      modifies this
      ensures Did(old(Tables()), OpCreateRequisition(id, total, budget, requester, status), Tables(), err)
    {
      if id in requisitions {
        err := Some(Conflict);
      } else if budget.Some? && budget.value !in budgets {
        err := Some(InvalidArgument);
      } else {
        requisitions := requisitions[id := Requisition(total, budget, requester, status, false, false)];
        err := None;
      }
    }

    method UpdateRequisition(id: Id, total: Option<int>, budget: Option<Id>, status: Option<RequisitionStatus>)
      returns (err: Option<Error>)
      modifies this
      ensures Did(old(Tables()), OpUpdateRequisition(id, total, budget, status), Tables(), err)
    {
      if status.Some? && status.value in {Approved, Rejected, Ordered} {
        err := Some(Conflict);
      } else if id !in requisitions {
        err := Some(NotFound);
      } else if budget.Some? && budget.value !in budgets {
        err := Some(InvalidArgument);
      } else {
        var r := requisitions[id];
        if total.Some? {
          r := r.(total := total.value);
        }
        if budget.Some? {
          r := r.(budget := budget);
        }
        if status.Some? {
          r := r.(status := status.value);
        }
        requisitions := requisitions[id := r];
        err := None;
      }
    }

    // Stage 1. On an error the tables are left for the caller to roll back.
    method ApplyBudgetCommitment(id: Id, outcome: Outcome) returns (err: Option<Error>)
      requires id in requisitions
      modifies this
      ensures match LedgerModel.ApplyBudgetCommitment(Floored, old(Tables()), id, outcome)
              case Ok(t) => err == None && Tables() == t
              case Err(e) => err == Some(e)
    {
      var r := requisitions[id];
      if r.budget.None? || r.total <= 0 {
        return None;
      }
      var b := r.budget.value;
      match outcome
      case OutcomeApproved =>
        if r.encumbered {
          return None;
        }
        if b !in budgets {
          return None;
        }
        var row := budgets[b];
        var available := row.allotted - row.preCommitted - row.committed - row.spent;
        if r.total > available {
          return Some(InvalidArgument);
        }
        budgets := budgets[b := row.(preCommitted := row.preCommitted + r.total,
                                     remaining := row.allotted - (row.preCommitted + r.total)
                                                  - row.committed - row.spent)];
        requisitions := requisitions[id := r.(encumbered := true)];
        err := None;
      case OutcomeRejected =>
        if !r.encumbered || r.preReleased {
          if r.encumbered {
            requisitions := requisitions[id := r.(encumbered := false)];
          }
          return None;
        }
        Unreserve(b, r.total);
        requisitions := requisitions[id := r.(encumbered := false)];
        err := None;
    }

    // UPDATE budgets SET pre_committed = GREATEST(pre_committed - amt, 0), ...
    method Unreserve(b: Id, amt: int)
      modifies `budgets
      ensures budgets == if b in old(budgets)
                         then old(budgets)[b := LedgerModel.Unreserve(Floored, old(budgets)[b], amt)] else old(budgets)
    {
      if b in budgets {
        var row := budgets[b];
        var pre := if row.preCommitted - amt > 0 then row.preCommitted - amt else 0;
        budgets := budgets[b := row.(preCommitted := pre, remaining := row.allotted - pre - row.committed - row.spent)];
      }
    }

    // UPDATE budgets SET committed = GREATEST(committed + delta, 0), ...
    method Recommit(b: Id, delta: int)
      modifies `budgets
      ensures budgets == if b in old(budgets) then old(budgets)[b := Uncommit(Floored, old(budgets)[b], -delta)]
                         else old(budgets)
    {
      if b in budgets {
        var row := budgets[b];
        var committed := if row.committed + delta > 0 then row.committed + delta else 0;
        budgets := budgets[b := row.(committed := committed,
            remaining := row.allotted - row.preCommitted - committed - row.spent)];
      }
    }

    method SettleRequisition(id: Id, outcome: Outcome, status: RequisitionStatus) returns (err: Option<Error>)
      modifies this
      ensures Did(old(Tables()), OpSettleRequisition(id, outcome, status), Tables(), err)
    {
      var tx := Tables();
      if id !in requisitions {
        err := Some(NotFound);
      } else {
        requisitions := requisitions[id := requisitions[id].(status := status)];
        err := ApplyBudgetCommitment(id, outcome);
        if err.Some? {
          Rollback(tx);
        }
      }
    }

    method DeleteRequisition(id: Id) returns (err: Option<Error>)
      modifies this
      ensures Did(old(Tables()), OpDeleteRequisition(id), Tables(), err)
    {
      var tx := Tables();
      if id !in requisitions {
        err := Some(NotFound);
      } else {
        var r := requisitions[id];
        if r.encumbered && !r.preReleased && r.budget.Some? && r.total > 0 {
          Unreserve(r.budget.value, r.total);
        }
        if exists p :: p in orders && orders[p].requisition == Some(id) {
          Rollback(tx);
          err := Some(InvalidArgument);
        } else {
          requisitions := requisitions - {id};
          err := None;
        }
      }
    }

    /* ---- purchase orders ---- */

    // Stage 2. On an error the tables are left for the caller to roll back.
    method ApplyPOEncumbrance(id: Id) returns (err: Option<Error>)
      requires id in orders
      modifies this
      ensures match ApplyOrderEncumbrance(Floored, old(Tables()), id)
              case Ok(t) => err == None && Tables() == t
              case Err(e) => err == Some(e)
    {
      var o := orders[id];
      if o.budget.None? || o.total <= 0 {
        return None;
      }
      if o.requisition.Some? && o.requisition.value in requisitions {
        var r := requisitions[o.requisition.value];
        if r.encumbered && !r.preReleased && r.budget.Some? && r.total > 0 {
          Unreserve(r.budget.value, r.total);
          requisitions := requisitions[o.requisition.value := r.(preReleased := true)];
        }
      }
      var b := o.budget.value;
      if b !in budgets {
        return None;
      }
      var row := budgets[b];
      if row.committed + o.total + row.spent - row.allotted > 0 {
        return Some(InvalidArgument);
      }
      budgets := budgets[b := row.(committed := row.committed + o.total,
                                   remaining := row.allotted - row.preCommitted
                                                - (row.committed + o.total) - row.spent)];
      orders := orders[id := o.(encumbered := true)];
      err := None;
    }

    method ReleasePOEncumbrance(o: Order)
      modifies `budgets
      ensures Tables() == ReleaseOrder(Floored, old(Tables()), o)
    {
      var open := o.total - o.recognized;
      if o.budget.None? || open <= 0 {
        return;
      }
      Recommit(o.budget.value, -open);
    }

    method RaisePO(id: Id, budget: Option<Id>, req: Option<Id>, total: int, rows: seq<OrderLine>, creator: Actor)
      returns (err: Option<Error>)
      modifies this
      ensures match RaiseOrder(Floored, old(Tables()), id, budget, req, total, rows, creator)
              case Ok(t) => err == None && Tables() == t
              case Err(e) => err == Some(e)
    {
      if OrderIdTaken(Tables(), id) {
        return Some(Conflict);
      }
      if (budget.Some? && budget.value !in budgets) || (req.Some? && req.value !in requisitions) {
        return Some(InvalidArgument);
      }
      var status := if threshold > 0 && total < threshold then OrderApproved else OrderPending;
      orders := orders[id := Order(total, budget, req, status, creator, rows, false, 0)];
      if req.Some? {
        requisitions := requisitions[req.value := requisitions[req.value].(status := Ordered)];
      }
      err := ApplyPOEncumbrance(id);
    }

    method CreatePurchaseOrder(id: Id, budget: Option<Id>, req: Option<Id>, lines: seq<Line>, creator: Actor)
      returns (err: Option<Error>)
      modifies this
      ensures Did(old(Tables()), OpCreateOrder(id, budget, req, lines, creator), Tables(), err)
    {
      var tx := Tables();
      var total, valid := TotalOf(lines);
      if |lines| == 0 || !valid {
        err := Some(InvalidArgument);
      } else {
        var rows := InsertedLines(lines);
        err := RaisePO(id, budget, req, total, rows, creator);
        if err.Some? {
          Rollback(tx);
        }
      }
    }

    // The order a winning quote becomes.
    method AwardRfq(id: Id, budget: Option<Id>, req: Option<Id>, amount: int, creator: Actor)
      returns (err: Option<Error>)
      modifies this
      ensures Did(old(Tables()), OpAwardOrder(id, budget, req, amount, creator), Tables(), err)
    {
      var tx := Tables();
      if amount < 0 {
        err := Some(InvalidArgument);
      } else {
        var b := budget;
        if budget.None? && req.Some? && req.value in requisitions {
          b := requisitions[req.value].budget;
        }
        err := RaisePO(id, b, req, amount, [], creator);
        if err.Some? {
          Rollback(tx);
        }
      }
    }

    method UpdatePurchaseOrder(id: Id, p: OrderPatch) returns (err: Option<Error>)
      modifies this
      ensures Did(old(Tables()), OpUpdateOrder(id, p), Tables(), err)
    {
      var tx := Tables();
      err := PatchPO(id, p);
      if err.Some? {
        Rollback(tx);
      }
    }

    method PatchPO(id: Id, p: OrderPatch) returns (err: Option<Error>)
      modifies this
      ensures match UpdateOrder(Floored, old(Tables()), id, p)
              case Ok(t) => err == None && Tables() == t
              case Err(e) => err == Some(e)
    {
      if p.lines.Some? && |p.lines.value| == 0 {
        return Some(InvalidArgument);
      }
      if id !in orders {
        return Some(NotFound);
      }
      var o := orders[id];
      if p.status == Some(OrderApproved) && SameActor(p.actor, o.creator) {
        return Some(Forbidden);
      }
      var n := o;
      if p.lines.Some? {
        var total, valid := TotalOf(p.lines.value);
        if !valid {
          return Some(InvalidArgument);
        }
        var rows := InsertedLines(p.lines.value);
        n := n.(total := total, lines := rows);
      }
      if p.budget.Some? && p.budget.value !in budgets {
        return Some(InvalidArgument);
      }
      if p.requisition.Some? && p.requisition.value.Some? && p.requisition.value.value !in requisitions {
        return Some(InvalidArgument);
      }
      n := n.(status := p.status.GetOr(o.status), requisition := p.requisition.GetOr(o.requisition));
      if p.budget.Some? {
        n := n.(budget := p.budget);
      }
      orders := orders[id := n];
      err := SyncEncumbrance(id, o, n);
      assert n == PatchedOrder(o, p);
    }

    // Stage 2 follows an edit, against the budget the order had before it.
    method SyncEncumbrance(id: Id, o: Order, n: Order) returns (err: Option<Error>)
      requires id in orders && orders[id] == n
      modifies this
      ensures match LedgerModel.SyncEncumbrance(Floored, old(Tables()), id, o, n)
              case Ok(t) => err == None && Tables() == t
              case Err(e) => err == Some(e)
    {
      err := None;
      if o.encumbered && o.budget.Some? {
        var b := o.budget.value;
        if n.status == OrderRejected || n.status == OrderCancelled {
          ReleasePOEncumbrance(o);
          orders := orders[id := n.(encumbered := false)];
        } else if n.total != o.total {
          if n.total < o.recognized {
            return Some(InvalidArgument);
          }
          var delta := n.total - o.total;
          if delta > 0 && b in budgets {
            if budgets[b].committed + delta + budgets[b].spent - budgets[b].allotted > 0 {
              return Some(InvalidArgument);
            }
          }
          Recommit(b, delta);
        }
      }
    }

    method DeletePurchaseOrder(id: Id) returns (err: Option<Error>)
      modifies this
      ensures Did(old(Tables()), OpDeleteOrder(id), Tables(), err)
    {
      if id !in orders {
        err := Some(NotFound);
      } else {
        if orders[id].encumbered {
          ReleasePOEncumbrance(orders[id]);
        }
        orders := orders - {id};
        err := None;
      }
    }

    /* ---- goods receipts ---- */

    // The received quantities of an order's lines, up (posting) or down
    // (reversal, stopping at zero).
    method ApplyReceivedQty(lines: seq<OrderLine>, gl: seq<Line>, up: bool) returns (rows: seq<OrderLine>)
      ensures rows == if up then Accept(lines, gl) else Withdraw(Floored, lines, gl)
    {
      rows := [];
      for i := 0 to |lines|
        invariant rows == if up then Accept(lines[..i], gl) else Withdraw(Floored, lines[..i], gl)
      {
        var qty := ReceivedQty(gl, lines[i].item);
        var received := if up then lines[i].received + qty
                        else if lines[i].received - qty > 0 then lines[i].received - qty else 0;
        rows := rows + [lines[i].(received := received)];
      }
      assert lines[..|lines|] == lines;
    }

    // UPDATE budgets SET spent = spent + amt, committed = GREATEST(committed - amt, 0), ...
    method MoveToSpent(b: Id, amt: int)
      modifies `budgets
      ensures budgets == if b in old(budgets) then old(budgets)[b := Spend(Floored, old(budgets)[b], amt)]
                         else old(budgets)
    {
      if b in budgets {
        var row := budgets[b];
        var committed := if row.committed - amt > 0 then row.committed - amt else 0;
        budgets := budgets[b := row.(spent := row.spent + amt, committed := committed,
                                     remaining := row.allotted - row.preCommitted - committed - (row.spent + amt))];
      }
    }

    // UPDATE budgets SET spent = GREATEST(spent - amt, 0), committed = committed + amt, ...
    method MoveBackFromSpent(b: Id, amt: int)
      modifies `budgets
      ensures budgets == if b in old(budgets) then old(budgets)[b := Unspend(Floored, old(budgets)[b], amt)]
                         else old(budgets)
    {
      if b in budgets {
        var row := budgets[b];
        var spent := if row.spent - amt > 0 then row.spent - amt else 0;
        budgets := budgets[b := row.(spent := spent, committed := row.committed + amt,
                                     remaining := row.allotted - row.preCommitted - (row.committed + amt) - spent)];
      }
    }

    // Stage 3, for the receipt as its row stands.
    method RecognizePOSpendOnReceipt(id: Id, posted: bool)
      requires id in receipts
      modifies this
      ensures Tables() == RecognizeOnReceipt(Floored, old(Tables()), id, posted)
    {
      if posted && !receipts[id].recognized {
        RecognizePosted(id);
      } else if !posted && receipts[id].recognized {
        ReverseRecognized(id);
      }
    }

    method RecognizePosted(id: Id)
      requires id in receipts
      modifies this
      ensures Tables() == Recognize(Floored, old(Tables()), id)
    {
      var g := receipts[id];
      if g.order.None? || g.order.value !in orders {
        return;
      }
      var p := g.order.value;
      var o := orders[p];
      var open := o.total - o.recognized;
      if open <= 0 {
        receipts := receipts[id := g.(recognized := true, amount := 0)];
        return;
      }
      var amt := ReceivedValue(g.lines);
      if amt <= 0 {
        amt := open;
      }
      if amt > open {
        amt := open;
      }
      if o.budget.Some? {
        MoveToSpent(o.budget.value, amt);
      }
      var rows := ApplyReceivedQty(o.lines, g.lines, true);
      var n := RestatedStatus(o.(recognized := o.recognized + amt, lines := rows));
      orders := orders[p := n];
      receipts := receipts[id := g.(recognized := true, amount := amt)];
    }

    method ReverseRecognized(id: Id)
      requires id in receipts
      modifies this
      ensures Tables() == Unrecognize(Floored, old(Tables()), id)
    {
      var g := receipts[id];
      if g.order.Some? && g.amount > 0 && g.order.value in orders {
        var p := g.order.value;
        var o := orders[p];
        if o.budget.Some? {
          MoveBackFromSpent(o.budget.value, g.amount);
        }
        var recognized := if o.recognized - g.amount > 0 then o.recognized - g.amount else 0;
        var rows := ApplyReceivedQty(o.lines, g.lines, false);
        var n := RestatedStatus(o.(recognized := recognized, lines := rows));
        orders := orders[p := n];
      }
      receipts := receipts[id := g.(recognized := false, amount := 0)];
    }

    method CreateGrn(id: Id, order: Option<Id>, status: ReceiptStatus, lines: seq<Line>, critical: bool, released: bool)
      returns (err: Option<Error>)
      modifies this
      ensures Did(old(Tables()), OpCreateReceipt(id, order, status, lines, critical, released), Tables(), err)
    {
      var _, valid := TotalOf(lines);
      if HeldByQC(status, critical, released) {
        err := Some(Conflict);
      } else if id in receipts {
        err := Some(Conflict);
      } else if order.Some? && order.value in orders && !Receivable(orders[order.value].status) {
        err := Some(InvalidArgument);
      } else if !valid {
        err := Some(InvalidArgument);
      } else {
        ghost var before := Tables();
        receipts := receipts[id := Receipt(order, status, critical, released, lines, false, 0)];
        RecognizePOSpendOnReceipt(id, status == Posted);
        assert Ok(Tables()) == CreateReceipt(Floored, before, id, order, status, lines, critical, released);
        err := None;
      }
    }

    method UpdateGrn(id: Id, p: ReceiptPatch) returns (err: Option<Error>)
      modifies this
      ensures Did(old(Tables()), OpUpdateReceipt(id, p), Tables(), err)
    {
      var tx := Tables();
      err := PatchGrn(id, p);
      if err.Some? {
        Rollback(tx);
      } else {
        RecognizePOSpendOnReceipt(id, receipts[id].status == Posted);
      }
    }

    // The row is rewritten before the hold is tested on it.
    method PatchGrn(id: Id, p: ReceiptPatch) returns (err: Option<Error>)
      modifies `receipts
      ensures err == if id !in old(receipts) then Some(NotFound)
                     else
                       var g := old(receipts)[id];
                       var n := PatchedReceipt(g, p);
                       if HeldByQC(n.status, n.critical, n.released) then Some(Conflict)
                       else if p.lines.Some? && (g.recognized || !ValidLines(p.lines.value)) then Some(InvalidArgument)
                       else None
      ensures err.None? ==> receipts == old(receipts)[id := PatchedReceipt(old(receipts)[id], p)]
    {
      if id !in receipts {
        return Some(NotFound);
      }
      var g := receipts[id];
      var n := g.(status := p.status.GetOr(g.status), critical := p.critical.GetOr(g.critical),
                  released := p.released.GetOr(g.released));
      if p.order.Some? {
        n := n.(order := p.order);
      }
      receipts := receipts[id := n];
      if HeldByQC(n.status, n.critical, n.released) {
        return Some(Conflict);
      }
      if p.lines.Some? {
        var _, valid := TotalOf(p.lines.value);
        if g.recognized || !valid {
          return Some(InvalidArgument);
        }
        n := n.(lines := p.lines.value);
        receipts := receipts[id := n];
      }
      err := None;
      assert n == PatchedReceipt(g, p);
      assert receipts == old(receipts)[id := n];
    }

    method DeleteGrn(id: Id) returns (err: Option<Error>)
      modifies this
      ensures Did(old(Tables()), OpDeleteReceipt(id), Tables(), err)
    {
      if id !in receipts {
        err := Some(NotFound);
      } else {
        RecognizePOSpendOnReceipt(id, false);
        receipts := receipts - {id};
        err := None;
      }
    }
  }
}
