/** When edits of orders and movements of goods are accepted and what they write,
  * read off the rows, and who can take an order off hold.
  */
module LedgerOrderRules {
  import opened Values
  import opened LedgerModel
  import opened LedgerRules
  import opened LedgerRuns

  // Not cleared for receiving.
  predicate OnHold(st: OrderStatus) {
    st == OrderDraft || st == OrderPending || st == OrderRejected || st == OrderCancelled
  }

  predicate Over(st: OrderStatus) {
    st == OrderRejected || st == OrderCancelled
  }

  predicate Creator(o: Order, actor: Actor) {
    actor.Named? && actor == o.creator
  }

  // One budget's `committed` moves to a new value; every other row stays.
  predicate OnlyCommitted(s: State, t: State, budget: Option<Id>, committed: int) {
    && t.budgets.Keys == s.budgets.Keys
    && forall b :: b in s.budgets ==>
         var was, now := s.budgets[b], t.budgets[b];
         if budget == Some(b)
         then now == was.(committed := committed, remaining := was.allotted - was.preCommitted - committed - was.spent)
         else now == was
  }

  function CommittedOn(s: State, budget: Option<Id>): int {
    if budget.Some? && budget.value in s.budgets then s.budgets[budget.value].committed else 0
  }

  /* ---- edits of orders ---- */

  function NewTotal(o: Order, p: OrderPatch): int {
    if p.lines.Some? then LinesValue(p.lines.value) else o.total
  }

  function NewStatus(o: Order, p: OrderPatch): OrderStatus {
    if p.status.Some? then p.status.value else o.status
  }

  // A new total of an order that goes on holding its budget: not below what was
  // received, and an increase only as far as the allocation goes.
  predicate TotalAllowed(s: State, o: Order, total: int) {
    total != o.total ==>
      && total >= o.recognized
      && (o.budget.Some? && o.budget.value in s.budgets && total > o.total ==>
            var b := s.budgets[o.budget.value];
            b.committed + (total - o.total) + b.spent <= b.allotted)
  }

  // The creator of an order cannot approve it.
  lemma OrderUpdateAccepted(s: State, id: Id, p: OrderPatch)
    ensures var op := OpUpdateOrder(id, p);
            Accepted(s, op) <==>
              && id in s.orders
              && var o := s.orders[id];
              && !(p.status == Some(OrderApproved) && Creator(o, p.actor))
              && (p.lines.Some? ==> p.lines.value != [] && AllValid(p.lines.value))
              && (p.budget.Some? ==> p.budget.value in s.budgets)
              && (p.requisition.Some? && p.requisition.value.Some? ==> p.requisition.value.value in s.requisitions)
              && (o.encumbered && o.budget.Some? && !Over(NewStatus(o, p)) ==> TotalAllowed(s, o, NewTotal(o, p)))
  {}

  // The row as patched; replaced lines start with nothing received. Ending an
  // encumbered order clears the flag.
  predicate PatchWritten(o: Order, p: OrderPatch, n: Order) {
    && n.creator == o.creator && n.recognized == o.recognized
    && n.status == NewStatus(o, p) && n.total == NewTotal(o, p)
    && n.budget == (if p.budget.Some? then p.budget else o.budget)
    && n.requisition == (if p.requisition.Some? then p.requisition.value else o.requisition)
    && (if p.lines.Some? then FreshLines(n.lines, p.lines.value) else n.lines == o.lines)
    && n.encumbered == (o.encumbered && !(o.budget.Some? && Over(NewStatus(o, p))))
  }

  lemma OrderUpdateWritesRow(s: State, id: Id, p: OrderPatch)
    requires UpdateOrder(Floored, s, id, p).Ok? && id in s.orders
    ensures var t := UpdateOrder(Floored, s, id, p).value;
            && id in t.orders && PatchWritten(s.orders[id], p, t.orders[id])
            && t == s.(orders := s.orders[id := t.orders[id]], budgets := t.budgets)
  {}

  // What ending the order releases, or its new total adds, on its old budget.
  function CommittedAfter(o: Order, p: OrderPatch, committed: int): int {
    if Over(NewStatus(o, p)) then
      if o.total > o.recognized then Least(committed - (o.total - o.recognized)) else committed
    else if NewTotal(o, p) != o.total then Least(committed + NewTotal(o, p) - o.total)
    else committed
  }

  lemma OrderUpdateWritesBudget(s: State, id: Id, p: OrderPatch)
    requires UpdateOrder(Floored, s, id, p).Ok? && id in s.orders && RemaindersSound(s)
    ensures var t := UpdateOrder(Floored, s, id, p).value;
            var o := s.orders[id];
            if o.encumbered then OnlyCommitted(s, t, o.budget, CommittedAfter(o, p, CommittedOn(s, o.budget)))
            else t.budgets == s.budgets
  {}

  // Rows whose remainder is the arithmetic one.
  predicate RemaindersSound(s: State) {
    forall b :: b in s.budgets ==>
      s.budgets[b].remaining == Left(s.budgets[b]) && s.budgets[b].committed >= 0
  }

  lemma OrderUpdated(s: State, id: Id, p: OrderPatch)
    requires Accepted(s, OpUpdateOrder(id, p)) && RemaindersSound(s)
    ensures var t := LedgerRules.Next(s, OpUpdateOrder(id, p));
            && id in s.orders && id in t.orders && PatchWritten(s.orders[id], p, t.orders[id])
            && t == s.(orders := s.orders[id := t.orders[id]], budgets := t.budgets)
            && var o := s.orders[id];
            if o.encumbered then OnlyCommitted(s, t, o.budget, CommittedAfter(o, p, CommittedOn(s, o.budget)))
            else t.budgets == s.budgets
  {
    OrderUpdateAccepted(s, id, p);
    OrderUpdateWritesRow(s, id, p);
    OrderUpdateWritesBudget(s, id, p);
  }

  lemma OrderDeleted(s: State, id: Id)
    requires RemaindersSound(s)
    ensures var op := OpDeleteOrder(id);
            && (Accepted(s, op) <==> id in s.orders)
            && (Accepted(s, op) ==>
                  var t := LedgerRules.Next(s, op);
                  var o := s.orders[id];
                  && t == s.(orders := s.orders - {id}, budgets := t.budgets)
                  && if o.encumbered && o.total > o.recognized
                     then OnlyCommitted(s, t, o.budget, Least(CommittedOn(s, o.budget) - (o.total - o.recognized)))
                     else t.budgets == s.budgets)
  {}

  /* ---- goods receipts ---- */

  // The QC hold: a quality-critical receipt may not be posted, in any spelling,
  // before it is released.
  predicate QCRefuses(status: ReceiptStatus, critical: bool, released: bool) {
    critical && !released && (status == Posted || status == PostedOtherCase)
  }

  // A receipt may not be drawn up against an order that is not cleared.
  lemma ReceiptCreateAccepted(s: State, id: Id, order: Option<Id>, status: ReceiptStatus, lines: seq<Line>,
                              critical: bool, released: bool)
    ensures Accepted(s, OpCreateReceipt(id, order, status, lines, critical, released)) <==>
              && id !in s.receipts && AllValid(lines) && !QCRefuses(status, critical, released)
              && (order.Some? && order.value in s.orders ==>
                    var st := s.orders[order.value].status;
                    st != OrderDraft && st != OrderPending && st != OrderRejected && st != OrderCancelled)
  {}

  // The patched row is what the hold is judged on; lines of a recognized receipt
  // stay.
  lemma ReceiptUpdateAccepted(s: State, id: Id, p: ReceiptPatch)
    ensures Accepted(s, OpUpdateReceipt(id, p)) <==>
              && id in s.receipts
              && var g := s.receipts[id];
              && !QCRefuses(if p.status.Some? then p.status.value else g.status,
                            if p.critical.Some? then p.critical.value else g.critical,
                            if p.released.Some? then p.released.value else g.released)
              && (p.lines.Some? ==> !g.recognized && AllValid(p.lines.value))
  {}

  lemma ReceiptDeleteAccepted(s: State, id: Id)
    ensures Accepted(s, OpDeleteReceipt(id)) <==> id in s.receipts
  {}

  // The status goods movement gives: none to an order without lines or on hold.
  predicate StatusOf(lines: seq<OrderLine>, was: OrderStatus, now: OrderStatus) {
    if lines == [] || OnHold(was) then now == was
    else
      var full := forall i :: 0 <= i < |lines| ==> lines[i].received >= lines[i].qty;
      var some := exists i :: 0 <= i < |lines| && lines[i].received > 0;
      now == if full then Received else if some then PartiallyReceived else OrderApproved
  }

  // The order has recognized `recognized`, and every line has received what
  // `received` says of it; nothing else of the row but its status moves.
  predicate OrderMoved(o: Order, n: Order, recognized: int, received: OrderLine -> int) {
    && n == o.(recognized := recognized, lines := n.lines, status := n.status)
    && |n.lines| == |o.lines|
    && (forall i :: 0 <= i < |o.lines| ==> n.lines[i] == o.lines[i].(received := received(o.lines[i])))
    && StatusOf(n.lines, o.status, n.status)
  }

  predicate BudgetMoved(s: State, t: State, budget: Option<Id>, committed: int, spent: int) {
    && t.budgets.Keys == s.budgets.Keys
    && forall b :: b in s.budgets ==>
         var was, now := s.budgets[b], t.budgets[b];
         if budget == Some(b)
         then now == was.(committed := committed, spent := spent,
                          remaining := was.allotted - was.preCommitted - committed - spent)
         else now == was
  }

  function SpentOn(s: State, budget: Option<Id>): int {
    if budget.Some? && budget.value in s.budgets then s.budgets[budget.value].spent else 0
  }

  // `row` of order p takes `amt` from committed to spent.
  predicate Takes(s: State, t: State, id: Id, row: Receipt, p: Id, amt: int) {
    && p in s.orders && p in t.orders
    && t.receipts == s.receipts[id := row.(recognized := true, amount := amt)]
    && t.orders == s.orders[p := t.orders[p]]
    && OrderMoved(s.orders[p], t.orders[p], s.orders[p].recognized + amt,
                  (l: OrderLine) => l.received + QtyOf(row.lines, l.item))
    && BudgetMoved(s, t, s.orders[p].budget,
                   Least(CommittedOn(s, s.orders[p].budget) - amt), SpentOn(s, s.orders[p].budget) + amt)
  }

  // Posting `row`: its value, or all that is open if it has none or is worth more,
  // goes from committed to spent.
  predicate Posts(s: State, t: State, id: Id, row: Receipt) {
    t.requisitions == s.requisitions && t.threshold == s.threshold &&
    if row.order.None? || row.order.value !in s.orders then
      t.orders == s.orders && t.budgets == s.budgets && t.receipts == s.receipts[id := row]
    else
      var open := s.orders[row.order.value].total - s.orders[row.order.value].recognized;
      var value := LinesValue(row.lines);
      if open <= 0 then
        && t.orders == s.orders && t.budgets == s.budgets
        && t.receipts == s.receipts[id := row.(recognized := true, amount := 0)]
      else
        Takes(s, t, id, row, row.order.value, if 0 < value <= open then value else open)
  }

  // Reversing `row`: what it recorded goes back.
  predicate Unposts(s: State, t: State, id: Id, row: Receipt) {
    && t.requisitions == s.requisitions && t.threshold == s.threshold
    && t.receipts == s.receipts[id := row.(recognized := false, amount := 0)]
    && if row.order.None? || row.order.value !in s.orders || row.amount <= 0 then
         t.orders == s.orders && t.budgets == s.budgets
       else
         var o := s.orders[row.order.value];
         && row.order.value in t.orders && t.orders == s.orders[row.order.value := t.orders[row.order.value]]
         && OrderMoved(o, t.orders[row.order.value], Least(o.recognized - row.amount),
                       (l: OrderLine) => Least(l.received - QtyOf(row.lines, l.item)))
         && BudgetMoved(s, t, o.budget, CommittedOn(s, o.budget) + row.amount, Least(SpentOn(s, o.budget) - row.amount))
  }

  lemma AcceptMoves(o: Order, amt: int, gl: seq<Line>)
    ensures OrderMoved(o, Restated(o.(recognized := o.recognized + amt, lines := Accept(o.lines, gl))),
                       o.recognized + amt, (l: OrderLine) => l.received + QtyOf(gl, l.item))
  {}

  lemma WithdrawMoves(o: Order, amt: int, gl: seq<Line>)
    ensures OrderMoved(o, Restated(o.(recognized := Least(o.recognized - amt),
                                      lines := Withdraw(Floored, o.lines, gl))),
                       Least(o.recognized - amt), (l: OrderLine) => Least(l.received - QtyOf(gl, l.item)))
  {}

  lemma PostingWrites(s: State, id: Id, row: Receipt)
    requires row.order.Some? && row.order.value in s.orders
    requires s.orders[row.order.value].total > s.orders[row.order.value].recognized
    ensures var t := Recognize(Floored, PutReceipt(s, id, row), id);
            var p := row.order.value;
            var o := s.orders[p];
            var open := o.total - o.recognized;
            var value := LinesValue(row.lines);
            var amt := if 0 < value <= open then value else open;
            && t.requisitions == s.requisitions && t.threshold == s.threshold
            && t.receipts == s.receipts[id := row.(recognized := true, amount := amt)]
            && t.orders == s.orders[p :=
                 Restated(o.(recognized := o.recognized + amt, lines := Accept(o.lines, row.lines)))]
            && BudgetMoved(s, t, o.budget, Least(CommittedOn(s, o.budget) - amt), SpentOn(s, o.budget) + amt)
  {
    var t := Recognize(Floored, PutReceipt(s, id, row), id);
    assert s.receipts[id := row][id := t.receipts[id]] == s.receipts[id := t.receipts[id]];
  }

  lemma UnpostingWrites(s: State, id: Id, row: Receipt)
    requires row.order.Some? && row.order.value in s.orders && row.amount > 0
    ensures var t := Unrecognize(Floored, PutReceipt(s, id, row), id);
            var p := row.order.value;
            var o := s.orders[p];
            var recognized := Least(o.recognized - row.amount);
            && t.requisitions == s.requisitions && t.threshold == s.threshold
            && t.receipts == s.receipts[id := row.(recognized := false, amount := 0)]
            && t.orders == s.orders[p :=
                 Restated(o.(recognized := recognized, lines := Withdraw(Floored, o.lines, row.lines)))]
            && BudgetMoved(s, t, o.budget, CommittedOn(s, o.budget) + row.amount,
                           Least(SpentOn(s, o.budget) - row.amount))
  {
    var t := Unrecognize(Floored, PutReceipt(s, id, row), id);
    assert s.receipts[id := row][id := t.receipts[id]] == s.receipts[id := t.receipts[id]];
  }

  lemma TakesFrom(s: State, t: State, id: Id, row: Receipt, p: Id, amt: int, n: Order)
    requires p in s.orders && t.orders == s.orders[p := n]
    requires t.receipts == s.receipts[id := row.(recognized := true, amount := amt)]
    requires OrderMoved(s.orders[p], n, s.orders[p].recognized + amt,
                        (l: OrderLine) => l.received + QtyOf(row.lines, l.item))
    requires BudgetMoved(s, t, s.orders[p].budget,
                         Least(CommittedOn(s, s.orders[p].budget) - amt), SpentOn(s, s.orders[p].budget) + amt)
    ensures Takes(s, t, id, row, p, amt)
  {}

  lemma PostingTakes(s: State, id: Id, row: Receipt, p: Id, amt: int)
    requires row.order == Some(p) && p in s.orders && s.orders[p].total > s.orders[p].recognized
    requires var open, value := s.orders[p].total - s.orders[p].recognized, LinesValue(row.lines);
             amt == if 0 < value <= open then value else open
    ensures var t := Recognize(Floored, PutReceipt(s, id, row), id);
            Takes(s, t, id, row, p, amt) && t.requisitions == s.requisitions && t.threshold == s.threshold
  {
    var o := s.orders[p];
    var n := Restated(o.(recognized := o.recognized + amt, lines := Accept(o.lines, row.lines)));
    PostingWrites(s, id, row);
    AcceptMoves(o, amt, row.lines);
    TakesFrom(s, Recognize(Floored, PutReceipt(s, id, row), id), id, row, p, amt, n);
  }

  lemma RecognizePosts(s: State, id: Id, row: Receipt)
    ensures Posts(s, Recognize(Floored, PutReceipt(s, id, row), id), id, row)
  {
    if row.order.Some? && row.order.value in s.orders {
      var o := s.orders[row.order.value];
      var open, value := o.total - o.recognized, LinesValue(row.lines);
      if open > 0 {
        PostingTakes(s, id, row, row.order.value, if 0 < value <= open then value else open);
      } else {
        var empty := row.(recognized := true, amount := 0);
        assert s.receipts[id := row][id := empty] == s.receipts[id := empty];
      }
    }
  }

  lemma UnrecognizeUnposts(s: State, id: Id, row: Receipt)
    ensures Unposts(s, Unrecognize(Floored, PutReceipt(s, id, row), id), id, row)
  {
    if row.order.Some? && row.order.value in s.orders && row.amount > 0 {
      UnpostingWrites(s, id, row);
      WithdrawMoves(s.orders[row.order.value], row.amount, row.lines);
    } else {
      var clean := row.(recognized := false, amount := 0);
      assert s.receipts[id := row][id := clean] == s.receipts[id := clean];
    }
  }

  lemma ReceiptCreated(s: State, id: Id, order: Option<Id>, status: ReceiptStatus, lines: seq<Line>,
                       critical: bool, released: bool)
    requires Accepted(s, OpCreateReceipt(id, order, status, lines, critical, released))
    ensures var t := LedgerRules.Next(s, OpCreateReceipt(id, order, status, lines, critical, released));
            var row := Receipt(order, status, critical, released, lines, false, 0);
            if status == Posted then Posts(s, t, id, row) else t == s.(receipts := s.receipts[id := row])
  {
    RecognizePosts(s, id, Receipt(order, status, critical, released, lines, false, 0));
  }

  predicate ReceiptPatched(g: Receipt, p: ReceiptPatch, n: Receipt) {
    && n.recognized == g.recognized && n.amount == g.amount
    && n.order == (if p.order.Some? then p.order else g.order)
    && n.status == (if p.status.Some? then p.status.value else g.status)
    && n.critical == (if p.critical.Some? then p.critical.value else g.critical)
    && n.released == (if p.released.Some? then p.released.value else g.released)
    && n.lines == (if p.lines.Some? then p.lines.value else g.lines)
  }

  // A patch posts a receipt not recognized yet, reverses one that is posted no
  // longer, and otherwise writes the row alone.
  lemma ReceiptUpdated(s: State, id: Id, p: ReceiptPatch, n: Receipt)
    requires Accepted(s, OpUpdateReceipt(id, p))
    requires id in s.receipts && ReceiptPatched(s.receipts[id], p, n)
    ensures var t := LedgerRules.Next(s, OpUpdateReceipt(id, p));
            if !n.recognized && n.status == Posted then Posts(s, t, id, n)
            else if n.recognized && n.status != Posted then Unposts(s, t, id, n)
            else t == s.(receipts := s.receipts[id := n])
  {
    assert PatchedReceipt(s.receipts[id], p) == n;
    RecognizePosts(s, id, n);
    UnrecognizeUnposts(s, id, n);
  }

  lemma ReceiptDeleted(s: State, id: Id)
    requires id in s.receipts
    ensures var t := LedgerRules.Next(s, OpDeleteReceipt(id));
            if s.receipts[id].recognized
            then exists u :: Unposts(s, u, id, s.receipts[id]) && t == u.(receipts := s.receipts - {id})
            else t == s.(receipts := s.receipts - {id})
  {
    assert PutReceipt(s, id, s.receipts[id]) == s;
    if s.receipts[id].recognized {
      UnrecognizeUnposts(s, id, s.receipts[id]);
      var u := Unrecognize(Floored, s, id);
      assert u.receipts - {id} == s.receipts - {id};
      assert Unposts(s, u, id, s.receipts[id]);
    }
  }

  /* ---- who takes an order off hold ---- */

  lemma RaisingKeepsOrders(s: State, n: Id, budget: Option<Id>, req: Option<Id>, total: int, rows: seq<OrderLine>,
                           creator: Actor, id: Id)
    requires id in s.orders && RaiseOrder(Floored, s, n, budget, req, total, rows, creator).Ok?
    ensures var t := RaiseOrder(Floored, s, n, budget, req, total, rows, creator).value;
            id in t.orders && t.orders[id] == s.orders[id]
  {}

  lemma MovementKeepsHold(s: State, g: Id, posted: bool, id: Id)
    requires id in s.orders && g in s.receipts
    ensures var t := RecognizeOnReceipt(Floored, s, g, posted);
            && id in t.orders && t.orders[id].creator == s.orders[id].creator
            && (OnHold(s.orders[id].status) ==> t.orders[id].status == s.orders[id].status)
  {}

  // The transaction takes the order off hold: it is an edit that says so, and one
  // that says approved is not by the creator.
  predicate Releases(s: State, op: Op, id: Id) {
    && op.OpUpdateOrder? && op.id == id && Accepted(s, op) && id in s.orders && OnHold(s.orders[id].status)
    && op.orderPatch.status.Some? && !OnHold(op.orderPatch.status.value)
    && (op.orderPatch.status.value == OrderApproved ==> !Creator(s.orders[id], op.orderPatch.actor))
  }

  lemma HoldStep(s: State, op: Op, id: Id)
    requires id in s.orders && id in LedgerRules.Next(s, op).orders
    ensures var t := LedgerRules.Next(s, op);
            && t.orders[id].creator == s.orders[id].creator
            && (OnHold(s.orders[id].status) && !OnHold(t.orders[id].status) ==> Releases(s, op, id))
  {
    if !Accepted(s, op) {
      return;
    }
    match op
    case OpCreateOrder(n, budget, req, lines, creator) =>
      RaisingKeepsOrders(s, n, budget, req, LinesValue(lines), OrderLines(lines), creator, id);
    case OpAwardOrder(n, budget, req, amount, creator) =>
      RaisingKeepsOrders(s, n, AwardBudget(s, budget, req), req, amount, [], creator, id);
    case OpUpdateOrder(n, p) =>
      OrderUpdateAccepted(s, n, p);
      OrderUpdateWritesRow(s, n, p);
    case OpCreateReceipt(g, order, status, lines, critical, released) =>
      var row := Receipt(order, status, critical, released, lines, false, 0);
      MovementKeepsHold(PutReceipt(s, g, row), g, status == Posted, id);
    case OpUpdateReceipt(g, p) =>
      var n := PatchedReceipt(s.receipts[g], p);
      MovementKeepsHold(PutReceipt(s, g, n), g, n.status == Posted, id);
    case OpDeleteReceipt(g) => MovementKeepsHold(s, g, false, id);
    case _ =>
  }

  ghost function Holds(id: Id): State -> bool { (s: State) => id in s.orders }

  // Over any run in which the order stays: if it is on hold before and not after,
  // some edit took it off, and one that approved it was not by its creator.
  lemma {:induction false} OffHoldByAnEdit(s: State, ops: seq<Op>, id: Id)
    requires Throughout(s, ops, Holds(id)) && OnHold(s.orders[id].status)
    ensures id in Run(Floored, s, ops).orders
    ensures !OnHold(Run(Floored, s, ops).orders[id].status) ==>
            exists k :: 0 <= k < |ops| && Releases(Run(Floored, s, ops[..k]), ops[k], id)
                        && Run(Floored, s, ops[..k]).orders[id].creator == s.orders[id].creator
    decreases |ops|
  {
    if ops != [] {
      var t := LedgerRules.Next(s, ops[0]);
      assert Throughout(t, ops[1..], Holds(id)) && Holds(id)(t);
      HoldStep(s, ops[0], id);
      if OnHold(t.orders[id].status) {
        OffHoldByAnEdit(t, ops[1..], id);
        if !OnHold(Run(Floored, s, ops).orders[id].status) {
          var k :| 0 <= k < |ops[1..]| && Releases(Run(Floored, t, ops[1..][..k]), ops[1..][k], id)
                   && Run(Floored, t, ops[1..][..k]).orders[id].creator == t.orders[id].creator;
          assert ops[..k + 1][1..] == ops[1..][..k];
          assert Releases(Run(Floored, s, ops[..k + 1]), ops[k + 1], id);
        }
      } else {
        assert ops[..0] == [];
        assert Releases(Run(Floored, s, ops[..0]), ops[0], id);
        KeepsOrderAlong(t, ops[1..], id);
      }
    }
  }

  lemma {:induction false} KeepsOrderAlong(s: State, ops: seq<Op>, id: Id)
    requires Throughout(s, ops, Holds(id))
    ensures id in Run(Floored, s, ops).orders
    decreases |ops|
  {
    assert Holds(id)(s);
    if ops != [] {
      KeepsOrderAlong(LedgerRules.Next(s, ops[0]), ops[1..], id);
    }
  }

  // An order raised at or over the threshold starts on hold.
  lemma RaisedOnHold(s: State, id: Id, budget: Option<Id>, req: Option<Id>, lines: seq<Line>, creator: Actor)
    requires Accepted(s, OpCreateOrder(id, budget, req, lines, creator))
    ensures var t := LedgerRules.Next(s, OpCreateOrder(id, budget, req, lines, creator));
            id in t.orders && (OnHold(t.orders[id].status) <==> s.threshold <= 0 || LinesValue(lines) >= s.threshold)
  {
    OrderCreated(s, id, budget, req, lines, creator);
  }

  // What the creator can do alone: any edit but an approval takes the order off
  // hold, and goods movement may call it approved afterwards.
  lemma CreatorReleasesIff(s: State, id: Id, p: OrderPatch)
    requires Accepted(s, OpUpdateOrder(id, p))
    requires id in s.orders && OnHold(s.orders[id].status) && Creator(s.orders[id], p.actor)
    ensures var t := LedgerRules.Next(s, OpUpdateOrder(id, p));
            && id in t.orders
            && (!OnHold(t.orders[id].status) <==>
                  || p.status == Some(OrderOrdered) || p.status == Some(PartiallyReceived)
                  || p.status == Some(Received) || p.status == Some(OrderClosed))
  {
    OrderUpdateAccepted(s, id, p);
    OrderUpdateWritesRow(s, id, p);
  }
}
