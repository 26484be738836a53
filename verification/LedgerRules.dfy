/** When each transaction is accepted and what it writes, read off the rows: no
  * statement here goes through the helper functions of the model.
  */
module LedgerRules {
  import opened Values
  import opened LedgerModel
  import opened LedgerBooks
  import opened LedgerTheorems
  import opened LedgerRuns

  function Next(s: State, op: Op): State {
    Step(Floored, s, op)
  }

  predicate Accepted(s: State, op: Op) {
    Apply(Floored, s, op).Ok?
  }

  // What is left of a budget after its three stages.
  function Left(b: Budget): int {
    b.allotted - b.preCommitted - b.committed - b.spent
  }

  function Least(x: int): int {
    if x < 0 then 0 else x
  }

  predicate OnlyBudgets(s: State, t: State) {
    t == s.(budgets := t.budgets)
  }

  predicate SameOtherBudgets(s: State, t: State, b: Id) {
    t.budgets.Keys == s.budgets.Keys && forall c :: c in s.budgets && c != b ==> t.budgets[c] == s.budgets[c]
  }

  /* ---- budgets ---- */

  lemma BudgetCreated(s: State, id: Id, allotted: int, period: nat, end: Option<int>)
    ensures var op := OpCreateBudget(id, allotted, period, end);
            && (Accepted(s, op) <==> id !in s.budgets)
            && (Accepted(s, op) ==>
                  Next(s, op) == s.(budgets :=
                    s.budgets[id := Budget(allotted, 0, 0, 0, allotted, period, end, false)]))
  {}

  lemma BudgetUpdated(s: State, id: Id, allotted: Option<int>, period: Option<nat>)
    ensures var op := OpUpdateBudget(id, allotted, period);
            && (Accepted(s, op) <==> id in s.budgets)
            && (Accepted(s, op) ==>
                  var t := Next(s, op);
                  && OnlyBudgets(s, t) && SameOtherBudgets(s, t, id)
                  && var b, c := s.budgets[id], t.budgets[id];
                  && c == b.(allotted := c.allotted, period := c.period, remaining := Left(c))
                  && c.allotted == (if allotted.Some? then allotted.value else b.allotted)
                  && c.period == (if period.Some? then period.value else b.period))
  {}

  lemma BudgetDeleted(s: State, id: Id)
    ensures var op := OpDeleteBudget(id);
            && (Accepted(s, op) <==>
                  && id in s.budgets
                  && (forall r :: r in s.requisitions ==> s.requisitions[r].budget != Some(id))
                  && (forall p :: p in s.orders ==> s.orders[p].budget != Some(id)))
            && (Accepted(s, op) ==> Next(s, op) == s.(budgets := s.budgets - {id}))
  {}

  // A close takes the open budgets of the period and the budget named, if any, and
  // with the due test those whose period ended before today.
  lemma PeriodClosed(s: State, policy: Policy, f: CloseFilter, today: int)
    ensures var op := OpCloseBudgetPeriod(policy, f, today);
            var t := Next(s, op);
            && Accepted(s, op) && OnlyBudgets(s, t) && t.budgets.Keys == s.budgets.Keys
            && forall b :: b in s.budgets ==>
                 var was, now := s.budgets[b], t.budgets[b];
                 if !was.closed && (f.period == None || f.period == Some(was.period))
                    && (f.budget == None || f.budget == Some(b))
                    && (f.dueOnly ==> was.periodEnd.Some? && was.periodEnd.value < today)
                 then
                   && now.closed && now.spent == was.spent && now.allotted == was.allotted
                   && now.period == was.period && now.periodEnd == was.periodEnd
                   && (policy.Carry? ==> now == was.(closed := true))
                   && (policy.Lapse? ==>
                         now.preCommitted == 0 && now.committed == 0 && now.remaining == was.allotted - was.spent)
                 else now == was
  {}

  /* ---- requisitions ---- */

  lemma RequisitionCreated(s: State, id: Id, total: int, budget: Option<Id>, requester: Actor,
                           status: RequisitionStatus)
    ensures var op := OpCreateRequisition(id, total, budget, requester, status);
            && (Accepted(s, op) <==> id !in s.requisitions && (budget.Some? ==> budget.value in s.budgets))
            && (Accepted(s, op) ==> Next(s, op) == s.(requisitions :=
                  s.requisitions[id := Requisition(total, budget, requester, status, false, false)]))
  {}

  // A patch may not approve, reject or order, and touches neither flag nor budget.
  lemma RequisitionUpdated(s: State, id: Id, total: Option<int>, budget: Option<Id>, status: Option<RequisitionStatus>)
    ensures var op := OpUpdateRequisition(id, total, budget, status);
            && (Accepted(s, op) <==>
                  && status != Some(Approved) && status != Some(Rejected) && status != Some(Ordered)
                  && id in s.requisitions && (budget.Some? ==> budget.value in s.budgets))
            && (Accepted(s, op) ==>
                  var t := Next(s, op);
                  && id in t.requisitions
                  && var r, n := s.requisitions[id], t.requisitions[id];
                  && t == s.(requisitions := s.requisitions[id := n])
                  && n == r.(total := n.total, budget := n.budget, status := n.status)
                  && n.total == (if total.Some? then total.value else r.total)
                  && n.budget == (if budget.Some? then budget else r.budget)
                  && n.status == (if status.Some? then status.value else r.status))
  {}

  // The requisition asks for money it has not reserved, from a budget that exists.
  predicate AsksForMoney(s: State, id: Id) {
    && id in s.requisitions
    && var r := s.requisitions[id];
    !r.encumbered && r.total > 0 && r.budget.Some? && r.budget.value in s.budgets
  }

  // An approval that reserves is accepted exactly when what is left covers it.
  lemma ApprovalReserves(s: State, id: Id, status: RequisitionStatus)
    requires AsksForMoney(s, id)
    ensures var op := OpSettleRequisition(id, OutcomeApproved, status);
            var r := s.requisitions[id];
            var b := s.budgets[r.budget.value];
            && (Accepted(s, op) <==> r.total <= b.allotted - b.preCommitted - b.committed - b.spent)
            && (Accepted(s, op) ==>
                  Next(s, op) == s.(
                    requisitions := s.requisitions[id := r.(status := status, encumbered := true)],
                    budgets := s.budgets[r.budget.value := b.(preCommitted := b.preCommitted + r.total,
                                                              remaining := Left(b) - r.total)]))
  {}

  lemma ApprovalWithoutReservation(s: State, id: Id, status: RequisitionStatus)
    requires !AsksForMoney(s, id)
    ensures var op := OpSettleRequisition(id, OutcomeApproved, status);
            && (Accepted(s, op) <==> id in s.requisitions)
            && (Accepted(s, op) ==>
                  Next(s, op) == s.(requisitions := s.requisitions[id := s.requisitions[id].(status := status)]))
  {}

  // A rejection is never refused. It clears the reservation, and gives the money
  // back unless an order liquidated it.
  lemma RejectionReleases(s: State, id: Id, status: RequisitionStatus)
    requires id in s.requisitions
    ensures var op := OpSettleRequisition(id, OutcomeRejected, status);
            var t := Next(s, op);
            var r := s.requisitions[id];
            var held := r.encumbered && r.total > 0 && r.budget.Some?;
            && Accepted(s, op)
            && t.requisitions == s.requisitions[id := r.(status := status, encumbered := r.encumbered && !held)]
            && t.orders == s.orders && t.receipts == s.receipts && t.threshold == s.threshold
            && if held && !r.preReleased && r.budget.value in s.budgets then
                 var b := s.budgets[r.budget.value];
                 var pre := Least(b.preCommitted - r.total);
                 t.budgets == s.budgets[r.budget.value := b.(preCommitted := pre,
                                                             remaining := b.allotted - pre - b.committed - b.spent)]
               else t.budgets == s.budgets
  {}

  lemma RequisitionDeleted(s: State, id: Id)
    ensures var op := OpDeleteRequisition(id);
            && (Accepted(s, op) <==>
                  id in s.requisitions && forall p :: p in s.orders ==> s.orders[p].requisition != Some(id))
            && (Accepted(s, op) ==>
                  var t := Next(s, op);
                  var r := s.requisitions[id];
                  && t == s.(budgets := t.budgets, requisitions := s.requisitions - {id})
                  && if r.encumbered && !r.preReleased && r.total > 0
                        && r.budget.Some? && r.budget.value in s.budgets
                     then
                       && SameOtherBudgets(s, t, r.budget.value)
                       && var b, c := s.budgets[r.budget.value], t.budgets[r.budget.value];
                       c == b.(preCommitted := Least(b.preCommitted - r.total), remaining := Left(c))
                     else t.budgets == s.budgets)
  {}

  // Over any run from sound rows: an approval that changes a budget leaves it room.
  lemma ApprovalLeavesRoom(s: State, ops: seq<Op>, id: Id, status: RequisitionStatus, b: Id)
    requires RowsSound(s)
    requires var u := Run(Floored, s, ops);
             var t := Next(u, OpSettleRequisition(id, OutcomeApproved, status));
             b in u.budgets && b in t.budgets && t.budgets[b] != u.budgets[b]
    ensures var u := Run(Floored, s, ops);
            var t := Next(u, OpSettleRequisition(id, OutcomeApproved, status));
            && id in u.requisitions && u.requisitions[id].budget == Some(b)
            && t.budgets[b].remaining == u.budgets[b].remaining - u.requisitions[id].total >= 0
  {
    RowsSoundRun(s, ops);
    var u := Run(Floored, s, ops);
    assert RowSound(u.budgets[b]);
    if AsksForMoney(u, id) {
      ApprovalReserves(u, id, status);
    } else {
      ApprovalWithoutReservation(u, id, status);
    }
  }

  lemma {:induction false} RowsSoundRun(s: State, ops: seq<Op>)
    requires RowsSound(s)
    ensures RowsSound(Run(Floored, s, ops))
    decreases |ops|
  {
    if ops != [] {
      RowsSoundAlways(s, ops[0]);
      RowsSoundRun(Next(s, ops[0]), ops[1..]);
    }
  }

  /* ---- lines ---- */

  // A value is the sum over lines: of one line, and of two runs of lines.
  lemma {:induction false} ValueAdds(a: seq<Line>, b: seq<Line>)
    ensures LinesValue([]) == 0
    ensures forall l: Line :: LinesValue([l]) == l.qty * l.price
    ensures LinesValue(a + b) == LinesValue(a) + LinesValue(b)
    decreases |b|
  {
    forall l: Line ensures LinesValue([l]) == l.qty * l.price {
      assert [l][..0] == [];
    }
    if b == [] {
      assert a + b == a;
    } else {
      var front := b[..|b| - 1];
      assert (a + b)[..|a + b| - 1] == a + front;
      ValueAdds(a, front);
    }
  }

  lemma {:induction false} QuantityAdds(a: seq<Line>, b: seq<Line>, item: Id)
    ensures QtyOf([], item) == 0
    ensures forall l: Line :: QtyOf([l], item) == if l.item == item then l.qty else 0
    ensures QtyOf(a + b, item) == QtyOf(a, item) + QtyOf(b, item)
    decreases |b|
  {
    forall l: Line ensures QtyOf([l], item) == if l.item == item then l.qty else 0 {
      assert [l][..0] == [];
    }
    if b == [] {
      assert a + b == a;
    } else {
      var front := b[..|b| - 1];
      assert (a + b)[..|a + b| - 1] == a + front;
      QuantityAdds(a, front, item);
    }
  }

  predicate AllValid(ls: seq<Line>) {
    forall i :: 0 <= i < |ls| ==> ls[i].qty > 0 && ls[i].price >= 0
  }

  // Order lines as they stand in a fresh order.
  predicate FreshLines(rows: seq<OrderLine>, ls: seq<Line>) {
    && |rows| == |ls|
    && forall i :: 0 <= i < |ls| ==> rows[i] == OrderLine(ls[i].item, ls[i].qty, ls[i].price, 0)
  }

  /* ---- raising orders ---- */

  // The id is unused, and the documents named exist.
  predicate CanName(s: State, id: Id, budget: Option<Id>, req: Option<Id>) {
    && id !in s.orders && (forall g :: g in s.receipts ==> s.receipts[g].order != Some(id))
    && (budget.Some? ==> budget.value in s.budgets) && (req.Some? ==> req.value in s.requisitions)
  }

  // The hard check, of a total on a budget.
  predicate Fits(s: State, budget: Option<Id>, total: int) {
    budget.Some? && budget.value in s.budgets && total > 0 ==>
      var b := s.budgets[budget.value];
      b.committed + total + b.spent <= b.allotted
  }

  // The reservation of `req` is turned into a commitment.
  predicate Liquidates(s: State, budget: Option<Id>, req: Option<Id>, total: int) {
    && budget.Some? && total > 0 && req.Some? && req.value in s.requisitions
    && var r := s.requisitions[req.value];
    r.encumbered && !r.preReleased && r.total > 0 && r.budget.Some?
  }

  lemma RaisingAccepted(s: State, id: Id, budget: Option<Id>, req: Option<Id>, total: int, rows: seq<OrderLine>,
                        creator: Actor)
    ensures RaiseOrder(Floored, s, id, budget, req, total, rows, creator).Ok? <==>
            CanName(s, id, budget, req) && Fits(s, budget, total)
  {}

  // A row of the orders table as an order is raised: approved at once exactly when
  // a positive threshold exceeds its total, and encumbering its budget if it has
  // one and a total.
  predicate RaisedAs(s: State, o: Order, budget: Option<Id>, req: Option<Id>, total: int, creator: Actor) {
    && o.total == total && o.budget == budget && o.requisition == req && o.creator == creator && o.recognized == 0
    && (o.status == OrderApproved <==> 0 < s.threshold && total < s.threshold)
    && (o.status == OrderApproved || o.status == OrderPending)
    && (o.encumbered <==> budget.Some? && total > 0)
  }

  // The requisition is marked ordered, and as liquidated if its reservation was.
  predicate OrderedFrom(s: State, t: State, budget: Option<Id>, req: Option<Id>, total: int) {
    if req.None? then t.requisitions == s.requisitions
    else
      && req.value in s.requisitions
      && var r := s.requisitions[req.value];
      t.requisitions == s.requisitions[req.value :=
        r.(status := Ordered, preReleased := r.preReleased || Liquidates(s, budget, req, total))]
  }

  // Every budget: the reservation goes from the requisition's, and the total
  // comes on the order's.
  predicate BudgetsOfRaising(s: State, t: State, budget: Option<Id>, req: Option<Id>, total: int) {
    && t.budgets.Keys == s.budgets.Keys
    && forall b :: b in s.budgets ==>
         var was, now := s.budgets[b], t.budgets[b];
         && now.allotted == was.allotted && now.spent == was.spent && now.period == was.period
         && now.periodEnd == was.periodEnd && now.closed == was.closed
         && now.committed == was.committed + (if budget == Some(b) && total > 0 then total else 0)
         && now.preCommitted == (if Liquidates(s, budget, req, total) && s.requisitions[req.value].budget == Some(b)
                                 then Least(was.preCommitted - s.requisitions[req.value].total) else was.preCommitted)
  }

  lemma RaisingWritesOrder(s: State, id: Id, budget: Option<Id>, req: Option<Id>, total: int, rows: seq<OrderLine>,
                           creator: Actor)
    requires RaiseOrder(Floored, s, id, budget, req, total, rows, creator).Ok?
    ensures var t := RaiseOrder(Floored, s, id, budget, req, total, rows, creator).value;
            && id in t.orders && t.orders == s.orders[id := t.orders[id]]
            && t.receipts == s.receipts && t.threshold == s.threshold
            && RaisedAs(s, t.orders[id], budget, req, total, creator) && t.orders[id].lines == rows
  {}

  lemma RaisingWritesRequisition(s: State, id: Id, budget: Option<Id>, req: Option<Id>, total: int,
                                 rows: seq<OrderLine>, creator: Actor)
    requires RaiseOrder(Floored, s, id, budget, req, total, rows, creator).Ok?
    ensures OrderedFrom(s, RaiseOrder(Floored, s, id, budget, req, total, rows, creator).value, budget, req, total)
  {}

  lemma LiquidationWritesBudgets(u: State, req: Option<Id>)
    ensures var v := Liquidate(Floored, u, req);
            && v.budgets.Keys == u.budgets.Keys && v.orders == u.orders
            && forall b :: b in u.budgets ==>
                 var was, now := u.budgets[b], v.budgets[b];
                 && now == was.(preCommitted := now.preCommitted, remaining := now.remaining)
                 && now.preCommitted == (if Liquidates(u, Some(b), req, 1)
                                            && u.requisitions[req.value].budget == Some(b)
                                         then Least(was.preCommitted - u.requisitions[req.value].total)
                                         else was.preCommitted)
  {}

  lemma CommitmentWritesBudgets(u: State, id: Id)
    requires id in u.orders && ApplyOrderEncumbrance(Floored, u, id).Ok?
    requires u.orders[id].budget.Some? ==> u.orders[id].budget.value in u.budgets
    ensures var o := u.orders[id];
            var t := ApplyOrderEncumbrance(Floored, u, id).value;
            var commits := o.budget.Some? && o.total > 0;
            var v := if commits then Liquidate(Floored, u, o.requisition) else u;
            && t.budgets.Keys == v.budgets.Keys
            && forall b :: b in v.budgets ==>
                 var was, now := v.budgets[b], t.budgets[b];
                 && now == was.(committed := now.committed, remaining := now.remaining)
                 && now.committed == was.committed + (if commits && o.budget == Some(b) then o.total else 0)
  {
    LiquidationWritesBudgets(u, u.orders[id].requisition);
  }

  // Between the two: only reservations moved, as the liquidation says.
  predicate ReservationsMoved(s: State, v: State, budget: Option<Id>, req: Option<Id>, total: int) {
    && v.budgets.Keys == s.budgets.Keys
    && forall b :: b in s.budgets ==>
         var was, now := s.budgets[b], v.budgets[b];
         && now == was.(preCommitted := now.preCommitted, remaining := now.remaining)
         && now.preCommitted == (if Liquidates(s, budget, req, total) && s.requisitions[req.value].budget == Some(b)
                                 then Least(was.preCommitted - s.requisitions[req.value].total) else was.preCommitted)
  }

  lemma RaisingMovesReservations(s: State, u: State, budget: Option<Id>, req: Option<Id>, total: int)
    requires u.budgets == s.budgets && (req.Some? ==> req.value in s.requisitions && req.value in u.requisitions)
    requires req.Some? ==> u.requisitions[req.value] == s.requisitions[req.value].(status := Ordered)
    ensures var v := if budget.Some? && total > 0 then Liquidate(Floored, u, req) else u;
            ReservationsMoved(s, v, budget, req, total)
  {
    LiquidationWritesBudgets(u, req);
  }

  lemma RaisingWritesBudgets(s: State, id: Id, budget: Option<Id>, req: Option<Id>, total: int, rows: seq<OrderLine>,
                             creator: Actor)
    requires RaiseOrder(Floored, s, id, budget, req, total, rows, creator).Ok?
    ensures BudgetsOfRaising(s, RaiseOrder(Floored, s, id, budget, req, total, rows, creator).value, budget, req, total)
  {
    var o := Order(total, budget, req, InitialStatus(s.threshold, total), creator, rows, false, 0);
    var s1 := PutOrder(s, id, o);
    var u := if req.Some? then PutRequisition(s1, req.value, s1.requisitions[req.value].(status := Ordered)) else s1;
    RaisingMovesReservations(s, u, budget, req, total);
    CommitmentWritesBudgets(u, id);
    var v := if budget.Some? && total > 0 then Liquidate(Floored, u, req) else u;
    var t := ApplyOrderEncumbrance(Floored, u, id).value;
    BudgetsAddUp(s, v, t, budget, req, total);
  }

  lemma BudgetsAddUp(s: State, v: State, t: State, budget: Option<Id>, req: Option<Id>, total: int)
    requires ReservationsMoved(s, v, budget, req, total) && t.budgets.Keys == v.budgets.Keys
    requires forall b :: b in v.budgets ==>
      var was, now := v.budgets[b], t.budgets[b];
      && now == was.(committed := now.committed, remaining := now.remaining)
      && now.committed == was.committed + (if budget.Some? && total > 0 && budget == Some(b) then total else 0)
    ensures BudgetsOfRaising(s, t, budget, req, total)
  {}

  lemma RaisingWrites(s: State, id: Id, budget: Option<Id>, req: Option<Id>, total: int, rows: seq<OrderLine>,
                      creator: Actor)
    requires RaiseOrder(Floored, s, id, budget, req, total, rows, creator).Ok?
    ensures var t := RaiseOrder(Floored, s, id, budget, req, total, rows, creator).value;
            && id in t.orders && t.orders == s.orders[id := t.orders[id]]
            && t.receipts == s.receipts && t.threshold == s.threshold
            && RaisedAs(s, t.orders[id], budget, req, total, creator) && t.orders[id].lines == rows
            && OrderedFrom(s, t, budget, req, total)
            && BudgetsOfRaising(s, t, budget, req, total)
  {
    RaisingWritesOrder(s, id, budget, req, total, rows, creator);
    RaisingWritesRequisition(s, id, budget, req, total, rows, creator);
    RaisingWritesBudgets(s, id, budget, req, total, rows, creator);
  }

  // A purchase order from lines: accepted exactly when there are lines, all valid,
  // the documents exist, and the total fits beside what is committed and spent.
  lemma OrderCreated(s: State, id: Id, budget: Option<Id>, req: Option<Id>, lines: seq<Line>, creator: Actor)
    ensures var op := OpCreateOrder(id, budget, req, lines, creator);
            var total := LinesValue(lines);
            && (Accepted(s, op) <==>
                  lines != [] && AllValid(lines) && CanName(s, id, budget, req) && Fits(s, budget, total))
            && (Accepted(s, op) ==>
                  var t := Next(s, op);
                  && id in t.orders && t.orders == s.orders[id := t.orders[id]]
                  && t.receipts == s.receipts && t.threshold == s.threshold
                  && RaisedAs(s, t.orders[id], budget, req, total, creator) && FreshLines(t.orders[id].lines, lines)
                  && OrderedFrom(s, t, budget, req, total) && BudgetsOfRaising(s, t, budget, req, total))
  {
    RaisingAccepted(s, id, budget, req, LinesValue(lines), OrderLines(lines), creator);
    if Accepted(s, OpCreateOrder(id, budget, req, lines, creator)) {
      RaisingWrites(s, id, budget, req, LinesValue(lines), OrderLines(lines), creator);
    }
  }

  // An award is charged to the budget named, or else to its requisition's.
  lemma OrderAwarded(s: State, id: Id, named: Option<Id>, req: Option<Id>, amount: int, creator: Actor,
                     budget: Option<Id>)
    requires if named.Some? then budget == named
             else if req.Some? && req.value in s.requisitions then budget == s.requisitions[req.value].budget
             else budget == None
    ensures var op := OpAwardOrder(id, named, req, amount, creator);
            && (Accepted(s, op) <==> amount >= 0 && CanName(s, id, budget, req) && Fits(s, budget, amount))
            && (Accepted(s, op) ==>
                  var t := Next(s, op);
                  && id in t.orders && t.orders == s.orders[id := t.orders[id]]
                  && t.receipts == s.receipts && t.threshold == s.threshold
                  && RaisedAs(s, t.orders[id], budget, req, amount, creator) && t.orders[id].lines == []
                  && OrderedFrom(s, t, budget, req, amount) && BudgetsOfRaising(s, t, budget, req, amount))
  {
    RaisingAccepted(s, id, budget, req, amount, [], creator);
    if Accepted(s, OpAwardOrder(id, named, req, amount, creator)) {
      RaisingWrites(s, id, budget, req, amount, [], creator);
    }
  }
}
