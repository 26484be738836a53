/** Runs from empty tables whose last transaction succeeds and leaves the books
  * out of balance, or a budget past its allocation.
  */
module LedgerWitness {
  import opened Values
  import opened LedgerModel
  import opened LedgerBooks
  import opened LedgerSteps
  import opened LedgerTheorems
  import opened LedgerRuns

  // A run from empty tables with the state each transaction leads to.
  datatype Trail = Begin | Then(before: Trail, op: Op, after: State)

  function Here(t: Trail): State {
    match t
    case Begin => EMPTY_TABLES
    case Then(_, _, s) => s
  }

  function Ops(t: Trail): seq<Op> {
    match t
    case Begin => []
    case Then(before, op, _) => Ops(before) + [op]
  }

  predicate SafeTrail(t: Trail) {
    match t
    case Begin => true
    case Then(before, op, s) => SafeTrail(before) && Safe(Here(before), op) && s == Step(Floored, Here(before), op)
  }

  lemma {:induction false} RunLast(s: State, ops: seq<Op>, op: Op)
    ensures Run(Floored, s, ops + [op]) == Step(Floored, Run(Floored, s, ops), op)
    decreases |ops|
  {
    if ops == [] {
      assert ops + [op] == [op];
    } else {
      RunLast(Step(Floored, s, ops[0]), ops[1..], op);
      assert (ops + [op])[1..] == ops[1..] + [op];
    }
  }

  lemma {:induction false} SafeTrailIsRun(t: Trail)
    requires SafeTrail(t)
    ensures Run(Floored, EMPTY_TABLES, Ops(t)) == Here(t) && Books(Here(t))
  {
    match t
    case Begin => EmptyTablesInOrder();
    case Then(before, op, s) =>
      SafeTrailIsRun(before);
      RunLast(EMPTY_TABLES, Ops(before), op);
      SafeStepKeepsBooks(Here(before), op);
  }

  // The books are balanced at the end of the trail; one more transaction
  // succeeds and upsets them.
  ghost predicate Upsets(t: Trail, last: Op) {
    && Books(Run(Floored, EMPTY_TABLES, Ops(t)))
    && Apply(Floored, Run(Floored, EMPTY_TABLES, Ops(t)), last).Ok?
    && !Books(Run(Floored, EMPTY_TABLES, Ops(t) + [last]))
  }

  lemma UnsafeEndUpsets(t: Trail, last: Op)
    requires SafeTrail(t) && !Safe(Here(t), last)
    ensures Upsets(t, last)
  {
    SafeTrailIsRun(t);
    RunLast(EMPTY_TABLES, Ops(t), last);
    BooksIffSafe(Here(t), last);
  }

  function Next(t: Trail, op: Op): Trail {
    Then(t, op, Step(Floored, Here(t), op))
  }

  const NEW_BUDGET := OpCreateBudget(1, 100, 0, None)
  const NEW_REQUISITION := OpCreateRequisition(1, 10, Some(1), Named(1), PendingApproval)
  const APPROVE := OpSettleRequisition(1, OutcomeApproved, Approved)
  const REJECT := OpSettleRequisition(1, OutcomeRejected, Rejected)

  // An award for 10 on budget 1.
  function Award(id: Id, req: Option<Id>): Op {
    OpAwardOrder(id, Some(1), req, 10, Named(1))
  }

  // Budget 1 has 100 allotted, and requisition 1 asks it for 10.
  predicate Requested(s: State, encumbered: bool, preReleased: bool, pre: int, committed: int) {
    && 1 in s.budgets && 1 in s.requisitions
    && s.budgets[1].allotted == 100 && s.budgets[1].preCommitted == pre
    && s.budgets[1].committed == committed && s.budgets[1].spent == 0
    && s.requisitions[1].total == 10 && s.requisitions[1].budget == Some(1)
    && s.requisitions[1].encumbered == encumbered && s.requisitions[1].preReleased == preReleased
  }

  lemma ApproveReserves(s: State)
    requires Requested(s, false, false, 0, 0)
    ensures var t := Step(Floored, s, APPROVE);
            Requested(t, true, false, 10, 0) && t.orders == s.orders && t.receipts == s.receipts
  {}

  lemma AwardConverts(s: State)
    requires Requested(s, true, false, 10, 0) && !OrderIdTaken(s, 1)
    ensures Requested(Step(Floored, s, Award(1, Some(1))), true, true, 0, 10)
  {}

  lemma RejectForgets(s: State)
    requires Requested(s, true, true, 0, 10)
    ensures Requested(Step(Floored, s, REJECT), false, true, 0, 10)
  {}

  lemma Reserving() returns (t: Trail)
    ensures SafeTrail(t) && Requested(Here(t), true, false, 10, 0) && !OrderIdTaken(Here(t), 1)
    ensures Here(t).budgets.Keys == {1}
  {
    t := Next(Next(Begin, NEW_BUDGET), NEW_REQUISITION);
    ApproveReserves(Here(t));
    t := Next(t, APPROVE);
  }

  // A live reservation is edited from 10 to 20.
  lemma EditedReservationUpsets() returns (t: Trail)
    ensures Upsets(t, OpUpdateRequisition(1, Some(20), None, None))
  {
    t := Reserving();
    UnsafeEndUpsets(t, OpUpdateRequisition(1, Some(20), None, None));
  }

  // A live reservation is moved to another budget.
  lemma MovedReservationUpsets() returns (t: Trail)
    ensures Upsets(t, OpUpdateRequisition(1, None, Some(2), None))
  {
    t := Reserving();
    t := Next(t, OpCreateBudget(2, 100, 0, None));
    UnsafeEndUpsets(t, OpUpdateRequisition(1, None, Some(2), None));
  }

  // Approve, order, reject, approve again: the second reservation is never
  // released, because nothing clears `preReleased`.
  lemma SecondApprovalUpsets() returns (t: Trail)
    ensures Upsets(t, APPROVE)
  {
    t := Reserving();
    AwardConverts(Here(t));
    t := Next(t, Award(1, Some(1)));
    RejectForgets(Here(t));
    t := Next(t, REJECT);
    UnsafeEndUpsets(t, APPROVE);
  }

  function Repatch(status: Option<OrderStatus>, budget: Option<Id>): Op {
    OpUpdateOrder(1, OrderPatch(Named(2), status, budget, None, None))
  }

  // Budget 1 has 100 allotted, and order 1 of 10 is charged to it.
  predicate Ordered1(s: State, status: OrderStatus, encumbered: bool, recognized: int, committed: int) {
    && s.threshold == 0 && 1 in s.budgets && 1 in s.orders
    && s.budgets[1].allotted == 100 && s.budgets[1].committed == committed && s.budgets[1].spent == recognized
    && s.orders[1] == Order(10, Some(1), None, status, Named(1), [], encumbered, recognized)
  }

  lemma FirstAward(s: State)
    requires 1 in s.budgets && s.orders == map[] && s.receipts == map[] && s.threshold == 0
    requires s.budgets[1].allotted == 100 && s.budgets[1].committed == s.budgets[1].spent == 0
    ensures var t := Step(Floored, s, Award(1, None));
            && Ordered1(t, OrderPending, true, 0, 10)
            && t.orders.Keys == {1} && t.receipts == map[] && t.budgets.Keys == s.budgets.Keys
  {}

  lemma SecondAward(s: State)
    requires Ordered1(s, OrderPending, true, 0, 10) && s.orders.Keys == {1} && s.receipts == map[]
    ensures var t := Step(Floored, s, Award(2, None));
            Ordered1(t, OrderPending, true, 0, 20) && t.orders.Keys == {1, 2} && t.receipts == map[]
  {}

  lemma Ordering() returns (t: Trail)
    ensures SafeTrail(t) && Ordered1(Here(t), OrderPending, true, 0, 10)
    ensures Here(t).orders.Keys == {1} && Here(t).receipts == map[] && Here(t).budgets.Keys == {1}
  {
    t := Next(Begin, NEW_BUDGET);
    FirstAward(Here(t));
    t := Next(t, Award(1, None));
  }

  // An open order moves to another budget and leaves its commitment behind.
  lemma RebudgetedOrderUpsets() returns (t: Trail)
    ensures Upsets(t, Repatch(None, Some(2)))
  {
    t := Ordering();
    t := Next(t, OpCreateBudget(2, 100, 0, None));
    UnsafeEndUpsets(t, Repatch(None, Some(2)));
  }

  const DRAFT := OpCreateReceipt(1, Some(1), ReceiptDraft, [], false, false)

  function Post(order: Option<Id>): Op {
    OpUpdateReceipt(1, ReceiptPatch(order, Some(Posted), None, None, None))
  }

  // Two orders of 10, the first approved and with receipt 1 drafted against it.
  lemma Drafting() returns (t: Trail)
    ensures SafeTrail(t) && Ordered1(Here(t), OrderApproved, true, 0, 20) && Here(t).orders.Keys == {1, 2}
    ensures Here(t).receipts == map[1 := Receipt(Some(1), ReceiptDraft, false, false, [], false, 0)]
  {
    t := Ordering();
    SecondAward(Here(t));
    t := Next(t, Award(2, None));
    t := Next(t, Repatch(Some(OrderApproved), None));
    t := Next(t, DRAFT);
  }

  lemma CancelReleases(s: State)
    requires Ordered1(s, OrderApproved, true, 0, 20)
    ensures Ordered1(Step(Floored, s, Repatch(Some(OrderCancelled), None)), OrderCancelled, false, 0, 10)
    ensures Step(Floored, s, Repatch(Some(OrderCancelled), None)).receipts == s.receipts
  {}

  // A receipt drafted in time may still be posted after its order was
  // cancelled: receivability is tested only when a receipt is created.
  lemma LatePostingUpsets() returns (t: Trail)
    ensures Upsets(t, Post(None))
  {
    t := Drafting();
    CancelReleases(Here(t));
    t := Next(t, Repatch(Some(OrderCancelled), None));
    UnsafeEndUpsets(t, Post(None));
  }

  // A posted receipt is pointed at another order.
  lemma MovedReceiptUpsets() returns (t: Trail)
    ensures Upsets(t, Post(Some(2)))
  {
    t := Drafting();
    PostRecognizes(Here(t));
    t := Next(t, Post(None));
    UnsafeEndUpsets(t, Post(Some(2)));
  }

  const UNPOST := OpUpdateReceipt(1, ReceiptPatch(None, Some(ReceiptDraft), None, None, None))

  // A receipt posted in time is un-posted after its order was cancelled.
  lemma LateReversalUpsets() returns (t: Trail)
    ensures Upsets(t, UNPOST)
  {
    t := Drafting();
    PostRecognizes(Here(t));
    t := Next(t, Post(None));
    CancelFrees(Here(t));
    t := Next(t, Repatch(Some(OrderCancelled), None));
    UnsafeEndUpsets(t, UNPOST);
  }

  lemma PostRecognizes(s: State)
    requires Ordered1(s, OrderApproved, true, 0, 20) && s.orders.Keys == {1, 2}
    requires s.receipts == map[1 := Receipt(Some(1), ReceiptDraft, false, false, [], false, 0)]
    ensures var t := Step(Floored, s, Post(None));
            && Ordered1(t, OrderApproved, true, 10, 10)
            && t.receipts == map[1 := Receipt(Some(1), Posted, false, false, [], true, 10)] && t.orders.Keys == {1, 2}
  {}

  lemma CancelFrees(s: State)
    requires Ordered1(s, OrderApproved, true, 10, 10)
    ensures Ordered1(Step(Floored, s, Repatch(Some(OrderCancelled), None)), OrderCancelled, false, 10, 10)
    ensures Step(Floored, s, Repatch(Some(OrderCancelled), None)).receipts == s.receipts
  {}

  /* ---- orders that never encumbered their budget ---- */

  // Budget 1 has 100 allotted; order 1 of `total` names `budget` and encumbers
  // nothing.
  predicate Unencumbered(s: State, total: int, budget: Option<Id>, status: OrderStatus, committed: int) {
    && s.threshold == 0 && 1 in s.budgets && 1 in s.orders && s.receipts == map[]
    && s.budgets[1].allotted == 100 && s.budgets[1].committed == committed && s.budgets[1].spent == 0
    && s.orders[1] == Order(total, budget, None, status, Named(1), [], false, 0)
  }

  const FUND := OpUpdateOrder(1, OrderPatch(Named(2), Some(OrderApproved), Some(1), None, None))

  const RECEIVE := OpCreateReceipt(1, Some(1), Posted, [], false, false)

  lemma UnbudgetedAward(s: State, amount: int)
    requires 1 in s.budgets && s.orders == map[] && s.receipts == map[] && s.threshold == 0 && amount > 0
    requires s.budgets[1].allotted == 100 && s.budgets[1].committed == s.budgets[1].spent == 0
    ensures var t := Step(Floored, s, OpAwardOrder(1, None, None, amount, Named(1)));
            Unencumbered(t, amount, None, OrderPending, 0) && t.orders.Keys == {1}
  {}

  lemma FundingChecksNothing(s: State, total: int, committed: int)
    requires Unencumbered(s, total, None, OrderPending, committed)
    ensures Unencumbered(Step(Floored, s, FUND), total, Some(1), OrderApproved, committed)
  {}

  lemma FundedAwardCommits(s: State)
    requires Unencumbered(s, 60, None, OrderPending, 0) && s.orders.Keys == {1}
    ensures Unencumbered(Step(Floored, s, OpAwardOrder(2, Some(1), None, 50, Named(1))), 60, None, OrderPending, 50)
  {}

  lemma FundingLate() returns (t: Trail)
    ensures SafeTrail(t) && Unencumbered(Here(t), 60, Some(1), OrderApproved, 50)
  {
    t := Next(Begin, NEW_BUDGET);
    UnbudgetedAward(Here(t), 60);
    t := Next(t, OpAwardOrder(1, None, None, 60, Named(1)));
    FundedAwardCommits(Here(t));
    t := Next(t, OpAwardOrder(2, Some(1), None, 50, Named(1)));
    FundingChecksNothing(Here(t), 60, 50);
    t := Next(t, FUND);
  }

  lemma ReceivingIsUnsafe(s: State)
    requires Unencumbered(s, 60, Some(1), OrderApproved, 50)
    ensures !Safe(s, RECEIVE)
  {}

  // The receipt takes 60 out of the 50 that another order committed.
  lemma UnencumberedPostingUpsets() returns (t: Trail)
    ensures Upsets(t, RECEIVE)
  {
    t := FundingLate();
    ReceivingIsUnsafe(Here(t));
    UnsafeEndUpsets(t, RECEIVE);
  }

  // Every budget is within its allocation all along the trail; one more transaction
  // succeeds, safe like those before it, and budget 1 is past its 100.
  ghost predicate Overruns(t: Trail, last: Op, spent: int) {
    && SafeTrail(t) && Safe(Here(t), last)
    && Throughout(EMPTY_TABLES, Ops(t), Ceiling)
    && Apply(Floored, Run(Floored, EMPTY_TABLES, Ops(t)), last).Ok?
    && Books(Run(Floored, EMPTY_TABLES, Ops(t) + [last]))
    && var end := Run(Floored, EMPTY_TABLES, Ops(t) + [last]);
    1 in end.budgets && end.budgets[1].allotted == 100 && end.budgets[1].spent == spent && !Ceiling(end)
  }

  lemma {:induction false} ThroughoutLast(s: State, ops: seq<Op>, op: Op)
    requires Throughout(s, ops, Ceiling) && Ceiling(Run(Floored, s, ops + [op]))
    ensures Throughout(s, ops + [op], Ceiling)
    decreases |ops|
  {
    if ops == [] {
      assert ops + [op] == [op];
      assert Run(Floored, s, [op]) == Step(Floored, s, op);
      assert Throughout(Step(Floored, s, op), [], Ceiling);
    } else {
      assert (ops + [op])[1..] == ops[1..] + [op];
      ThroughoutLast(Step(Floored, s, ops[0]), ops[1..], op);
    }
  }

  // A trail of which every transaction is affordable.
  predicate AffordedTrail(t: Trail) {
    match t
    case Begin => true
    case Then(before, op, s) => AffordedTrail(before) && Affords(Here(before), op)
  }

  lemma {:induction false} AffordedTrailStaysWithin(t: Trail)
    requires SafeTrail(t) && AffordedTrail(t)
    ensures Throughout(EMPTY_TABLES, Ops(t), Ceiling) && Ceiling(Here(t))
  {
    match t
    case Begin => EmptyTablesInOrder();
    case Then(before, op, s) =>
      AffordedTrailStaysWithin(before);
      SafeTrailIsRun(before);
      SafeTrailIsRun(t);
      CeilingIffAfforded(Here(before), op);
      ThroughoutLast(EMPTY_TABLES, Ops(before), op);
  }

  // An order for 200 raised without a budget is given one of 100, and received.
  lemma UnencumberedPostingOverruns() returns (t: Trail)
    ensures Overruns(t, RECEIVE, 200)
  {
    t := Next(Begin, NEW_BUDGET);
    UnbudgetedAward(Here(t), 200);
    t := Next(t, OpAwardOrder(1, None, None, 200, Named(1)));
    FundingChecksNothing(Here(t), 200, 0);
    t := Next(t, FUND);
    AffordedTrailStaysWithin(t);
    SafeTrailIsRun(t);
    RunLast(EMPTY_TABLES, Ops(t), RECEIVE);
    SafeStepKeepsBooks(Here(t), RECEIVE);
    ReceiptOverruns(Here(t));
  }

  lemma ReceiptOverruns(s: State)
    requires Unencumbered(s, 200, Some(1), OrderApproved, 0)
    ensures var t := Step(Floored, s, RECEIVE);
            && Apply(Floored, s, RECEIVE).Ok?
            && 1 in t.budgets && t.budgets[1].allotted == 100 && t.budgets[1].spent == 200 && !Ceiling(t)
  {
    var t := Step(Floored, s, RECEIVE);
    assert t.budgets[1].spent == 200 && !WithinAllocation(t.budgets[1]);
  }

  /* ---- an order its creator cleared alone ---- */

  const SINGLE: seq<Line> := [Line(1, 1, 10)]

  const RAISE := OpCreateOrder(1, None, None, SINGLE, Named(1))

  // The creator says it was ordered.
  const SAY_ORDERED := OpUpdateOrder(1, OrderPatch(Named(1), Some(OrderOrdered), None, None, None))

  const DELIVER := OpCreateReceipt(1, Some(1), Posted, SINGLE, false, false)

  predicate OneLine(s: State, status: OrderStatus, received: int, recognized: int) {
    && s.threshold == 0 && 1 in s.orders
    && s.orders[1] == Order(10, None, None, status, Named(1), [OrderLine(1, 1, 10, received)], false, recognized)
  }

  lemma SingleIsTen()
    ensures LinesValue(SINGLE) == 10 && OrderLines(SINGLE) == [OrderLine(1, 1, 10, 0)] && QtyOf(SINGLE, 1) == 1
  {
    assert SINGLE[..0] == [];
  }

  lemma RaiseHolds()
    ensures var t := Step(Floored, EMPTY_TABLES, RAISE); OneLine(t, OrderPending, 0, 0) && t.receipts == map[]
  {
    SingleIsTen();
    assert SINGLE != [] && ValidLines(SINGLE);
    assert Apply(Floored, EMPTY_TABLES, RAISE).Ok?;
  }

  lemma SayingOrderedClears(s: State)
    requires OneLine(s, OrderPending, 0, 0) && s.receipts == map[]
    ensures var t := Step(Floored, s, SAY_ORDERED); OneLine(t, OrderOrdered, 0, 0) && t.receipts == map[]
  {}

  lemma DeliveryReceives(s: State)
    requires OneLine(s, OrderOrdered, 0, 0) && s.receipts == map[]
    ensures var t := Step(Floored, s, DELIVER);
            && OneLine(t, Received, 1, 10)
            && t.receipts == map[1 := Receipt(Some(1), Posted, false, false, SINGLE, true, 10)]
  {
    SingleIsTen();
    var t := Step(Floored, s, DELIVER);
    assert t.orders[1].lines == [OrderLine(1, 1, 10, 1)];
  }

  lemma ReturnApproves(s: State)
    requires OneLine(s, Received, 1, 10)
    requires s.receipts == map[1 := Receipt(Some(1), Posted, false, false, SINGLE, true, 10)]
    ensures OneLine(Step(Floored, s, UNPOST), OrderApproved, 0, 0)
  {
    SingleIsTen();
    var t := Step(Floored, s, UNPOST);
    var back := [OrderLine(1, 1, 10, 0)];
    assert Withdraw(Floored, s.orders[1].lines, SINGLE) == back;
    assert back[0].received < back[0].qty && !FullyReceived(back) && !AnyReceived(back);
    assert t.orders[1].lines == back;
  }

  lemma RunFour(s: State, a: Op, b: Op, c: Op, d: Op)
    ensures Run(Floored, s, [a, b, c, d]) ==
            Step(Floored, Step(Floored, Step(Floored, Step(Floored, s, a), b), c), d)
  {
    var t := Step(Floored, s, a);
    var u := Step(Floored, t, b);
    var v := Step(Floored, u, c);
    assert [a, b, c, d][1..] == [b, c, d] && [b, c, d][1..] == [c, d] && [c, d][1..] == [d] && [d][1..] == [];
    assert Run(Floored, v, [d]) == Run(Floored, Step(Floored, v, d), []);
    assert Run(Floored, u, [c, d]) == Run(Floored, v, [d]);
    assert Run(Floored, t, [b, c, d]) == Run(Floored, u, [c, d]);
  }

  // Raised pending, said to be ordered, received and sent back: approved, and
  // nobody but its creator has touched it.
  lemma CreatorClearsAlone()
    ensures OneLine(Step(Floored, EMPTY_TABLES, RAISE), OrderPending, 0, 0)
    ensures OneLine(Run(Floored, EMPTY_TABLES, [RAISE, SAY_ORDERED, DELIVER, UNPOST]), OrderApproved, 0, 0)
  {
    RaiseHolds();
    var a := Step(Floored, EMPTY_TABLES, RAISE);
    SayingOrderedClears(a);
    var b := Step(Floored, a, SAY_ORDERED);
    DeliveryReceives(b);
    ReturnApproves(Step(Floored, b, DELIVER));
    RunFour(EMPTY_TABLES, RAISE, SAY_ORDERED, DELIVER, UNPOST);
  }
}
