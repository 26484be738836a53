/** The three-stage budget ledger as a state and one function per committed
  * transaction. Amounts are integers in minor units, so a test for "exceeds by
  * more than half a unit" is a strict comparison. A transaction that fails
  * yields an error and no state: the caller keeps the old one (rollback).
  */
module LedgerModel {
  import opened Values

  datatype Budget = Budget(
    allotted: int, preCommitted: int, committed: int, spent: int, remaining: int,
    period: nat, periodEnd: Option<int>, closed: bool)

  datatype RequisitionStatus =
    Draft | PendingApproval | Approved | Rejected | Cancelled | Returned | Ordered | Closed

  datatype Requisition = Requisition(
    total: int, budget: Option<Id>, requester: Actor, status: RequisitionStatus,
    encumbered: bool,   // requisitions.budget_committed
    preReleased: bool)  // liquidated by a purchase order

  datatype OrderStatus =
    | OrderDraft | OrderPending | OrderApproved | OrderRejected | OrderCancelled
    | OrderOrdered | PartiallyReceived | Received | OrderClosed

  datatype OrderLine = OrderLine(item: Id, qty: int, price: int, received: int)

  datatype Order = Order(
    total: int, budget: Option<Id>, requisition: Option<Id>, status: OrderStatus,
    creator: Actor, lines: seq<OrderLine>,
    encumbered: bool,   // purchase_orders.budget_committed
    recognized: int)    // purchase_orders.spent_recognized

  // PostedOtherCase is any spelling that equals "Posted" only when case is ignored.
  datatype ReceiptStatus = ReceiptDraft | Posted | PostedOtherCase | OtherStatus

  // A line as a client supplies it, for an order or for a receipt.
  datatype Line = Line(item: Id, qty: int, price: int)

  datatype Receipt = Receipt(
    order: Option<Id>, status: ReceiptStatus, critical: bool, released: bool,
    lines: seq<Line>,
    recognized: bool,   // grns.budget_recognized
    amount: int)        // grns.recognized_amount

  datatype State = State(
    threshold: int,
    budgets: map<Id, Budget>, requisitions: map<Id, Requisition>,
    orders: map<Id, Order>, receipts: map<Id, Receipt>)

  const EMPTY_TABLES := State(0, map[], map[], map[], map[])

  // Floored is what the program does: a subtraction stops at zero. Plain is the
  // same arithmetic without the floor.
  datatype Rounding = Floored | Plain

  function Less(m: Rounding, x: int, y: int): int {
    if m.Floored? && x < y then 0 else x - y
  }

  /* ---- one budget row ---- */

  function Balanced(b: Budget): Budget {
    b.(remaining := b.allotted - b.preCommitted - b.committed - b.spent)
  }

  function Headroom(b: Budget): int {
    b.allotted - b.preCommitted - b.committed - b.spent
  }

  function Reserve(b: Budget, amt: int): Budget {
    Balanced(b.(preCommitted := b.preCommitted + amt))
  }

  function Unreserve(m: Rounding, b: Budget, amt: int): Budget {
    Balanced(b.(preCommitted := Less(m, b.preCommitted, amt)))
  }

  function Commit(b: Budget, amt: int): Budget {
    Balanced(b.(committed := b.committed + amt))
  }

  function Uncommit(m: Rounding, b: Budget, amt: int): Budget {
    Balanced(b.(committed := Less(m, b.committed, amt)))
  }

  function Spend(m: Rounding, b: Budget, amt: int): Budget {
    Balanced(b.(spent := b.spent + amt, committed := Less(m, b.committed, amt)))
  }

  function Unspend(m: Rounding, b: Budget, amt: int): Budget {
    Balanced(b.(spent := Less(m, b.spent, amt), committed := b.committed + amt))
  }

  // An UPDATE of a row that is not there touches nothing.
  function PutBudget(s: State, b: Id, row: Budget): State {
    s.(budgets := s.budgets[b := row])
  }

  function PutRequisition(s: State, r: Id, row: Requisition): State {
    s.(requisitions := s.requisitions[r := row])
  }

  function PutOrder(s: State, p: Id, row: Order): State {
    s.(orders := s.orders[p := row])
  }

  function PutReceipt(s: State, g: Id, row: Receipt): State {
    s.(receipts := s.receipts[g := row])
  }

  predicate KnownBudget(s: State, b: Option<Id>) {
    b.Some? ==> b.value in s.budgets
  }

  /* ---- budgets ---- */

  function CreateBudget(s: State, id: Id, allotted: int, period: nat, periodEnd: Option<int>): Result<State> {
    if id in s.budgets then Err(Conflict)
    else Ok(PutBudget(s, id, Budget(allotted, 0, 0, 0, allotted, period, periodEnd, false)))
  }

  function UpdateBudget(s: State, id: Id, allotted: Option<int>, period: Option<nat>): Result<State> {
    if id !in s.budgets then Err(NotFound)
    else
      var b := s.budgets[id];
      Ok(PutBudget(s, id, Balanced(b.(allotted := allotted.GetOr(b.allotted), period := period.GetOr(b.period)))))
  }

  predicate BudgetReferenced(s: State, id: Id) {
    || (exists r :: r in s.requisitions && s.requisitions[r].budget == Some(id))
    || (exists p :: p in s.orders && s.orders[p].budget == Some(id))
  }

  function DeleteBudget(s: State, id: Id): Result<State> {
    if id !in s.budgets then Err(NotFound)
    else if BudgetReferenced(s, id) then Err(InvalidArgument)
    else Ok(s.(budgets := s.budgets - {id}))
  }

  datatype Policy = Lapse | Carry

  datatype CloseFilter = CloseFilter(period: Option<nat>, budget: Option<Id>, dueOnly: bool)

  predicate Closes(f: CloseFilter, today: int, id: Id, b: Budget) {
    && !b.closed
    && (f.period.Some? ==> b.period == f.period.value)
    && (f.budget.Some? ==> id == f.budget.value)
    && (f.dueOnly ==> b.periodEnd.Some? && b.periodEnd.value < today)
  }

  function ClosedRow(policy: Policy, b: Budget): Budget {
    match policy
    case Lapse => b.(preCommitted := 0, committed := 0, remaining := b.allotted - b.spent, closed := true)
    case Carry => b.(closed := true)
  }

  function RowClosed(policy: Policy, f: CloseFilter, today: int, id: Id, b: Budget): Budget {
    if Closes(f, today, id, b) then ClosedRow(policy, b) else b
  }

  function CloseBudgetPeriod(s: State, policy: Policy, f: CloseFilter, today: int): State {
    s.(budgets := map b | b in s.budgets :: RowClosed(policy, f, today, b, s.budgets[b]))
  }

  /* ---- requisitions ---- */

  function CreateRequisition(s: State, id: Id, total: int, budget: Option<Id>, requester: Actor,
                             status: RequisitionStatus): Result<State>
  {
    if id in s.requisitions then Err(Conflict)
    else if !KnownBudget(s, budget) then Err(InvalidArgument)
    else Ok(PutRequisition(s, id, Requisition(total, budget, requester, status, false, false)))
  }

  // Totals and budgets are overwritten without looking at the reservation.
  function UpdateRequisition(s: State, id: Id, total: Option<int>, budget: Option<Id>,
                             status: Option<RequisitionStatus>): Result<State>
  {
    if status.Some? && status.value in {Approved, Rejected, Ordered} then Err(Conflict)
    else if id !in s.requisitions then Err(NotFound)
    else if !KnownBudget(s, budget) then Err(InvalidArgument)
    else
      var r := s.requisitions[id];
      Ok(PutRequisition(s, id, r.(
        total := total.GetOr(r.total),
        budget := if budget.Some? then budget else r.budget,
        status := status.GetOr(r.status))))
  }

  datatype Outcome = OutcomeApproved | OutcomeRejected

  function ApplyBudgetCommitment(m: Rounding, s: State, id: Id, outcome: Outcome): Result<State>
    requires id in s.requisitions
  {
    var r := s.requisitions[id];
    if r.budget.None? || r.total <= 0 then Ok(s)
    else
      var b := r.budget.value;
      match outcome
      case OutcomeApproved =>
        if r.encumbered || b !in s.budgets then Ok(s)
        else if r.total > Headroom(s.budgets[b]) then Err(InvalidArgument)
        else Ok(PutRequisition(PutBudget(s, b, Reserve(s.budgets[b], r.total)), id, r.(encumbered := true)))
      case OutcomeRejected =>
        if !r.encumbered then Ok(s)
        else
          var s1 := if r.preReleased || b !in s.budgets then s
                    else PutBudget(s, b, Unreserve(m, s.budgets[b], r.total));
          Ok(PutRequisition(s1, id, r.(encumbered := false)))
  }

  // Either approval path ends here: the status is written, then the budget moves.
  function SettleRequisition(m: Rounding, s: State, id: Id, outcome: Outcome, status: RequisitionStatus): Result<State>
  {
    if id !in s.requisitions then Err(NotFound)
    else ApplyBudgetCommitment(m, PutRequisition(s, id, s.requisitions[id].(status := status)), id, outcome)
  }

  // The reservation a requisition still holds.
  predicate Reserved(r: Requisition) {
    r.encumbered && !r.preReleased && r.budget.Some? && r.total > 0
  }

  function ReleaseReservation(m: Rounding, s: State, r: Requisition): State {
    if Reserved(r) && r.budget.value in s.budgets
    then PutBudget(s, r.budget.value, Unreserve(m, s.budgets[r.budget.value], r.total))
    else s
  }

  function DeleteRequisition(m: Rounding, s: State, id: Id): Result<State> {
    if id !in s.requisitions then Err(NotFound)
    else if exists p :: p in s.orders && s.orders[p].requisition == Some(id) then Err(InvalidArgument)
    else
      var s1 := ReleaseReservation(m, s, s.requisitions[id]);
      Ok(s1.(requisitions := s1.requisitions - {id}))
  }

  /* ---- purchase orders ---- */

  predicate ValidLine(l: Line) {
    l.qty > 0 && l.price >= 0
  }

  predicate ValidLines(ls: seq<Line>) {
    forall i :: 0 <= i < |ls| ==> ValidLine(ls[i])
  }

  function LinesValue(ls: seq<Line>): int {
    if ls == [] then 0 else LinesValue(ls[..|ls| - 1]) + ls[|ls| - 1].qty * ls[|ls| - 1].price
  }

  function OrderLines(ls: seq<Line>): seq<OrderLine> {
    seq(|ls|, i requires 0 <= i < |ls| => OrderLine(ls[i].item, ls[i].qty, ls[i].price, 0))
  }

  function InitialStatus(threshold: int, total: int): OrderStatus {
    if threshold > 0 && total < threshold then OrderApproved else OrderPending
  }

  function Liquidate(m: Rounding, s: State, req: Option<Id>): State {
    if req.Some? && req.value in s.requisitions && Reserved(s.requisitions[req.value])
    then
      var r := s.requisitions[req.value];
      PutRequisition(ReleaseReservation(m, s, r), req.value, r.(preReleased := true))
    else s
  }

  function ApplyOrderEncumbrance(m: Rounding, s: State, id: Id): Result<State>
    requires id in s.orders
  {
    var o := s.orders[id];
    if o.budget.None? || o.total <= 0 then Ok(s)
    else
      var s1 := Liquidate(m, s, o.requisition);
      var b := o.budget.value;
      if b !in s1.budgets then Ok(s1)
      else if s1.budgets[b].committed + o.total + s1.budgets[b].spent > s1.budgets[b].allotted then Err(InvalidArgument)
      else Ok(PutOrder(PutBudget(s1, b, Commit(s1.budgets[b], o.total)), id, o.(encumbered := true)))
  }

  // An id the database draws for a new order has never been used, not even by a
  // receipt whose order has since been deleted.
  predicate OrderIdTaken(s: State, id: Id) {
    id in s.orders || exists g :: g in s.receipts && s.receipts[g].order == Some(id)
  }

  function RaiseOrder(m: Rounding, s: State, id: Id, budget: Option<Id>, req: Option<Id>, total: int,
                      lines: seq<OrderLine>, creator: Actor): Result<State>
  {
    if OrderIdTaken(s, id) then Err(Conflict)
    else if !KnownBudget(s, budget) || (req.Some? && req.value !in s.requisitions) then Err(InvalidArgument)
    else
      var o := Order(total, budget, req, InitialStatus(s.threshold, total), creator, lines, false, 0);
      var s1 := PutOrder(s, id, o);
      var s2 := if req.Some? then PutRequisition(s1, req.value, s1.requisitions[req.value].(status := Ordered)) else s1;
      ApplyOrderEncumbrance(m, s2, id)
  }

  function CreateOrder(m: Rounding, s: State, id: Id, budget: Option<Id>, req: Option<Id>, lines: seq<Line>,
                       creator: Actor): Result<State>
  {
    if lines == [] || !ValidLines(lines) then Err(InvalidArgument)
    else RaiseOrder(m, s, id, budget, req, LinesValue(lines), OrderLines(lines), creator)
  }

  // An award charges its requisition's budget unless one is named.
  function AwardBudget(s: State, budget: Option<Id>, req: Option<Id>): Option<Id> {
    if budget.None? && req.Some? && req.value in s.requisitions then s.requisitions[req.value].budget else budget
  }

  // The order an award raises has the quoted amount and no lines.
  function AwardOrder(m: Rounding, s: State, id: Id, budget: Option<Id>, req: Option<Id>, amount: int,
                      creator: Actor): Result<State>
  {
    if amount < 0 then Err(InvalidArgument)
    else RaiseOrder(m, s, id, AwardBudget(s, budget, req), req, amount, [], creator)
  }

  datatype OrderPatch = OrderPatch(
    actor: Actor, status: Option<OrderStatus>, budget: Option<Id>,
    requisition: Option<Option<Id>>, lines: Option<seq<Line>>)

  function PatchedOrder(o: Order, p: OrderPatch): Order {
    o.(status := p.status.GetOr(o.status),
       budget := if p.budget.Some? then p.budget else o.budget,
       requisition := p.requisition.GetOr(o.requisition),
       total := if p.lines.Some? then LinesValue(p.lines.value) else o.total,
       lines := if p.lines.Some? then OrderLines(p.lines.value) else o.lines)
  }

  // Release of the un-received part, back to the budget the order is charged to.
  function ReleaseOrder(m: Rounding, s: State, o: Order): State {
    if o.budget.Some? && o.total - o.recognized > 0 && o.budget.value in s.budgets
    then PutBudget(s, o.budget.value, Uncommit(m, s.budgets[o.budget.value], o.total - o.recognized))
    else s
  }

  predicate Ends(st: OrderStatus) {
    st == OrderRejected || st == OrderCancelled
  }

  // Stage 2 follows an edit of the order from `o` to `n`, against the budget
  // `o` was charged to.
  function SyncEncumbrance(m: Rounding, s: State, id: Id, o: Order, n: Order): Result<State> {
    if !o.encumbered || o.budget.None? then Ok(s)
    else if Ends(n.status) then Ok(PutOrder(ReleaseOrder(m, s, o), id, n.(encumbered := false)))
    else if n.total == o.total then Ok(s)
    else if n.total < o.recognized then Err(InvalidArgument)
    else
      var b := o.budget.value;
      if b !in s.budgets then Ok(s)
      else if n.total > o.total
              && s.budgets[b].committed + (n.total - o.total) + s.budgets[b].spent > s.budgets[b].allotted
      then Err(InvalidArgument)
      else Ok(PutBudget(s, b, Uncommit(m, s.budgets[b], o.total - n.total)))
  }

  function UpdateOrder(m: Rounding, s: State, id: Id, p: OrderPatch): Result<State> {
    if p.lines == Some([]) then Err(InvalidArgument)
    else if id !in s.orders then Err(NotFound)
    else
      var o := s.orders[id];
      if p.status == Some(OrderApproved) && SameActor(p.actor, o.creator) then Err(Forbidden)
      else if p.lines.Some? && !ValidLines(p.lines.value) then Err(InvalidArgument)
      else if !KnownBudget(s, p.budget) then Err(InvalidArgument)
      else if p.requisition.Some? && p.requisition.value.Some? && p.requisition.value.value !in s.requisitions
      then Err(InvalidArgument)
      else
        var n := PatchedOrder(o, p);
        SyncEncumbrance(m, PutOrder(s, id, n), id, o, n)
  }

  function DeleteOrder(m: Rounding, s: State, id: Id): Result<State> {
    if id !in s.orders then Err(NotFound)
    else
      var o := s.orders[id];
      var s1 := if o.encumbered then ReleaseOrder(m, s, o) else s;
      Ok(s1.(orders := s1.orders - {id}))
  }

  /* ---- goods receipts ---- */

  // The QC hold. It ignores the case of the status; recognition does not.
  predicate HeldByQC(status: ReceiptStatus, critical: bool, released: bool) {
    critical && (status == Posted || status == PostedOtherCase) && !released
  }

  predicate Receivable(st: OrderStatus) {
    st !in {OrderDraft, OrderPending, OrderRejected, OrderCancelled}
  }

  function QtyOf(ls: seq<Line>, item: Id): int {
    if ls == [] then 0
    else QtyOf(ls[..|ls| - 1], item) + (if ls[|ls| - 1].item == item then ls[|ls| - 1].qty else 0)
  }

  function Accept(ls: seq<OrderLine>, gl: seq<Line>): seq<OrderLine> {
    seq(|ls|, i requires 0 <= i < |ls| => ls[i].(received := ls[i].received + QtyOf(gl, ls[i].item)))
  }

  function Withdraw(m: Rounding, ls: seq<OrderLine>, gl: seq<Line>): seq<OrderLine> {
    seq(|ls|, i requires 0 <= i < |ls| => ls[i].(received := Less(m, ls[i].received, QtyOf(gl, ls[i].item))))
  }

  predicate FullyReceived(ls: seq<OrderLine>) {
    forall i :: 0 <= i < |ls| ==> ls[i].received >= ls[i].qty
  }

  predicate AnyReceived(ls: seq<OrderLine>) {
    exists i :: 0 <= i < |ls| && ls[i].received > 0
  }

  // The status an order takes from its lines; an order without lines, or one in
  // a state that goods may not be received in, keeps its own.
  function Restated(o: Order): Order {
    if o.lines == [] || !Receivable(o.status) then o
    else if FullyReceived(o.lines) then o.(status := Received)
    else if AnyReceived(o.lines) then o.(status := PartiallyReceived)
    else o.(status := OrderApproved)
  }

  // What posting a receipt worth `value` takes from an order with `open` left:
  // a receipt without value takes everything.
  function Clamp(value: int, open: int): int {
    if value <= 0 || value > open then open else value
  }

  function Recognize(m: Rounding, s: State, id: Id): State
    requires id in s.receipts
  {
    var g := s.receipts[id];
    if g.order.None? || g.order.value !in s.orders then s
    else
      var p := g.order.value;
      var o := s.orders[p];
      var open := o.total - o.recognized;
      if open <= 0 then PutReceipt(s, id, g.(recognized := true, amount := 0))
      else
        var amt := Clamp(LinesValue(g.lines), open);
        var s1 := if o.budget.Some? && o.budget.value in s.budgets
                  then PutBudget(s, o.budget.value, Spend(m, s.budgets[o.budget.value], amt)) else s;
        var n := Restated(o.(recognized := o.recognized + amt, lines := Accept(o.lines, g.lines)));
        PutReceipt(PutOrder(s1, p, n), id, g.(recognized := true, amount := amt))
  }

  function Unrecognize(m: Rounding, s: State, id: Id): State
    requires id in s.receipts
  {
    var g := s.receipts[id];
    var clean := g.(recognized := false, amount := 0);
    if g.order.None? || g.order.value !in s.orders || g.amount <= 0 then PutReceipt(s, id, clean)
    else
      var p := g.order.value;
      var o := s.orders[p];
      var s1 := if o.budget.Some? && o.budget.value in s.budgets
                then PutBudget(s, o.budget.value, Unspend(m, s.budgets[o.budget.value], g.amount)) else s;
      var n := Restated(o.(recognized := Less(m, o.recognized, g.amount), lines := Withdraw(m, o.lines, g.lines)));
      PutReceipt(PutOrder(s1, p, n), id, clean)
  }

  // Stage 3 for the receipt as its row now stands.
  function RecognizeOnReceipt(m: Rounding, s: State, id: Id, posted: bool): State
    requires id in s.receipts
  {
    if posted && !s.receipts[id].recognized then Recognize(m, s, id)
    else if !posted && s.receipts[id].recognized then Unrecognize(m, s, id)
    else s
  }

  function CreateReceipt(m: Rounding, s: State, id: Id, order: Option<Id>, status: ReceiptStatus, lines: seq<Line>,
                         critical: bool, released: bool): Result<State>
  {
    if HeldByQC(status, critical, released) then Err(Conflict)
    else if id in s.receipts then Err(Conflict)
    else if order.Some? && order.value in s.orders && !Receivable(s.orders[order.value].status)
    then Err(InvalidArgument)
    else if !ValidLines(lines) then Err(InvalidArgument)
    else
      var g := Receipt(order, status, critical, released, lines, false, 0);
      Ok(RecognizeOnReceipt(m, PutReceipt(s, id, g), id, status == Posted))
  }

  // An absent order leaves the link alone; so does a blank one.
  datatype ReceiptPatch = ReceiptPatch(
    order: Option<Id>, status: Option<ReceiptStatus>, lines: Option<seq<Line>>,
    critical: Option<bool>, released: Option<bool>)

  function PatchedReceipt(g: Receipt, p: ReceiptPatch): Receipt {
    g.(order := if p.order.Some? then p.order else g.order,
       status := p.status.GetOr(g.status),
       critical := p.critical.GetOr(g.critical),
       released := p.released.GetOr(g.released),
       lines := p.lines.GetOr(g.lines))
  }

  function UpdateReceipt(m: Rounding, s: State, id: Id, p: ReceiptPatch): Result<State> {
    if id !in s.receipts then Err(NotFound)
    else
      var g := s.receipts[id];
      var n := PatchedReceipt(g, p);
      if HeldByQC(n.status, n.critical, n.released) then Err(Conflict)
      else if p.lines.Some? && (g.recognized || !ValidLines(p.lines.value)) then Err(InvalidArgument)
      else Ok(RecognizeOnReceipt(m, PutReceipt(s, id, n), id, n.status == Posted))
  }

  function DeleteReceipt(m: Rounding, s: State, id: Id): Result<State> {
    if id !in s.receipts then Err(NotFound)
    else
      var s1 := RecognizeOnReceipt(m, s, id, false);
      Ok(s1.(receipts := s1.receipts - {id}))
  }

  /* ---- runs ---- */

  datatype Op =
    | OpCreateBudget(id: Id, allotted: int, period: nat, periodEnd: Option<int>)
    | OpUpdateBudget(id: Id, newAllotted: Option<int>, newPeriod: Option<nat>)
    | OpDeleteBudget(id: Id)
    | OpCloseBudgetPeriod(policy: Policy, filter: CloseFilter, today: int)
    | OpCreateRequisition(id: Id, total: int, budget: Option<Id>, requester: Actor, status: RequisitionStatus)
    | OpUpdateRequisition(id: Id, newTotal: Option<int>, newBudget: Option<Id>, newStatus: Option<RequisitionStatus>)
    | OpSettleRequisition(id: Id, outcome: Outcome, status: RequisitionStatus)
    | OpDeleteRequisition(id: Id)
    | OpCreateOrder(id: Id, budget: Option<Id>, requisition: Option<Id>, lines: seq<Line>, creator: Actor)
    | OpAwardOrder(id: Id, budget: Option<Id>, requisition: Option<Id>, amount: int, creator: Actor)
    | OpUpdateOrder(id: Id, orderPatch: OrderPatch)
    | OpDeleteOrder(id: Id)
    | OpCreateReceipt(id: Id, order: Option<Id>, receiptStatus: ReceiptStatus, lines: seq<Line>,
                      critical: bool, released: bool)
    | OpUpdateReceipt(id: Id, receiptPatch: ReceiptPatch)
    | OpDeleteReceipt(id: Id)

  function Apply(m: Rounding, s: State, op: Op): Result<State> {
    match op
    case OpCreateBudget(id, allotted, period, periodEnd) => CreateBudget(s, id, allotted, period, periodEnd)
    case OpUpdateBudget(id, allotted, period) => UpdateBudget(s, id, allotted, period)
    case OpDeleteBudget(id) => DeleteBudget(s, id)
    case OpCloseBudgetPeriod(policy, filter, today) => Ok(CloseBudgetPeriod(s, policy, filter, today))
    case OpCreateRequisition(id, total, budget, requester, status) =>
      CreateRequisition(s, id, total, budget, requester, status)
    case OpUpdateRequisition(id, total, budget, status) => UpdateRequisition(s, id, total, budget, status)
    case OpSettleRequisition(id, outcome, status) => SettleRequisition(m, s, id, outcome, status)
    case OpDeleteRequisition(id) => DeleteRequisition(m, s, id)
    case OpCreateOrder(id, budget, req, lines, creator) => CreateOrder(m, s, id, budget, req, lines, creator)
    case OpAwardOrder(id, budget, req, amount, creator) => AwardOrder(m, s, id, budget, req, amount, creator)
    case OpUpdateOrder(id, patch) => UpdateOrder(m, s, id, patch)
    case OpDeleteOrder(id) => DeleteOrder(m, s, id)
    case OpCreateReceipt(id, order, status, lines, critical, released) =>
      CreateReceipt(m, s, id, order, status, lines, critical, released)
    case OpUpdateReceipt(id, patch) => UpdateReceipt(m, s, id, patch)
    case OpDeleteReceipt(id) => DeleteReceipt(m, s, id)
  }

  // A failed transaction is rolled back.
  function Step(m: Rounding, s: State, op: Op): State {
    match Apply(m, s, op)
    case Ok(next) => next
    case Err(_) => s
  }

  function Run(m: Rounding, s: State, ops: seq<Op>): State
    decreases |ops|
  {
    if ops == [] then s else Run(m, Step(m, s, ops[0]), ops[1..])
  }
}
