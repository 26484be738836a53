/** What a refused transaction reports: which of the four errors, read off the
  * tables and the request.
  */
module LedgerRefusals {
  import opened Values
  import opened LedgerModel

  // The creator of an order asks for its approval.
  predicate ApprovesOwn(s: State, op: Op) {
    && op.OpUpdateOrder? && op.orderPatch.lines != Some([]) && op.id in s.orders
    && op.orderPatch.status == Some(OrderApproved)
    && op.orderPatch.actor.Named? && op.orderPatch.actor == s.orders[op.id].creator
  }

  // The row the request is about does not exist. Setting a status only an approval
  // or an order may set, and an empty list of lines, are noticed before that.
  predicate Missing(s: State, op: Op) {
    match op
    case OpUpdateBudget(id, _, _) => id !in s.budgets
    case OpDeleteBudget(id) => id !in s.budgets
    case OpUpdateRequisition(id, _, _, st) =>
      id !in s.requisitions && st != Some(Approved) && st != Some(Rejected) && st != Some(Ordered)
    case OpSettleRequisition(id, _, _) => id !in s.requisitions
    case OpDeleteRequisition(id) => id !in s.requisitions
    case OpUpdateOrder(id, p) => id !in s.orders && p.lines != Some([])
    case OpDeleteOrder(id) => id !in s.orders
    case OpUpdateReceipt(id, _) => id !in s.receipts
    case OpDeleteReceipt(id) => id !in s.receipts
    case _ => false
  }

  predicate LinesInOrder(ls: seq<Line>) {
    forall i :: 0 <= i < |ls| ==> ls[i].qty > 0 && ls[i].price >= 0
  }

  predicate NumberUsed(s: State, id: Id) {
    id in s.orders || exists g :: g in s.receipts && s.receipts[g].order == Some(id)
  }

  // Quality control has not released a critical receipt that asks to be posted.
  predicate OnHold(status: ReceiptStatus, critical: bool, released: bool) {
    critical && !released && status in {Posted, PostedOtherCase}
  }

  // The request collides with a row that is there, with a decision only approvals
  // and orders make, or with the hold of quality control.
  predicate Collides(s: State, op: Op) {
    match op
    case OpCreateBudget(id, _, _, _) => id in s.budgets
    case OpCreateRequisition(id, _, _, _, _) => id in s.requisitions
    case OpUpdateRequisition(_, _, _, st) => st == Some(Approved) || st == Some(Rejected) || st == Some(Ordered)
    case OpCreateOrder(id, _, _, lines, _) => NumberUsed(s, id) && lines != [] && LinesInOrder(lines)
    case OpAwardOrder(id, _, _, amount, _) => NumberUsed(s, id) && amount >= 0
    case OpCreateReceipt(id, _, status, _, critical, released) => OnHold(status, critical, released) || id in s.receipts
    case OpUpdateReceipt(id, p) =>
      && id in s.receipts
      && var g := s.receipts[id];
      OnHold(if p.status.Some? then p.status.value else g.status,
             if p.critical.Some? then p.critical.value else g.critical,
             if p.released.Some? then p.released.value else g.released)
    case _ => false
  }

  lemma ForbiddenIff(s: State, op: Op)
    ensures ApprovesOwn(s, op) <==> Apply(Floored, s, op) == Err(Forbidden)
  {}

  lemma NotFoundIff(s: State, op: Op)
    ensures Missing(s, op) <==> Apply(Floored, s, op) == Err(NotFound)
  {}

  lemma ConflictIff(s: State, op: Op)
    ensures Collides(s, op) <==> Apply(Floored, s, op) == Err(Conflict)
  {
    if op.OpCreateOrder? {
      assert ValidLines(op.lines) == LinesInOrder(op.lines);
    }
  }

  // A transaction is refused as forbidden, as not found or as a conflict in exactly
  // these cases; every other refusal, the want of money among them, is an invalid argument.
  lemma RefusalsSayWhy(s: State, op: Op)
    ensures match Apply(Floored, s, op)
            case Err(Forbidden) => ApprovesOwn(s, op)
            case Err(NotFound) => Missing(s, op)
            case Err(Conflict) => Collides(s, op)
            case _ => !ApprovesOwn(s, op) && !Missing(s, op) && !Collides(s, op)
  {
    ForbiddenIff(s, op);
    NotFoundIff(s, op);
    ConflictIff(s, op);
  }
}
