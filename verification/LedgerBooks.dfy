/** What the balances of a budget mean: sums over the documents charged to it. */
module LedgerBooks {
  import opened Values
  import opened Totals
  import opened LedgerModel

  /* ---- weights ---- */

  function OpenPart(b: Id, o: Order): int {
    if o.encumbered && o.budget == Some(b) then o.total - o.recognized else 0
  }

  function SpentPart(b: Id, o: Order): int {
    if o.encumbered && o.budget == Some(b) then o.recognized else 0
  }

  function ReservedPart(b: Id, r: Requisition): int {
    if r.encumbered && !r.preReleased && r.total > 0 && r.budget == Some(b) then r.total else 0
  }

  function RecognizedPart(p: Id, g: Receipt): int {
    if g.recognized && g.order == Some(p) then g.amount else 0
  }

  ghost function OpenOn(b: Id): Order -> int { (o: Order) => OpenPart(b, o) }

  ghost function SpentOn(b: Id): Order -> int { (o: Order) => SpentPart(b, o) }

  ghost function ReservedOn(b: Id): Requisition -> int { (r: Requisition) => ReservedPart(b, r) }

  ghost function RecognizedOn(p: Id): Receipt -> int { (g: Receipt) => RecognizedPart(p, g) }

  // Total of the un-received parts of the orders that encumber a budget.
  ghost function Open(orders: map<Id, Order>, b: Id): int { Total(orders, OpenOn(b)) }

  // Total of the received parts of the same orders.
  ghost function Spent(orders: map<Id, Order>, b: Id): int { Total(orders, SpentOn(b)) }

  // Total of the reservations not yet turned into orders.
  ghost function Held(reqs: map<Id, Requisition>, b: Id): int { Total(reqs, ReservedOn(b)) }

  // Total recognized by the receipts of an order.
  ghost function Receipted(receipts: map<Id, Receipt>, p: Id): int { Total(receipts, RecognizedOn(p)) }

  /* ---- invariants ---- */

  predicate RequisitionOk(budgets: map<Id, Budget>, r: Requisition) {
    && (r.budget.Some? ==> r.budget.value in budgets)
    && (r.encumbered && !r.preReleased ==> r.budget.Some? && r.total > 0)
  }

  predicate OrderOk(budgets: map<Id, Budget>, o: Order) {
    && (o.budget.Some? ==> o.budget.value in budgets)
    && (o.encumbered ==> o.budget.Some? && 0 <= o.recognized <= o.total)
  }

  predicate ReceiptOk(g: Receipt) {
    if g.recognized then g.order.Some? && g.amount >= 0 else g.amount == 0
  }

  // Every document is well formed, and an order has recognized exactly what its
  // receipts say.
  ghost predicate Documents(s: State) {
    && (forall r :: r in s.requisitions ==> RequisitionOk(s.budgets, s.requisitions[r]))
    && (forall p :: p in s.orders ==> OrderOk(s.budgets, s.orders[p]))
    && (forall g :: g in s.receipts ==> ReceiptOk(s.receipts[g]))
    && (forall p :: p in s.orders ==> s.orders[p].recognized == Receipted(s.receipts, p))
  }

  // Each balance is the sum it stands for.
  ghost predicate Exact(s: State) {
    forall b :: b in s.budgets ==>
      s.budgets[b].committed == Open(s.orders, b) && s.budgets[b].preCommitted == Held(s.requisitions, b)
  }

  // After a lapse a balance may be short of its sum, but never above it.
  ghost predicate Bounded(s: State) {
    forall b :: b in s.budgets ==>
      s.budgets[b].committed <= Open(s.orders, b) && s.budgets[b].preCommitted <= Held(s.requisitions, b)
  }

  // The stored remainder is the arithmetic one and no stage is negative.
  predicate RowSound(b: Budget) {
    b.remaining == Headroom(b) && b.preCommitted >= 0 && b.committed >= 0 && b.spent >= 0
  }

  ghost predicate RowsSound(s: State) {
    forall b :: b in s.budgets ==> RowSound(s.budgets[b])
  }

  ghost predicate Books(s: State) {
    Documents(s) && RowsSound(s) && Exact(s)
  }

  // What is left of the books once a period has lapsed.
  ghost predicate LapsedBooks(s: State) {
    Documents(s) && RowsSound(s) && Bounded(s)
  }

  // The spend of a budget covers what the orders encumbering it have received.
  ghost predicate SpendCovered(s: State) {
    forall b :: b in s.budgets ==> s.budgets[b].spent >= Spent(s.orders, b)
  }

  // Firm commitments and spend stay inside the allocation.
  predicate WithinAllocation(b: Budget) {
    b.committed + b.spent <= b.allotted
  }

  ghost predicate Ceiling(s: State) {
    forall b :: b in s.budgets ==> WithinAllocation(s.budgets[b])
  }

  /* ---- sums under a change of one row ---- */

  lemma OpenPut(orders: map<Id, Order>, p: Id, o: Order)
    ensures forall b :: Open(orders[p := o], b)
                     == Open(orders, b) + OpenPart(b, o) - (if p in orders then OpenPart(b, orders[p]) else 0)
    ensures forall b :: Spent(orders[p := o], b)
                     == Spent(orders, b) + SpentPart(b, o) - (if p in orders then SpentPart(b, orders[p]) else 0)
  {
    forall b ensures Open(orders[p := o], b)
                  == Open(orders, b) + OpenPart(b, o) - (if p in orders then OpenPart(b, orders[p]) else 0)
    {
      TotalPut(orders, p, o, OpenOn(b));
    }
    forall b ensures Spent(orders[p := o], b)
                  == Spent(orders, b) + SpentPart(b, o) - (if p in orders then SpentPart(b, orders[p]) else 0)
    {
      TotalPut(orders, p, o, SpentOn(b));
    }
  }

  lemma OpenDrop(orders: map<Id, Order>, p: Id)
    requires p in orders
    ensures forall b :: Open(orders - {p}, b) == Open(orders, b) - OpenPart(b, orders[p])
    ensures forall b :: Spent(orders - {p}, b) == Spent(orders, b) - SpentPart(b, orders[p])
  {
    forall b ensures Open(orders - {p}, b) == Open(orders, b) - OpenPart(b, orders[p]) {
      TotalRemove(orders, p, OpenOn(b));
    }
    forall b ensures Spent(orders - {p}, b) == Spent(orders, b) - SpentPart(b, orders[p]) {
      TotalRemove(orders, p, SpentOn(b));
    }
  }

  lemma HeldPut(reqs: map<Id, Requisition>, r: Id, row: Requisition)
    ensures forall b :: Held(reqs[r := row], b)
                     == Held(reqs, b) + ReservedPart(b, row) - (if r in reqs then ReservedPart(b, reqs[r]) else 0)
  {
    forall b ensures Held(reqs[r := row], b)
                  == Held(reqs, b) + ReservedPart(b, row) - (if r in reqs then ReservedPart(b, reqs[r]) else 0)
    {
      TotalPut(reqs, r, row, ReservedOn(b));
    }
  }

  lemma HeldDrop(reqs: map<Id, Requisition>, r: Id)
    requires r in reqs
    ensures forall b :: Held(reqs - {r}, b) == Held(reqs, b) - ReservedPart(b, reqs[r])
  {
    forall b ensures Held(reqs - {r}, b) == Held(reqs, b) - ReservedPart(b, reqs[r]) {
      TotalRemove(reqs, r, ReservedOn(b));
    }
  }

  lemma ReceiptedPut(receipts: map<Id, Receipt>, g: Id, row: Receipt)
    ensures forall p :: Receipted(receipts[g := row], p)
                     == Receipted(receipts, p) + RecognizedPart(p, row)
                        - (if g in receipts then RecognizedPart(p, receipts[g]) else 0)
  {
    forall p ensures Receipted(receipts[g := row], p)
                  == Receipted(receipts, p) + RecognizedPart(p, row)
                     - (if g in receipts then RecognizedPart(p, receipts[g]) else 0)
    {
      TotalPut(receipts, g, row, RecognizedOn(p));
    }
  }

  lemma ReceiptedDrop(receipts: map<Id, Receipt>, g: Id)
    requires g in receipts
    ensures forall p :: Receipted(receipts - {g}, p) == Receipted(receipts, p) - RecognizedPart(p, receipts[g])
  {
    forall p ensures Receipted(receipts - {g}, p) == Receipted(receipts, p) - RecognizedPart(p, receipts[g]) {
      TotalRemove(receipts, g, RecognizedOn(p));
    }
  }

  /* ---- signs ---- */

  lemma OpenSigns(s: State)
    requires Documents(s)
    ensures forall b :: Open(s.orders, b) >= 0
    ensures forall b, p :: p in s.orders ==> Open(s.orders, b) >= OpenPart(b, s.orders[p])
    ensures forall b, p :: p in s.orders ==> Spent(s.orders, b) >= SpentPart(b, s.orders[p])
    ensures forall b :: b !in s.budgets ==> Open(s.orders, b) == 0
  {
    assert forall b, p :: p in s.orders ==> OpenOn(b)(s.orders[p]) >= 0 && SpentOn(b)(s.orders[p]) >= 0;
    forall b ensures Open(s.orders, b) >= 0 {
      TotalNonNegative(s.orders, OpenOn(b));
    }
    forall b, p | p in s.orders
      ensures Open(s.orders, b) >= OpenPart(b, s.orders[p]) && Spent(s.orders, b) >= SpentPart(b, s.orders[p])
    {
      TotalCovers(s.orders, p, OpenOn(b));
      TotalCovers(s.orders, p, SpentOn(b));
    }
    forall b | b !in s.budgets ensures Open(s.orders, b) == 0 {
      TotalZero(s.orders, OpenOn(b));
    }
  }

  lemma HeldSigns(s: State)
    requires Documents(s)
    ensures forall b :: Held(s.requisitions, b) >= 0
    ensures forall b, r :: r in s.requisitions ==> Held(s.requisitions, b) >= ReservedPart(b, s.requisitions[r])
    ensures forall b :: b !in s.budgets ==> Held(s.requisitions, b) == 0
  {
    forall b ensures Held(s.requisitions, b) >= 0 {
      TotalNonNegative(s.requisitions, ReservedOn(b));
    }
    forall b, r | r in s.requisitions ensures Held(s.requisitions, b) >= ReservedPart(b, s.requisitions[r]) {
      TotalCovers(s.requisitions, r, ReservedOn(b));
    }
    forall b | b !in s.budgets ensures Held(s.requisitions, b) == 0 {
      TotalZero(s.requisitions, ReservedOn(b));
    }
  }

  lemma ReceiptedSigns(s: State)
    requires Documents(s)
    ensures forall p :: Receipted(s.receipts, p) >= 0
    ensures forall p, g :: g in s.receipts ==> Receipted(s.receipts, p) >= RecognizedPart(p, s.receipts[g])
  {
    assert forall p, g :: g in s.receipts ==> RecognizedOn(p)(s.receipts[g]) >= 0;
    forall p ensures Receipted(s.receipts, p) >= 0 {
      TotalNonNegative(s.receipts, RecognizedOn(p));
    }
    forall p, g | g in s.receipts ensures Receipted(s.receipts, p) >= RecognizedPart(p, s.receipts[g]) {
      TotalCovers(s.receipts, g, RecognizedOn(p));
    }
  }
}
