/** Goods receipts: clamping, order-freedom, undoing, and the status they give. */
module LedgerReceipts {
  import opened Values
  import opened Totals
  import opened LedgerModel
  import opened LedgerBooks
  import opened LedgerSteps
  import opened LedgerQuantities
  import opened LedgerRuns

  /* ---- any postings recognize min(what is open, sum of values) ---- */

  // The transaction posts a receipt of order p: it creates one as posted, or
  // patches one that was not.
  predicate PostsTo(s: State, op: Op, p: Id) {
    Apply(Floored, s, op).Ok? &&
    match op
    case OpCreateReceipt(_, order, status, _, _, _) => status == Posted && order == Some(p)
    case OpUpdateReceipt(id, patch) =>
      && id in s.receipts && !s.receipts[id].recognized
      && PatchedReceipt(s.receipts[id], patch).status == Posted
      && PatchedReceipt(s.receipts[id], patch).order == Some(p)
    case _ => false
  }

  function ValuePosted(s: State, op: Op): int {
    match op
    case OpCreateReceipt(_, _, _, lines, _, _) => LinesValue(lines)
    case OpUpdateReceipt(id, patch) =>
      if id in s.receipts then LinesValue(PatchedReceipt(s.receipts[id], patch).lines) else 0
    case _ => 0
  }

  // Other traffic leaves the order's total, and what it recognized, alone.
  predicate LeavesOrder(s: State, op: Op, p: Id) {
    var t := Step(Floored, s, op);
    && p in s.orders && p in t.orders
    && t.orders[p].total == s.orders[p].total && t.orders[p].recognized == s.orders[p].recognized
  }

  ghost function PostsOrLeaves(p: Id): (State, Op) -> bool {
    (s: State, op: Op) => if PostsTo(s, op, p) then ValuePosted(s, op) > 0 else LeavesOrder(s, op, p)
  }

  // The values a run posts to order p, in order.
  function ValuesAlong(s: State, ops: seq<Op>, p: Id): seq<int>
    decreases |ops|
  {
    if ops == [] then []
    else
      (if PostsTo(s, ops[0], p) then [ValuePosted(s, ops[0])] else [])
      + ValuesAlong(Step(Floored, s, ops[0]), ops[1..], p)
  }

  function SpentOf(s: State, b: Option<Id>): int {
    if b.Some? && b.value in s.budgets then s.budgets[b.value].spent else 0
  }

  // What those postings add to the spend of the budget order p is charged to.
  function SpentAlong(s: State, ops: seq<Op>, p: Id): int
    decreases |ops|
  {
    if ops == [] then 0 else SpentNow(s, ops[0], p) + SpentAlong(Step(Floored, s, ops[0]), ops[1..], p)
  }

  function SpentNow(s: State, op: Op, p: Id): int {
    if PostsTo(s, op, p) && p in s.orders
    then SpentOf(Step(Floored, s, op), s.orders[p].budget) - SpentOf(s, s.orders[p].budget) else 0
  }

  function ValueNow(s: State, op: Op, p: Id): int {
    if PostsTo(s, op, p) then ValuePosted(s, op) else 0
  }

  function Sum(xs: seq<int>): int {
    if xs == [] then 0 else xs[0] + Sum(xs[1..])
  }

  // What receipts worth `sum` in all take from an order with `open` left.
  function Taken(open: int, sum: int): int {
    if open <= 0 then 0 else Min(open, sum)
  }

  // An order that has a budget keeps one, and it exists.
  predicate Funded(s: State, p: Id) {
    p in s.orders && KnownBudget(s, s.orders[p].budget)
  }

  lemma PostingTakes(s: State, id: Id, p: Id)
    requires Funded(s, p) && id in s.receipts && s.receipts[id].order == Some(p) && LinesValue(s.receipts[id].lines) > 0
    ensures var t := Recognize(Floored, s, id);
            var o := s.orders[p];
            var taken := Taken(o.total - o.recognized, LinesValue(s.receipts[id].lines));
            && Funded(t, p) && t.orders[p].total == o.total && t.orders[p].budget == o.budget
            && t.orders[p].recognized == o.recognized + taken
            && (o.budget.Some? ==> SpentOf(t, o.budget) == SpentOf(s, o.budget) + taken)
  {}

  lemma PostingMoves(s: State, op: Op, p: Id)
    requires Funded(s, p) && PostsTo(s, op, p) && ValuePosted(s, op) > 0
    ensures var t := Step(Floored, s, op);
            var o := s.orders[p];
            var taken := Taken(o.total - o.recognized, ValuePosted(s, op));
            && Funded(t, p) && t.orders[p].total == o.total && t.orders[p].budget == o.budget
            && t.orders[p].recognized == o.recognized + taken
            && (o.budget.Some? ==> SpentOf(t, o.budget) == SpentOf(s, o.budget) + taken)
  {
    match op
    case OpCreateReceipt(id, order, status, lines, critical, released) =>
      PostingTakes(PutReceipt(s, id, Receipt(order, status, critical, released, lines, false, 0)), id, p);
    case OpUpdateReceipt(id, patch) =>
      PostingTakes(PutReceipt(s, id, PatchedReceipt(s.receipts[id], patch)), id, p);
  }

  lemma RecognitionKeepsFunded(s: State, id: Id, posted: bool, p: Id)
    requires Funded(s, p) && id in s.receipts
    ensures var t := RecognizeOnReceipt(Floored, s, id, posted);
            Funded(t, p) && t.orders[p].budget == s.orders[p].budget
  {}

  lemma RaiseKeepsFunded(s: State, id: Id, budget: Option<Id>, req: Option<Id>, total: int,
                         lines: seq<OrderLine>, creator: Actor, p: Id)
    requires Funded(s, p) && RaiseOrder(Floored, s, id, budget, req, total, lines, creator).Ok?
    ensures var t := RaiseOrder(Floored, s, id, budget, req, total, lines, creator).value;
            Funded(t, p) && t.orders[p].budget == s.orders[p].budget
  {}

  lemma EditKeepsFunded(s: State, id: Id, patch: OrderPatch, p: Id)
    requires Funded(s, p) && UpdateOrder(Floored, s, id, patch).Ok?
    ensures var t := UpdateOrder(Floored, s, id, patch).value;
            Funded(t, p) && (s.orders[p].budget.Some? ==> t.orders[p].budget.Some?)
  {}

  // No transaction takes an order's budget away while the order is there.
  lemma StaysFunded(s: State, op: Op, p: Id)
    requires Funded(s, p) && p in Step(Floored, s, op).orders
    ensures var t := Step(Floored, s, op); Funded(t, p) && (s.orders[p].budget.Some? ==> t.orders[p].budget.Some?)
  {
    if Apply(Floored, s, op).Err? {
      return;
    }
    match op
    case OpCreateOrder(id, budget, req, lines, creator) =>
      RaiseKeepsFunded(s, id, budget, req, LinesValue(lines), OrderLines(lines), creator, p);
    case OpAwardOrder(id, budget, req, amount, creator) =>
      RaiseKeepsFunded(s, id, AwardBudget(s, budget, req), req, amount, [], creator, p);
    case OpUpdateOrder(id, patch) => EditKeepsFunded(s, id, patch, p);
    case OpCreateReceipt(id, order, status, lines, critical, released) =>
      var g := Receipt(order, status, critical, released, lines, false, 0);
      RecognitionKeepsFunded(PutReceipt(s, id, g), id, status == Posted, p);
    case OpUpdateReceipt(id, patch) =>
      var n := PatchedReceipt(s.receipts[id], patch);
      RecognitionKeepsFunded(PutReceipt(s, id, n), id, n.status == Posted, p);
    case OpDeleteReceipt(id) => RecognitionKeepsFunded(s, id, false, p);
    case _ =>
  }

  lemma {:induction false} ValuesArePositive(s: State, ops: seq<Op>, p: Id)
    requires AllAlong(s, ops, PostsOrLeaves(p))
    ensures forall i :: 0 <= i < |ValuesAlong(s, ops, p)| ==> ValuesAlong(s, ops, p)[i] > 0
    decreases |ops|
  {
    if ops != [] {
      ValuesArePositive(Step(Floored, s, ops[0]), ops[1..], p);
    }
  }

  lemma TakenAdds(open: int, v: int, sum: int)
    requires v >= 0 && sum >= 0
    ensures Taken(open, v) + Taken(open - Taken(open, v), sum) == Taken(open, v + sum)
  {}

  // One transaction and the rest of the run.
  lemma SumAlong(s: State, ops: seq<Op>, p: Id)
    requires ops != []
    ensures Sum(ValuesAlong(s, ops, p)) ==
            ValueNow(s, ops[0], p) + Sum(ValuesAlong(Step(Floored, s, ops[0]), ops[1..], p))
  {
    var rest := ValuesAlong(Step(Floored, s, ops[0]), ops[1..], p);
    if PostsTo(s, ops[0], p) {
      assert ([ValuePosted(s, ops[0])] + rest)[1..] == rest;
    } else {
      assert [] + rest == rest;
    }
  }

  lemma OneStepTakes(s: State, op: Op, p: Id)
    requires Funded(s, p) && PostsOrLeaves(p)(s, op)
    ensures var u, o := Step(Floored, s, op), s.orders[p];
            var taken := Taken(o.total - o.recognized, ValueNow(s, op, p));
            && ValueNow(s, op, p) >= 0
            && Funded(u, p) && u.orders[p].total == o.total && (o.budget.Some? ==> u.orders[p].budget.Some?)
            && u.orders[p].recognized == o.recognized + taken
            && (o.budget.Some? ==> SpentNow(s, op, p) == taken)
  {
    if PostsTo(s, op, p) {
      PostingMoves(s, op, p);
    }
    StaysFunded(s, op, p);
  }

  // However receipts of an order are posted, and whatever else happens that leaves
  // its total alone, they recognize in all what was open or the sum of their
  // values, whichever is less, and its budget's spend takes up just that.
  lemma {:induction false} PostingsRecognizeMin(s: State, ops: seq<Op>, p: Id)
    requires Funded(s, p) && AllAlong(s, ops, PostsOrLeaves(p))
    ensures Funded(Run(Floored, s, ops), p)
    ensures var o := s.orders[p];
            var taken := Taken(o.total - o.recognized, Sum(ValuesAlong(s, ops, p)));
            && Run(Floored, s, ops).orders[p].recognized == o.recognized + taken
            && (o.budget.Some? ==> SpentAlong(s, ops, p) == taken)
    decreases |ops|
  {
    if ops != [] {
      var u, o := Step(Floored, s, ops[0]), s.orders[p];
      OneStepTakes(s, ops[0], p);
      PostingsRecognizeMin(u, ops[1..], p);
      ValuesArePositive(u, ops[1..], p);
      SumNonNegative(ValuesAlong(u, ops[1..], p));
      SumAlong(s, ops, p);
      TakenAdds(o.total - o.recognized, ValueNow(s, ops[0], p), Sum(ValuesAlong(u, ops[1..], p)));
    }
  }

  lemma {:induction false} SumNonNegative(xs: seq<int>)
    requires forall i :: 0 <= i < |xs| ==> xs[i] >= 0
    ensures Sum(xs) >= 0
  {
    if xs != [] {
      SumNonNegative(xs[1..]);
    }
  }

  lemma {:induction false} SumWithout(xs: seq<int>, i: nat)
    requires i < |xs|
    ensures Sum(xs) == xs[i] + Sum(xs[..i] + xs[i + 1..])
  {
    if i > 0 {
      SumWithout(xs[1..], i - 1);
      assert (xs[..i] + xs[i + 1..])[1..] == xs[1..][..i - 1] + xs[1..][i..];
    } else {
      assert xs[..0] + xs[1..] == xs[1..];
    }
  }

  lemma Without(xs: seq<int>, i: nat)
    requires i < |xs|
    ensures multiset(xs[..i] + xs[i + 1..]) == multiset(xs) - multiset{xs[i]}
  {
    assert xs == xs[..i] + [xs[i]] + xs[i + 1..];
  }

  lemma RestIsPermuted(xs: seq<int>, ys: seq<int>, i: nat)
    requires xs != [] && i < |ys| && ys[i] == xs[0] && multiset(xs) == multiset(ys)
    ensures multiset(xs[1..]) == multiset(ys[..i] + ys[i + 1..])
  {
    Without(xs, 0);
    Without(ys, i);
    assert xs[..0] + xs[1..] == xs[1..];
  }

  lemma {:induction false} SumOfPermutation(xs: seq<int>, ys: seq<int>)
    requires multiset(xs) == multiset(ys)
    ensures Sum(xs) == Sum(ys)
    decreases |xs|
  {
    if xs == [] {
      assert |ys| == |multiset(ys)| == 0;
    } else {
      assert xs[0] in multiset(ys);
      var i :| 0 <= i < |ys| && ys[i] == xs[0];
      RestIsPermuted(xs, ys, i);
      SumOfPermutation(xs[1..], ys[..i] + ys[i + 1..]);
      SumWithout(ys, i);
    }
  }

  // The order in which values are posted does not matter to the money.
  lemma PostingsOrderFree(s: State, a: seq<Op>, b: seq<Op>, p: Id)
    requires Funded(s, p) && AllAlong(s, a, PostsOrLeaves(p)) && AllAlong(s, b, PostsOrLeaves(p))
    requires multiset(ValuesAlong(s, a, p)) == multiset(ValuesAlong(s, b, p))
    ensures p in Run(Floored, s, a).orders && p in Run(Floored, s, b).orders
    ensures Run(Floored, s, a).orders[p].recognized == Run(Floored, s, b).orders[p].recognized
    ensures s.orders[p].budget.Some? ==> SpentAlong(s, a, p) == SpentAlong(s, b, p)
  {
    SumOfPermutation(ValuesAlong(s, a, p), ValuesAlong(s, b, p));
    PostingsRecognizeMin(s, a, p);
    PostingsRecognizeMin(s, b, p);
  }

  /* ---- posting, then un-posting ---- */

  function Repost(id: Id, status: ReceiptStatus): Op {
    OpUpdateReceipt(id, ReceiptPatch(None, Some(status), None, None, None))
  }

  lemma UnspendUndoesSpend(b: Budget, amt: int)
    requires RowSound(b) && 0 <= amt <= b.committed
    ensures Unspend(Floored, Spend(Floored, b, amt), amt) == b
  {}

  function Accepted(o: Order, gl: seq<Line>, amt: int): Order {
    Restated(o.(recognized := o.recognized + amt, lines := Accept(o.lines, gl)))
  }

  function Withdrawn(o: Order, gl: seq<Line>, amt: int): Order {
    Restated(o.(recognized := Less(Floored, o.recognized, amt), lines := Withdraw(Floored, o.lines, gl)))
  }

  lemma WithdrawnUndoesAccepted(o: Order, gl: seq<Line>, amt: int)
    requires o.recognized >= 0 && amt >= 0
    requires forall i :: 0 <= i < |o.lines| ==> o.lines[i].received >= 0
    ensures Withdrawn(Accepted(o, gl, amt), gl, amt).(status := o.status) == o
  {
    assert Withdraw(Floored, Accept(o.lines, gl), gl) == o.lines;
  }

  lemma UnrecognizeUndoesRecognize(s: State, id: Id, draft: Receipt)
    requires Books(s) && Quantities(s) && id in s.receipts && !s.receipts[id].recognized
    requires draft == s.receipts[id].(status := draft.status)
    requires KnownOrder(s, s.receipts[id].order) && s.orders[s.receipts[id].order.value].encumbered
    ensures var p := s.receipts[id].order.value;
            var u := Recognize(Floored, s, id);
            && id in u.receipts && u.receipts[id].recognized
            && var t := Unrecognize(Floored, PutReceipt(u, id, u.receipts[id].(status := draft.status)), id);
            && p in t.orders && t == s.(orders := s.orders[p := s.orders[p].(status := t.orders[p].status)],
                                        receipts := s.receipts[id := draft])
  {
    var g := s.receipts[id];
    var p := g.order.value;
    var o := s.orders[p];
    assert OrderOk(s.budgets, o) && ReceiptOk(g);
    OpenSigns(s);
    var b := o.budget.value;
    var open := o.total - o.recognized;
    assert s.budgets[b].committed >= OpenPart(b, o) == open && RowSound(s.budgets[b]);
    ReceiptedSigns(s);
    forall i | 0 <= i < |o.lines| ensures o.lines[i].received >= 0 {
      assert LinesMatch(s.receipts, p, o.lines);
      DeliveredNonNegative(s, p, o.lines[i].item);
    }
    if open > 0 {
      var amt := Clamp(LinesValue(g.lines), open);
      WithdrawnUndoesAccepted(o, g.lines, amt);
      UnspendUndoesSpend(s.budgets[b], amt);
      RecognitionThenReversal(s, id, draft, p, b, amt);
    } else {
      var empty := g.(recognized := true, amount := 0);
      assert s.receipts[id := empty][id := empty.(status := draft.status)][id := draft] == s.receipts[id := draft];
      assert s.orders[p := o] == s.orders;
    }
  }

  lemma RecognitionThenReversal(s: State, id: Id, draft: Receipt, p: Id, b: Id, amt: int)
    requires id in s.receipts && p in s.orders && b in s.budgets && amt > 0
    requires var g, o := s.receipts[id], s.orders[p];
             && g.order == Some(p) && o.budget == Some(b) && !g.recognized && g.amount == 0
             && draft == g.(status := draft.status)
             && o.total > o.recognized && amt == Clamp(LinesValue(g.lines), o.total - o.recognized)
             && Unspend(Floored, Spend(Floored, s.budgets[b], amt), amt) == s.budgets[b]
    ensures var u := Recognize(Floored, s, id);
            && id in u.receipts && u.receipts[id].recognized
            && Unrecognize(Floored, PutReceipt(u, id, u.receipts[id].(status := draft.status)), id)
               == s.(orders := s.orders[p := Withdrawn(Accepted(s.orders[p], draft.lines, amt), draft.lines, amt)],
                     receipts := s.receipts[id := draft])
  {
    var g, o := s.receipts[id], s.orders[p];
    var posted := g.(recognized := true, amount := amt);
    var n := posted.(status := draft.status);
    var o1 := Accepted(o, g.lines, amt);
    assert Recognize(Floored, s, id)
        == PutReceipt(PutOrder(PutBudget(s, b, Spend(Floored, s.budgets[b], amt)), p, o1), id, posted);
    assert s.budgets[b := Spend(Floored, s.budgets[b], amt)][b := s.budgets[b]] == s.budgets;
    assert s.orders[p := o1][p := Withdrawn(o1, g.lines, amt)] == s.orders[p := Withdrawn(o1, g.lines, amt)];
    assert s.receipts[id := posted][id := n][id := draft] == s.receipts[id := draft];
  }

  lemma DeliveredNonNegative(s: State, p: Id, item: Id)
    requires Quantities(s)
    ensures Delivered(s.receipts, p, item) >= 0
  {
    forall k | k in s.receipts ensures QtyOn(p, item)(s.receipts[k]) >= 0 {
      QtyOfNonNegative(s.receipts[k].lines, item);
    }
    TotalNonNegative(s.receipts, QtyOn(p, item));
  }

  lemma RepostStep(s: State, id: Id, status: ReceiptStatus)
    requires id in s.receipts
    requires s.receipts[id].critical ==> s.receipts[id].released
    ensures Step(Floored, s, Repost(id, status))
         == RecognizeOnReceipt(Floored, PutReceipt(s, id, s.receipts[id].(status := status)), id, status == Posted)
  {}

  // Posting a draft by patch, and patching it back.
  lemma RepostTwice(s: State, id: Id)
    requires id in s.receipts && s.receipts[id].status != Posted && !s.receipts[id].recognized
    requires s.receipts[id].critical ==> s.receipts[id].released
    requires var u := Recognize(Floored, PutReceipt(s, id, s.receipts[id].(status := Posted)), id);
             && id in u.receipts && u.receipts[id].recognized
             && (u.receipts[id].critical ==> u.receipts[id].released)
    ensures var g := s.receipts[id];
            var u := Recognize(Floored, PutReceipt(s, id, g.(status := Posted)), id);
            Step(Floored, Step(Floored, s, Repost(id, Posted)), Repost(id, g.status))
            == Unrecognize(Floored, PutReceipt(u, id, u.receipts[id].(status := g.status)), id)
  {
    var g := s.receipts[id];
    RepostStep(s, id, Posted);
    RepostStep(Recognize(Floored, PutReceipt(s, id, g.(status := Posted)), id), id, g.status);
  }

  lemma RecognizeKeepsFlags(s: State, id: Id)
    requires id in s.receipts
    ensures var u := Recognize(Floored, s, id);
            && id in u.receipts
            && u.receipts[id].critical == s.receipts[id].critical && u.receipts[id].released == s.receipts[id].released
  {}

  // Un-posting gives every table back as it was, but for the order's status.
  lemma UnpostUndoesPost(s: State, id: Id)
    requires Books(s) && Quantities(s) && id in s.receipts
    requires var g := s.receipts[id];
             g.status != Posted && !g.recognized && (g.critical ==> g.released)
             && KnownOrder(s, g.order) && s.orders[g.order.value].encumbered
    ensures var g := s.receipts[id];
            var p := g.order.value;
            var t := Step(Floored, Step(Floored, s, Repost(id, Posted)), Repost(id, g.status));
            p in t.orders && t == s.(orders := s.orders[p := s.orders[p].(status := t.orders[p].status)])
  {
    var g := s.receipts[id];
    var posted := g.(status := Posted);
    var s1 := PutReceipt(s, id, posted);
    assert ReceiptOk(g);
    PostedRowKeepsBooks(s, id, posted);
    UnrecognizeUndoesRecognize(s1, id, g);
    RecognizeKeepsFlags(s1, id);
    RepostTwice(s, id);
    assert s.receipts[id := posted][id := g] == s.receipts;
  }

  lemma PostedRowKeepsBooks(s: State, id: Id, row: Receipt)
    requires Books(s) && Quantities(s) && id in s.receipts && !s.receipts[id].recognized
    requires row == s.receipts[id].(status := row.status)
    ensures Books(PutReceipt(s, id, row)) && Quantities(PutReceipt(s, id, row))
  {
    assert ReceiptOk(s.receipts[id]);
    ReceiptWriteTracks(s, PutReceipt(s, id, row), id, row);
    WriteKeepsQuantities(s, id, row);
  }

  /* ---- the status an order shows ---- */

  // The status says what was delivered of every line.
  ghost predicate StatusTellsDelivery(s: State, p: Id)
    requires p in s.orders
  {
    var o := s.orders[p];
    o.lines != [] && o.status !in {OrderDraft, OrderPending, OrderRejected, OrderCancelled} ==>
      var full := forall i :: 0 <= i < |o.lines| ==> Delivered(s.receipts, p, o.lines[i].item) >= o.lines[i].qty;
      var some := exists i :: 0 <= i < |o.lines| && Delivered(s.receipts, p, o.lines[i].item) > 0;
      && (o.status == Received <==> full)
      && (o.status == PartiallyReceived <==> !full && some)
      && (o.status == OrderApproved <==> !full && !some)
  }

  lemma RestatedTellsDelivery(s: State, p: Id, o: Order)
    requires Quantities(s) && p in s.orders && s.orders[p] == Restated(o)
    ensures StatusTellsDelivery(s, p)
  {
    assert LinesMatch(s.receipts, p, s.orders[p].lines);
  }

  lemma MovedOrderIsRestated(s: State, id: Id, posted: bool, p: Id)
    requires id in s.receipts && p in s.orders
    requires RecognizeOnReceipt(Floored, s, id, posted).orders[p].recognized != s.orders[p].recognized
    ensures exists o :: RecognizeOnReceipt(Floored, s, id, posted).orders[p] == Restated(o)
  {
    var g := s.receipts[id];
    var o := s.orders[p];
    if posted {
      var amt := Clamp(LinesValue(g.lines), o.total - o.recognized);
      assert RecognizeOnReceipt(Floored, s, id, posted).orders[p] ==
          Restated(o.(recognized := o.recognized + amt, lines := Accept(o.lines, g.lines)));
    } else {
      assert RecognizeOnReceipt(Floored, s, id, posted).orders[p]
          == Restated(o.(recognized := Less(Floored, o.recognized, g.amount),
              lines := Withdraw(Floored, o.lines, g.lines)));
    }
  }

  lemma MovedOrderTellsDelivery(s: State, id: Id, posted: bool, p: Id, t: State)
    requires id in s.receipts && p in s.orders && p in t.orders && Quantities(t)
    requires t.orders[p] == RecognizeOnReceipt(Floored, s, id, posted).orders[p]
    requires t.orders[p].recognized != s.orders[p].recognized
    ensures StatusTellsDelivery(t, p)
  {
    MovedOrderIsRestated(s, id, posted, p);
    var o :| t.orders[p] == Restated(o);
    RestatedTellsDelivery(t, p, o);
  }

  // After every posting or reversal that moved money the order's status is
  // the one its receipts call for.
  lemma MovementRestatesOrder(s: State, op: Op, p: Id)
    requires Quantities(s) && KeepsQuantities(s, op) && Apply(Floored, s, op).Ok?
    requires op.OpCreateReceipt? || op.OpUpdateReceipt? || op.OpDeleteReceipt?
    requires p in s.orders && p in Step(Floored, s, op).orders
    requires Step(Floored, s, op).orders[p].recognized != s.orders[p].recognized
    ensures StatusTellsDelivery(Step(Floored, s, op), p)
  {
    QuantitiesStep(s, op);
    var t := Step(Floored, s, op);
    match op
    case OpCreateReceipt(id, order, status, lines, critical, released) =>
      var g := Receipt(order, status, critical, released, lines, false, 0);
      MovedOrderTellsDelivery(PutReceipt(s, id, g), id, status == Posted, p, t);
    case OpUpdateReceipt(id, patch) =>
      var n := PatchedReceipt(s.receipts[id], patch);
      MovedOrderTellsDelivery(PutReceipt(s, id, n), id, n.status == Posted, p, t);
    case OpDeleteReceipt(id) =>
      MovedOrderTellsDelivery(s, id, false, p, t);
  }
}
