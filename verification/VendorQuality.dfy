/** Quality's advice on suppliers beside procurement's own decision: a register
  * fed by reordered and repeated events, where the latest event wins.
  */
module VendorQuality {
  import opened Values

  datatype Advice = Advice(status: string, rate: Option<real>, reasons: seq<string>, at: Option<int>)

  datatype Standing = Undecided | Approved | Conditional | Suspended | Unrecognised

  datatype Decision = Decision(status: Standing, reason: string, user: string, at: Option<int>)

  // Vendor ids and business ids are both text that a supplier reference may name.
  datatype Vendor = Vendor(business: Option<Id>, decision: Decision, advice: Advice)

  type Vendors = map<Id, Vendor>

  datatype Scorecard = Scorecard(supplier: Id, status: string, rate: Option<real>, reasons: seq<string>, at: int)

  predicate Names(supplier: Id, id: Id, v: Vendor) {
    id == supplier || v.business == Some(supplier)
  }

  predicate Takes(v: Vendor, r: Scorecard) {
    v.advice.at.None? || v.advice.at.value <= r.at
  }

  function AdviceOf(r: Scorecard): Advice {
    Advice(r.status, r.rate, r.reasons, Some(r.at))
  }

  function Advised(vendors: Vendors, r: Scorecard): Vendors {
    map id | id in vendors ::
      if Names(r.supplier, id, vendors[id]) && Takes(vendors[id], r)
      then vendors[id].(advice := AdviceOf(r)) else vendors[id]
  }

  function Decided(vendors: Vendors, id: Id, status: Standing, reason: string, user: string, now: int): Result<Vendors>
  {
    if status.Unrecognised? || reason == "" then Err(InvalidArgument)
    else if id !in vendors then Err(NotFound)
    else
      var who := if user == "" then "unknown" else user;
      Ok(vendors[id := vendors[id].(decision := Decision(status, reason, who, Some(now)))])
  }

  /* ---- runs ---- */

  datatype Op =
    | Score(r: Scorecard)
    | Decide(id: Id, status: Standing, reason: string, user: string, now: int)

  function Step(vendors: Vendors, op: Op): Vendors {
    match op
    case Score(r) => Advised(vendors, r)
    case Decide(id, status, reason, user, now) =>
      match Decided(vendors, id, status, reason, user, now)
      case Ok(v) => v
      case Err(_) => vendors
  }

  function Run(vendors: Vendors, ops: seq<Op>): Vendors
    decreases |ops|
  {
    if ops == [] then vendors else Step(Run(vendors, ops[..|ops| - 1]), ops[|ops| - 1])
  }

  predicate Delivered(ops: seq<Op>, r: Scorecard) {
    Score(r) in ops
  }

  predicate About(ops: seq<Op>, r: Scorecard, id: Id, v: Vendor) {
    Delivered(ops, r) && Names(r.supplier, id, v)
  }

  lemma {:induction false} RunKeepsVendors(vendors: Vendors, ops: seq<Op>, id: Id)
    requires id in vendors
    ensures id in Run(vendors, ops) && Run(vendors, ops)[id].business == vendors[id].business
    decreases |ops|
  {
    if ops != [] {
      RunKeepsVendors(vendors, ops[..|ops| - 1], id);
    }
  }

  /* ---- what one event and one decision write ---- */

  // An event writes the advice columns of the vendors its reference names, by id or
  // by business id, unless they hold later advice. Nothing else changes.
  lemma EventWrites(vendors: Vendors, r: Scorecard)
    ensures var after := Step(vendors, Score(r));
            && after.Keys == vendors.Keys
            && forall id :: id in vendors ==>
                 var v := vendors[id];
                 if (id == r.supplier || v.business == Some(r.supplier))
                    && (v.advice.at.Some? ==> v.advice.at.value <= r.at)
                 then after[id] == v.(advice := Advice(r.status, r.rate, r.reasons, Some(r.at)))
                 else after[id] == v
  {}

  // A decision with a known status and a reason about a vendor that exists writes
  // these, the time and who made it; any other decision changes nothing.
  lemma DecisionWrites(vendors: Vendors, id: Id, status: Standing, reason: string, user: string, now: int)
    ensures var after := Step(vendors, Decide(id, status, reason, user, now));
            if status in {Undecided, Approved, Conditional, Suspended} && |reason| > 0 && id in vendors then
              && after.Keys == vendors.Keys && (forall v :: v in vendors && v != id ==> after[v] == vendors[v])
              && after[id].advice == vendors[id].advice && after[id].business == vendors[id].business
              && after[id].decision.status == status && after[id].decision.reason == reason
              && after[id].decision.user == (if |user| == 0 then "unknown" else user)
              && after[id].decision.at == Some(now)
            else
              && after == vendors
              && Decided(vendors, id, status, reason, user, now) ==
                 Err(if status in {Undecided, Approved, Conditional, Suspended} && |reason| > 0 then NotFound
                     else InvalidArgument)
  {}

  /* ---- the latest event wins ---- */

  // Advice a is as late as the advice of v and every event about v, and is one
  // of these: the former only when it is later than every event.
  ghost predicate Latest(ops: seq<Op>, id: Id, v: Vendor, a: Advice) {
    && (v.advice.at.Some? ==> a.at.Some? && v.advice.at.value <= a.at.value)
    && (forall r :: About(ops, r, id, v) ==> a.at.Some? && r.at <= a.at.value)
    && ((a == v.advice && forall r :: About(ops, r, id, v) ==> v.advice.at.Some? && r.at < v.advice.at.value)
        || exists r :: About(ops, r, id, v) && a == AdviceOf(r))
  }

  lemma LatestGrows(ops: seq<Op>, op: Op, id: Id, v: Vendor, now: Vendor)
    requires Latest(ops, id, v, now.advice) && now.business == v.business
    ensures Latest(ops + [op], id, v,
                   if op.Score? && Names(op.r.supplier, id, now) && Takes(now, op.r) then AdviceOf(op.r)
                   else now.advice)
  {
    forall r
      ensures About(ops + [op], r, id, v) <==> About(ops, r, id, v) || (op == Score(r) && Names(r.supplier, id, v))
    {
    }
  }

  lemma StepOnVendor(vendors: Vendors, op: Op, id: Id)
    requires id in vendors
    ensures id in Step(vendors, op)
    ensures var now := vendors[id];
            Step(vendors, op)[id].advice ==
            if op.Score? && Names(op.r.supplier, id, now) && Takes(now, op.r) then AdviceOf(op.r) else now.advice
  {
  }

  // What is stored after any run.
  lemma {:induction false} AdviceIsLatest(vendors: Vendors, ops: seq<Op>, id: Id)
    requires id in vendors
    ensures id in Run(vendors, ops) && Latest(ops, id, vendors[id], Run(vendors, ops)[id].advice)
    decreases |ops|
  {
    if ops != [] {
      var front, op := ops[..|ops| - 1], ops[|ops| - 1];
      AdviceIsLatest(vendors, front, id);
      RunKeepsVendors(vendors, front, id);
      StepOnVendor(Run(vendors, front), op, id);
      LatestGrows(front, op, id, vendors[id], Run(vendors, front)[id]);
      assert ops == front + [op];
    }
  }

  // Whatever the order, the repeats and the decisions in between, the vendor ends
  // with the latest event unless it already held a later one.
  lemma LatestEventWins(vendors: Vendors, ops: seq<Op>, id: Id, last: Scorecard)
    requires id in vendors && About(ops, last, id, vendors[id])
    requires forall r :: About(ops, r, id, vendors[id]) ==>
               r.at < last.at || AdviceOf(r) == AdviceOf(last)
    ensures id in Run(vendors, ops)
    ensures Run(vendors, ops)[id].advice ==
            if Takes(vendors[id], last) then AdviceOf(last) else vendors[id].advice
  {
    AdviceIsLatest(vendors, ops, id);
  }

  // Two deliveries of the same events, with distinct times, agree.
  lemma AdviceConverges(vendors: Vendors, a: seq<Op>, b: seq<Op>, id: Id)
    requires id in vendors
    requires forall r :: About(a, r, id, vendors[id]) <==> About(b, r, id, vendors[id])
    requires forall r, q ::
               About(a, r, id, vendors[id]) && About(a, q, id, vendors[id]) && r.at == q.at ==>
                   AdviceOf(r) == AdviceOf(q)
    ensures id in Run(vendors, a) && id in Run(vendors, b)
    ensures Run(vendors, a)[id].advice == Run(vendors, b)[id].advice
  {
    AdviceIsLatest(vendors, a, id);
    AdviceIsLatest(vendors, b, id);
  }

  /* ---- advice and decision are kept apart ---- */

  function Decisions(ops: seq<Op>): seq<Op>
    decreases |ops|
  {
    if ops == [] then []
    else
      var front, op := ops[..|ops| - 1], ops[|ops| - 1];
      Decisions(front) + (if op.Decide? then [op] else [])
  }

  function Scores(ops: seq<Op>): seq<Op>
    decreases |ops|
  {
    if ops == [] then []
    else
      var front, op := ops[..|ops| - 1], ops[|ops| - 1];
      Scores(front) + (if op.Score? then [op] else [])
  }

  lemma RunOneMore(vendors: Vendors, ops: seq<Op>, op: Op)
    ensures Run(vendors, ops + [op]) == Step(Run(vendors, ops), op)
  {
    assert (ops + [op])[..|ops|] == ops;
  }

  predicate SameDecisions(a: Vendors, b: Vendors) {
    a.Keys == b.Keys && forall id :: id in a ==> a[id].decision == b[id].decision
  }

  predicate SameAdvice(a: Vendors, b: Vendors) {
    a.Keys == b.Keys && forall id :: id in a ==> a[id].advice == b[id].advice && a[id].business == b[id].business
  }

  lemma StepAgreesOnDecisions(a: Vendors, b: Vendors, op: Op)
    requires SameDecisions(a, b)
    ensures SameDecisions(Step(a, op), if op.Decide? then Step(b, op) else b)
  {
  }

  lemma StepAgreesOnAdvice(a: Vendors, b: Vendors, op: Op)
    requires SameAdvice(a, b)
    ensures SameAdvice(Step(a, op), if op.Score? then Step(b, op) else b)
  {
  }

  // Leave out every event: the decisions come out the same.
  lemma {:induction false} OnlyDecisionsDecide(vendors: Vendors, ops: seq<Op>)
    ensures SameDecisions(Run(vendors, ops), Run(vendors, Decisions(ops)))
    decreases |ops|
  {
    if ops != [] {
      var front, op := ops[..|ops| - 1], ops[|ops| - 1];
      OnlyDecisionsDecide(vendors, front);
      StepAgreesOnDecisions(Run(vendors, front), Run(vendors, Decisions(front)), op);
      RunOneMore(vendors, Decisions(front), op);
      assert Decisions(ops) == if op.Decide? then Decisions(front) + [op] else Decisions(front);
    }
  }

  // Leave out every decision: the advice comes out the same.
  lemma {:induction false} OnlyEventsAdvise(vendors: Vendors, ops: seq<Op>)
    ensures SameAdvice(Run(vendors, ops), Run(vendors, Scores(ops)))
    decreases |ops|
  {
    if ops != [] {
      var front, op := ops[..|ops| - 1], ops[|ops| - 1];
      OnlyEventsAdvise(vendors, front);
      StepAgreesOnAdvice(Run(vendors, front), Run(vendors, Scores(front)), op);
      RunOneMore(vendors, Scores(front), op);
      assert Scores(ops) == if op.Score? then Scores(front) + [op] else Scores(front);
    }
  }

  // Procurement's own suspension; an unknown supplier is not suspended.
  predicate SupplierSuspended(vendors: Vendors, id: Id) {
    id in vendors && vendors[id].decision.status.Suspended?
  }

  predicate Decides(op: Op, id: Id) {
    op.Decide? && op.id == id && !op.status.Unrecognised? && op.reason != ""
  }

  // Advice alone suspends nobody: a supplier is suspended exactly when the last
  // valid decision about it says so, or it was before and none was made.
  lemma {:induction false} SuspendedByLastDecision(vendors: Vendors, ops: seq<Op>, id: Id, k: nat)
    requires id in vendors && k <= |ops|
    requires forall i :: k <= i < |ops| ==> !Decides(ops[i], id)
    requires k > 0 ==> Decides(ops[k - 1], id)
    ensures SupplierSuspended(Run(vendors, ops), id) <==>
            if k == 0 then SupplierSuspended(vendors, id) else ops[k - 1].status.Suspended?
    decreases |ops|
  {
    if ops != [] {
      var front := ops[..|ops| - 1];
      RunKeepsVendors(vendors, front, id);
      if k < |ops| {
        assert k > 0 ==> front[k - 1] == ops[k - 1];
        assert forall i :: k <= i < |front| ==> front[i] == ops[i];
        SuspendedByLastDecision(vendors, front, id, k);
      }
    }
  }

  /* ---- the register ---- */

  class VendorTable {
    var vendors: Vendors

    constructor (vendors: Vendors)
      ensures this.vendors == vendors
    {
      this.vendors := vendors;
    }

    // Reports whether a row was written: false also when every vendor the
    // reference names holds later advice.
    method ApplyQCRecommendation(r: Scorecard) returns (matched: bool)
      modifies this
      ensures vendors == Advised(old(vendors), r)
      ensures matched <==>
              exists id :: id in old(vendors) && Names(r.supplier, id, old(vendors)[id]) && Takes(old(vendors)[id], r)
    {
      var written := map id | id in vendors && Names(r.supplier, id, vendors[id]) && Takes(vendors[id], r) ::
        vendors[id].(advice := AdviceOf(r));
      ghost var before := vendors;
      vendors := vendors + written;
      assert vendors.Keys == before.Keys;
      matched := written != map[];
      if matched {
        var id :| id in written;
      }
    }

    method SetVendorQualityStatus(id: Id, status: Standing, reason: string, user: string, now: int)
      returns (r: Result<()>)
      modifies this
      ensures match Decided(old(vendors), id, status, reason, user, now)
              case Ok(v) => r == Ok(()) && vendors == v
              case Err(e) => r == Err(e) && vendors == old(vendors)
    {
      if status.Unrecognised? {
        return Err(InvalidArgument);
      }
      if reason == "" {
        return Err(InvalidArgument);
      }
      var who := if user == "" then "unknown" else user;
      if id !in vendors {
        return Err(NotFound);
      }
      vendors := vendors[id := vendors[id].(decision := Decision(status, reason, who, Some(now)))];
      return Ok(());
    }
  }
}
