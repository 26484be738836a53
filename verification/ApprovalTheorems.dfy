/** What the signature ledger guarantees after every run. */
module ApprovalTheorems {
  import opened Values
  import opened LedgerModel
  import opened Approval

  /* ---- required tiers ---- */

  lemma {:induction false} RequiredExactly(matrix: seq<Tier>, total: int)
    ensures forall t :: t in Required(matrix, total) <==> t in matrix && total > t.minAmount
  {
    if matrix != [] {
      var n := |matrix| - 1;
      RequiredExactly(matrix[..n], total);
      assert matrix == matrix[..n] + [matrix[n]];
    }
  }

  lemma {:induction false} RequiredIsPrefix(matrix: seq<Tier>, total: int)
    requires Rising(matrix)
    ensures Required(matrix, total) <= matrix
  {
    if matrix != [] {
      var n := |matrix| - 1;
      RequiredIsPrefix(matrix[..n], total);
      if total > matrix[n].minAmount {
        AllRequired(matrix[..n], total);
      }
    }
  }

  lemma {:induction false} AllRequired(matrix: seq<Tier>, total: int)
    requires forall i :: 0 <= i < |matrix| ==> total > matrix[i].minAmount
    ensures Required(matrix, total) == matrix
  {
    if matrix != [] {
      var n := |matrix| - 1;
      AllRequired(matrix[..n], total);
      assert Required(matrix, total) == matrix[..n] + [matrix[n]] == matrix;
    }
  }

  lemma FallingBandSkips(matrix: seq<Tier>) returns (total: int)
    requires Keyed(matrix) && !Rising(matrix)
    ensures !(Required(matrix, total) <= matrix)
  {
    var i, j :| 0 <= i < j < |matrix| && matrix[i].minAmount > matrix[j].minAmount;
    total := matrix[j].minAmount + 1;
    RequiredExactly(matrix, total);
    var required := Required(matrix, total);
    assert matrix[j] in required && matrix[i] !in required;
    var k :| 0 <= k < |required| && required[k] == matrix[j];
    assert i < |required| ==> required[i] != matrix[i];
    assert k < |matrix| && k != j ==> matrix[k].tier != matrix[j].tier;
  }

  // The tiers an amount needs are the lowest ones, whatever the amount, exactly
  // when the bands rise.
  lemma LowestTiersIffRising(matrix: seq<Tier>)
    requires Keyed(matrix)
    ensures (forall total :: Required(matrix, total) <= matrix) <==> Rising(matrix)
  {
    if Rising(matrix) {
      forall total ensures Required(matrix, total) <= matrix {
        RequiredIsPrefix(matrix, total);
      }
    } else {
      var total := FallingBandSkips(matrix);
    }
  }

  lemma {:induction false} NextTierIsLowestUnsigned(required: seq<Tier>, signed: seq<int>)
    ensures match NextTier(required, signed)
            case None => AllSigned(required, signed)
            case Some(t) => exists k :: 0 <= k < |required| && required[k] == t && t.tier !in signed
                                        && forall i :: 0 <= i < k ==> required[i].tier in signed
  {
    if required != [] && required[0].tier in signed {
      NextTierIsLowestUnsigned(required[1..], signed);
      match NextTier(required[1..], signed)
      case None =>
        forall i | 0 <= i < |required| ensures required[i].tier in signed {
          assert i > 0 ==> required[i] == required[1..][i - 1];
        }
      case Some(t) =>
        var k :| 0 <= k < |required[1..]| && required[1..][k] == t && t.tier !in signed
                 && forall i :: 0 <= i < k ==> required[1..][i].tier in signed;
        assert required[k + 1] == t;
        forall i | 0 <= i < k + 1 ensures required[i].tier in signed {
          assert i > 0 ==> required[i] == required[1..][i - 1];
        }
    } else if required != [] {
      assert required[0].tier !in signed;
    }
  }

  lemma SignedPrefixHolds(matrix: seq<Tier>, signed: seq<int>, n: nat)
    requires Keyed(matrix) && signed <= Numbers(matrix) && n < |matrix|
    ensures matrix[n].tier in signed <==> n < |signed|
  {
    assert forall i :: 0 <= i < |signed| ==> signed[i] == matrix[i].tier;
    if n < |signed| {
      assert signed[n] == matrix[n].tier;
    }
  }

  // Of the first n tiers, with a prefix of the matrix signed, the next one is the
  // one after the prefix.
  lemma NextOfPrefix(matrix: seq<Tier>, n: nat, signed: seq<int>)
    requires Keyed(matrix) && n <= |matrix| && signed <= Numbers(matrix)
    ensures NextTier(matrix[..n], signed) == if |signed| < n then Some(matrix[|signed|]) else None
  {
    var required := matrix[..n];
    NextTierIsLowestUnsigned(required, signed);
    if |signed| < n {
      SignedPrefixHolds(matrix, signed, |signed|);
      assert required[|signed|] == matrix[|signed|];
    }
    match NextTier(required, signed)
    case None =>
    case Some(t) =>
      var k :| 0 <= k < n && required[k] == t && t.tier !in signed
               && forall i :: 0 <= i < k ==> required[i].tier in signed;
      SignedPrefixHolds(matrix, signed, k);
      assert k <= |signed|;
  }

  lemma OneMoreSigned(matrix: seq<Tier>, signed: seq<int>)
    requires signed <= Numbers(matrix) && |signed| < |matrix|
    ensures signed + [matrix[|signed|].tier] <= Numbers(matrix)
  {
    assert Numbers(matrix)[..|signed|] == signed;
  }

  // With a prefix signed, the next tier is the next band of the matrix.
  lemma NextTierExtendsPrefix(matrix: seq<Tier>, total: int, signed: seq<int>)
    requires Keyed(matrix) && Rising(matrix) && signed <= Numbers(matrix)
    ensures match NextTier(Required(matrix, total), signed)
            case None => |Required(matrix, total)| <= |signed|
            case Some(t) => |signed| < |Required(matrix, total)| <= |matrix| && t == matrix[|signed|]
                            && signed + [t.tier] <= Numbers(matrix)
  {
    var required := Required(matrix, total);
    RequiredIsPrefix(matrix, total);
    assert required == matrix[..|required|];
    NextOfPrefix(matrix, |required|, signed);
    if |signed| < |required| {
      OneMoreSigned(matrix, signed);
    }
  }

  /* ---- the signature ledger ---- */

  predicate DistinctSigners(sigs: seq<Signature>) {
    forall i, j :: 0 <= i < j < |sigs| && sigs[i].approved && sigs[j].approved && sigs[i].actor != Blank ==>
      sigs[i].actor != sigs[j].actor
  }

  predicate NotSelfSigned(sigs: seq<Signature>, requester: Actor) {
    forall i :: 0 <= i < |sigs| && sigs[i].approved ==> !SameActor(sigs[i].actor, requester)
  }

  // Signatures of one requisition by different people, none of them the requester.
  predicate Fair(sigs: seq<Signature>, requester: Actor) {
    DistinctSigners(sigs) && NotSelfSigned(sigs, requester)
  }

  ghost predicate AllFair(d: Desk) {
    forall id :: id in d.approvals ==>
      id in d.ledger.requisitions && Fair(d.approvals[id], d.ledger.requisitions[id].requester)
  }

  // Signatures of the lowest bands, in order.
  ghost predicate AllPrefixes(matrix: seq<Tier>, d: Desk) {
    forall id :: id in d.approvals ==> SignedTiers(d.approvals[id]) <= Numbers(matrix)
  }

  lemma RaiseKeepsRequesters(s: State, id: Id, budget: Option<Id>, req: Option<Id>, total: int,
                             lines: seq<OrderLine>, creator: Actor, r: Id)
    requires RaiseOrder(Floored, s, id, budget, req, total, lines, creator).Ok? && r in s.requisitions
    ensures var t := RaiseOrder(Floored, s, id, budget, req, total, lines, creator).value;
            r in t.requisitions && t.requisitions[r].requester == s.requisitions[r].requester
  {}

  lemma ReceiptsKeepRequisitions(s: State, op: Op)
    requires op.OpCreateReceipt? || op.OpUpdateReceipt? || op.OpDeleteReceipt?
    ensures Step(Floored, s, op).requisitions == s.requisitions
  {}

  // No transaction changes who asked for a requisition; only deletion removes one.
  lemma RequesterIsFixed(s: State, op: Op, id: Id)
    requires id in s.requisitions
    ensures var t := Step(Floored, s, op);
            && (id in t.requisitions ==> t.requisitions[id].requester == s.requisitions[id].requester)
            && (id !in t.requisitions ==> op == OpDeleteRequisition(id) && Apply(Floored, s, op).Ok?)
  {
    match op
    case OpCreateOrder(o, budget, req, lines, creator) =>
      if Apply(Floored, s, op).Ok? {
        RaiseKeepsRequesters(s, o, budget, req, LinesValue(lines), OrderLines(lines), creator, id);
      }
    case OpAwardOrder(o, budget, req, amount, creator) =>
      if Apply(Floored, s, op).Ok? {
        RaiseKeepsRequesters(s, o, AwardBudget(s, budget, req), req, amount, [], creator, id);
      }
    case OpCreateReceipt(_, _, _, _, _, _) => ReceiptsKeepRequisitions(s, op);
    case OpUpdateReceipt(_, _) => ReceiptsKeepRequisitions(s, op);
    case OpDeleteReceipt(_) => ReceiptsKeepRequisitions(s, op);
    case _ =>
  }

  lemma SettleKeepsRequesters(s: State, id: Id, outcome: Outcome, status: RequisitionStatus)
    ensures match SettleRequisition(Floored, s, id, outcome, status)
            case Err(_) => true
            case Ok(t) =>
              && t.requisitions.Keys == s.requisitions.Keys
              && forall r :: r in s.requisitions ==> t.requisitions[r].requester == s.requisitions[r].requester
  {}

  // What an approval writes: one signature at most, and one row's status.
  lemma ApproveWrites(matrix: seq<Tier>, d: Desk, id: Id, actor: Actor, perms: set<Id>)
    requires ApproveTier(matrix, d, id, actor, perms).Ok?
    ensures var t := ApproveTier(matrix, d, id, actor, perms).value.desk;
            && id in d.ledger.requisitions
            && var next := NextTier(Required(matrix, d.ledger.requisitions[id].total),
                                    SignedTiers(SignaturesOf(d, id)));
            && t.approvals == (if next.None? then d.approvals
                               else d.approvals[id := SignaturesOf(d, id) + [Signature(next.value.tier, actor, true)]])
            && t.ledger.requisitions.Keys == d.ledger.requisitions.Keys
            && forall r :: r in d.ledger.requisitions ==>
                t.ledger.requisitions[r].requester == d.ledger.requisitions[r].requester
  {
    SettleKeepsRequesters(d.ledger, id, OutcomeApproved, Approved);
  }

  lemma AppendFair(sigs: seq<Signature>, requester: Actor, sig: Signature)
    requires Fair(sigs, requester)
    requires sig.approved ==> !HasSigned(sigs, sig.actor) && !SameActor(sig.actor, requester)
    ensures Fair(sigs + [sig], requester)
  {}

  lemma AppendTier(sigs: seq<Signature>, sig: Signature)
    ensures SignedTiers(sigs + [sig]) == SignedTiers(sigs) + (if sig.approved then [sig.tier] else [])
  {
    assert (sigs + [sig])[..|sigs|] == sigs;
  }

  lemma ApproveKeepsFair(matrix: seq<Tier>, d: Desk, id: Id, actor: Actor, perms: set<Id>)
    requires AllFair(d) && ApproveTier(matrix, d, id, actor, perms).Ok?
    ensures AllFair(ApproveTier(matrix, d, id, actor, perms).value.desk)
  {
    var r := d.ledger.requisitions[id];
    var sigs := SignaturesOf(d, id);
    assert Fair(sigs, r.requester);
    var next := NextTier(Required(matrix, r.total), SignedTiers(sigs));
    if next.Some? {
      AppendFair(sigs, r.requester, Signature(next.value.tier, actor, true));
    }
    ApproveWrites(matrix, d, id, actor, perms);
  }

  lemma RejectKeepsFair(matrix: seq<Tier>, d: Desk, id: Id, actor: Actor, perms: set<Id>)
    requires AllFair(d) && RejectTiered(matrix, d, id, actor, perms).Ok?
    ensures AllFair(RejectTiered(matrix, d, id, actor, perms).value.desk)
  {
    var r := d.ledger.requisitions[id];
    var sigs := SignaturesOf(d, id);
    assert Fair(sigs, r.requester);
    AppendFair(sigs, r.requester, Signature(RejectTier(Required(matrix, r.total), perms), actor, false));
    SettleKeepsRequesters(d.ledger, id, OutcomeRejected, Rejected);
  }

  lemma ElsewhereKeepsFair(d: Desk, op: Op)
    requires AllFair(d)
    ensures AllFair(Elsewhere(d, op))
  {
    if Apply(Floored, d.ledger, op).Ok? {
      var t := Elsewhere(d, op);
      assert t.ledger == Step(Floored, d.ledger, op);
      forall id | id in t.approvals
        ensures id in t.ledger.requisitions && Fair(t.approvals[id], t.ledger.requisitions[id].requester)
      {
        RequesterIsFixed(d.ledger, op, id);
      }
    }
  }

  lemma DeskStepKeepsFair(matrix: seq<Tier>, d: Desk, op: DeskOp)
    requires AllFair(d)
    ensures AllFair(DeskStep(matrix, d, op))
  {
    match op
    case TierApprove(id, actor, perms) =>
      if ApproveTier(matrix, d, id, actor, perms).Ok? {
        ApproveKeepsFair(matrix, d, id, actor, perms);
      }
    case TierReject(id, actor, perms) =>
      if RejectTiered(matrix, d, id, actor, perms).Ok? {
        RejectKeepsFair(matrix, d, id, actor, perms);
      }
    case Other(op) => ElsewhereKeepsFair(d, op);
  }

  // A step of the desk under the matrix as it then stands.
  datatype DeskMove = DeskMove(matrix: seq<Tier>, op: DeskOp)

  function DeskMoves(d: Desk, moves: seq<DeskMove>): Desk
    decreases |moves|
  {
    if moves == [] then d else DeskMoves(DeskStep(moves[0].matrix, d, moves[0].op), moves[1..])
  }

  // Whatever the matrix, and however it is edited between steps, the signers of a
  // requisition are different people and none of them its requester.
  lemma {:induction false} SignersAlwaysFair(d: Desk, moves: seq<DeskMove>)
    requires AllFair(d)
    ensures AllFair(DeskMoves(d, moves))
    decreases |moves|
  {
    if moves != [] {
      DeskStepKeepsFair(moves[0].matrix, d, moves[0].op);
      SignersAlwaysFair(DeskStep(moves[0].matrix, d, moves[0].op), moves[1..]);
    }
  }

  lemma ApproveKeepsPrefixes(matrix: seq<Tier>, d: Desk, id: Id, actor: Actor, perms: set<Id>)
    requires Keyed(matrix) && Rising(matrix) && AllPrefixes(matrix, d)
    requires ApproveTier(matrix, d, id, actor, perms).Ok?
    ensures AllPrefixes(matrix, ApproveTier(matrix, d, id, actor, perms).value.desk)
  {
    var total := d.ledger.requisitions[id].total;
    var sigs := SignaturesOf(d, id);
    assert SignedTiers(sigs) <= Numbers(matrix);
    NextTierExtendsPrefix(matrix, total, SignedTiers(sigs));
    var next := NextTier(Required(matrix, total), SignedTiers(sigs));
    if next.Some? {
      AppendTier(sigs, Signature(next.value.tier, actor, true));
    }
    ApproveWrites(matrix, d, id, actor, perms);
  }

  lemma RejectKeepsPrefixes(matrix: seq<Tier>, d: Desk, id: Id, actor: Actor, perms: set<Id>)
    requires AllPrefixes(matrix, d) && RejectTiered(matrix, d, id, actor, perms).Ok?
    ensures AllPrefixes(matrix, RejectTiered(matrix, d, id, actor, perms).value.desk)
  {
    var sigs := SignaturesOf(d, id);
    var required := Required(matrix, d.ledger.requisitions[id].total);
    assert SignedTiers(sigs) <= Numbers(matrix);
    AppendTier(sigs, Signature(RejectTier(required, perms), actor, false));
  }

  lemma DeskStepKeepsPrefixes(matrix: seq<Tier>, d: Desk, op: DeskOp)
    requires Keyed(matrix) && Rising(matrix) && AllPrefixes(matrix, d)
    ensures AllPrefixes(matrix, DeskStep(matrix, d, op))
  {
    match op
    case TierApprove(id, actor, perms) =>
      if ApproveTier(matrix, d, id, actor, perms).Ok? {
        ApproveKeepsPrefixes(matrix, d, id, actor, perms);
      }
    case TierReject(id, actor, perms) =>
      if RejectTiered(matrix, d, id, actor, perms).Ok? {
        RejectKeepsPrefixes(matrix, d, id, actor, perms);
      }
    case Other(op) =>
  }

  // Under any edits between signatures, and any other traffic: with bands that
  // rise, the signed tiers are the lowest ones in order; and the signers are fair.
  lemma {:induction false} SignaturesAlwaysProper(matrix: seq<Tier>, d: Desk, ops: seq<DeskOp>)
    requires Keyed(matrix) && Rising(matrix) && AllPrefixes(matrix, d) && AllFair(d)
    ensures AllPrefixes(matrix, DeskRun(matrix, d, ops)) && AllFair(DeskRun(matrix, d, ops))
    decreases |ops|
  {
    if ops != [] {
      DeskStepKeepsPrefixes(matrix, d, ops[0]);
      DeskStepKeepsFair(matrix, d, ops[0]);
      SignaturesAlwaysProper(matrix, DeskStep(matrix, d, ops[0]), ops[1..]);
    }
  }

  lemma SettleWritesStatus(s: State, id: Id, outcome: Outcome, status: RequisitionStatus)
    requires SettleRequisition(Floored, s, id, outcome, status).Ok?
    ensures var t := SettleRequisition(Floored, s, id, outcome, status).value;
            && id in s.requisitions && t.requisitions.Keys == s.requisitions.Keys
            && t.requisitions[id].status == status && t.requisitions[id].total == s.requisitions[id].total
            && t.requisitions[id].requester == s.requisitions[id].requester
  {}

  // Whatever the matrix: the tier path approves a requisition exactly when
  // every band its current total reaches into has signed.
  lemma ApprovedIffAllSigned(matrix: seq<Tier>, d: Desk, id: Id, actor: Actor, perms: set<Id>)
    requires ApproveTier(matrix, d, id, actor, perms).Ok?
    ensures var out := ApproveTier(matrix, d, id, actor, perms).value;
            && id in out.desk.ledger.requisitions
            && var r := out.desk.ledger.requisitions[id];
            && r.total == d.ledger.requisitions[id].total
            && (r.status == Approved <==>
                  forall t :: t in matrix && r.total > t.minAmount ==>
                      t.tier in SignedTiers(SignaturesOf(out.desk, id)))
            && (out.progress.complete <==> r.status == Approved)
  {
    var r := d.ledger.requisitions[id];
    var sigs := SignaturesOf(d, id);
    var required := Required(matrix, r.total);
    RequiredExactly(matrix, r.total);
    NextTierIsLowestUnsigned(required, SignedTiers(sigs));
    match NextTier(required, SignedTiers(sigs))
    case None =>
      SettleWritesStatus(d.ledger, id, OutcomeApproved, Approved);
    case Some(next) =>
      var sig := Signature(next.tier, actor, true);
      assert (sigs + [sig])[..|sigs|] == sigs;
      assert SignedTiers(sigs + [sig]) == SignedTiers(sigs) + [next.tier];
      if AllSigned(required, SignedTiers(sigs) + [next.tier]) {
        SettleWritesStatus(d.ledger, id, OutcomeApproved, Approved);
        forall t | t in matrix && r.total > t.minAmount ensures t.tier in SignedTiers(sigs + [sig]) {
          assert t in required;
        }
      } else {
        var i :| 0 <= i < |required| && required[i].tier !in SignedTiers(sigs) + [next.tier];
        assert required[i] in required;
      }
  }

  /* ---- how many signatures it takes ---- */

  // Required tiers that have not signed.
  function Outstanding(required: seq<Tier>, signed: seq<int>): nat {
    if required == [] then 0
    else Outstanding(required[1..], signed) + (if required[0].tier in signed then 0 else 1)
  }

  lemma {:induction false} NoneOutstanding(required: seq<Tier>, signed: seq<int>)
    ensures Outstanding(required, signed) == 0 <==> AllSigned(required, signed)
  {
    if required != [] {
      NoneOutstanding(required[1..], signed);
      assert AllSigned(required, signed) <==> required[0].tier in signed && AllSigned(required[1..], signed) by {
        assert forall i :: 0 < i < |required| ==> required[i] == required[1..][i - 1];
        assert forall i :: 0 <= i < |required[1..]| ==> required[1..][i] == required[i + 1];
      }
    }
  }

  lemma {:induction false} FreshOutstanding(required: seq<Tier>)
    ensures Outstanding(required, []) == |required|
  {
    if required != [] {
      FreshOutstanding(required[1..]);
    }
  }

  lemma {:induction false} UnrelatedSignature(required: seq<Tier>, signed: seq<int>, n: int)
    requires forall i :: 0 <= i < |required| ==> required[i].tier != n
    ensures Outstanding(required, signed + [n]) == Outstanding(required, signed)
  {
    if required != [] {
      UnrelatedSignature(required[1..], signed, n);
    }
  }

  lemma {:induction false} SignatureCounts(required: seq<Tier>, signed: seq<int>)
    requires Keyed(required) && NextTier(required, signed).Some?
    ensures Outstanding(required, signed + [NextTier(required, signed).value.tier]) == Outstanding(required, signed) - 1
  {
    var n := NextTier(required, signed).value.tier;
    if required[0].tier !in signed {
      UnrelatedSignature(required[1..], signed, n);
    } else {
      SignatureCounts(required[1..], signed);
    }
  }

  lemma {:induction false} RequiredKeyed(matrix: seq<Tier>, total: int)
    requires Keyed(matrix)
    ensures Keyed(Required(matrix, total))
  {
    if matrix != [] {
      var n := |matrix| - 1;
      RequiredKeyed(matrix[..n], total);
      RequiredExactly(matrix[..n], total);
      forall i | 0 <= i < |Required(matrix[..n], total)| ensures Required(matrix[..n], total)[i].tier < matrix[n].tier {
        assert Required(matrix[..n], total)[i] in matrix[..n];
      }
    }
  }

  function StepsLeft(matrix: seq<Tier>, d: Desk, id: Id): nat
    requires id in d.ledger.requisitions
  {
    var n := Outstanding(Required(matrix, d.ledger.requisitions[id].total), SignedTiers(SignaturesOf(d, id)));
    if n == 0 then 1 else n
  }

  // A successful approval leaves one step fewer, and the last one approves.
  lemma ApprovalCounts(matrix: seq<Tier>, d: Desk, id: Id, actor: Actor, perms: set<Id>)
    requires Keyed(matrix) && ApproveTier(matrix, d, id, actor, perms).Ok?
    ensures var t := ApproveTier(matrix, d, id, actor, perms).value.desk;
            && id in d.ledger.requisitions && id in t.ledger.requisitions
            && t.ledger.requisitions[id].total == d.ledger.requisitions[id].total
            && (if StepsLeft(matrix, d, id) == 1 then t.ledger.requisitions[id].status == Approved
                else t.ledger.requisitions[id].status == PendingApproval
                     && StepsLeft(matrix, t, id) == StepsLeft(matrix, d, id) - 1)
  {
    var r := d.ledger.requisitions[id];
    var sigs := SignaturesOf(d, id);
    var required := Required(matrix, r.total);
    ApprovedIffAllSigned(matrix, d, id, actor, perms);
    NextTierIsLowestUnsigned(required, SignedTiers(sigs));
    NoneOutstanding(required, SignedTiers(sigs));
    match NextTier(required, SignedTiers(sigs))
    case None =>
      SettleWritesStatus(d.ledger, id, OutcomeApproved, Approved);
    case Some(next) =>
      var sig := Signature(next.tier, actor, true);
      assert (sigs + [sig])[..|sigs|] == sigs;
      RequiredKeyed(matrix, r.total);
      SignatureCounts(required, SignedTiers(sigs));
      NoneOutstanding(required, SignedTiers(sigs) + [next.tier]);
      if AllSigned(required, SignedTiers(sigs) + [next.tier]) {
        SettleWritesStatus(d.ledger, id, OutcomeApproved, Approved);
      }
  }

  // A successful approval of this requisition.
  predicate Approves(matrix: seq<Tier>, d: Desk, op: DeskOp, id: Id) {
    op.TierApprove? && op.id == id && ApproveTier(matrix, d, id, op.actor, op.perms).Ok?
  }

  // Other traffic, refused approvals included, leaves its total and signatures
  // alone, and neither decides it nor reopens it.
  predicate LeavesRequest(matrix: seq<Tier>, d: Desk, op: DeskOp, id: Id) {
    var t := DeskStep(matrix, d, op);
    && id in d.ledger.requisitions && id in t.ledger.requisitions
    && t.ledger.requisitions[id].total == d.ledger.requisitions[id].total
    && SignaturesOf(t, id) == SignaturesOf(d, id)
    && var was, now := d.ledger.requisitions[id].status, t.ledger.requisitions[id].status;
    if Decided(was) then now == was else !Decided(now)
  }

  predicate OnlyApproved(matrix: seq<Tier>, d: Desk, ops: seq<DeskOp>, id: Id)
    decreases |ops|
  {
    ops == [] ||
    ((Approves(matrix, d, ops[0], id) || LeavesRequest(matrix, d, ops[0], id))
     && OnlyApproved(matrix, DeskStep(matrix, d, ops[0]), ops[1..], id))
  }

  function ApprovalsIn(matrix: seq<Tier>, d: Desk, ops: seq<DeskOp>, id: Id): nat
    decreases |ops|
  {
    if ops == [] then 0
    else
      var rest := ApprovalsIn(matrix, DeskStep(matrix, d, ops[0]), ops[1..], id);
      if Approves(matrix, d, ops[0], id) then rest + 1 else rest
  }

  lemma {:induction false} DecidedStays(matrix: seq<Tier>, d: Desk, ops: seq<DeskOp>, id: Id)
    requires id in d.ledger.requisitions && Decided(d.ledger.requisitions[id].status)
    requires OnlyApproved(matrix, d, ops, id)
    ensures var t := DeskRun(matrix, d, ops);
            && ApprovalsIn(matrix, d, ops, id) == 0 && id in t.ledger.requisitions
            && t.ledger.requisitions[id].status == d.ledger.requisitions[id].status
    decreases |ops|
  {
    if ops != [] {
      assert !Approves(matrix, d, ops[0], id);
      DecidedStays(matrix, DeskStep(matrix, d, ops[0]), ops[1..], id);
    }
  }

  // With the total and the matrix fixed, and any traffic on anything else between
  // them, successful approvals are at most the steps left, and the requisition is
  // approved exactly when there were that many.
  lemma {:induction false} ApprovedAfterStepsLeft(matrix: seq<Tier>, d: Desk, ops: seq<DeskOp>, id: Id)
    requires Keyed(matrix) && id in d.ledger.requisitions && !Decided(d.ledger.requisitions[id].status)
    requires OnlyApproved(matrix, d, ops, id)
    ensures var n := ApprovalsIn(matrix, d, ops, id);
            var t := DeskRun(matrix, d, ops);
            && n <= StepsLeft(matrix, d, id) && id in t.ledger.requisitions
            && (t.ledger.requisitions[id].status == Approved <==> n == StepsLeft(matrix, d, id))
    decreases |ops|
  {
    if ops != [] {
      var u := DeskStep(matrix, d, ops[0]);
      if Approves(matrix, d, ops[0], id) {
        ApprovalCounts(matrix, d, id, ops[0].actor, ops[0].perms);
        if StepsLeft(matrix, d, id) == 1 {
          DecidedStays(matrix, u, ops[1..], id);
        } else {
          ApprovedAfterStepsLeft(matrix, u, ops[1..], id);
        }
      } else {
        assert StepsLeft(matrix, u, id) == StepsLeft(matrix, d, id);
        ApprovedAfterStepsLeft(matrix, u, ops[1..], id);
      }
    }
  }

  // A fresh requisition takes max(1, number of required tiers) approvals.
  lemma FreshStepsLeft(matrix: seq<Tier>, d: Desk, id: Id)
    requires id in d.ledger.requisitions && id !in d.approvals
    ensures var n := |Required(matrix, d.ledger.requisitions[id].total)|;
            StepsLeft(matrix, d, id) == if n == 0 then 1 else n
  {
    FreshOutstanding(Required(matrix, d.ledger.requisitions[id].total));
  }

  // An approval that leaves tiers unsigned reports the first of them.
  lemma ApproveReports(matrix: seq<Tier>, d: Desk, id: Id, actor: Actor, perms: set<Id>)
    requires ApproveTier(matrix, d, id, actor, perms).Ok?
    requires !ApproveTier(matrix, d, id, actor, perms).value.progress.complete
    ensures id in d.ledger.requisitions
    ensures var out := ApproveTier(matrix, d, id, actor, perms).value;
            var next := NextTier(Required(matrix, d.ledger.requisitions[id].total),
                                 SignedTiers(SignaturesOf(out.desk, id)));
            next.Some? && out.progress.nextTier == Some(next.value.tier)
  {
    var required := Required(matrix, d.ledger.requisitions[id].total);
    var sigs := SignaturesOf(d, id);
    var next := NextTier(required, SignedTiers(sigs));
    assert next.Some?;
    var sig := Signature(next.value.tier, actor, true);
    assert (sigs + [sig])[..|sigs|] == sigs;
    assert SignedTiers(sigs + [sig]) == SignedTiers(sigs) + [next.value.tier];
    NextTierIsLowestUnsigned(required, SignedTiers(sigs + [sig]));
  }

  // The tier reported as next is the tier the next successful approval signs.
  lemma ReportedTierSignsNext(matrix: seq<Tier>, d: Desk, id: Id, actor: Actor, perms: set<Id>,
                              e: Desk, actor': Actor, perms': set<Id>)
    requires ApproveTier(matrix, d, id, actor, perms).Ok?
    requires var out := ApproveTier(matrix, d, id, actor, perms).value;
             && !out.progress.complete
             && id in e.ledger.requisitions && e.ledger.requisitions[id].total == d.ledger.requisitions[id].total
             && SignaturesOf(e, id) == SignaturesOf(out.desk, id)
    requires ApproveTier(matrix, e, id, actor', perms').Ok?
    ensures var next := ApproveTier(matrix, d, id, actor, perms).value.progress.nextTier;
            && next.Some?
            && SignaturesOf(ApproveTier(matrix, e, id, actor', perms').value.desk, id)
               == SignaturesOf(e, id) + [Signature(next.value, actor', true)]
  {
    ApproveReports(matrix, d, id, actor, perms);
    ApproveWrites(matrix, e, id, actor', perms');
  }

  /* ---- the approval desk moves the budget ledger only through its transactions ---- */

  // A transaction that is always refused.
  function Refused(id: Id): Op {
    OpUpdateRequisition(id, None, None, Some(Approved))
  }

  lemma RefusedChangesNothing(s: State, id: Id)
    ensures Step(Floored, s, Refused(id)) == s
  {}

  lemma ApproveIsLedgerStep(matrix: seq<Tier>, d: Desk, id: Id, actor: Actor, perms: set<Id>) returns (l: Op)
    ensures DeskStep(matrix, d, TierApprove(id, actor, perms)).ledger == Step(Floored, d.ledger, l)
    ensures l.OpSettleRequisition? || l.OpUpdateRequisition?
  {
    l := Refused(id);
    RefusedChangesNothing(d.ledger, id);
    match ApproveTier(matrix, d, id, actor, perms)
    case Err(_) =>
    case Ok(out) =>
      if out.progress.complete {
        l := OpSettleRequisition(id, OutcomeApproved, Approved);
      } else {
        l := OpUpdateRequisition(id, None, None, Some(PendingApproval));
      }
  }

  lemma RejectIsLedgerStep(matrix: seq<Tier>, d: Desk, id: Id, actor: Actor, perms: set<Id>) returns (l: Op)
    ensures DeskStep(matrix, d, TierReject(id, actor, perms)).ledger == Step(Floored, d.ledger, l)
    ensures l.OpSettleRequisition? || l.OpUpdateRequisition?
  {
    l := Refused(id);
    RefusedChangesNothing(d.ledger, id);
    if RejectTiered(matrix, d, id, actor, perms).Ok? {
      l := OpSettleRequisition(id, OutcomeRejected, Rejected);
    }
  }

  lemma DeskStepIsLedgerStep(matrix: seq<Tier>, d: Desk, op: DeskOp) returns (l: Op)
    ensures DeskStep(matrix, d, op).ledger == Step(Floored, d.ledger, l)
    ensures l.OpSettleRequisition? || l.OpUpdateRequisition? || (op.Other? && l == op.op)
  {
    match op
    case TierApprove(id, actor, perms) => l := ApproveIsLedgerStep(matrix, d, id, actor, perms);
    case TierReject(id, actor, perms) => l := RejectIsLedgerStep(matrix, d, id, actor, perms);
    case Other(op) => l := op;
  }

  // Every run of the desk is a run of the ledger, so what holds of ledger runs
  // holds with tiered approval in the loop.
  lemma {:induction false} DeskRunIsLedgerRun(matrix: seq<Tier>, d: Desk, ops: seq<DeskOp>) returns (ls: seq<Op>)
    ensures DeskRun(matrix, d, ops).ledger == Run(Floored, d.ledger, ls)
    ensures |ls| == |ops|
    decreases |ops|
  {
    ls := [];
    if ops != [] {
      var l := DeskStepIsLedgerStep(matrix, d, ops[0]);
      var rest := DeskRunIsLedgerRun(matrix, DeskStep(matrix, d, ops[0]), ops[1..]);
      ls := [l] + rest;
      assert ls[1..] == rest;
    }
  }
}
