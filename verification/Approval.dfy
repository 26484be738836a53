/** Tiered approval of requisitions: a signature ledger against an amount matrix,
  * feeding stage 1 of the budget ledger.
  */
module Approval {
  import opened Values
  import opened LedgerModel

  // One band of the matrix.
  datatype Tier = Tier(tier: int, minAmount: int, perm: Id)

  datatype Signature = Signature(tier: int, actor: Actor, approved: bool)

  datatype Desk = Desk(ledger: State, approvals: map<Id, seq<Signature>>)

  datatype Progress = Progress(
    required: seq<int>, signed: set<int>, nextTier: Option<int>, nextPerm: Option<Id>, complete: bool)

  // The matrix is read in the order of its key.
  predicate Keyed(matrix: seq<Tier>) {
    forall i, j :: 0 <= i < j < |matrix| ==> matrix[i].tier < matrix[j].tier
  }

  predicate Rising(matrix: seq<Tier>) {
    forall i, j :: 0 <= i < j < |matrix| ==> matrix[i].minAmount <= matrix[j].minAmount
  }

  // Every band the amount reaches into.
  function Required(matrix: seq<Tier>, total: int): seq<Tier> {
    if matrix == [] then []
    else
      var n := |matrix| - 1;
      Required(matrix[..n], total) + (if total > matrix[n].minAmount then [matrix[n]] else [])
  }

  function SignaturesOf(d: Desk, id: Id): seq<Signature> {
    if id in d.approvals then d.approvals[id] else []
  }

  // The tiers signed, in the order they were signed.
  function SignedTiers(sigs: seq<Signature>): seq<int> {
    if sigs == [] then []
    else
      var n := |sigs| - 1;
      SignedTiers(sigs[..n]) + (if sigs[n].approved then [sigs[n].tier] else [])
  }

  function Numbers(tiers: seq<Tier>): seq<int> {
    seq(|tiers|, i requires 0 <= i < |tiers| => tiers[i].tier)
  }

  predicate AllSigned(required: seq<Tier>, signed: seq<int>) {
    forall i :: 0 <= i < |required| ==> required[i].tier in signed
  }

  // The lowest required tier that has not signed.
  function NextTier(required: seq<Tier>, signed: seq<int>): Option<Tier> {
    if required == [] then None
    else if required[0].tier !in signed then Some(required[0])
    else NextTier(required[1..], signed)
  }

  predicate HasSigned(sigs: seq<Signature>, actor: Actor) {
    actor != Blank && exists i :: 0 <= i < |sigs| && sigs[i].approved && sigs[i].actor == actor
  }

  predicate Decided(st: RequisitionStatus) {
    st in {Approved, Rejected, Ordered, Closed}
  }

  function BuildProgress(required: seq<Tier>, signed: seq<int>, complete: bool): Progress {
    var next := if complete then None else NextTier(required, signed);
    Progress(Numbers(required), (set t | t in signed), if next.Some? then Some(next.value.tier) else None,
             if next.Some? then Some(next.value.perm) else None, complete)
  }

  function Sign(d: Desk, id: Id, sig: Signature): Desk {
    d.(approvals := d.approvals[id := SignaturesOf(d, id) + [sig]])
  }

  function Finalize(d: Desk, id: Id): Result<Desk> {
    match SettleRequisition(Floored, d.ledger, id, OutcomeApproved, Approved)
    case Ok(t) => Ok(d.(ledger := t))
    case Err(e) => Err(e)
  }

  datatype Signing = Signing(desk: Desk, progress: Progress)

  function ApproveTier(matrix: seq<Tier>, d: Desk, id: Id, actor: Actor, perms: set<Id>): Result<Signing> {
    if id !in d.ledger.requisitions then Err(NotFound)
    else
      var r := d.ledger.requisitions[id];
      var sigs := SignaturesOf(d, id);
      var required := Required(matrix, r.total);
      if Decided(r.status) then Err(InvalidArgument)
      else if SameActor(actor, r.requester) then Err(Forbidden)
      else if HasSigned(sigs, actor) then Err(Forbidden)
      else
        match NextTier(required, SignedTiers(sigs))
        case None =>
          (match Finalize(d, id)
           case Ok(t) => Ok(Signing(t, BuildProgress(required, SignedTiers(sigs), true)))
           case Err(e) => Err(e))
        case Some(next) =>
          if next.perm !in perms then Err(Forbidden)
          else
            var d1 := Sign(d, id, Signature(next.tier, actor, true));
            var signed := SignedTiers(sigs) + [next.tier];
            if AllSigned(required, signed) then
              (match Finalize(d1, id)
               case Ok(t) => Ok(Signing(t, BuildProgress(required, signed, true)))
               case Err(e) => Err(e))
            else
              Ok(Signing(d1.(ledger := PutRequisition(d.ledger, id, r.(status := PendingApproval))),
                         BuildProgress(required, signed, false)))
  }

  predicate MayReject(required: seq<Tier>, r: Requisition, actor: Actor, perms: set<Id>) {
    SameActor(actor, r.requester) || required == [] || exists i :: 0 <= i < |required| && required[i].perm in perms
  }

  // The lowest required tier, other than a tier numbered zero, whose permission
  // the rejecting actor holds; zero if there is none.
  function RejectTier(required: seq<Tier>, perms: set<Id>): int {
    if required == [] then 0
    else if required[0].perm in perms && required[0].tier != 0 then required[0].tier
    else RejectTier(required[1..], perms)
  }

  function RejectTiered(matrix: seq<Tier>, d: Desk, id: Id, actor: Actor, perms: set<Id>): Result<Signing> {
    if id !in d.ledger.requisitions then Err(NotFound)
    else
      var r := d.ledger.requisitions[id];
      var required := Required(matrix, r.total);
      if Decided(r.status) then Err(InvalidArgument)
      else if !MayReject(required, r, actor, perms) then Err(Forbidden)
      else
        var d1 := Sign(d, id, Signature(RejectTier(required, perms), actor, false));
        match SettleRequisition(Floored, d.ledger, id, OutcomeRejected, Rejected)
        case Ok(t) => Ok(Signing(d1.(ledger := t), BuildProgress(required, SignedTiers(SignaturesOf(d, id)), false)))
        case Err(e) => Err(e)
  }

  // Anything else the program does to the tables; deleting a requisition takes
  // its signatures along.
  function Elsewhere(d: Desk, op: Op): Desk {
    match Apply(Floored, d.ledger, op)
    case Err(_) => d
    case Ok(t) => Desk(t, if op.OpDeleteRequisition? then d.approvals - {op.id} else d.approvals)
  }

  datatype DeskOp =
    | TierApprove(id: Id, actor: Actor, perms: set<Id>)
    | TierReject(id: Id, actor: Actor, perms: set<Id>)
    | Other(op: Op)

  function DeskStep(matrix: seq<Tier>, d: Desk, op: DeskOp): Desk {
    match op
    case TierApprove(id, actor, perms) =>
      (match ApproveTier(matrix, d, id, actor, perms) case Ok(s) => s.desk case Err(_) => d)
    case TierReject(id, actor, perms) =>
      (match RejectTiered(matrix, d, id, actor, perms) case Ok(s) => s.desk case Err(_) => d)
    case Other(op) => Elsewhere(d, op)
  }

  function DeskRun(matrix: seq<Tier>, d: Desk, ops: seq<DeskOp>): Desk
    decreases |ops|
  {
    if ops == [] then d else DeskRun(matrix, DeskStep(matrix, d, ops[0]), ops[1..])
  }
}
