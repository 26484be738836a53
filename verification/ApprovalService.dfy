/** The tiered approval endpoint as the program has it: loops over the matrix and
  * the signatures, then writes to the signature table and the budget ledger.
  */
module ApprovalService {
  import opened Values
  import opened LedgerModel
  import opened LedgerService
  import opened Approval
  import opened ApprovalTheorems

  method RequiredTiers(tiers: seq<Tier>, total: int) returns (out: seq<Tier>)
    ensures out == Required(tiers, total)
    ensures forall t :: t in out <==> t in tiers && total > t.minAmount
  {
    out := [];
    for i := 0 to |tiers|
      invariant out == Required(tiers[..i], total)
    {
      assert tiers[..i + 1][..i] == tiers[..i];
      if total - tiers[i].minAmount > 0 {
        out := out + [tiers[i]];
      }
    }
    assert tiers[..|tiers|] == tiers;
    RequiredExactly(tiers, total);
  }

  method ContainsInt(xs: seq<int>, v: int) returns (found: bool)
    ensures found <==> v in xs
  {
    for i := 0 to |xs|
      invariant v !in xs[..i]
    {
      if xs[i] == v {
        return true;
      }
    }
    assert xs[..|xs|] == xs;
    found := false;
  }

  method AllRequiredApproved(required: seq<Tier>, approved: seq<int>) returns (all: bool)
    ensures all <==> AllSigned(required, approved)
  {
    for i := 0 to |required|
      invariant forall j :: 0 <= j < i ==> required[j].tier in approved
    {
      var found := ContainsInt(approved, required[i].tier);
      if !found {
        return false;
      }
    }
    all := true;
  }

  // The tiers of the approving signatures.
  method ApprovedTiers(sigs: seq<Signature>) returns (out: seq<int>)
    ensures out == SignedTiers(sigs)
  {
    out := [];
    for i := 0 to |sigs|
      invariant out == SignedTiers(sigs[..i])
    {
      assert sigs[..i + 1][..i] == sigs[..i];
      if sigs[i].approved {
        out := out + [sigs[i].tier];
      }
    }
    assert sigs[..|sigs|] == sigs;
  }

  method FirstUnsigned(required: seq<Tier>, approved: seq<int>) returns (next: Option<Tier>)
    ensures next == NextTier(required, approved)
  {
    for i := 0 to |required|
      invariant NextTier(required, approved) == NextTier(required[i..], approved)
    {
      var found := ContainsInt(approved, required[i].tier);
      if !found {
        return Some(required[i]);
      }
      assert required[i..][1..] == required[i + 1..];
    }
    next := None;
  }

  method Progressed(required: seq<Tier>, approved: seq<int>, complete: bool) returns (p: Progress)
    ensures p == BuildProgress(required, approved, complete)
  {
    var numbers := [];
    for i := 0 to |required|
      invariant numbers == Numbers(required[..i])
    {
      numbers := numbers + [required[i].tier];
    }
    assert required[..|required|] == required;
    var next := FirstUnsigned(required, approved);
    p := Progress(numbers, (set t | t in approved), None, None, complete);
    if next.Some? && !complete {
      p := p.(nextTier := Some(next.value.tier), nextPerm := Some(next.value.perm));
    }
  }

  // The tier a rejection is recorded under, and whether any required tier's
  // permission is held.
  method RejectingTier(required: seq<Tier>, perms: set<Id>) returns (rejectTier: int, found: bool)
    ensures rejectTier == RejectTier(required, perms)
    ensures found <==> exists j :: 0 <= j < |required| && required[j].perm in perms
  {
    rejectTier, found := 0, false;
    for i := 0 to |required|
      invariant found <==> exists j :: 0 <= j < i && required[j].perm in perms
      invariant RejectTier(required, perms) == if rejectTier != 0 then rejectTier else RejectTier(required[i..], perms)
    {
      if required[i].perm in perms {
        if rejectTier == 0 {
          rejectTier := required[i].tier;
        }
        found := true;
      }
      assert required[i..][1..] == required[i + 1..];
    }
  }

  class ApprovalDesk {
    const ledger: Ledger
    var matrix: seq<Tier>
    var approvals: map<Id, seq<Signature>>

    function AsDesk(): Desk
      reads this, ledger
    {
      Desk(ledger.Tables(), approvals)
    }

    constructor (ledger: Ledger, matrix: seq<Tier>)
      ensures this.ledger == ledger && this.matrix == matrix
      ensures AsDesk() == Desk(ledger.Tables(), map[])
    {
      this.ledger, this.matrix := ledger, matrix;
      approvals := map[];
    }

    method ActorAlreadyApproved(id: Id, actor: Actor) returns (dup: bool)
      ensures dup == HasSigned(SignaturesOf(AsDesk(), id), actor)
    {
      if actor == Blank || id !in approvals {
        return false;
      }
      var sigs := approvals[id];
      for i := 0 to |sigs|
        invariant forall j :: 0 <= j < i ==> !(sigs[j].approved && sigs[j].actor == actor)
      {
        if sigs[i].approved && sigs[i].actor == actor {
          return true;
        }
      }
      dup := false;
    }

    method InsertApprovalRow(id: Id, tier: int, actor: Actor, approved: bool)
      modifies `approvals
      ensures AsDesk() == Sign(old(AsDesk()), id, Signature(tier, actor, approved))
    {
      var sigs := if id in approvals then approvals[id] else [];
      approvals := approvals[id := sigs + [Signature(tier, actor, approved)]];
    }

    // The end of either path: the outcome reaches the ledger, or the signatures
    // go back to what they were.
    method SettleOrRestore(id: Id, outcome: Outcome, status: RequisitionStatus, tx: map<Id, seq<Signature>>)
      returns (err: Option<Error>)
      modifies this, ledger
      ensures matrix == old(matrix)
      ensures match SettleRequisition(Floored, old(ledger.Tables()), id, outcome, status)
              case Ok(t) => err == None && AsDesk() == Desk(t, old(approvals))
              case Err(e) => err == Some(e) && AsDesk() == Desk(old(ledger.Tables()), tx)
    {
      err := ledger.SettleRequisition(id, outcome, status);
      if err.Some? {
        approvals := tx;
      }
    }

    method ApproveRequisitionTier(id: Id, actor: Actor, perms: set<Id>) returns (r: Result<Progress>)
      modifies this, ledger
      ensures ledger.Tables().threshold == old(ledger.Tables().threshold) && matrix == old(matrix)
      ensures match ApproveTier(old(matrix), old(AsDesk()), id, actor, perms)
              case Ok(s) => r == Ok(s.progress) && AsDesk() == s.desk
              case Err(e) => r == Err(e) && AsDesk() == old(AsDesk())
    {
      if id !in ledger.requisitions {
        return Err(NotFound);
      }
      var req := ledger.requisitions[id];
      if req.status in {Approved, Rejected, Ordered, Closed} {
        return Err(InvalidArgument);
      }
      if SameActor(actor, req.requester) {
        return Err(Forbidden);
      }
      var required := RequiredTiers(matrix, req.total);
      var approved := ApprovedTiers(SignaturesOf(AsDesk(), id));
      var dup := ActorAlreadyApproved(id, actor);
      if dup {
        return Err(Forbidden);
      }
      var next := FirstUnsigned(required, approved);
      var tx := approvals;
      var finalize := false;
      if next.None? {
        finalize := true;
      } else {
        if next.value.perm !in perms {
          return Err(Forbidden);
        }
        InsertApprovalRow(id, next.value.tier, actor, true);
        approved := approved + [next.value.tier];
        finalize := AllRequiredApproved(required, approved);
      }
      if finalize {
        var err := SettleOrRestore(id, OutcomeApproved, Approved, tx);
        if err.Some? {
          return Err(err.value);
        }
      } else if req.status != PendingApproval {
        ledger.requisitions := ledger.requisitions[id := req.(status := PendingApproval)];
      }
      assert !finalize ==> ledger.requisitions == old(ledger.requisitions)[id := req.(status := PendingApproval)];
      var progress := Progressed(required, approved, finalize);
      r := Ok(progress);
    }

    method RejectRequisitionTiered(id: Id, actor: Actor, perms: set<Id>) returns (r: Result<Progress>)
      modifies this, ledger
      ensures matrix == old(matrix)
      ensures match RejectTiered(old(matrix), old(AsDesk()), id, actor, perms)
              case Ok(s) => r == Ok(s.progress) && AsDesk() == s.desk
              case Err(e) => r == Err(e) && AsDesk() == old(AsDesk())
    {
      if id !in ledger.requisitions {
        return Err(NotFound);
      }
      var req := ledger.requisitions[id];
      if req.status in {Approved, Rejected, Ordered, Closed} {
        return Err(InvalidArgument);
      }
      var required := RequiredTiers(matrix, req.total);
      var approved := ApprovedTiers(SignaturesOf(AsDesk(), id));
      var allowed := SameActor(actor, req.requester) || |required| == 0;
      var rejectTier, found := RejectingTier(required, perms);
      if !(allowed || found) {
        return Err(Forbidden);
      }
      var tx := approvals;
      InsertApprovalRow(id, rejectTier, actor, false);
      var err := SettleOrRestore(id, OutcomeRejected, Rejected, tx);
      var progress := Progressed(required, approved, false);
      r := match err case Some(e) => Err(e) case None => Ok(progress);
    }
  }
}
