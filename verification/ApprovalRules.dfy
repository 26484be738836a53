/** Who may approve and reject, when that succeeds and what it writes, read off the
  * matrix, the signatures and the rows.
  */
module ApprovalRules {
  import opened Values
  import opened LedgerModel
  import LedgerRules
  import opened Approval
  import opened ApprovalTheorems

  // The amount goes past the start of band k.
  ghost predicate Reached(matrix: seq<Tier>, total: int, k: int) {
    0 <= k < |matrix| && total > matrix[k].minAmount
  }

  ghost predicate Signed(sigs: seq<Signature>, tier: int) {
    exists i :: 0 <= i < |sigs| && sigs[i].approved && sigs[i].tier == tier
  }

  ghost predicate SignedBy(sigs: seq<Signature>, actor: Actor) {
    exists i :: 0 <= i < |sigs| && sigs[i].approved && sigs[i].actor == actor
  }

  // Band k is the first one reached that has not signed.
  ghost predicate Awaits(matrix: seq<Tier>, sigs: seq<Signature>, total: int, k: int) {
    && Reached(matrix, total, k) && !Signed(sigs, matrix[k].tier)
    && forall j :: 0 <= j < k && Reached(matrix, total, j) ==> Signed(sigs, matrix[j].tier)
  }

  // Every band reached has signed, or is signed for by `extra`.
  ghost predicate AllReachedSigned(matrix: seq<Tier>, sigs: seq<Signature>, total: int, extra: Option<int>) {
    forall j :: Reached(matrix, total, j) ==> Signed(sigs, matrix[j].tier) || extra == Some(matrix[j].tier)
  }

  function Sigs(d: Desk, id: Id): seq<Signature> {
    if id in d.approvals then d.approvals[id] else []
  }

  /* ---- the model's scan, in these words ---- */

  lemma {:induction false} SignedIsListed(sigs: seq<Signature>, tier: int)
    ensures tier in SignedTiers(sigs) <==> Signed(sigs, tier)
    decreases |sigs|
  {
    if sigs != [] {
      var front, last := sigs[..|sigs| - 1], sigs[|sigs| - 1];
      SignedIsListed(front, tier);
      assert sigs == front + [last];
      AppendTier(front, last);
      if Signed(sigs, tier) {
        var i :| 0 <= i < |sigs| && sigs[i].approved && sigs[i].tier == tier;
        assert i < |front| ==> front[i] == sigs[i];
      }
      if Signed(front, tier) {
        var i :| 0 <= i < |front| && front[i].approved && front[i].tier == tier;
        assert sigs[i] == front[i];
      }
      assert sigs[|sigs| - 1] == last;
    }
  }

  lemma {:induction false} NextOfTwo(a: seq<Tier>, b: seq<Tier>, signed: seq<int>)
    ensures NextTier(a + b, signed) == if NextTier(a, signed).Some? then NextTier(a, signed) else NextTier(b, signed)
  {
    if a == [] {
      assert a + b == b;
    } else {
      assert (a + b)[1..] == a[1..] + b;
      NextOfTwo(a[1..], b, signed);
    }
  }

  // What one more band adds to the scan.
  lemma ScanOneMore(matrix: seq<Tier>, total: int, signed: seq<int>)
    requires matrix != []
    ensures var front, last := matrix[..|matrix| - 1], matrix[|matrix| - 1];
            NextTier(Required(matrix, total), signed) ==
              if NextTier(Required(front, total), signed).Some? then NextTier(Required(front, total), signed)
              else if total > last.minAmount && last.tier !in signed then Some(last) else None
  {
    var front, last := matrix[..|matrix| - 1], matrix[|matrix| - 1];
    NextOfTwo(Required(front, total), [last], signed);
    assert [last][1..] == [];
    assert Required(front, total) + [] == Required(front, total);
  }

  lemma FrontReaches(matrix: seq<Tier>, total: int)
    requires matrix != []
    ensures var front := matrix[..|matrix| - 1];
            forall j :: j < |front| ==>
              (Reached(front, total, j) <==> Reached(matrix, total, j)) && (0 <= j ==> front[j] == matrix[j])
  {}

  lemma FrontAwaits(matrix: seq<Tier>, sigs: seq<Signature>, total: int, k: int)
    requires matrix != [] && Awaits(matrix[..|matrix| - 1], sigs, total, k)
    ensures Awaits(matrix, sigs, total, k) && matrix[k] == matrix[..|matrix| - 1][k]
  {
    FrontReaches(matrix, total);
  }

  // The scan finds the band that waits, or nothing when all reached have signed.
  lemma {:induction false} ScanFindsAwaiting(matrix: seq<Tier>, sigs: seq<Signature>, total: int)
    ensures match NextTier(Required(matrix, total), SignedTiers(sigs))
            case None => AllReachedSigned(matrix, sigs, total, None)
            case Some(t) => exists k :: Awaits(matrix, sigs, total, k) && matrix[k] == t
    decreases |matrix|
  {
    if matrix != [] {
      var n := |matrix| - 1;
      var front, last, signed := matrix[..n], matrix[n], SignedTiers(sigs);
      ScanFindsAwaiting(front, sigs, total);
      SignedIsListed(sigs, last.tier);
      ScanOneMore(matrix, total, signed);
      FrontReaches(matrix, total);
      var found := NextTier(Required(front, total), signed);
      if found.Some? {
        var k :| Awaits(front, sigs, total, k) && front[k] == found.value;
        FrontAwaits(matrix, sigs, total, k);
      } else if total > last.minAmount && last.tier !in signed {
        assert Awaits(matrix, sigs, total, n);
      } else {
        forall j | Reached(matrix, total, j) ensures Signed(sigs, matrix[j].tier) {
          assert j < n ==> Reached(front, total, j);
        }
      }
    }
  }

  lemma OneAwaits(matrix: seq<Tier>, sigs: seq<Signature>, total: int, j: int, k: int)
    requires Awaits(matrix, sigs, total, j) && Awaits(matrix, sigs, total, k)
    ensures j == k
  {}

  lemma AllSignedInWords(matrix: seq<Tier>, sigs: seq<Signature>, total: int, extra: Option<int>)
    ensures AllSigned(Required(matrix, total), SignedTiers(sigs) + (if extra.Some? then [extra.value] else []))
            <==> AllReachedSigned(matrix, sigs, total, extra)
  {
    var required := Required(matrix, total);
    var signed := SignedTiers(sigs) + (if extra.Some? then [extra.value] else []);
    RequiredExactly(matrix, total);
    forall n ensures n in signed <==> Signed(sigs, n) || extra == Some(n) {
      SignedIsListed(sigs, n);
    }
    if AllSigned(required, signed) {
      forall j | Reached(matrix, total, j) ensures Signed(sigs, matrix[j].tier) || extra == Some(matrix[j].tier) {
        assert matrix[j] in required;
      }
    }
    if AllReachedSigned(matrix, sigs, total, extra) {
      forall i | 0 <= i < |required| ensures required[i].tier in signed {
        assert required[i] in required;
        var j :| 0 <= j < |matrix| && matrix[j] == required[i];
        assert Reached(matrix, total, j);
      }
    }
  }

  /* ---- approving ---- */

  predicate Settled(r: Requisition) {
    r.status == Approved || r.status == Rejected || r.status == Ordered || r.status == Closed
  }

  // Open to a decision, and the actor neither asked for it nor signed it before.
  ghost predicate MayTouch(d: Desk, id: Id, actor: Actor) {
    && id in d.ledger.requisitions
    && var r := d.ledger.requisitions[id];
    && !Settled(r)
    && !(actor.Named? && actor == r.requester)
    && !(actor != Blank && SignedBy(Sigs(d, id), actor))
  }

  // What is left of the budget covers what the requisition would reserve.
  ghost predicate HasRoom(s: State, id: Id) {
    LedgerRules.AsksForMoney(s, id) ==>
      var r := s.requisitions[id];
      var b := s.budgets[r.budget.value];
      r.total <= b.allotted - b.preCommitted - b.committed - b.spent
  }

  // The approval is the last one that is needed.
  ghost predicate Completes(matrix: seq<Tier>, sigs: seq<Signature>, total: int) {
    || AllReachedSigned(matrix, sigs, total, None)
    || exists k :: Awaits(matrix, sigs, total, k) && AllReachedSigned(matrix, sigs, total, Some(matrix[k].tier))
  }

  ghost predicate Permitted(matrix: seq<Tier>, sigs: seq<Signature>, total: int, perms: set<Id>) {
    forall k :: Awaits(matrix, sigs, total, k) ==> matrix[k].perm in perms
  }

  lemma SettlesIffRoom(d: Desk, id: Id)
    requires id in d.ledger.requisitions
    ensures Finalize(d, id).Ok? <==> HasRoom(d.ledger, id)
    ensures Finalize(d, id).Ok? ==>
              var op := OpSettleRequisition(id, OutcomeApproved, Approved);
              Finalize(d, id).value == d.(ledger := LedgerRules.Next(d.ledger, op))
  {
    if LedgerRules.AsksForMoney(d.ledger, id) {
      LedgerRules.ApprovalReserves(d.ledger, id, Approved);
    } else {
      LedgerRules.ApprovalWithoutReservation(d.ledger, id, Approved);
    }
  }

  // An approval is accepted exactly when the requisition is open to it, the actor
  // holds the permission of the band that waits, and the last one fits the budget.
  lemma ApprovalAccepted(matrix: seq<Tier>, d: Desk, id: Id, actor: Actor, perms: set<Id>)
    ensures ApproveTier(matrix, d, id, actor, perms).Ok? <==>
              && MayTouch(d, id, actor)
              && var sigs, total := Sigs(d, id), d.ledger.requisitions[id].total;
              && Permitted(matrix, sigs, total, perms)
              && (Completes(matrix, sigs, total) ==> HasRoom(d.ledger, id))
  {
    if MayTouch(d, id, actor) {
      var sigs, total := Sigs(d, id), d.ledger.requisitions[id].total;
      ScanFindsAwaiting(matrix, sigs, total);
      match NextTier(Required(matrix, total), SignedTiers(sigs))
      case None =>
        SettlesIffRoom(d, id);
      case Some(next) =>
        var k :| Awaits(matrix, sigs, total, k) && matrix[k] == next;
        PermittedIs(matrix, sigs, total, perms, k);
        CompletesIs(matrix, sigs, total, k);
        AllSignedInWords(matrix, sigs, total, Some(next.tier));
        SettlesIffRoom(Sign(d, id, Signature(next.tier, actor, true)), id);
    }
  }

  // Why an approval is refused: the requisition is unknown; it is settled or the
  // budget has no room; or this actor may not sign.
  lemma ApprovalRefused(matrix: seq<Tier>, d: Desk, id: Id, actor: Actor, perms: set<Id>)
    requires ApproveTier(matrix, d, id, actor, perms).Err?
    ensures var e := ApproveTier(matrix, d, id, actor, perms).error;
            if id !in d.ledger.requisitions then e == NotFound
            else if Settled(d.ledger.requisitions[id]) then e == InvalidArgument
            else if MayTouch(d, id, actor) && Permitted(matrix, Sigs(d, id), d.ledger.requisitions[id].total, perms)
            then e == InvalidArgument
            else e == Forbidden
  {
    ApprovalAccepted(matrix, d, id, actor, perms);
    if MayTouch(d, id, actor) {
      var sigs, total := Sigs(d, id), d.ledger.requisitions[id].total;
      ScanFindsAwaiting(matrix, sigs, total);
      var found := NextTier(Required(matrix, total), SignedTiers(sigs));
      if found.Some? {
        var k :| Awaits(matrix, sigs, total, k) && matrix[k] == found.value;
        PermittedIs(matrix, sigs, total, perms, k);
      }
    }
  }

  lemma PermittedIs(matrix: seq<Tier>, sigs: seq<Signature>, total: int, perms: set<Id>, k: int)
    requires Awaits(matrix, sigs, total, k)
    ensures Permitted(matrix, sigs, total, perms) <==> matrix[k].perm in perms
  {
    forall j | Awaits(matrix, sigs, total, j) ensures j == k {
      OneAwaits(matrix, sigs, total, j, k);
    }
  }

  lemma CompletesIs(matrix: seq<Tier>, sigs: seq<Signature>, total: int, k: int)
    requires Awaits(matrix, sigs, total, k)
    ensures Completes(matrix, sigs, total) <==> AllReachedSigned(matrix, sigs, total, Some(matrix[k].tier))
  {
    forall j | Awaits(matrix, sigs, total, j) ensures j == k {
      OneAwaits(matrix, sigs, total, j, k);
    }
  }

  // What an accepted approval writes: the signature of the band that waited, if
  // one did, and the requisition settled or pending.
  lemma ApprovalWrites(matrix: seq<Tier>, d: Desk, id: Id, actor: Actor, perms: set<Id>)
    requires ApproveTier(matrix, d, id, actor, perms).Ok? && id in d.ledger.requisitions
    ensures var t := ApproveTier(matrix, d, id, actor, perms).value.desk;
            var r := d.ledger.requisitions[id];
            var sigs := Sigs(d, id);
            && (if AllReachedSigned(matrix, sigs, r.total, None) then t.approvals == d.approvals
                else exists k :: Awaits(matrix, sigs, r.total, k) && matrix[k].perm in perms
                                 && t.approvals == d.approvals[id := sigs + [Signature(matrix[k].tier, actor, true)]])
            && t.ledger == (if Completes(matrix, sigs, r.total)
                            then LedgerRules.Next(d.ledger, OpSettleRequisition(id, OutcomeApproved, Approved))
                            else d.ledger.(requisitions := d.ledger.requisitions[id := r.(status := PendingApproval)]))
  {
    var sigs, total := Sigs(d, id), d.ledger.requisitions[id].total;
    ScanFindsAwaiting(matrix, sigs, total);
    match NextTier(Required(matrix, total), SignedTiers(sigs))
    case None =>
      SettlesIffRoom(d, id);
    case Some(next) =>
      var k :| Awaits(matrix, sigs, total, k) && matrix[k] == next;
      CompletesIs(matrix, sigs, total, k);
      AllSignedInWords(matrix, sigs, total, Some(next.tier));
      SettlesIffRoom(Sign(d, id, Signature(next.tier, actor, true)), id);
      assert !AllReachedSigned(matrix, sigs, total, None);
  }

  /* ---- rejecting ---- */

  lemma {:induction false} RejectTierOfTwo(a: seq<Tier>, b: seq<Tier>, perms: set<Id>)
    ensures RejectTier(a + b, perms) == if RejectTier(a, perms) != 0 then RejectTier(a, perms) else RejectTier(b, perms)
  {
    if a == [] {
      assert a + b == b;
    } else {
      assert (a + b)[1..] == a[1..] + b;
      RejectTierOfTwo(a[1..], b, perms);
    }
  }

  // The tier a rejection is recorded under: the first band reached whose permission
  // is held and whose number is not zero; zero if there is none.
  ghost predicate RecordedUnder(matrix: seq<Tier>, total: int, perms: set<Id>, n: int) {
    if n == 0 then forall j :: Reached(matrix, total, j) && matrix[j].perm in perms ==> matrix[j].tier == 0
    else exists k ::
      && Reached(matrix, total, k) && matrix[k].perm in perms && matrix[k].tier == n
      && forall j :: 0 <= j < k && Reached(matrix, total, j) && matrix[j].perm in perms ==> matrix[j].tier == 0
  }

  lemma RecordOneMore(matrix: seq<Tier>, total: int, perms: set<Id>)
    requires matrix != []
    ensures var front, last := matrix[..|matrix| - 1], matrix[|matrix| - 1];
            RejectTier(Required(matrix, total), perms) ==
              if RejectTier(Required(front, total), perms) != 0 then RejectTier(Required(front, total), perms)
              else if total > last.minAmount && last.perm in perms then last.tier else 0
  {
    var front, last := matrix[..|matrix| - 1], matrix[|matrix| - 1];
    RejectTierOfTwo(Required(front, total), [last], perms);
    assert [last][1..] == [];
    assert Required(front, total) + [] == Required(front, total);
  }

  lemma {:induction false} ScanFindsRecorded(matrix: seq<Tier>, total: int, perms: set<Id>)
    ensures RecordedUnder(matrix, total, perms, RejectTier(Required(matrix, total), perms))
    decreases |matrix|
  {
    if matrix != [] {
      var m := |matrix| - 1;
      var front, last := matrix[..m], matrix[m];
      ScanFindsRecorded(front, total, perms);
      RecordOneMore(matrix, total, perms);
      FrontReaches(matrix, total);
      var n := RejectTier(Required(front, total), perms);
      if n != 0 {
        var k :| Reached(front, total, k) && front[k].perm in perms && front[k].tier == n
                 && forall j :: 0 <= j < k && Reached(front, total, j) && front[j].perm in perms ==> front[j].tier == 0;
        forall j | 0 <= j < k && Reached(matrix, total, j) && matrix[j].perm in perms ensures matrix[j].tier == 0 {
          assert Reached(front, total, j);
        }
        assert Reached(matrix, total, k) && matrix[k].perm in perms && matrix[k].tier == n;
      } else {
        forall j | 0 <= j < m && Reached(matrix, total, j) && matrix[j].perm in perms ensures matrix[j].tier == 0 {
          assert Reached(front, total, j);
        }
        if total > last.minAmount && last.perm in perms && last.tier != 0 {
          assert Reached(matrix, total, m) && matrix[m].perm in perms && matrix[m].tier == last.tier;
        }
      }
    }
  }

  // A rejection is open to the requester, to a holder of any reached band's
  // permission, and to anyone when no band is reached; and to no budget test.
  lemma RejectionAccepted(matrix: seq<Tier>, d: Desk, id: Id, actor: Actor, perms: set<Id>)
    ensures RejectTiered(matrix, d, id, actor, perms).Ok? <==>
              && id in d.ledger.requisitions
              && var r := d.ledger.requisitions[id];
              && !Settled(r)
              && (|| (actor.Named? && actor == r.requester)
                  || (forall k :: !Reached(matrix, r.total, k))
                  || (exists k :: Reached(matrix, r.total, k) && matrix[k].perm in perms))
  {
    if id in d.ledger.requisitions {
      var total := d.ledger.requisitions[id].total;
      MayRejectInWords(matrix, total, perms);
      LedgerRules.RejectionReleases(d.ledger, id, Rejected);
    }
  }

  lemma RejectionRefused(matrix: seq<Tier>, d: Desk, id: Id, actor: Actor, perms: set<Id>)
    requires RejectTiered(matrix, d, id, actor, perms).Err?
    ensures RejectTiered(matrix, d, id, actor, perms).error ==
            if id !in d.ledger.requisitions then NotFound
            else if Settled(d.ledger.requisitions[id]) then InvalidArgument
            else Forbidden
  {
    if id in d.ledger.requisitions {
      LedgerRules.RejectionReleases(d.ledger, id, Rejected);
    }
  }

  lemma MayRejectInWords(matrix: seq<Tier>, total: int, perms: set<Id>)
    ensures Required(matrix, total) == [] <==> forall k :: !Reached(matrix, total, k)
    ensures (exists i :: 0 <= i < |Required(matrix, total)| && Required(matrix, total)[i].perm in perms)
            <==> exists k :: Reached(matrix, total, k) && matrix[k].perm in perms
  {
    var required := Required(matrix, total);
    RequiredExactly(matrix, total);
    forall k | Reached(matrix, total, k) ensures matrix[k] in required {}
    forall i | 0 <= i < |required|
      ensures exists k :: Reached(matrix, total, k) && matrix[k] == required[i]
    {
      assert required[i] in required;
      var k :| 0 <= k < |matrix| && matrix[k] == required[i];
      assert Reached(matrix, total, k);
    }
  }

  lemma RejectionWrites(matrix: seq<Tier>, d: Desk, id: Id, actor: Actor, perms: set<Id>)
    requires RejectTiered(matrix, d, id, actor, perms).Ok? && id in d.ledger.requisitions
    ensures var t := RejectTiered(matrix, d, id, actor, perms).value.desk;
            && (exists n :: RecordedUnder(matrix, d.ledger.requisitions[id].total, perms, n)
                            && t.approvals == d.approvals[id := Sigs(d, id) + [Signature(n, actor, false)]])
            && t.ledger == LedgerRules.Next(d.ledger, OpSettleRequisition(id, OutcomeRejected, Rejected))
  {
    ScanFindsRecorded(matrix, d.ledger.requisitions[id].total, perms);
  }

  /* ---- what the caller is told ---- */

  // The numbers of the bands reached, the tiers signed, and unless all is done the
  // tier and the permission of the band that waits.
  ghost predicate Reports(p: Progress, matrix: seq<Tier>, sigs: seq<Signature>, total: int, complete: bool) {
    && p.complete == complete
    && (forall n :: n in p.required <==> exists k :: Reached(matrix, total, k) && matrix[k].tier == n)
    && (forall n :: n in p.signed <==> Signed(sigs, n))
    && if complete || AllReachedSigned(matrix, sigs, total, None) then p.nextTier == None && p.nextPerm == None
       else exists k :: Awaits(matrix, sigs, total, k)
                        && p.nextTier == Some(matrix[k].tier) && p.nextPerm == Some(matrix[k].perm)
  }

  lemma NumbersReached(matrix: seq<Tier>, total: int, n: int)
    ensures n in Numbers(Required(matrix, total)) <==> exists k :: Reached(matrix, total, k) && matrix[k].tier == n
  {
    var required := Required(matrix, total);
    RequiredExactly(matrix, total);
    if n in Numbers(required) {
      var i :| 0 <= i < |required| && required[i].tier == n;
      assert required[i] in required;
      var k :| 0 <= k < |matrix| && matrix[k] == required[i];
      assert Reached(matrix, total, k);
    }
    forall k | Reached(matrix, total, k) && matrix[k].tier == n ensures n in Numbers(required) {
      assert matrix[k] in required;
      var i :| 0 <= i < |required| && required[i] == matrix[k];
      assert Numbers(required)[i] == n;
    }
  }

  lemma BuiltReports(matrix: seq<Tier>, sigs: seq<Signature>, total: int, complete: bool)
    ensures Reports(BuildProgress(Required(matrix, total), SignedTiers(sigs), complete), matrix, sigs, total, complete)
  {
    forall n ensures n in SignedTiers(sigs) <==> Signed(sigs, n) {
      SignedIsListed(sigs, n);
    }
    forall n
      ensures n in Numbers(Required(matrix, total)) <==> exists k :: Reached(matrix, total, k) && matrix[k].tier == n
    {
      NumbersReached(matrix, total, n);
    }
    ScanFindsAwaiting(matrix, sigs, total);
  }

  // The model's own test for the last signature.
  predicate LastOne(required: seq<Tier>, signed: seq<int>) {
    match NextTier(required, signed)
    case None => true
    case Some(next) => AllSigned(required, signed + [next.tier])
  }

  lemma ApprovalBuilds(matrix: seq<Tier>, d: Desk, id: Id, actor: Actor, perms: set<Id>)
    requires ApproveTier(matrix, d, id, actor, perms).Ok? && id in d.ledger.requisitions
    ensures var out := ApproveTier(matrix, d, id, actor, perms).value;
            var required := Required(matrix, d.ledger.requisitions[id].total);
            out.progress == BuildProgress(required, SignedTiers(Sigs(out.desk, id)),
                                          LastOne(required, SignedTiers(Sigs(d, id))))
  {
    var sigs := Sigs(d, id);
    match NextTier(Required(matrix, d.ledger.requisitions[id].total), SignedTiers(sigs))
    case None =>
    case Some(next) => AppendTier(sigs, Signature(next.tier, actor, true));
  }

  lemma LastOneInWords(matrix: seq<Tier>, sigs: seq<Signature>, total: int)
    ensures LastOne(Required(matrix, total), SignedTiers(sigs)) == Completes(matrix, sigs, total)
  {
    ScanFindsAwaiting(matrix, sigs, total);
    var next := NextTier(Required(matrix, total), SignedTiers(sigs));
    if next.Some? {
      var k :| Awaits(matrix, sigs, total, k) && matrix[k] == next.value;
      CompletesIs(matrix, sigs, total, k);
      AllSignedInWords(matrix, sigs, total, Some(next.value.tier));
    }
  }

  // An approval reports the requisition's signatures as they then stand.
  lemma ApprovalReported(matrix: seq<Tier>, d: Desk, id: Id, actor: Actor, perms: set<Id>)
    requires ApproveTier(matrix, d, id, actor, perms).Ok? && id in d.ledger.requisitions
    ensures var out := ApproveTier(matrix, d, id, actor, perms).value;
            var total := d.ledger.requisitions[id].total;
            Reports(out.progress, matrix, Sigs(out.desk, id), total, Completes(matrix, Sigs(d, id), total))
  {
    ApprovalBuilds(matrix, d, id, actor, perms);
    var total := d.ledger.requisitions[id].total;
    LastOneInWords(matrix, Sigs(d, id), total);
    var after := Sigs(ApproveTier(matrix, d, id, actor, perms).value.desk, id);
    BuiltReports(matrix, after, total, Completes(matrix, Sigs(d, id), total));
  }

  lemma RejectionReported(matrix: seq<Tier>, d: Desk, id: Id, actor: Actor, perms: set<Id>)
    requires RejectTiered(matrix, d, id, actor, perms).Ok? && id in d.ledger.requisitions
    ensures var out := RejectTiered(matrix, d, id, actor, perms).value;
            Reports(out.progress, matrix, Sigs(d, id), d.ledger.requisitions[id].total, false)
  {
    BuiltReports(matrix, Sigs(d, id), d.ledger.requisitions[id].total, false);
  }

  // Every other transaction leaves the signatures alone, but a requisition that is
  // deleted takes its own along.
  lemma OtherTrafficWrites(matrix: seq<Tier>, d: Desk, op: Op, id: Id)
    ensures var after := DeskStep(matrix, d, Other(op));
            && after.ledger == LedgerRules.Next(d.ledger, op)
            && Sigs(after, id) ==
               if op == OpDeleteRequisition(id) && LedgerRules.Accepted(d.ledger, op) then [] else Sigs(d, id)
  {}

  /* ---- over runs: nobody signs without the permission ---- */

  // The step added this signature: its actor held, at that moment, the permission
  // of a band with that number that the total then reached.
  ghost predicate Granted(d: Desk, m: DeskMove, id: Id, sig: Signature) {
    && m.op.TierApprove? && m.op.id == id && m.op.actor == sig.actor && id in d.ledger.requisitions
    && exists k :: Reached(m.matrix, d.ledger.requisitions[id].total, k) && m.matrix[k].tier == sig.tier
                   && m.matrix[k].perm in m.op.perms
  }

  lemma NewSignaturesAreGranted(d: Desk, m: DeskMove, id: Id, sig: Signature)
    requires sig in Sigs(DeskStep(m.matrix, d, m.op), id) && sig.approved
    ensures sig in Sigs(d, id) || Granted(d, m, id, sig)
  {
    match m.op
    case TierApprove(r, actor, perms) =>
      if ApproveTier(m.matrix, d, r, actor, perms).Ok? {
        ApprovalAccepted(m.matrix, d, r, actor, perms);
        ApprovalWrites(m.matrix, d, r, actor, perms);
      }
    case TierReject(r, actor, perms) =>
      if RejectTiered(m.matrix, d, r, actor, perms).Ok? {
        RejectionAccepted(m.matrix, d, r, actor, perms);
        RejectionWrites(m.matrix, d, r, actor, perms);
      }
    case Other(op) =>
  }

  lemma {:induction false} MovesLast(d: Desk, moves: seq<DeskMove>, m: DeskMove)
    ensures DeskMoves(d, moves + [m]) == DeskStep(m.matrix, DeskMoves(d, moves), m.op)
    decreases |moves|
  {
    if moves == [] {
      assert moves + [m] == [m];
      assert DeskMoves(DeskStep(m.matrix, d, m.op), []) == DeskStep(m.matrix, d, m.op);
    } else {
      assert (moves + [m])[1..] == moves[1..] + [m];
      MovesLast(DeskStep(moves[0].matrix, d, moves[0].op), moves[1..], m);
    }
  }

  // Every approving signature at the end of a run was there before, or was granted
  // by one of its steps.
  lemma {:induction false} EverySignatureWasGranted(d: Desk, moves: seq<DeskMove>, id: Id, sig: Signature)
    requires sig in Sigs(DeskMoves(d, moves), id) && sig.approved
    ensures sig in Sigs(d, id)
            || exists k :: 0 <= k < |moves| && Granted(DeskMoves(d, moves[..k]), moves[k], id, sig)
    decreases |moves|
  {
    if moves != [] {
      var front, m := moves[..|moves| - 1], moves[|moves| - 1];
      assert moves == front + [m];
      MovesLast(d, front, m);
      var u := DeskMoves(d, front);
      NewSignaturesAreGranted(u, m, id, sig);
      if sig in Sigs(u, id) {
        EverySignatureWasGranted(d, front, id, sig);
        if sig !in Sigs(d, id) {
          var k :| 0 <= k < |front| && Granted(DeskMoves(d, front[..k]), front[k], id, sig);
          assert moves[..k] == front[..k];
        }
      } else {
        assert Granted(DeskMoves(d, moves[..|front|]), moves[|front|], id, sig);
      }
    }
  }
}
