/** What the outbox protocol keeps over every run, with any number of publishers,
  * crashes and lost marks.
  */
module OutboxTheorems {
  import opened Values
  import opened Outbox
  import Backoff
  import Totals

  lemma Intervals(d: int)
    ensures Interval(HOLD) == HOLD
    ensures d <= Backoff.MAX_BACKOFF ==> Interval(d) <= Backoff.MAX_BACKOFF
    ensures d >= HOLD ==> Interval(d) >= HOLD
  {
    assert HOLD == 1000 * MILLI;
    assert Backoff.MAX_BACKOFF == 300_000 * MILLI;
  }

  /* ---- counting what is in flight ---- */

  lemma {:induction false} NothingWaits(q: seq<Work>, id: Id)
    requires forall i :: 0 <= i < |q| ==> q[i].id != id
    ensures Waiting(q, id) == 0
  {
    if q != [] {
      NothingWaits(q[1..], id);
    }
  }

  lemma AbsentRowIdle(s: State, id: Id)
    requires WorksSound(s) && id !in s.rows
    ensures InFlight(s, id) == 0
  {
    forall p | p in s.publishers
      ensures WaitingOf(id)(s.publishers[p]) == 0
    {
      forall i | 0 <= i < |s.publishers[p]|
        ensures s.publishers[p][i].id != id
      {
        assert WorkSound(s.publishers[p][i], s);
      }
      NothingWaits(s.publishers[p], id);
    }
    Totals.TotalZero(s.publishers, WaitingOf(id));
  }

  lemma {:induction false} WorksAre(rows: Table, ids: seq<Id>)
    requires forall i :: 0 <= i < |ids| ==> ids[i] in rows
    ensures |Works(rows, ids)| == |ids|
    ensures forall i :: 0 <= i < |ids| ==> Works(rows, ids)[i] == Work(ids[i], rows[ids[i]].attempts, Claimed)
  {
    if ids != [] {
      WorksAre(rows, ids[1..]);
    }
  }

  lemma {:induction false} FreshWorksWait(rows: Table, ids: seq<Id>, id: Id)
    requires Distinct(ids)
    ensures Waiting(Works(rows, ids), id) == if id in ids then 1 else 0
  {
    if ids != [] {
      FreshWorksWait(rows, ids[1..], id);
      assert id in ids[1..] ==> id != ids[0];
    }
  }

  // Replacing one queue changes the count by that queue's difference.
  lemma QueueReplaced(s: State, p: Id, q: seq<Work>, t: State, id: Id)
    requires t.publishers == s.publishers[p := q]
    ensures InFlight(t, id) == InFlight(s, id) + Waiting(q, id) - Waiting(Queue(s, p), id)
  {
    Totals.TotalPut(s.publishers, p, q, WaitingOf(id));
  }

  /* ---- one step ---- */

  lemma StepKeepsAccounted(s: State, op: Op)
    requires Accounted(s)
    ensures Accounted(Step(s, op))
  {
  }

  // Rows stay, and their attempts and acknowledged dispatches only grow.
  lemma RowsOnlyGrow(s: State, op: Op)
    requires Accounted(s)
    ensures var t := Step(s, op);
            forall id :: id in s.rows ==>
              && id in t.rows && id in t.log
              && t.rows[id].attempts >= s.rows[id].attempts && t.log[id].acks >= s.log[id].acks
  {
  }

  // What a publisher holds after a step is a fresh claim, the answer to a dispatch,
  // or what it held before.
  lemma WorkComesFrom(s: State, op: Op, p: Id, i: nat)
    requires Accounted(s) && WorksSound(s)
    requires var t := Step(s, op); p in t.publishers && i < |t.publishers[p]|
    ensures var t := Step(s, op);
            var w := t.publishers[p][i];
            || (op.Claim? && CanClaim(s, op.p, op.ids) && p == op.p && i < |op.ids|
                && op.ids[i] in s.rows && w == Work(op.ids[i], s.rows[op.ids[i]].attempts + 1, Claimed))
            || exists v :: WorkSound(v, s) && w.id == v.id && w.attempts == v.attempts
                           && (w.phase == v.phase || (w.phase.Delivered? && t.log[w.id].acks >= 1) || w.phase.Refused?)
  {
    var t := Step(s, op);
    if op.Claim? && CanClaim(s, op.p, op.ids) && p == op.p {
      WorksAre(t.rows, op.ids);
    } else if t.publishers[p] == Queue(s, p) || op.Dispatch? {
      assert WorkSound(s.publishers[p][i], s);
    } else if !op.Crash? {
      assert t.publishers[p] == s.publishers[p][1..];
      assert WorkSound(s.publishers[p][i + 1], s);
    }
  }

  lemma StepKeepsWorks(s: State, op: Op)
    requires Accounted(s) && WorksSound(s)
    ensures WorksSound(Step(s, op))
  {
    var t := Step(s, op);
    RowsOnlyGrow(s, op);
    forall p, i | p in t.publishers && 0 <= i < |t.publishers[p]|
      ensures WorkSound(t.publishers[p][i], t)
    {
      WorkComesFrom(s, op, p, i);
    }
  }

  // What one step does to one row that exists.
  datatype Effect =
    | Nothing
    | Reserved
    | Replied(sent: bool, ok: bool)
    | Finished
    | PutOff(attempts: nat, big: int)

  function EffectOn(s: State, op: Op, id: Id): Effect {
    match op
    case Enqueue(_) => Nothing
    case Tick(_) => Nothing
    case Claim(p, ids) => if CanClaim(s, p, ids) && id in ids then Reserved else Nothing
    case Dispatch(p, sent, ok) =>
      var q := Queue(s, p);
      if q != [] && q[0].phase.Claimed? && q[0].id == id then Replied(sent, ok) else Nothing
    case Mark(p, big) =>
      var q := Queue(s, p);
      if q == [] || q[0].phase.Claimed? || q[0].id != id then Nothing
      else if q[0].phase.Delivered? then Finished
      else PutOff(q[0].attempts, big)
    case LoseMark(_) => Nothing
    case Crash(_) => Nothing
  }

  // How long a recorded failure puts its row off.
  function Wait(e: Effect): int {
    if e.PutOff? then Interval(Backoff.BackoffFor(e.attempts, Backoff.MAX_BACKOFF, e.big)) else 0
  }

  function RowAfter(row: Row, e: Effect, now: int, wait: int): Row {
    match e
    case Nothing => row
    case Reserved => row.(attempts := row.attempts + 1, availableAt := now + Interval(HOLD))
    case Replied(_, _) => row
    case Finished => row.(dispatchedAt := Some(now))
    case PutOff(_, _) => row.(availableAt := now + wait)
  }

  function HistoryAfter(h: History, e: Effect, now: int, wait: int): History {
    match e
    case Nothing => h
    case Reserved => LogClaim(h, now)
    case Replied(sent, ok) => LogReply(h, sent, ok)
    case Finished => h
    case PutOff(_, _) => h.(touched := now, rushed := h.rushed || wait < HOLD)
  }

  lemma StepOnRow(s: State, op: Op, id: Id)
    requires Accounted(s) && id in s.rows
    ensures var t := Step(s, op);
            var e := EffectOn(s, op, id);
            && id in t.rows && id in t.log && t.now >= s.now
            && t.rows[id] == RowAfter(s.rows[id], e, s.now, Wait(e))
            && t.log[id] == HistoryAfter(s.log[id], e, s.now, Wait(e))
            && (!e.Nothing? ==> t.now == s.now)
  {
  }

  // A mark is about work some publisher was given.
  lemma EffectIsSound(s: State, op: Op, id: Id)
    requires Accounted(s) && WorksSound(s) && id in s.rows
    ensures var e := EffectOn(s, op, id);
            && (e.Reserved? ==> Due(s.rows[id], s.now))
            && (e.Finished? ==> s.log[id].acks >= 1)
            && (e.PutOff? ==> 1 <= e.attempts <= s.rows[id].attempts)
  {
    if op.Mark? && Queue(s, op.p) != [] {
      assert WorkSound(s.publishers[op.p][0], s);
    }
  }

  lemma StepKeepsTimed(s: State, op: Op)
    requires Sound(s)
    ensures RowsTimed(Step(s, op))
  {
    var t := Step(s, op);
    forall id | id in t.rows && id in t.log
      ensures RowTimed(t.rows[id], t.log[id], t.now)
    {
      if id in s.rows {
        assert RowTimed(s.rows[id], s.log[id], s.now) && RowCounted(s.rows[id], s.log[id], InFlight(s, id));
        StepOnRow(s, op, id);
        EffectIsSound(s, op, id);
        WaitIsSound(EffectOn(s, op, id));
        EffectKeepsTimed(s.rows[id], s.log[id], EffectOn(s, op, id), Wait(EffectOn(s, op, id)), s.now, t.now);
      }
    }
  }

  lemma EffectKeepsPaced(row: Row, h: History, e: Effect, wait: int, now: int, later: int)
    requires RowPaced(row, h, now) && now <= later && |h.claims| == row.attempts
    requires e.PutOff? ==>
               e.attempts <= row.attempts && wait <= Backoff.MAX_BACKOFF && (wait < HOLD ==> e.attempts >= 34)
    ensures RowPaced(RowAfter(row, e, now, wait), HistoryAfter(h, e, now, wait), later)
  {
    Intervals(HOLD);
  }

  lemma ClaimKeepsSpaced(row: Row, h: History, now: int)
    requires Spaced(h.claims) && RowPaced(row, h, now) && row.availableAt <= now
    ensures Spaced(LogClaim(h, now).claims)
  {
    var claims := h.claims + [Stamp(now, h.rushed)];
    forall k {:trigger claims[k]} | 0 <= k < |claims|
      ensures claims[k].rushed ==> k >= 34
      ensures k > 0 && !claims[k].rushed ==> claims[k].time - claims[k - 1].time >= HOLD
    {
      if k < |h.claims| {
        assert claims[k] == h.claims[k];
        assert k > 0 ==> claims[k - 1] == h.claims[k - 1];
      }
    }
  }

  lemma EffectKeepsTimed(row: Row, h: History, e: Effect, wait: int, now: int, later: int)
    requires RowTimed(row, h, now) && now <= later && |h.claims| == row.attempts
    requires e.Reserved? ==> row.availableAt <= now
    requires e.PutOff? ==>
               e.attempts <= row.attempts && wait <= Backoff.MAX_BACKOFF && (wait < HOLD ==> e.attempts >= 34)
    ensures RowTimed(RowAfter(row, e, now, wait), HistoryAfter(h, e, now, wait), later)
  {
    EffectKeepsPaced(row, h, e, wait, now, later);
    if e.Reserved? {
      ClaimKeepsSpaced(row, h, now);
    } else {
      assert HistoryAfter(h, e, now, wait).claims == h.claims;
    }
  }

  // A failure rushes its row only past the 33rd attempt.
  lemma RushesLate(n: nat, big: int)
    requires Rushes(n, big)
    ensures n >= 34 && !Backoff.Lucky(n)
  {
    Intervals(Backoff.BackoffFor(n, Backoff.MAX_BACKOFF, big));
    if n <= 33 {
      Backoff.BackoffAtLeastTwoSeconds(if n == 0 then 1 else n, big);
    } else if n <= 62 {
      Backoff.CappedOrNoDelay(n, big);
    }
  }

  lemma WaitIsSound(e: Effect)
    ensures Wait(e) <= Backoff.MAX_BACKOFF
    ensures e.PutOff? && Wait(e) < HOLD ==> e.attempts >= 34
  {
    if e.PutOff? {
      Intervals(Backoff.BackoffFor(e.attempts, Backoff.MAX_BACKOFF, e.big));
      if Wait(e) < HOLD {
        RushesLate(e.attempts, e.big);
      }
    }
  }

  // Waiting work of a row: a claim adds one, a reply takes one, a crash may.
  lemma StepOnInFlight(s: State, op: Op, id: Id)
    requires Accounted(s) && WorksSound(s) && id in s.rows
    ensures var e := EffectOn(s, op, id);
            InFlight(Step(s, op), id) <=
              InFlight(s, id) + (if e.Reserved? then 1 else 0) - (if e.Replied? then 1 else 0)
  {
    var t := Step(s, op);
    if !op.Enqueue? && !op.Tick? && t.publishers != s.publishers {
      var q := Queue(s, op.p);
      QueueReplaced(s, op.p, t.publishers[op.p], t, id);
      if op.Claim? {
        FreshWorksWait(t.rows, op.ids, id);
      } else if op.Dispatch? {
        assert t.publishers[op.p][1..] == q[1..];
      }
    }
  }

  lemma {:induction false} InFlightNonNegative(s: State, id: Id)
    ensures InFlight(s, id) >= 0
  {
    Totals.TotalNonNegative(s.publishers, WaitingOf(id));
  }

  lemma RowStaysCounted(s: State, op: Op, id: Id)
    requires Accounted(s) && WorksSound(s) && id in s.rows && RowCounted(s.rows[id], s.log[id], InFlight(s, id))
    ensures var t := Step(s, op); id in t.rows && id in t.log && RowCounted(t.rows[id], t.log[id], InFlight(t, id))
  {
    var t := Step(s, op);
    InFlightNonNegative(t, id);
    StepOnRow(s, op, id);
    EffectIsSound(s, op, id);
    StepOnInFlight(s, op, id);
    var e := EffectOn(s, op, id);
    EffectKeepsCounted(s.rows[id], s.log[id], e, s.now, Wait(e), InFlight(s, id), InFlight(t, id));
  }

  lemma NewRowIsCounted(s: State, op: Op, id: Id)
    requires Accounted(s) && WorksSound(s) && id !in s.rows && id in Step(s, op).rows && id in Step(s, op).log
    ensures var t := Step(s, op); RowCounted(t.rows[id], t.log[id], InFlight(t, id))
  {
    AbsentRowIdle(s, id);
  }

  lemma StepKeepsCounted(s: State, op: Op)
    requires Sound(s)
    ensures RowsCounted(Step(s, op))
  {
    var t := Step(s, op);
    forall id | id in t.rows && id in t.log
      ensures RowCounted(t.rows[id], t.log[id], InFlight(t, id))
    {
      if id in s.rows {
        RowStaysCounted(s, op, id);
      } else {
        NewRowIsCounted(s, op, id);
      }
    }
  }

  lemma EffectKeepsCounted(row: Row, h: History, e: Effect, now: int, wait: int, inFlight: int, inFlight': int)
    requires RowCounted(row, h, inFlight)
    requires 0 <= inFlight' <= inFlight + (if e.Reserved? then 1 else 0) - (if e.Replied? then 1 else 0)
    requires e.Finished? ==> h.acks >= 1
    ensures RowCounted(RowAfter(row, e, now, wait), HistoryAfter(h, e, now, wait), inFlight')
  {
  }

  lemma StepKeepsSound(s: State, op: Op)
    requires Sound(s)
    ensures Sound(Step(s, op))
  {
    StepKeepsAccounted(s, op);
    StepKeepsWorks(s, op);
    StepKeepsTimed(s, op);
    StepKeepsCounted(s, op);
  }

  /* ---- whole runs ---- */

  ghost predicate Fresh(s: State) {
    s.rows == map[] && s.log == map[] && forall p :: p in s.publishers ==> s.publishers[p] == []
  }

  lemma {:induction false} RunsStaySound(s: State, ops: seq<Op>)
    requires Sound(s)
    ensures Sound(Run(s, ops))
    decreases |ops|
  {
    if ops != [] {
      RunsStaySound(s, ops[..|ops| - 1]);
      StepKeepsSound(Run(s, ops[..|ops| - 1]), ops[|ops| - 1]);
    }
  }

  // The protocol's guarantees for each row after any run from an empty table.
  lemma ProtocolHolds(s: State, ops: seq<Op>, id: Id)
    requires Fresh(s) && id in Run(s, ops).rows
    ensures var t := Run(s, ops);
            && id in t.log
            && (t.rows[id].dispatchedAt.Some? ==> t.log[id].acks >= 1)
            && t.log[id].sends <= t.rows[id].attempts
            && |t.log[id].claims| == t.rows[id].attempts
            && Spaced(t.log[id].claims)
            && t.rows[id].availableAt <= t.log[id].touched + Backoff.MAX_BACKOFF
  {
    RunsStaySound(s, ops);
    var t := Run(s, ops);
    assert RowCounted(t.rows[id], t.log[id], InFlight(t, id));
    assert RowTimed(t.rows[id], t.log[id], t.now);
  }

  // A row five minutes after its last claim or failure can be claimed, alone or
  // with any other due rows, by every publisher that is idle.
  lemma StaleRowIsClaimable(s: State, ops: seq<Op>, id: Id, p: Id)
    requires Fresh(s)
    requires var t := Run(s, ops);
             && id in t.rows && id in t.log && t.rows[id].dispatchedAt.None?
             && t.now >= t.log[id].touched + Backoff.MAX_BACKOFF
             && Queue(t, p) == []
    ensures var t := Run(s, ops);
            CanClaim(t, p, [id]) && Step(t, Claim(p, [id])).rows[id].attempts == t.rows[id].attempts + 1
  {
    ProtocolHolds(s, ops, id);
  }

  /* ---- dispatched rows are final ---- */

  lemma DispatchedStep(s: State, op: Op, id: Id)
    requires id in s.rows && id in s.log && s.rows[id].dispatchedAt.Some?
    ensures var t := Step(s, op);
            && id in t.rows && id in t.log && t.rows[id].dispatchedAt.Some?
            && t.rows[id].attempts == s.rows[id].attempts && t.log[id].claims == s.log[id].claims
  {
  }

  lemma {:induction false} DispatchedNeverClaimedAgain(s: State, ops: seq<Op>, id: Id)
    requires id in s.rows && id in s.log && s.rows[id].dispatchedAt.Some?
    ensures var t := Run(s, ops);
            && id in t.rows && id in t.log && t.rows[id].dispatchedAt.Some?
            && t.rows[id].attempts == s.rows[id].attempts && t.log[id].claims == s.log[id].claims
    decreases |ops|
  {
    if ops != [] {
      DispatchedNeverClaimedAgain(s, ops[..|ops| - 1], id);
      DispatchedStep(Run(s, ops[..|ops| - 1]), ops[|ops| - 1], id);
    }
  }

  /* ---- claims within the hold time of one another are disjoint ---- */

  // The row is not due before this time.
  ghost predicate HeldUntil(s: State, id: Id, time: int) {
    id in s.rows && s.rows[id].availableAt >= time
  }

  // What each step of the run does to the row meets `ok`.
  ghost predicate Effects(s: State, ops: seq<Op>, id: Id, ok: Effect -> bool)
    decreases |ops|
  {
    ops == [] ||
    var front := ops[..|ops| - 1];
    Effects(s, front, id, ok) && ok(EffectOn(Run(s, front), ops[|ops| - 1], id))
  }

  // A failure, if it records one, puts the row off by the hold time.
  predicate Unhurried(e: Effect) {
    e.PutOff? ==> !Rushes(e.attempts, e.big)
  }

  // A failure, if it records one, is of an attempt up to the 33rd or one of eight
  // later ones.
  predicate Punctual(e: Effect) {
    e.PutOff? ==> e.attempts <= 33 || Backoff.Lucky(e.attempts)
  }

  predicate NoFailure(e: Effect) {
    !e.PutOff?
  }

  lemma StepKeepsHeld(s: State, op: Op, id: Id, time: int)
    requires Accounted(s) && HeldUntil(s, id, time + HOLD) && s.now >= time
    requires Unhurried(EffectOn(s, op, id))
    ensures var t := Step(s, op); Accounted(t) && HeldUntil(t, id, time + HOLD) && t.now >= time
  {
    Intervals(HOLD);
    StepKeepsAccounted(s, op);
    StepOnRow(s, op, id);
  }

  lemma {:induction false} RunKeepsHeld(s: State, ops: seq<Op>, id: Id, time: int)
    requires Accounted(s) && HeldUntil(s, id, time + HOLD) && s.now >= time && Effects(s, ops, id, Unhurried)
    ensures var t := Run(s, ops); Accounted(t) && HeldUntil(t, id, time + HOLD) && t.now >= time
    decreases |ops|
  {
    if ops != [] {
      var front := ops[..|ops| - 1];
      RunKeepsHeld(s, front, id, time);
      StepKeepsHeld(Run(s, front), ops[|ops| - 1], id, time);
    }
  }

  lemma ClaimHolds(s: State, p: Id, ids: seq<Id>, id: Id)
    requires Accounted(s) && CanClaim(s, p, ids) && id in ids
    ensures var t := Step(s, Claim(p, ids)); Accounted(t) && HeldUntil(t, id, s.now + HOLD) && t.now == s.now
  {
    Intervals(HOLD);
  }

  // Two claims of any publishers less than the hold time apart share no row that
  // no failure rushed in between, whatever its number of attempts.
  lemma ClaimsWithinHoldAreDisjoint(s: State, p: Id, a: seq<Id>, ops: seq<Op>, q: Id, b: seq<Id>, id: Id)
    requires Accounted(s) && CanClaim(s, p, a) && id in a
    requires var s' := Step(s, Claim(p, a));
             var t := Run(s', ops);
             Effects(s', ops, id, Unhurried) && CanClaim(t, q, b) && t.now < s.now + HOLD
    ensures id !in b
  {
    var s' := Step(s, Claim(p, a));
    ClaimHolds(s, p, a, id);
    RunKeepsHeld(s', ops, id, s.now);
    var t := Run(s', ops);
    assert forall i :: 0 <= i < |b| ==> Due(t.rows[b[i]], t.now);
  }

  lemma {:induction false} WeakerEffects(s: State, ops: seq<Op>, id: Id, ok: Effect -> bool, ok': Effect -> bool)
    requires Effects(s, ops, id, ok) && forall e :: ok(e) ==> ok'(e)
    ensures Effects(s, ops, id, ok')
    decreases |ops|
  {
    if ops != [] {
      WeakerEffects(s, ops[..|ops| - 1], id, ok, ok');
    }
  }

  // In particular when the failures recorded in between were of attempts the
  // retry delay does not wrap for.
  lemma PunctualClaimsAreDisjoint(s: State, p: Id, a: seq<Id>, ops: seq<Op>, q: Id, b: seq<Id>, id: Id)
    requires Accounted(s) && CanClaim(s, p, a) && id in a
    requires var s' := Step(s, Claim(p, a));
             var t := Run(s', ops);
             Effects(s', ops, id, Punctual) && CanClaim(t, q, b) && t.now < s.now + HOLD
    ensures id !in b
  {
    forall e | Punctual(e)
      ensures Unhurried(e)
    {
      if e.PutOff? && Rushes(e.attempts, e.big) {
        RushesLate(e.attempts, e.big);
      }
    }
    WeakerEffects(Step(s, Claim(p, a)), ops, id, Punctual, Unhurried);
    ClaimsWithinHoldAreDisjoint(s, p, a, ops, q, b, id);
  }

  // Or when none was recorded: crashes and lost marks never bring two claims of a
  // row closer than the hold time.
  lemma UnfailedClaimsAreDisjoint(s: State, p: Id, a: seq<Id>, ops: seq<Op>, q: Id, b: seq<Id>, id: Id)
    requires Accounted(s) && CanClaim(s, p, a) && id in a
    requires var s' := Step(s, Claim(p, a));
             var t := Run(s', ops);
             Effects(s', ops, id, NoFailure) && CanClaim(t, q, b) && t.now < s.now + HOLD
    ensures id !in b
  {
    WeakerEffects(Step(s, Claim(p, a)), ops, id, NoFailure, Unhurried);
    ClaimsWithinHoldAreDisjoint(s, p, a, ops, q, b, id);
  }

  /* ---- where the hold time stops being kept ---- */

  // A recorded failure postpones its row by at least the hold time exactly when
  // the attempt count has not wrapped, or wrapped to a large delay.
  lemma FailureKeepsHoldIff(attempts: nat, big: int)
    requires 1 <= attempts <= 62
    ensures !Rushes(attempts, big) <==> attempts <= 33 || Backoff.Lucky(attempts)
  {
    var d := Backoff.BackoffFor(attempts, Backoff.MAX_BACKOFF, big);
    Intervals(d);
    if attempts > 33 {
      Backoff.CappedOrNoDelay(attempts, big);
    } else if Rushes(attempts, big) {
      RushesLate(attempts, big);
    }
  }

  const EMPTY_OUTBOX := State(0, map[], map[], map[])

  // One publisher claims row 0, is refused and records it.
  const REFUSED: seq<Op> := [Claim(1, [0]), Dispatch(1, false, false), Mark(1, 0)]

  function Refusals(n: nat): seq<Op> {
    if n == 0 then [Enqueue(0)] else Refusals(n - 1) + REFUSED + [Tick(Backoff.MAX_BACKOFF)]
  }

  // Row 0 is due, was claimed n times, and nobody holds it.
  predicate DueAgain(s: State, n: nat) {
    && 0 in s.rows && 0 in s.log && Queue(s, 1) == []
    && s.rows[0].attempts == n == |s.log[0].claims|
    && Due(s.rows[0], s.now)
  }

  lemma RefusedOnce(s: State, n: nat)
    requires DueAgain(s, n)
    ensures var t := Run(s, REFUSED);
            && 0 in t.rows && 0 in t.log && Queue(t, 1) == [] && t.now == s.now
            && t.rows[0] == Row(n + 1, s.now + Interval(Backoff.BackoffFor(n + 1, Backoff.MAX_BACKOFF, 0)), None)
            && |t.log[0].claims| == n + 1 && LastClaim(t.log[0]) == s.now
  {
    var a := Step(s, Claim(1, [0]));
    assert CanClaim(s, 1, [0]);
    assert Works(a.rows, [0]) == [Work(0, n + 1, Claimed)];
    var b := Step(a, Dispatch(1, false, false));
    var c := Step(b, Mark(1, 0));
    RunThree(s, Claim(1, [0]), Dispatch(1, false, false), Mark(1, 0));
  }

  lemma RunThree(s: State, a: Op, b: Op, c: Op)
    ensures Run(s, [a, b, c]) == Step(Step(Step(s, a), b), c)
  {
    assert [a, b, c][..2] == [a, b] && [a, b][..1] == [a] && [a][..0] == [];
    assert Run(s, [a]) == Step(s, a);
    assert Run(s, [a, b]) == Step(Step(s, a), b);
  }

  lemma {:induction false} RunJoin(s: State, a: seq<Op>, b: seq<Op>)
    ensures Run(s, a + b) == Run(Run(s, a), b)
    decreases |b|
  {
    if b == [] {
      assert a + b == a;
    } else {
      var front := b[..|b| - 1];
      RunJoin(s, a, front);
      assert (a + b)[..|a + b| - 1] == a + front;
    }
  }

  lemma {:induction false} RefusalsLeadOn(n: nat)
    ensures DueAgain(Run(EMPTY_OUTBOX, Refusals(n)), n)
  {
    if n == 0 {
      assert Run(EMPTY_OUTBOX, []) == EMPTY_OUTBOX;
    } else {
      RefusalsLeadOn(n - 1);
      var s := Run(EMPTY_OUTBOX, Refusals(n - 1));
      RefusedOnce(s, n - 1);
      RunJoin(EMPTY_OUTBOX, Refusals(n - 1), REFUSED);
      RunJoin(EMPTY_OUTBOX, Refusals(n - 1) + REFUSED, [Tick(Backoff.MAX_BACKOFF)]);
      var t := Run(s, REFUSED);
      assert Run(t, []) == t && Run(t, [Tick(Backoff.MAX_BACKOFF)]) == Step(t, Tick(Backoff.MAX_BACKOFF));
      Intervals(Backoff.BackoffFor(n, Backoff.MAX_BACKOFF, 0));
    }
  }

  lemma ReclaimStampsNow(s: State)
    requires 0 in s.rows && 0 in s.log && Queue(s, 1) == [] && Due(s.rows[0], s.now)
    requires |s.log[0].claims| == 34 && LastClaim(s.log[0]) == s.now
    ensures var t := Step(s, Claim(1, [0]));
            && CanClaim(s, 1, [0]) && 0 in t.log && |t.log[0].claims| == 35
            && t.log[0].claims[34].time == t.log[0].claims[33].time
  {
  }

  // From an empty table: the failure of the 34th attempt makes the row due at
  // that very moment, and the claim that follows is no time after the one before.
  lemma ThirtyFourthFailureIsReclaimedAtOnce()
    ensures var s := Run(EMPTY_OUTBOX, Refusals(33) + REFUSED);
            var t := Step(s, Claim(1, [0]));
            && CanClaim(s, 1, [0]) && 0 in t.log && |t.log[0].claims| == 35
            && t.log[0].claims[34].time == t.log[0].claims[33].time
  {
    var s := RefusedToTheEnd();
    ReclaimStampsNow(s);
  }

  lemma WrappedDelayIsNone(now: int)
    ensures now + Interval(Backoff.BackoffFor(34, Backoff.MAX_BACKOFF, 0)) <= now
  {
    Backoff.CappedOrNoDelay(34, 0);
  }

  lemma RefusedToTheEnd() returns (s: State)
    ensures s == Run(EMPTY_OUTBOX, Refusals(33) + REFUSED)
    ensures 0 in s.rows && 0 in s.log && Queue(s, 1) == [] && Due(s.rows[0], s.now)
    ensures |s.log[0].claims| == 34 && LastClaim(s.log[0]) == s.now
  {
    var k := 33;
    RefusalsLeadOn(k);
    var u := Run(EMPTY_OUTBOX, Refusals(k));
    RefusedOnce(u, k);
    RunJoin(EMPTY_OUTBOX, Refusals(k), REFUSED);
    s := Run(u, REFUSED);
    WrappedDelayIsNone(s.now);
  }
}
