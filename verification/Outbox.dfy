/** The transactional outbox as a step system: a shared table of rows, a clock,
  * and any number of publishers that claim, dispatch, mark and crash. Times are
  * nanoseconds. Each database statement is one step.
  */
module Outbox {
  import opened Values
  import Backoff
  import Totals

  const HOLD := Backoff.SECOND
  const BATCH := 32
  const MILLI := 1_000_000

  // A duration reaches the database in whole milliseconds, cut toward zero.
  function Interval(d: int): int {
    if d >= 0 then d / MILLI * MILLI else -(-d / MILLI * MILLI)
  }

  datatype Row = Row(attempts: nat, availableAt: int, dispatchedAt: Option<int>)

  type Table = map<Id, Row>

  predicate Due(row: Row, now: int) {
    row.dispatchedAt.None? && row.availableAt <= now
  }

  /* ---- the three statements on the table ---- */

  function Reserve(rows: Table, ids: seq<Id>, now: int, hold: int): Table {
    map id | id in rows ::
      if id in ids then rows[id].(attempts := rows[id].attempts + 1, availableAt := now + Interval(hold)) else rows[id]
  }

  function Dispatched(rows: Table, id: Id, now: int): Table {
    if id in rows then rows[id := rows[id].(dispatchedAt := Some(now))] else rows
  }

  function Postponed(rows: Table, id: Id, now: int, delay: int): Table {
    if id in rows then rows[id := rows[id].(availableAt := now + Interval(delay))] else rows
  }

  /* ---- what has happened, and who holds what ---- */

  // When a claim was made, and whether a failure recorded since the claim before
  // it put the row off by less than the hold time.
  datatype Stamp = Stamp(time: int, rushed: bool)

  // sends: how often the message reached the broker. acks: how often a dispatch
  // reported success. touched: the last enqueue, claim or recorded failure.
  // rushed: such a failure was recorded since the last claim.
  datatype History = History(claims: seq<Stamp>, sends: nat, acks: nat, touched: int, rushed: bool)

  datatype Phase = Claimed | Delivered | Refused

  // A claimed row in a publisher's memory, with the attempt number it was given.
  datatype Work = Work(id: Id, attempts: nat, phase: Phase)

  datatype State = State(now: int, rows: Table, log: map<Id, History>, publishers: map<Id, seq<Work>>)

  function Queue(s: State, p: Id): seq<Work> {
    if p in s.publishers then s.publishers[p] else []
  }

  datatype Op =
    | Enqueue(id: Id)
    | Tick(dt: nat)
    | Claim(p: Id, ids: seq<Id>)
    // Reaching the broker and being told so are separate: a reply can be lost,
    // and a publisher without a broker reports success.
    | Dispatch(p: Id, sent: bool, ok: bool)
    | Mark(p: Id, big: int)
    | LoseMark(p: Id)
    | Crash(p: Id)

  predicate Distinct(ids: seq<Id>) {
    forall i, j :: 0 <= i < j < |ids| ==> ids[i] != ids[j]
  }

  predicate CanClaim(s: State, p: Id, ids: seq<Id>) {
    && Queue(s, p) == []
    && |ids| <= BATCH
    && Distinct(ids)
    && forall i :: 0 <= i < |ids| ==> ids[i] in s.rows && Due(s.rows[ids[i]], s.now)
  }

  function Works(rows: Table, ids: seq<Id>): seq<Work> {
    if ids == [] then []
    else [Work(ids[0], if ids[0] in rows then rows[ids[0]].attempts else 0, Claimed)] + Works(rows, ids[1..])
  }

  function LogClaims(log: map<Id, History>, ids: seq<Id>, now: int): map<Id, History> {
    map id | id in log ::
      if id in ids then LogClaim(log[id], now) else log[id]
  }

  function LogClaim(h: History, now: int): History {
    h.(claims := h.claims + [Stamp(now, h.rushed)], touched := now, rushed := false)
  }

  // A recorded failure of attempt n puts its row off by less than the hold time.
  predicate Rushes(n: nat, big: int) {
    Interval(Backoff.BackoffFor(n, Backoff.MAX_BACKOFF, big)) < HOLD
  }

  function LogFailure(h: History, n: nat, big: int, now: int): History {
    h.(touched := now, rushed := h.rushed || Rushes(n, big))
  }

  function LogReply(h: History, sent: bool, ok: bool): History {
    h.(sends := h.sends + (if sent then 1 else 0), acks := h.acks + (if ok then 1 else 0))
  }

  // A step that is not possible leaves everything as it is.
  function Step(s: State, op: Op): State {
    match op
    case Enqueue(id) =>
      if id in s.rows || id in s.log then s
      else s.(rows := s.rows[id := Row(0, s.now, None)], log := s.log[id := History([], 0, 0, s.now, false)])
    case Tick(dt) => s.(now := s.now + dt)
    case Claim(p, ids) =>
      if !CanClaim(s, p, ids) then s
      else
        var rows := Reserve(s.rows, ids, s.now, HOLD);
        s.(rows := rows, log := LogClaims(s.log, ids, s.now), publishers := s.publishers[p := Works(rows, ids)])
    case Dispatch(p, sent, ok) =>
      var q := Queue(s, p);
      if q == [] || !q[0].phase.Claimed? || q[0].id !in s.log then s
      else
        var head := q[0].(phase := if ok then Delivered else Refused);
        s.(log := s.log[head.id := LogReply(s.log[head.id], sent, ok)],
           publishers := s.publishers[p := [head] + q[1..]])
    case Mark(p, big) =>
      var q := Queue(s, p);
      if q == [] || q[0].phase.Claimed? || q[0].id !in s.log then s
      else if q[0].phase.Delivered? then
        s.(rows := Dispatched(s.rows, q[0].id, s.now), publishers := s.publishers[p := q[1..]])
      else
        s.(rows := Postponed(s.rows, q[0].id, s.now, Backoff.BackoffFor(q[0].attempts, Backoff.MAX_BACKOFF, big)),
           log := s.log[q[0].id := LogFailure(s.log[q[0].id], q[0].attempts, big, s.now)],
           publishers := s.publishers[p := q[1..]])
    case LoseMark(p) =>
      var q := Queue(s, p);
      if q == [] || q[0].phase.Claimed? then s else s.(publishers := s.publishers[p := q[1..]])
    case Crash(p) => s.(publishers := s.publishers[p := []])
  }

  function Run(s: State, ops: seq<Op>): State
    decreases |ops|
  {
    if ops == [] then s else Step(Run(s, ops[..|ops| - 1]), ops[|ops| - 1])
  }

  /* ---- what every run keeps ---- */

  // Claimed rows of one queue that were not dispatched yet.
  function Waiting(q: seq<Work>, id: Id): nat {
    if q == [] then 0
    else (if q[0].id == id && q[0].phase.Claimed? then 1 else 0) + Waiting(q[1..], id)
  }

  ghost function WaitingOf(id: Id): seq<Work> -> int {
    q => Waiting(q, id)
  }

  ghost function InFlight(s: State, id: Id): int {
    Totals.Total(s.publishers, WaitingOf(id))
  }

  // Claims in sequence stand the hold time apart, unless a failure that rushed the
  // row was recorded between them; that takes an attempt past the 33rd.
  predicate Spaced(claims: seq<Stamp>) {
    forall k {:trigger claims[k]} :: 0 <= k < |claims| ==>
      && (claims[k].rushed ==> k >= 34)
      && (k > 0 && !claims[k].rushed ==> claims[k].time - claims[k - 1].time >= HOLD)
  }

  function LastClaim(h: History): int
    requires h.claims != []
  {
    h.claims[|h.claims| - 1].time
  }

  predicate RowPaced(row: Row, h: History, now: int) {
    && h.touched <= now
    && row.availableAt <= h.touched + Backoff.MAX_BACKOFF
    && (h.rushed ==> |h.claims| >= 34)
    && (h.claims != [] ==> LastClaim(h) <= h.touched && (!h.rushed ==> row.availableAt >= LastClaim(h) + HOLD))
  }

  predicate RowTimed(row: Row, h: History, now: int) {
    Spaced(h.claims) && RowPaced(row, h, now)
  }

  predicate RowCounted(row: Row, h: History, inFlight: int) {
    && |h.claims| == row.attempts
    && inFlight >= 0
    && h.sends + inFlight <= row.attempts
    && h.acks + inFlight <= row.attempts
    && (row.dispatchedAt.Some? ==> h.acks >= 1)
  }

  predicate WorkSound(w: Work, s: State) {
    && w.id in s.rows && w.id in s.log
    && 1 <= w.attempts <= s.rows[w.id].attempts
    && (w.phase.Delivered? ==> s.log[w.id].acks >= 1)
  }

  predicate Accounted(s: State) {
    s.rows.Keys == s.log.Keys
  }

  predicate WorksSound(s: State) {
    forall p, i :: p in s.publishers && 0 <= i < |s.publishers[p]| ==> WorkSound(s.publishers[p][i], s)
  }

  predicate RowsTimed(s: State) {
    forall id :: id in s.rows && id in s.log ==> RowTimed(s.rows[id], s.log[id], s.now)
  }

  ghost predicate RowsCounted(s: State) {
    forall id :: id in s.rows && id in s.log ==> RowCounted(s.rows[id], s.log[id], InFlight(s, id))
  }

  ghost predicate Sound(s: State) {
    Accounted(s) && WorksSound(s) && RowsTimed(s) && RowsCounted(s)
  }
}
