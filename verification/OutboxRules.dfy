/** What each statement of the outbox writes, in columns and nanoseconds. */
module OutboxRules {
  import opened Values
  import opened Outbox
  import Backoff

  // The whole milliseconds of a duration: the nearest toward zero.
  lemma WholeMilliseconds(d: int, ms: int)
    ensures Interval(d) == ms * 1_000_000 <==>
            if d >= 0 then ms * 1_000_000 <= d < (ms + 1) * 1_000_000
            else (ms - 1) * 1_000_000 < d <= ms * 1_000_000
  {
    var q := (if d >= 0 then d else -d) / 1_000_000;
    assert Interval(d) == if d >= 0 then q * 1_000_000 else -(q * 1_000_000);
  }

  // A new row has no attempts and is due at once.
  lemma EnqueueWrites(s: State, id: Id)
    requires id !in s.rows && id !in s.log
    ensures Step(s, Enqueue(id)).rows == s.rows[id := Row(0, s.now, None)]
  {}

  // A claim is possible for a publisher with nothing left over and at most 32
  // different rows that are due. It counts an attempt and holds the row for one
  // second; other rows stay.
  lemma ClaimWrites(s: State, p: Id, ids: seq<Id>)
    ensures var t := Step(s, Claim(p, ids));
            if && (p in s.publishers ==> s.publishers[p] == []) && |ids| <= 32
               && (forall i, j :: 0 <= i < j < |ids| ==> ids[i] != ids[j])
               && (forall i :: 0 <= i < |ids| ==>
                     ids[i] in s.rows && s.rows[ids[i]].dispatchedAt == None && s.rows[ids[i]].availableAt <= s.now)
            then
              && t.rows.Keys == s.rows.Keys && p in t.publishers && |t.publishers[p]| == |ids|
              && (forall i :: 0 <= i < |ids| ==>
                    t.publishers[p][i] == Work(ids[i], s.rows[ids[i]].attempts + 1, Claimed))
              && forall id :: id in s.rows ==>
                   if id in ids
                   then t.rows[id] == Row(s.rows[id].attempts + 1, s.now + 1_000_000_000, None)
                   else t.rows[id] == s.rows[id]
            else t == s
  {
    if CanClaim(s, p, ids) {
      WorksAt(Reserve(s.rows, ids, s.now, HOLD), ids);
    }
  }

  lemma {:induction false} WorksAt(rows: Table, ids: seq<Id>)
    requires forall i :: 0 <= i < |ids| ==> ids[i] in rows
    ensures |Works(rows, ids)| == |ids|
    ensures forall i :: 0 <= i < |ids| ==> Works(rows, ids)[i] == Work(ids[i], rows[ids[i]].attempts, Claimed)
  {
    if ids != [] {
      WorksAt(rows, ids[1..]);
    }
  }

  // A delivered row is dispatched from now on.
  lemma SuccessWrites(s: State, p: Id, big: int)
    requires var q := Queue(s, p);
             q != [] && q[0].phase.Delivered? && q[0].id in s.log && q[0].id in s.rows
    ensures var w, t := Queue(s, p)[0], Step(s, Mark(p, big));
            && t.rows == s.rows[w.id := Row(s.rows[w.id].attempts, s.rows[w.id].availableAt, Some(s.now))]
            && Queue(t, p) == Queue(s, p)[1..]
  {}

  // A refused row waits 2^n seconds after its n-th attempt, at most five minutes,
  // as long as the count has not wrapped.
  lemma FailureWrites(s: State, p: Id, big: int)
    requires var q := Queue(s, p);
             q != [] && q[0].phase.Refused? && q[0].id in s.log && q[0].id in s.rows && 1 <= q[0].attempts <= 33
    ensures var w, t := Queue(s, p)[0], Step(s, Mark(p, big));
            var wait := Min(Backoff.Pow2(w.attempts), 300) * 1_000_000_000;
            && t.rows == s.rows[w.id := Row(s.rows[w.id].attempts, s.now + wait, s.rows[w.id].dispatchedAt)]
            && Queue(t, p) == Queue(s, p)[1..]
  {
    var n := Queue(s, p)[0].attempts;
    var secs := Min(Backoff.Pow2(n), 300);
    Backoff.BackoffIsCappedPower(n, Backoff.MAX_BACKOFF, big);
    assert Min(Backoff.Pow2(n) * Backoff.SECOND, Backoff.MAX_BACKOFF) == secs * 1_000_000_000;
    Backoff.Pow2Positive(n);
    WholeMilliseconds(secs * 1_000_000_000, secs * 1000);
  }

  // Dispatching touches no row: it tells the publisher how the broker answered.
  lemma DispatchWrites(s: State, p: Id, sent: bool, ok: bool)
    ensures var q, t := Queue(s, p), Step(s, Dispatch(p, sent, ok));
            && t.rows == s.rows
            && (q != [] && q[0].phase == Claimed && q[0].id in s.log ==>
                  Queue(t, p) == [Work(q[0].id, q[0].attempts, if ok then Delivered else Refused)] + q[1..])
  {}
}
