/** The publisher's store and its drain loop over the shared table, proved
  * against the step system.
  */
module OutboxService {
  import opened Values
  import opened Outbox
  import Backoff

  // The batch a claim takes: the first `limit` due rows in id order, passing over
  // rows another transaction has locked.
  predicate FirstDue(rows: Table, now: int, locked: set<Id>, limit: nat, ids: seq<Id>) {
    && |ids| <= limit
    && (forall i, j :: 0 <= i < j < |ids| ==> ids[i] < ids[j])
    && (forall i :: 0 <= i < |ids| ==> ids[i] in rows && ids[i] !in locked && Due(rows[ids[i]], now))
    && (forall id :: id in rows && id !in locked && Due(rows[id], now) && id !in ids ==>
          |ids| == limit && forall i :: 0 <= i < |ids| ==> ids[i] < id)
  }

  lemma FirstDueIsClaimable(s: State, p: Id, locked: set<Id>, limit: nat, ids: seq<Id>)
    requires FirstDue(s.rows, s.now, locked, limit, ids) && limit <= BATCH && Queue(s, p) == []
    ensures CanClaim(s, p, ids)
  {
  }

  // No younger row can keep the oldest due row waiting.
  lemma OldestDueIsTaken(rows: Table, now: int, locked: set<Id>, limit: nat, ids: seq<Id>, id: Id)
    requires FirstDue(rows, now, locked, limit, ids) && limit > 0
    requires id in rows && id !in locked && Due(rows[id], now)
    requires forall j :: j in rows && j !in locked && Due(rows[j], now) ==> id <= j
    ensures id in ids
  {
    assert |ids| > 0 ==> id <= ids[0];
  }

  lemma NextIsNoLater(rows: Table, now: int, locked: set<Id>, limit: nat, a: seq<Id>, b: seq<Id>, k: nat)
    requires FirstDue(rows, now, locked, limit, a) && FirstDue(rows, now, locked, limit, b)
    requires k < |a| && k <= |b| && a[..k] == b[..k]
    ensures k < |b| && b[k] <= a[k]
  {
    forall j | 0 <= j < k
      ensures a[j] == b[j]
    {
      assert a[..k][j] == b[..k][j];
    }
    if a[k] in b {
      var j :| 0 <= j < |b| && b[j] == a[k];
      assert j >= k;
    }
  }

  // The batch is determined by the table, the clock and the locks.
  lemma {:induction false} SameBatch(rows: Table, now: int, locked: set<Id>, limit: nat, a: seq<Id>, b: seq<Id>, n: nat)
    requires FirstDue(rows, now, locked, limit, a) && FirstDue(rows, now, locked, limit, b)
    requires n <= |a|
    ensures n <= |b| && a[..n] == b[..n]
  {
    if n > 0 {
      SameBatch(rows, now, locked, limit, a, b, n - 1);
      NextIsNoLater(rows, now, locked, limit, a, b, n - 1);
      NextIsNoLater(rows, now, locked, limit, b, a, n - 1);
      assert a[..n] == a[..n - 1] + [a[n - 1]];
      assert b[..n] == b[..n - 1] + [b[n - 1]];
    }
  }

  method PickDue(rows: Table, now: int, locked: set<Id>, limit: nat) returns (ids: seq<Id>)
    ensures FirstDue(rows, now, locked, limit, ids)
  {
    ids := [];
    var rest := set id | id in rows && id !in locked && Due(rows[id], now);
    while |ids| < limit && rest != {}
      invariant |ids| <= limit
      invariant forall i, j :: 0 <= i < j < |ids| ==> ids[i] < ids[j]
      invariant forall i :: 0 <= i < |ids| ==> ids[i] in rows && ids[i] !in locked && Due(rows[ids[i]], now)
      invariant forall id :: id in rest ==> id in rows && id !in locked && Due(rows[id], now)
      invariant forall id :: id in rows && id !in locked && Due(rows[id], now) ==> id in ids || id in rest
      invariant forall i, id :: 0 <= i < |ids| && id in rest ==> ids[i] < id
      decreases rest
    {
      var least := Least(rest);
      ids := ids + [least];
      rest := rest - {least};
    }
  }

  method Least(s: set<Id>) returns (least: Id)
    requires s != {}
    ensures least in s && forall x :: x in s ==> least <= x
  {
    least :| least in s;
    var rest := s - {least};
    while rest != {}
      invariant least in s
      invariant forall x :: x in s ==> x in rest || least <= x
      decreases rest
    {
      var x :| x in rest;
      if x < least {
        least := x;
      }
      rest := rest - {x};
    }
  }

  function IdsOf(works: seq<Work>): seq<Id> {
    seq(|works|, i requires 0 <= i < |works| => works[i].id)
  }

  class Store {
    var rows: Table

    constructor ()
      ensures rows == map[]
    {
      rows := map[];
    }

    method ClaimBatch(limit: int, backoff: int, now: int, locked: set<Id>) returns (out: seq<Work>)
      modifies this
      ensures var n := if limit <= 0 then BATCH else limit; FirstDue(old(rows), now, locked, n, IdsOf(out))
      ensures rows == Reserve(old(rows), IdsOf(out), now, backoff)
      ensures out == Works(rows, IdsOf(out))
      ensures |out| <= if limit <= 0 then BATCH else limit
    {
      var ids := PickDue(rows, now, locked, if limit <= 0 then BATCH else limit);
      rows := Reserve(rows, ids, now, backoff);
      out := Works(rows, ids);
      WorksHaveIds(rows, ids);
    }

    method MarkDispatched(id: Id, now: int)
      modifies this
      ensures rows == Dispatched(old(rows), id, now)
    {
      if id in rows {
        rows := rows[id := rows[id].(dispatchedAt := Some(now))];
      }
    }

    method MarkFailed(id: Id, retryDelay: int, now: int)
      modifies this
      ensures rows == Postponed(old(rows), id, now, retryDelay)
    {
      if id in rows {
        rows := rows[id := rows[id].(availableAt := now + Interval(retryDelay))];
      }
    }

    // One pass of a publisher that does not crash: `answers` are what the broker
    // and the table say for each claimed row, and how long each takes.
    method DrainOnce(now: int, locked: set<Id>, answers: seq<Answer>) returns (works: seq<Work>)
      requires |answers| == BATCH
      modifies this
      ensures |works| <= BATCH
      ensures FirstDue(old(rows), now, locked, BATCH, IdsOf(works))
      ensures works == Works(Reserve(old(rows), IdsOf(works), now, HOLD), IdsOf(works))
      ensures rows == Settled(Reserve(old(rows), IdsOf(works), now, HOLD), works, answers, now, |works|)
    {
      works := ClaimBatch(BATCH, HOLD, now, locked);
      var clock := now;
      ghost var claimed := rows;
      for i := 0 to |works|
        invariant rows == Settled(claimed, works, answers, now, i)
        invariant clock == Clock(now, answers, i)
      {
        clock := clock + answers[i].wait;
        if !answers[i].ok {
          var delay := Backoff.BackoffFor(works[i].attempts, Backoff.MAX_BACKOFF, answers[i].big);
          if answers[i].marked {
            MarkFailed(works[i].id, delay, clock);
          }
          continue;
        }
        if answers[i].marked {
          MarkDispatched(works[i].id, clock);
        }
      }
    }
  }

  lemma {:induction false} WorksHaveIds(rows: Table, ids: seq<Id>)
    ensures IdsOf(Works(rows, ids)) == ids
  {
    if ids != [] {
      WorksHaveIds(rows, ids[1..]);
      var w := Works(rows, ids);
      assert w[1..] == Works(rows, ids[1..]);
      forall i | 0 <= i < |w|
        ensures IdsOf(w)[i] == ids[i]
      {
        if i > 0 {
          assert w[i] == w[1..][i - 1];
          assert IdsOf(w[1..])[i - 1] == ids[1..][i - 1];
        }
      }
    }
  }

  /* ---- the drain as steps of the protocol ---- */

  datatype Answer = Answer(wait: nat, sent: bool, ok: bool, marked: bool, big: int)

  function Clock(now: int, answers: seq<Answer>, n: nat): int
    requires n <= |answers|
  {
    if n == 0 then now else Clock(now, answers, n - 1) + answers[n - 1].wait
  }

  function Settle(rows: Table, w: Work, a: Answer, now: int): Table {
    if !a.marked then rows
    else if a.ok then Dispatched(rows, w.id, now)
    else Postponed(rows, w.id, now, Backoff.BackoffFor(w.attempts, Backoff.MAX_BACKOFF, a.big))
  }

  function Settled(rows: Table, works: seq<Work>, answers: seq<Answer>, now: int, n: nat): Table
    requires n <= |works| && n <= |answers|
  {
    if n == 0 then rows
    else Settle(Settled(rows, works, answers, now, n - 1), works[n - 1], answers[n - 1], Clock(now, answers, n))
  }

  function AnswerOps(p: Id, a: Answer): seq<Op> {
    [Tick(a.wait), Dispatch(p, a.sent, a.ok), if a.marked then Mark(p, a.big) else LoseMark(p)]
  }

  function DrainOps(p: Id, ids: seq<Id>, answers: seq<Answer>, n: nat): seq<Op>
    requires n <= |answers|
  {
    if n == 0 then [Claim(p, ids)] else DrainOps(p, ids, answers, n - 1) + AnswerOps(p, answers[n - 1])
  }

  lemma RunOneMore(s: State, ops: seq<Op>, op: Op)
    ensures Run(s, ops + [op]) == Step(Run(s, ops), op)
  {
    assert (ops + [op])[..|ops|] == ops;
  }

  lemma RunThreeMore(s: State, ops: seq<Op>, a: Op, b: Op, c: Op)
    ensures Run(s, ops + [a, b, c]) == Step(Step(Step(Run(s, ops), a), b), c)
  {
    assert ops + [a, b, c] == ((ops + [a]) + [b]) + [c];
    RunOneMore(s, ops, a);
    RunOneMore(s, ops + [a], b);
    RunOneMore(s, (ops + [a]) + [b], c);
  }

  // What the protocol makes of one answer.
  function Answered(t: State, p: Id, a: Answer): State {
    Step(Step(Step(t, Tick(a.wait)), Dispatch(p, a.sent, a.ok)), if a.marked then Mark(p, a.big) else LoseMark(p))
  }

  lemma RunOfDrain(s: State, p: Id, ids: seq<Id>, answers: seq<Answer>, n: nat)
    requires n <= |answers|
    ensures Run(s, DrainOps(p, ids, answers, n)) ==
            if n == 0 then Step(s, Claim(p, ids))
            else Answered(Run(s, DrainOps(p, ids, answers, n - 1)), p, answers[n - 1])
  {
    if n == 0 {
      RunOneMore(s, [], Claim(p, ids));
      assert [] + [Claim(p, ids)] == [Claim(p, ids)];
    } else {
      var a := answers[n - 1];
      RunThreeMore(s, DrainOps(p, ids, answers, n - 1), Tick(a.wait), Dispatch(p, a.sent, a.ok),
                   if a.marked then Mark(p, a.big) else LoseMark(p));
    }
  }

  lemma AnswerSettles(t: State, p: Id, a: Answer)
    requires Accounted(t) && Queue(t, p) != [] && Queue(t, p)[0].phase.Claimed? && Queue(t, p)[0].id in t.log
    ensures var u := Answered(t, p, a);
            && u.now == t.now + a.wait
            && u.rows == Settle(t.rows, Queue(t, p)[0], a, u.now)
            && Queue(u, p) == Queue(t, p)[1..]
            && Accounted(u)
  {
    var x := Step(t, Tick(a.wait));
    var y := Step(x, Dispatch(p, a.sent, a.ok));
    assert Queue(x, p) == Queue(t, p) && Accounted(x);
    assert Queue(y, p)[1..] == Queue(x, p)[1..] && y.rows == x.rows && Accounted(y);
  }

  // The protocol has carried out the claim and the first n answers.
  ghost predicate Reached(t: State, p: Id, claimed: Table, works: seq<Work>, answers: seq<Answer>, now: int, n: nat)
    requires n <= |works| && n <= |answers|
  {
    && t.rows == Settled(claimed, works, answers, now, n)
    && t.now == Clock(now, answers, n)
    && Queue(t, p) == works[n..]
    && Accounted(t)
    && t.rows.Keys == claimed.Keys
  }

  predicate AllClaimed(works: seq<Work>, claimed: Table) {
    forall i :: 0 <= i < |works| ==> works[i].phase.Claimed? && works[i].id in claimed
  }

  lemma ReachedNext(t: State, p: Id, claimed: Table, works: seq<Work>, answers: seq<Answer>, now: int, n: nat)
    requires n < |works| && n < |answers|
    requires Reached(t, p, claimed, works, answers, now, n)
    requires AllClaimed(works, claimed)
    ensures Reached(Answered(t, p, answers[n]), p, claimed, works, answers, now, n + 1)
  {
    assert Queue(t, p)[0] == works[n];
    assert works[n].id in t.rows.Keys;
    AnswerSettles(t, p, answers[n]);
    assert Queue(t, p)[1..] == works[n + 1..];
  }

  // States of which each answer leads on to the next.
  lemma {:induction false} ChainReaches(ts: seq<State>, p: Id, answers: seq<Answer>, claimed: Table, works: seq<Work>,
                                        now: int, n: nat)
    requires n <= |works| <= |answers| && |ts| == |works| + 1
    requires Reached(ts[0], p, claimed, works, answers, now, 0)
    requires forall k: nat {:trigger ts[k]} :: k < |works| && Reached(ts[k], p, claimed, works, answers, now, k) ==>
               Reached(ts[k + 1], p, claimed, works, answers, now, k + 1)
    ensures Reached(ts[n], p, claimed, works, answers, now, n)
  {
    if n > 0 {
      ChainReaches(ts, p, answers, claimed, works, now, n - 1);
      assert Reached(ts[n - 1 + 1], p, claimed, works, answers, now, n);
    }
  }

  lemma DrainReachesNext(s: State, p: Id, ids: seq<Id>, answers: seq<Answer>, claimed: Table, works: seq<Work>, k: nat)
    requires k < |works| <= |answers| && AllClaimed(works, claimed)
    requires Reached(Run(s, DrainOps(p, ids, answers, k)), p, claimed, works, answers, s.now, k)
    ensures Reached(Run(s, DrainOps(p, ids, answers, k + 1)), p, claimed, works, answers, s.now, k + 1)
  {
    RunOfDrain(s, p, ids, answers, k + 1);
    ReachedNext(Run(s, DrainOps(p, ids, answers, k)), p, claimed, works, answers, s.now, k);
  }

  lemma {:induction false} WorksAreClaimed(rows: Table, ids: seq<Id>)
    ensures |Works(rows, ids)| == |ids|
    ensures forall k :: 0 <= k < |ids| ==> Works(rows, ids)[k].phase.Claimed? && Works(rows, ids)[k].id == ids[k]
  {
    if ids != [] {
      WorksAreClaimed(rows, ids[1..]);
    }
  }

  lemma ClaimReaches(s: State, p: Id, ids: seq<Id>, answers: seq<Answer>)
    requires Accounted(s) && CanClaim(s, p, ids)
    ensures var claimed := Reserve(s.rows, ids, s.now, HOLD);
            Reached(Step(s, Claim(p, ids)), p, claimed, Works(claimed, ids), answers, s.now, 0)
  {
  }

  lemma DrainReachesEnd(s: State, p: Id, ids: seq<Id>, answers: seq<Answer>, claimed: Table, works: seq<Work>)
    requires |works| <= |answers| && AllClaimed(works, claimed)
    requires Reached(Run(s, DrainOps(p, ids, answers, 0)), p, claimed, works, answers, s.now, 0)
    ensures Reached(Run(s, DrainOps(p, ids, answers, |works|)), p, claimed, works, answers, s.now, |works|)
  {
    var ts := seq(|works| + 1, k requires 0 <= k <= |works| => Run(s, DrainOps(p, ids, answers, k)));
    forall k: nat {:trigger ts[k]} | k < |works| && Reached(ts[k], p, claimed, works, answers, s.now, k)
      ensures Reached(ts[k + 1], p, claimed, works, answers, s.now, k + 1)
    {
      DrainReachesNext(s, p, ids, answers, claimed, works, k);
    }
    ChainReaches(ts, p, answers, claimed, works, s.now, |works|);
  }

  // A drain is a run of the protocol, so everything proved of runs holds of it.
  lemma DrainIsRun(s: State, p: Id, ids: seq<Id>, answers: seq<Answer>)
    requires Accounted(s) && CanClaim(s, p, ids) && |ids| <= |answers|
    ensures var claimed := Reserve(s.rows, ids, s.now, HOLD);
            var works := Works(claimed, ids);
            var t := Run(s, DrainOps(p, ids, answers, |ids|));
            && |works| == |ids|
            && t.rows == Settled(claimed, works, answers, s.now, |ids|)
            && t.now == Clock(s.now, answers, |ids|)
            && Queue(t, p) == []
  {
    var claimed := Reserve(s.rows, ids, s.now, HOLD);
    WorksAreClaimed(claimed, ids);
    ClaimReaches(s, p, ids, answers);
    RunOfDrain(s, p, ids, answers, 0);
    DrainReachesEnd(s, p, ids, answers, claimed, Works(claimed, ids));
  }

  // What DrainOnce promises of an idle publisher's table is what the protocol comes
  // to by the claim of that batch and the steps of its answers.
  lemma DrainOnceIsRun(s: State, p: Id, locked: set<Id>, answers: seq<Answer>, works: seq<Work>, rows: Table)
    requires Accounted(s) && Queue(s, p) == [] && |answers| == BATCH
    requires FirstDue(s.rows, s.now, locked, BATCH, IdsOf(works))
    requires works == Works(Reserve(s.rows, IdsOf(works), s.now, HOLD), IdsOf(works)) && |works| <= BATCH
    requires rows == Settled(Reserve(s.rows, IdsOf(works), s.now, HOLD), works, answers, s.now, |works|)
    ensures var ops := DrainOps(p, IdsOf(works), answers, |works|);
            && ops[0] == Claim(p, IdsOf(works)) && CanClaim(s, p, IdsOf(works))
            && Run(s, ops).rows == rows && Queue(Run(s, ops), p) == []
  {
    FirstDueIsClaimable(s, p, locked, BATCH, IdsOf(works));
    DrainIsRun(s, p, IdsOf(works), answers);
    DrainStartsWithClaim(p, IdsOf(works), answers, |works|);
  }

  lemma {:induction false} DrainStartsWithClaim(p: Id, ids: seq<Id>, answers: seq<Answer>, n: nat)
    requires n <= |answers|
    ensures var ops := DrainOps(p, ids, answers, n); ops != [] && ops[0] == Claim(p, ids)
  {
    if n > 0 {
      DrainStartsWithClaim(p, ids, answers, n - 1);
    }
  }
}
