/** Flushing without interference: one round of the flush loop, and the flush at shutdown. */
module Flush {
  import opened Words
  import opened Samples
  import R = MetricsRing
  import L = Logs
  import Metrics

  datatype Message = MetricsReport(report: R.Batch) | LogBatch(batch: L.Batch)

  /** The session's outbound queue; it takes `accepts` more messages and is closed after that. */
  class Outbound {
    var queued: seq<Message>
    var accepts: nat

    constructor (accepts: nat)
      ensures queued == [] && this.accepts == accepts
    {
      queued, this.accepts := [], accepts;
    }

    method Send(m: Message) returns (ok: bool)
      modifies this
      ensures ok == (old(accepts) > 0)
      ensures ok ==> queued == old(queued) + [m] && accepts == old(accepts) - 1
      ensures !ok ==> queued == old(queued) && accepts == old(accepts)
    {
      ok := accepts > 0;
      if ok { queued, accepts := queued + [m], accepts - 1; }
    }
  }

  function Reports(bs: seq<R.Batch>): seq<Message> {
    seq(|bs|, i requires 0 <= i < |bs| => MetricsReport(bs[i]))
  }

  function LogBatches(bs: seq<L.Batch>): seq<Message> {
    seq(|bs|, i requires 0 <= i < |bs| => LogBatch(bs[i]))
  }

  // ---- One round of the flush loop ------------------------------------------------------------

  /** What a round leaves: the drained ring, the reports sent, and the refused one, still guarded. */
  datatype RoundEnd = RoundEnd(ring: R.Ring, sent: seq<R.Batch>, refused: seq<R.Batch>)

  /** The guard drops: a refused batch goes back to the front of the ring. */
  function Settled(c: R.Caps, e: RoundEnd): R.Ring {
    if e.refused == [] then e.ring else R.RequeueFront(c, e.ring, e.refused[0])
  }

  /** What of a refused batch no longer fits, and is counted as dropped. */
  function Overflown(c: R.Caps, e: RoundEnd): seq<Sample> {
    if e.refused == [] then [] else R.PutBack(c, e.ring.samples, e.refused[0].samples).dropped
  }

  /** Up to `left` batches, until one is short or refused. */
  function Round(c: R.Caps, r: R.Ring, now: int, left: nat, accepts: nat): RoundEnd
    decreases left, accepts
  {
    if left == 0 then RoundEnd(r, [], [])
    else
      var b, rest := R.Drained(c, r, now), R.AfterDrain(c, r);
      if !R.Empty(b) && accepts == 0 then RoundEnd(rest, [], [b])
      else if |b.samples| < c.batchCap then RoundEnd(rest, Shipped(b), [])
      else
        var e := Round(c, rest, now, left - 1, accepts - |Shipped(b)|);
        e.(sent := Shipped(b) + e.sent)
  }

  /** An empty batch is not sent. */
  function Shipped(b: R.Batch): seq<R.Batch> { if R.Empty(b) then [] else [b] }

  /** Drain, guard, send: the batch goes back to the ring unless it was queued or there was nothing to send. */
  method ShipBatch(m: Metrics.MetricsBuffer, out: Outbound, now: int) returns (batch: R.Batch, ok: bool)
    requires m.Valid()
    modifies m, out
    ensures m.Valid() && m.wake == old(m.wake)
    ensures batch == R.Drained(m.Caps(), old(m.Value()), now)
    ensures ok == (R.Empty(batch) || old(out.accepts) > 0)
    ensures m.Value() == if ok then R.AfterDrain(m.Caps(), old(m.Value()))
                         else R.RequeueFront(m.Caps(), R.AfterDrain(m.Caps(), old(m.Value())), batch)
    ensures ok ==> out.queued == old(out.queued) + Reports(Shipped(batch))
    ensures ok ==> out.accepts == old(out.accepts) - |Shipped(batch)|
    ensures !ok ==> out.queued == old(out.queued) && out.accepts == old(out.accepts)
  {
    batch := m.Drain(now);
    var armed := true;
    if R.Empty(batch) {
      armed := false;
    } else {
      var sent := out.Send(MetricsReport(batch));
      if sent { armed := false; }
    }
    if armed { m.RequeueFront(batch); }
    ok := !armed;
  }

  lemma ReportsConcat(a: seq<R.Batch>, b: seq<R.Batch>)
    ensures Reports(a + b) == Reports(a) + Reports(b)
  {
  }

  /** The body of the flush loop's outer loop. */
  method FlushRound(m: Metrics.MetricsBuffer, out: Outbound, now: int) returns (open: bool)
    requires m.Valid()
    modifies m, out
    ensures m.Valid() && m.wake == old(m.wake)
    ensures var e := Round(m.Caps(), old(m.Value()), now, R.BatchesPerTick(m.Caps()), old(out.accepts));
            && m.Value() == Settled(m.Caps(), e) && open == (e.refused == [])
            && out.queued == old(out.queued) + Reports(e.sent) && out.accepts == old(out.accepts) - |e.sent|
  {
    open := ShipBatches(m, out, now, R.BatchesPerTick(R.Caps(m.cap, m.batchCap)));
  }

  method ShipBatches(m: Metrics.MetricsBuffer, out: Outbound, now: int, batches: nat) returns (open: bool)
    requires m.Valid()
    modifies m, out
    ensures m.Valid() && m.wake == old(m.wake)
    ensures var e := Round(m.Caps(), old(m.Value()), now, batches, old(out.accepts));
            && m.Value() == Settled(m.Caps(), e) && open == (e.refused == [])
            && out.queued == old(out.queued) + Reports(e.sent) && out.accepts == old(out.accepts) - |e.sent|
  {
    ghost var sent: seq<R.Batch>, more := [], [];
    ghost var goal := Round(m.Caps(), m.Value(), now, batches, out.accepts);
    var left, going := batches, true;
    open := true;
    while going && left > 0
      invariant m.Valid() && m.wake == old(m.wake)
      invariant out.queued == old(out.queued) + Reports(sent) && out.accepts == old(out.accepts) - |sent|
      invariant going ==> open && Leads(m.Caps(), m.Value(), now, left, out.accepts, sent, goal)
      invariant !going ==> goal.sent == sent && open == (goal.refused == []) && m.Value() == Settled(m.Caps(), goal)
      decreases left, going
    {
      open, going, more := ShipNext(m, out, now, left, sent, goal);
      ReportsConcat(sent, more);
      Assoc(old(out.queued), Reports(sent), Reports(more));
      left, sent := left - 1, sent + more;
    }
    if going { LeadsEnd(m.Caps(), m.Value(), now, out.accepts, sent, goal); }
  }

  /** One turn of the round: `going` unless the queue was closed or the batch was short. */
  method ShipNext(
    m: Metrics.MetricsBuffer, out: Outbound, now: int, ghost left: nat, ghost sent: seq<R.Batch>, ghost goal: RoundEnd)
    returns (open: bool, going: bool, ghost more: seq<R.Batch>)
    requires m.Valid() && left > 0 && Leads(m.Caps(), m.Value(), now, left, out.accepts, sent, goal)
    modifies m, out
    ensures m.Valid() && m.wake == old(m.wake)
    ensures out.queued == old(out.queued) + Reports(more) && out.accepts == old(out.accepts) - |more|
    ensures going ==> open && Leads(m.Caps(), m.Value(), now, left - 1, out.accepts, sent + more, goal)
    ensures !going ==> goal.sent == sent + more && open == (goal.refused == []) && m.Value() == Settled(m.Caps(), goal)
  {
    LeadsOn(m.Caps(), m.Value(), now, left, out.accepts, sent, goal);
    var batch;
    batch, open := ShipBatch(m, out, now);
    going, more := open && |batch.samples| >= m.batchCap, if open then Shipped(batch) else [];
    assert sent + [] == sent;
  }

  /** What remains of a round completes what was sent so far to the whole. */
  ghost predicate Leads(c: R.Caps, r: R.Ring, now: int, left: nat, accepts: nat, sent: seq<R.Batch>, goal: RoundEnd) {
    var e := Round(c, r, now, left, accepts);
    goal == RoundEnd(e.ring, sent + e.sent, e.refused)
  }

  lemma LeadsEnd(c: R.Caps, r: R.Ring, now: int, accepts: nat, sent: seq<R.Batch>, goal: RoundEnd)
    requires Leads(c, r, now, 0, accepts, sent, goal)
    ensures goal == RoundEnd(r, sent, [])
  {
    assert sent + [] == sent;
  }

  lemma LeadsOn(c: R.Caps, r: R.Ring, now: int, left: nat, accepts: nat, sent: seq<R.Batch>, goal: RoundEnd)
    requires left > 0 && Leads(c, r, now, left, accepts, sent, goal)
    ensures var b, rest := R.Drained(c, r, now), R.AfterDrain(c, r);
            && (!R.Empty(b) && accepts == 0 ==>
                  goal == RoundEnd(rest, sent, [b]) && Settled(c, goal) == R.RequeueFront(c, rest, b))
            && (R.Empty(b) || accepts > 0 ==>
                  if |b.samples| < c.batchCap then goal == RoundEnd(rest, sent + Shipped(b), [])
                  else Leads(c, rest, now, left - 1, accepts - |Shipped(b)|, sent + Shipped(b), goal))
  {
    var b := R.Drained(c, r, now);
    if (R.Empty(b) || accepts > 0) && |b.samples| >= c.batchCap {
      var more := Round(c, R.AfterDrain(c, r), now, left - 1, accepts - |Shipped(b)|);
      assert sent + (Shipped(b) + more.sent) == sent + Shipped(b) + more.sent;
    }
  }
}
