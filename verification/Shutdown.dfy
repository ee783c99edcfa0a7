/** The flush at shutdown, with no concurrent producer and the in-flight batches already returned. */
module Shutdown {
  import opened Words
  import opened Samples
  import opened Flush
  import R = MetricsRing
  import L = Logs
  import Metrics
  import Lane
  import Rollup
  import Rounds

  // ---- The metrics half ------------------------------------------------------------------------

  datatype MetricsEnd = MetricsEnd(ring: R.Ring, sent: seq<R.Batch>, lost: seq<R.Batch>)

  /** Batches until one is empty, `left` of them at most; a refused one is lost, for there is no guard. */
  function FlushMetrics(c: R.Caps, r: R.Ring, now: int, left: nat, accepts: nat): MetricsEnd
    decreases left, accepts
  {
    if left == 0 then MetricsEnd(r, [], [])
    else
      var b, rest := R.Drained(c, r, now), R.AfterDrain(c, r);
      if R.Empty(b) then MetricsEnd(rest, [], [])
      else if accepts == 0 then MetricsEnd(rest, [], [b])
      else
        var e := FlushMetrics(c, rest, now, left - 1, accepts - 1);
        e.(sent := [b] + e.sent)
  }

  ghost predicate MetricsLead(
    c: R.Caps, r: R.Ring, now: int, left: nat, accepts: nat, sent: seq<R.Batch>, goal: MetricsEnd)
  {
    var e := FlushMetrics(c, r, now, left, accepts);
    goal == MetricsEnd(e.ring, sent + e.sent, e.lost)
  }

  lemma MetricsLeadEnd(c: R.Caps, r: R.Ring, now: int, accepts: nat, sent: seq<R.Batch>, goal: MetricsEnd)
    requires MetricsLead(c, r, now, 0, accepts, sent, goal)
    ensures goal == MetricsEnd(r, sent, [])
  {
    assert sent + [] == sent;
  }

  lemma MetricsLeadOn(c: R.Caps, r: R.Ring, now: int, left: nat, accepts: nat, sent: seq<R.Batch>, goal: MetricsEnd)
    requires left > 0 && MetricsLead(c, r, now, left, accepts, sent, goal)
    ensures var b, rest := R.Drained(c, r, now), R.AfterDrain(c, r);
            && (R.Empty(b) ==> goal == MetricsEnd(rest, sent, []))
            && (!R.Empty(b) && accepts == 0 ==> goal == MetricsEnd(rest, sent, [b]))
            && (!R.Empty(b) && accepts > 0 ==> MetricsLead(c, rest, now, left - 1, accepts - 1, sent + [b], goal))
  {
    var b := R.Drained(c, r, now);
    if !R.Empty(b) && accepts > 0 {
      var more := FlushMetrics(c, R.AfterDrain(c, r), now, left - 1, accepts - 1);
      assert sent + ([b] + more.sent) == sent + [b] + more.sent;
    }
  }

  /** Drain and send, with no guard. `ok` unless the queue was closed. */
  method SendMetrics(m: Metrics.MetricsBuffer, out: Outbound, now: int) returns (batch: R.Batch, ok: bool)
    requires m.Valid()
    modifies m, out
    ensures m.Valid() && m.wake == old(m.wake)
    ensures batch == R.Drained(m.Caps(), old(m.Value()), now) && m.Value() == R.AfterDrain(m.Caps(), old(m.Value()))
    ensures ok == (R.Empty(batch) || old(out.accepts) > 0)
    ensures var sent := if ok then Shipped(batch) else [];
            out.queued == old(out.queued) + Reports(sent) && out.accepts == old(out.accepts) - |sent|
  {
    batch := m.Drain(now);
    ok := true;
    if !R.Empty(batch) { ok := out.Send(MetricsReport(batch)); }
  }

  method FlushMetricsTo(m: Metrics.MetricsBuffer, out: Outbound, now: int) returns (open: bool)
    requires m.Valid()
    modifies m, out
    ensures m.Valid() && m.wake == old(m.wake)
    ensures var e := FlushMetrics(m.Caps(), old(m.Value()), now, Lane.MAX_SHUTDOWN_FLUSH_BATCHES, old(out.accepts));
            && m.Value() == e.ring && open == (e.lost == [])
            && out.queued == old(out.queued) + Reports(e.sent) && out.accepts == old(out.accepts) - |e.sent|
  {
    ghost var sent: seq<R.Batch>, lost: seq<R.Batch>, more := [], [], [];
    ghost var goal := FlushMetrics(m.Caps(), m.Value(), now, Lane.MAX_SHUTDOWN_FLUSH_BATCHES, out.accepts);
    var left, going := Lane.MAX_SHUTDOWN_FLUSH_BATCHES, true;
    open := true;
    while going && left > 0
      invariant m.Valid() && m.wake == old(m.wake)
      invariant out.queued == old(out.queued) + Reports(sent) && out.accepts == old(out.accepts) - |sent|
      invariant open == (lost == [])
      invariant going ==> open && MetricsLead(m.Caps(), m.Value(), now, left, out.accepts, sent, goal)
      invariant !going ==> goal == MetricsEnd(m.Value(), sent, lost)
      decreases left, going
    {
      open, going, more, lost := FlushNext(m, out, now, left, sent, goal);
      ReportsConcat(sent, more);
      Assoc(old(out.queued), Reports(sent), Reports(more));
      left, sent := left - 1, sent + more;
    }
    if going { MetricsLeadEnd(m.Caps(), m.Value(), now, out.accepts, sent, goal); }
  }

  /** One turn of the flush: `going` unless the queue was closed or nothing was left to send. */
  method FlushNext(
    m: Metrics.MetricsBuffer, out: Outbound, now: int, ghost left: nat, ghost sent: seq<R.Batch>,
    ghost goal: MetricsEnd)
    returns (open: bool, going: bool, ghost more: seq<R.Batch>, ghost lost: seq<R.Batch>)
    requires m.Valid() && left > 0 && MetricsLead(m.Caps(), m.Value(), now, left, out.accepts, sent, goal)
    modifies m, out
    ensures m.Valid() && m.wake == old(m.wake)
    ensures out.queued == old(out.queued) + Reports(more) && out.accepts == old(out.accepts) - |more|
    ensures open == (lost == [])
    ensures going ==> open && MetricsLead(m.Caps(), m.Value(), now, left - 1, out.accepts, sent + more, goal)
    ensures !going ==> goal == MetricsEnd(m.Value(), sent + more, lost)
  {
    MetricsLeadOn(m.Caps(), m.Value(), now, left, out.accepts, sent, goal);
    var batch;
    batch, open := SendMetrics(m, out, now);
    going := open && !R.Empty(batch);
    more, lost := if open then Shipped(batch) else [], if open then [] else [batch];
    assert sent + [] == sent;
  }

  // ---- The logs half ---------------------------------------------------------------------------

  datatype LogsEnd = LogsEnd(ring: L.Ring, sent: seq<L.Batch>, lost: seq<L.Batch>)

  function FlushLogs(c: L.Caps, r: L.Ring, left: nat, accepts: nat): LogsEnd
    decreases left, accepts
  {
    if left == 0 then LogsEnd(r, [], [])
    else
      var b, rest := L.Drained(c, r), L.AfterDrain(c, r);
      if L.Empty(b) then LogsEnd(rest, [], [])
      else if accepts == 0 then LogsEnd(rest, [], [b])
      else
        var e := FlushLogs(c, rest, left - 1, accepts - 1);
        e.(sent := [b] + e.sent)
  }

  ghost predicate LogsLead(c: L.Caps, r: L.Ring, left: nat, accepts: nat, sent: seq<L.Batch>, goal: LogsEnd) {
    var e := FlushLogs(c, r, left, accepts);
    goal == LogsEnd(e.ring, sent + e.sent, e.lost)
  }

  lemma LogsLeadStart(c: L.Caps, r: L.Ring, left: nat, accepts: nat)
    ensures LogsLead(c, r, left, accepts, [], FlushLogs(c, r, left, accepts))
  {
    var e := FlushLogs(c, r, left, accepts);
    assert [] + e.sent == e.sent;
  }

  lemma LogsLeadEnd(c: L.Caps, r: L.Ring, accepts: nat, sent: seq<L.Batch>, goal: LogsEnd)
    requires LogsLead(c, r, 0, accepts, sent, goal)
    ensures goal == LogsEnd(r, sent, [])
  {
    assert sent + [] == sent;
  }

  lemma LogsLeadOn(c: L.Caps, r: L.Ring, left: nat, accepts: nat, sent: seq<L.Batch>, goal: LogsEnd)
    requires left > 0 && LogsLead(c, r, left, accepts, sent, goal)
    ensures var b, rest := L.Drained(c, r), L.AfterDrain(c, r);
            && (L.Empty(b) ==> goal == LogsEnd(rest, sent, []))
            && (!L.Empty(b) && accepts == 0 ==> goal == LogsEnd(rest, sent, [b]))
            && (!L.Empty(b) && accepts > 0 ==> LogsLead(c, rest, left - 1, accepts - 1, sent + [b], goal))
  {
    var b := L.Drained(c, r);
    if !L.Empty(b) && accepts > 0 {
      var more := FlushLogs(c, L.AfterDrain(c, r), left - 1, accepts - 1);
      assert sent + ([b] + more.sent) == sent + [b] + more.sent;
    }
  }

  lemma LogBatchesConcat(a: seq<L.Batch>, b: seq<L.Batch>)
    ensures LogBatches(a + b) == LogBatches(a) + LogBatches(b)
  {
  }

  function ShippedLogs(b: L.Batch): seq<L.Batch> { if L.Empty(b) then [] else [b] }

  method SendLogs(l: L.LogBuffer, out: Outbound) returns (batch: L.Batch, ok: bool)
    requires l.Valid()
    modifies l, out
    ensures l.Valid()
    ensures batch == L.Drained(l.Sizes(), old(l.Value())) && l.Value() == L.AfterDrain(l.Sizes(), old(l.Value()))
    ensures ok == (L.Empty(batch) || old(out.accepts) > 0)
    ensures var sent := if ok then ShippedLogs(batch) else [];
            out.queued == old(out.queued) + LogBatches(sent) && out.accepts == old(out.accepts) - |sent|
  {
    batch := l.Drain();
    ok := true;
    if !L.Empty(batch) { ok := out.Send(LogBatch(batch)); }
  }

  method FlushLogsTo(l: L.LogBuffer, out: Outbound)
    requires l.Valid()
    modifies l, out
    ensures l.Valid()
    ensures var e := FlushLogs(l.Sizes(), old(l.Value()), Lane.MAX_SHUTDOWN_FLUSH_BATCHES, old(out.accepts));
            && l.Value() == e.ring
            && out.queued == old(out.queued) + LogBatches(e.sent) && out.accepts == old(out.accepts) - |e.sent|
  {
    ghost var sent: seq<L.Batch>, lost: seq<L.Batch>, more: seq<L.Batch> := [], [], [];
    ghost var goal := FlushLogs(l.Sizes(), l.Value(), Lane.MAX_SHUTDOWN_FLUSH_BATCHES, out.accepts);
    var left, going := Lane.MAX_SHUTDOWN_FLUSH_BATCHES, true;
    LogsLeadStart(l.Sizes(), l.Value(), left, out.accepts);
    while going && left > 0
      invariant l.Valid()
      invariant out.queued == old(out.queued) + LogBatches(sent) && out.accepts == old(out.accepts) - |sent|
      invariant going ==> LogsLead(l.Sizes(), l.Value(), left, out.accepts, sent, goal)
      invariant !going ==> goal == LogsEnd(l.Value(), sent, lost)
      decreases left, going
    {
      going, more, lost := FlushLogsNext(l, out, left, sent, goal);
      LogBatchesConcat(sent, more);
      Assoc(old(out.queued), LogBatches(sent), LogBatches(more));
      left, sent := left - 1, sent + more;
    }
    if going { LogsLeadEnd(l.Sizes(), l.Value(), out.accepts, sent, goal); }
  }

  /** One turn of the logs loop. */
  method FlushLogsNext(l: L.LogBuffer, out: Outbound, ghost left: nat, ghost sent: seq<L.Batch>, ghost goal: LogsEnd)
    returns (going: bool, ghost more: seq<L.Batch>, ghost lost: seq<L.Batch>)
    requires l.Valid() && left > 0 && LogsLead(l.Sizes(), l.Value(), left, out.accepts, sent, goal)
    modifies l, out
    ensures l.Valid()
    ensures out.queued == old(out.queued) + LogBatches(more) && out.accepts == old(out.accepts) - |more|
    ensures going ==> LogsLead(l.Sizes(), l.Value(), left - 1, out.accepts, sent + more, goal)
    ensures !going ==> goal == LogsEnd(l.Value(), sent + more, lost)
  {
    LogsLeadOn(l.Sizes(), l.Value(), left, out.accepts, sent, goal);
    var batch, open := SendLogs(l, out);
    going := open && !L.Empty(batch);
    more, lost := if open then ShippedLogs(batch) else [], if open then [] else [batch];
    assert sent + [] == sent;
  }

  /** Metrics first; the logs are not reached when a metrics report was refused. */
  method FlushRemaining(m: Metrics.MetricsBuffer, l: L.LogBuffer, out: Outbound, now: int)
    requires m.Valid() && l.Valid()
    modifies m, l, out
    ensures m.Valid() && l.Valid()
    ensures var e := FlushMetrics(m.Caps(), old(m.Value()), now, Lane.MAX_SHUTDOWN_FLUSH_BATCHES, old(out.accepts));
            && m.Value() == e.ring
            && (e.lost != [] ==> l.Value() == old(l.Value()) && out.queued == old(out.queued) + Reports(e.sent))
            && (e.lost == [] ==>
                  |e.sent| <= old(out.accepts) &&
                  var spare := old(out.accepts) - |e.sent|;
                  var f := FlushLogs(l.Sizes(), old(l.Value()), Lane.MAX_SHUTDOWN_FLUSH_BATCHES, spare);
                  l.Value() == f.ring && out.queued == old(out.queued) + Reports(e.sent) + LogBatches(f.sent))
  {
    SentWithin(m.Caps(), m.Value(), now, Lane.MAX_SHUTDOWN_FLUSH_BATCHES, out.accepts);
    var open := FlushMetricsTo(m, out, now);
    if open { FlushLogsTo(l, out); }
  }

  lemma {:induction false} SentWithin(c: R.Caps, r: R.Ring, now: int, left: nat, accepts: nat)
    ensures |FlushMetrics(c, r, now, left, accepts).sent| <= Min(left, accepts)
    decreases left
  {
    if left > 0 && accepts > 0 { SentWithin(c, R.AfterDrain(c, r), now, left - 1, accepts - 1); }
  }

  // ---- What a shutdown flush achieves ----------------------------------------------------------

  /** Nothing is reordered or forgotten: shipped, then lost, then left. At most one report is lost. */
  lemma {:induction false} FlushConserves(c: R.Caps, r: R.Ring, now: int, left: nat, accepts: nat)
    ensures var e := FlushMetrics(c, r, now, left, accepts);
            && r.samples == Lane.Cargo(e.sent) + Lane.Cargo(e.lost) + e.ring.samples
            && |e.lost| <= 1 && (accepts >= left ==> e.lost == [])
    decreases left
  {
    if left > 0 {
      var batch, rest := R.Drained(c, r, now), R.AfterDrain(c, r);
      R.DrainSplits(c, r, now);
      if !R.Empty(batch) && accepts > 0 {
        FlushConserves(c, rest, now, left - 1, accepts - 1);
        ShipFirst(r.samples, batch, rest.samples, FlushMetrics(c, rest, now, left - 1, accepts - 1));
      } else {
        Lane.OneBatch(batch, true);
      }
    }
  }

  lemma ShipFirst(all: seq<Sample>, batch: R.Batch, rest: seq<Sample>, e: MetricsEnd)
    requires all == batch.samples + rest
    requires rest == Lane.Cargo(e.sent) + Lane.Cargo(e.lost) + e.ring.samples
    ensures all == Lane.Cargo([batch] + e.sent) + Lane.Cargo(e.lost) + e.ring.samples
  {
    Lane.OneBatch(batch, true);
    Lane.CargoConcat([batch], e.sent);
    Regroup(batch.samples, Lane.Cargo(e.sent), Lane.Cargo(e.lost), e.ring.samples);
  }

  lemma Regroup<T>(a: seq<T>, b: seq<T>, c: seq<T>, d: seq<T>)
    ensures a + (b + c + d) == (a + b) + c + d
  {
  }

  /** Drop counts and usage totals are shipped, lost or left, never forgotten or told twice. */
  lemma {:induction false} FlushConservesCounts(
    g: Lane.Gauge, c: R.Caps, r: R.Ring, now: int, left: nat, accepts: nat)
    requires !g.NumberGauge?
    ensures var e := FlushMetrics(c, r, now, left, accepts);
            Lane.RingReading(g, r) == Lane.Tally(g, e.sent) + Lane.Tally(g, e.lost) + Lane.RingReading(g, e.ring)
    decreases left
  {
    if left > 0 {
      var batch, rest := R.Drained(c, r, now), R.AfterDrain(c, r);
      Lane.DrainReads(g, c, r, now);
      Lane.TallyOne(g, batch);
      if !R.Empty(batch) && accepts > 0 {
        FlushConservesCounts(g, c, rest, now, left - 1, accepts - 1);
        Lane.TallyConcat(g, [batch], FlushMetrics(c, rest, now, left - 1, accepts - 1).sent);
      }
    }
  }

  /** A flush draws a number for each report, and one more for the empty batch that ends it early. */
  lemma {:induction false} FlushDraws(c: R.Caps, r: R.Ring, now: int, left: nat, accepts: nat)
    ensures var e := FlushMetrics(c, r, now, left, accepts);
            var told := |e.sent| + |e.lost|;
            e.ring.seqNo == r.seqNo + told + (if told < left && e.lost == [] then 1 else 0)
    decreases left
  {
    if left > 0 && !R.Empty(R.Drained(c, r, now)) && accepts > 0 {
      FlushDraws(c, R.AfterDrain(c, r), now, left - 1, accepts - 1);
    }
  }

  lemma {:induction false} LogFlushDraws(c: L.Caps, r: L.Ring, left: nat, accepts: nat)
    ensures var e := FlushLogs(c, r, left, accepts);
            var told := |e.sent| + |e.lost|;
            e.ring.seqNo == r.seqNo + told + (if told < left && e.lost == [] then 1 else 0)
    decreases left
  {
    if left > 0 && !L.Empty(L.Drained(c, r)) && accepts > 0 {
      LogFlushDraws(c, L.AfterDrain(c, r), left - 1, accepts - 1);
    }
  }

  /** Event rows go out with the first report, under the window they were taken with. */
  lemma FlushShipsEvents(c: R.Caps, r: R.Ring, now: int, left: nat, accepts: nat)
    requires accepts >= left > 0 && r.events.counts != map[]
    ensures var e := FlushMetrics(c, r, now, left, accepts);
            e.sent != [] && e.sent[0].rows == Rollup.Take(r.events, now)
  {
  }

  lemma {:induction false} NothingTaken(c: R.Caps, left: nat)
    requires c.batchCap == 0
    ensures Rounds.Taken(c, left) == 0
  {
    if left > 0 { NothingTaken(c, left - 1); }
  }

  function Rest<T>(s: seq<T>, taken: nat): seq<T> { s[Min(|s|, taken)..] }

  lemma RestOfRest<T>(s: seq<T>, a: nat, b: nat)
    ensures Rest(Rest(s, a), b) == Rest(s, b + a)
  {
  }

  /** With succeeding sends, what is left is what `left` batches could not hold. */
  lemma {:induction false} FlushLeaves(c: R.Caps, r: R.Ring, now: int, left: nat, accepts: nat)
    requires accepts >= left
    ensures var e := FlushMetrics(c, r, now, left, accepts);
            e.ring.samples == Rest(r.samples, Rounds.Taken(c, left))
    decreases left
  {
    if left > 0 {
      FlushUnfolds(c, r, now, left, accepts);
      if R.Empty(R.Drained(c, r, now)) {
        RestWhenIdle(c, r.samples, left);
      } else {
        FlushLeaves(c, R.AfterDrain(c, r), now, left - 1, accepts - 1);
        RestUnfolds(c, r.samples, left);
      }
    }
  }

  /** No count and no event stays. */
  lemma {:induction false} FlushClears(c: R.Caps, r: R.Ring, now: int, left: nat, accepts: nat)
    requires accepts >= left > 0
    ensures var e := FlushMetrics(c, r, now, left, accepts);
            e.ring.overflow == 0 && e.ring.overflowNonBillable == 0 && e.ring.events == Rollup.EMPTY
    decreases left
  {
    FlushUnfolds(c, r, now, left, accepts);
    if left > 1 { FlushClears(c, R.AfterDrain(c, r), now, left - 1, accepts - 1); }
  }

  lemma FlushUnfolds(c: R.Caps, r: R.Ring, now: int, left: nat, accepts: nat)
    requires accepts >= left > 0
    ensures var rest, e := R.AfterDrain(c, r), FlushMetrics(c, r, now, left, accepts);
            e.ring == if R.Empty(R.Drained(c, r, now)) then rest
                      else FlushMetrics(c, rest, now, left - 1, accepts - 1).ring
  {
  }

  /** What `left` batches leave, in terms of the first. */
  lemma RestUnfolds<T>(c: R.Caps, s: seq<T>, left: nat)
    requires left > 0
    ensures Rest(Rest(s, c.batchCap), Rounds.Taken(c, left - 1)) == Rest(s, Rounds.Taken(c, left))
  {
    RestOfRest(s, c.batchCap, Rounds.Taken(c, left - 1));
  }

  /** A batch that takes nothing leaves what any number of batches leaves. */
  lemma RestWhenIdle<T>(c: R.Caps, s: seq<T>, left: nat)
    requires Min(|s|, c.batchCap) == 0
    ensures Rest(s, c.batchCap) == s == Rest(s, Rounds.Taken(c, left))
  {
    if c.batchCap == 0 { NothingTaken(c, left); }
  }

  /** The same for the logs. */
  lemma {:induction false} LogFlushLeaves(c: L.Caps, r: L.Ring, left: nat, accepts: nat)
    requires accepts >= left
    ensures var e := FlushLogs(c, r, left, accepts);
            && e.ring.lines == Rest(r.lines, Rounds.Taken(R.Caps(c.cap, c.batchCap), left))
            && (left > 0 ==> e.ring.dropped == 0) && e.lost == []
    decreases left
  {
    if left > 0 {
      LogFlushUnfolds(c, r, left, accepts);
      if L.Empty(L.Drained(c, r)) {
        RestWhenIdle(R.Caps(c.cap, c.batchCap), r.lines, left);
      } else {
        LogFlushLeaves(c, L.AfterDrain(c, r), left - 1, accepts - 1);
        RestUnfolds(R.Caps(c.cap, c.batchCap), r.lines, left);
      }
    }
  }

  lemma LogFlushUnfolds(c: L.Caps, r: L.Ring, left: nat, accepts: nat)
    requires accepts >= left > 0
    ensures var rest, e := L.AfterDrain(c, r), FlushLogs(c, r, left, accepts);
            if L.Empty(L.Drained(c, r)) then e == LogsEnd(rest, [], [])
            else var more := FlushLogs(c, rest, left - 1, accepts - 1); e.ring == more.ring && e.lost == more.lost
  {
  }

  /**
   * A shutdown flush whose sends succeed ships every sample and leaves the metrics ring empty exactly
   * when the ring fits in the batches it may send; and it always ships every drop count, and every
   * event row with its window.
   */
  lemma ShutdownCompleteIff(c: R.Caps, r: R.Ring, now: int, accepts: nat)
    requires accepts >= Lane.MAX_SHUTDOWN_FLUSH_BATCHES
    ensures var e := FlushMetrics(c, r, now, Lane.MAX_SHUTDOWN_FLUSH_BATCHES, accepts);
            && (e.ring == R.EMPTY.(seqNo := e.ring.seqNo) && Lane.Cargo(e.sent) == r.samples
               <==> |r.samples| <= 16 * c.batchCap)
            && (forall g: Lane.Gauge :: !g.NumberGauge? ==> Lane.Tally(g, e.sent) == Lane.RingReading(g, r))
            && (r.events.counts != map[] ==> e.sent != [] && e.sent[0].rows == Rollup.Take(r.events, now))
  {
    var n := Lane.MAX_SHUTDOWN_FLUSH_BATCHES;
    FlushLeaves(c, r, now, n, accepts);
    FlushClears(c, r, now, n, accepts);
    FlushConserves(c, r, now, n, accepts);
    Rounds.TakenIsProduct(c, n);
    var e := FlushMetrics(c, r, now, n, accepts);
    forall g: Lane.Gauge | !g.NumberGauge? ensures Lane.Tally(g, e.sent) == Lane.RingReading(g, r) {
      FlushConservesCounts(g, c, r, now, n, accepts);
    }
    if r.events.counts != map[] { FlushShipsEvents(c, r, now, n, accepts); }
  }

  /** Nothing is reordered or forgotten: lines and drop counts are shipped, then lost, then left. */
  lemma {:induction false} LogFlushConserves(c: L.Caps, r: L.Ring, left: nat, accepts: nat)
    ensures var e := FlushLogs(c, r, left, accepts);
            && r.lines == L.Lines(e.sent) + L.Lines(e.lost) + e.ring.lines
            && r.dropped == L.Dropped(e.sent) + L.Dropped(e.lost) + e.ring.dropped
            && |e.lost| <= 1
    decreases left
  {
    if left > 0 {
      var batch, rest := L.Drained(c, r), L.AfterDrain(c, r);
      L.OneBatch(batch);
      assert r.lines == batch.lines + rest.lines;
      if !L.Empty(batch) && accepts > 0 {
        var e := FlushLogs(c, rest, left - 1, accepts - 1);
        LogFlushConserves(c, rest, left - 1, accepts - 1);
        L.BatchesConcat([batch], e.sent);
        Regroup(batch.lines, L.Lines(e.sent), L.Lines(e.lost), e.ring.lines);
      }
    }
  }

  /** A refused log batch is lost: there is no guard to give it back. */
  lemma RefusedLogsLost(c: L.Caps, r: L.Ring, left: nat)
    requires left > 0 && !L.Empty(L.Drained(c, r))
    ensures FlushLogs(c, r, left, 0) == LogsEnd(L.AfterDrain(c, r), [], [L.Drained(c, r)])
  {
  }

  /**
   * The same for the logs: every line is shipped and the ring is empty exactly when it fits; the drop
   * count always goes out. The default 5000 lines in batches of 500 fit.
   */
  lemma LogShutdownCompleteIff(c: L.Caps, r: L.Ring, accepts: nat)
    requires accepts >= Lane.MAX_SHUTDOWN_FLUSH_BATCHES
    ensures var e := FlushLogs(c, r, Lane.MAX_SHUTDOWN_FLUSH_BATCHES, accepts);
            && (e.ring == L.EMPTY.(seqNo := e.ring.seqNo) && L.Lines(e.sent) == r.lines
               <==> |r.lines| <= 16 * c.batchCap)
            && e.lost == [] && L.Dropped(e.sent) == r.dropped
  {
    LogFlushLeaves(c, r, Lane.MAX_SHUTDOWN_FLUSH_BATCHES, accepts);
    LogFlushConserves(c, r, Lane.MAX_SHUTDOWN_FLUSH_BATCHES, accepts);
    Rounds.TakenIsProduct(R.Caps(c.cap, c.batchCap), Lane.MAX_SHUTDOWN_FLUSH_BATCHES);
  }

  /**
   * The whole of `flush_remaining`, sends succeeding: both rings end empty with every sample and every
   * line queued, exactly when both fit in sixteen batches.
   */
  lemma RemainingCompleteIff(c: R.Caps, r: R.Ring, d: L.Caps, l: L.Ring, now: int, accepts: nat)
    requires accepts >= 2 * Lane.MAX_SHUTDOWN_FLUSH_BATCHES
    ensures var e := FlushMetrics(c, r, now, Lane.MAX_SHUTDOWN_FLUSH_BATCHES, accepts);
            && e.lost == [] && |e.sent| <= Lane.MAX_SHUTDOWN_FLUSH_BATCHES
            && (var f := FlushLogs(d, l, Lane.MAX_SHUTDOWN_FLUSH_BATCHES, accepts - |e.sent|);
                (&& e.ring == R.EMPTY.(seqNo := e.ring.seqNo) && Lane.Cargo(e.sent) == r.samples
                 && f.ring == L.EMPTY.(seqNo := f.ring.seqNo) && L.Lines(f.sent) == l.lines)
                <==> |r.samples| <= 16 * c.batchCap && |l.lines| <= 16 * d.batchCap)
  {
    var n := Lane.MAX_SHUTDOWN_FLUSH_BATCHES;
    SentWithin(c, r, now, n, accepts);
    FlushConserves(c, r, now, n, accepts);
    ShutdownCompleteIff(c, r, now, accepts);
    LogShutdownCompleteIff(d, l, accepts - |FlushMetrics(c, r, now, n, accepts).sent|);
  }
}
