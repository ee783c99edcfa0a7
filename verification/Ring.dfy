/** What the metrics buffer's operations compute, on values: the specification of `MetricsBuffer`. */
module MetricsRing {
  import opened Words
  import opened Samples
  import Rollup

  datatype Caps = Caps(cap: nat, batchCap: nat)

  /** The most samples a buffer ever holds: a zero-capacity buffer still keeps one. */
  function Limit(c: Caps): nat { Max(c.cap, 1) }

  /** Buffered samples at which the flush loop is woken early. */
  function EarlyMark(c: Caps): nat { Max(c.cap - c.cap / 5, 1) }

  /** A full buffer is this many batches. */
  function BatchesPerTick(c: Caps): nat {
    Max(DivCeil(c.cap, Max(c.batchCap, 1)), 1)
  }

  /** `usize::div_ceil`. */
  function DivCeil(a: nat, b: nat): nat
    requires b >= 1
    decreases a
  {
    if a == 0 then 0 else if a <= b then 1 else 1 + DivCeil(a - b, b)
  }

  datatype Ring = Ring(samples: seq<Sample>, overflow: u64, overflowNonBillable: u64, seqNo: nat, events: Rollup.Rollup)

  datatype Batch = Batch(samples: seq<Sample>, overflow: u64, overflowNonBillable: u64, seqNo: nat, rows: Rollup.Rows)

  const EMPTY: Ring := Ring([], 0, 0, 0, Rollup.EMPTY)

  /** Nothing is left in the ring but its number. */
  predicate Emptied(r: Ring) { r == EMPTY.(seqNo := r.seqNo) }

  predicate Empty(b: Batch) {
    b.samples == [] && b.overflow == 0 && b.overflowNonBillable == 0 && b.rows.counts == map[]
  }

  /** The sample a full buffer gives up, found by a full scan: the oldest non-billable one, else the oldest. */
  function Victim(q: seq<Sample>): (v: nat)
    requires q != []
    ensures v < |q|
    ensures (forall i :: 0 <= i < |q| ==> Billable(q[i].outcome)) ==> v == 0
    ensures (exists i :: 0 <= i < |q| && !Billable(q[i].outcome)) ==>
              !Billable(q[v].outcome) && forall i :: 0 <= i < v ==> Billable(q[i].outcome)
  {
    if exists i :: 0 <= i < |q| && !Billable(q[i].outcome) then FirstNonBillable(q) else 0
  }

  function FirstNonBillable(q: seq<Sample>): (v: nat)
    requires exists i :: 0 <= i < |q| && !Billable(q[i].outcome)
    ensures v < |q| && !Billable(q[v].outcome)
    ensures forall i :: 0 <= i < v ==> Billable(q[i].outcome)
  {
    if !Billable(q[0].outcome) then 0
    else
      assert exists i :: 0 <= i < |q[1..]| && !Billable(q[1..][i].outcome) by {
        var i :| 0 <= i < |q| && !Billable(q[i].outcome);
        assert q[1..][i - 1] == q[i];
      }
      1 + FirstNonBillable(q[1..])
  }

  /** What an operation leaves in the buffer and what it drops. */
  datatype Kept = Kept(samples: seq<Sample>, dropped: seq<Sample>)

  function Push(c: Caps, q: seq<Sample>, s: Sample): Kept {
    if |q| < c.cap then Kept(q + [s], [])
    else if !Billable(s.outcome) then Kept(q, [s])
    else if q == [] then Kept([s], [])
    else Kept(q[..Victim(q)] + q[Victim(q) + 1..] + [s], [q[Victim(q)]])
  }

  /** How many samples of a returned batch still fit in front of `held` buffered ones. */
  function Room(c: Caps, held: nat, returned: nat): (n: nat)
    ensures n <= returned
  {
    if held >= c.cap then 0 else Min(returned, c.cap - held)
  }

  /** The newest part of the batch that fits goes back in front; the rest is dropped. */
  function PutBack(c: Caps, q: seq<Sample>, batch: seq<Sample>): Kept {
    var cut := |batch| - Room(c, |q|, |batch|);
    Kept(batch[cut..] + q, batch[..cut])
  }

  function CountDrops(r: Ring, dropped: seq<Sample>): Ring {
    r.(overflow := WrapAdd(r.overflow, Count(dropped, true)),
       overflowNonBillable := WrapAdd(r.overflowNonBillable, Count(dropped, false)))
  }

  function Record(c: Caps, r: Ring, s: Sample): Ring {
    var k := Push(c, r.samples, s);
    CountDrops(r, k.dropped).(samples := k.samples)
  }

  /** Whether recording into a buffer of this many samples wakes the flush loop. */
  predicate Wakes(c: Caps, buffered: nat) { buffered + 1 >= EarlyMark(c) }

  function RecordEvents(r: Ring, k: Rollup.Key, counts: Rollup.EventCounts, now: int): Ring {
    r.(events := Rollup.Record(r.events, k, counts, now))
  }

  function Drained(c: Caps, r: Ring, now: int): Batch {
    Batch(r.samples[..Min(|r.samples|, c.batchCap)], r.overflow, r.overflowNonBillable, r.seqNo + 1,
          Rollup.Take(r.events, now))
  }

  function AfterDrain(c: Caps, r: Ring): Ring {
    Ring(r.samples[Min(|r.samples|, c.batchCap)..], 0, 0, r.seqNo + 1, Rollup.EMPTY)
  }

  function RequeueFront(c: Caps, r: Ring, b: Batch): Ring {
    var k := PutBack(c, r.samples, b.samples);
    var counted := CountDrops(r, k.dropped);
    Ring(k.samples, WrapAdd(counted.overflow, b.overflow),
         WrapAdd(counted.overflowNonBillable, b.overflowNonBillable), r.seqNo, Rollup.Merge(r.events, b.rows))
  }

  // ---- By outcome ------------------------------------------------------------------------------

  /** The sample a full buffer gives up for a call that ran: the oldest that did not run, or the oldest of all. */
  ghost predicate GivesUp(q: seq<Sample>, v: nat) {
    && v < |q|
    && (Ran(q[v].outcome) ==> v == 0 && forall i :: 0 <= i < |q| ==> Ran(q[i].outcome))
    && (!Ran(q[v].outcome) ==> forall i :: 0 <= i < v ==> Ran(q[i].outcome))
  }

  /** A full buffer refuses a call that did not run, and counts it as not billable. */
  lemma FullRefuses(c: Caps, r: Ring, x: Sample)
    requires c.cap <= |r.samples| && x.outcome in {PolicyDenied, QuotaExceeded, IdempotentReplay}
    ensures Push(c, r.samples, x) == Kept(r.samples, [x])
    ensures Record(c, r, x) == r.(overflowNonBillable := WrapAdd(r.overflowNonBillable, 1))
  {
    OneCounted(x);
  }

  /** A full buffer takes a call that ran, and counts what it gives up by whether that ran. */
  lemma FullTakes(c: Caps, r: Ring, x: Sample)
    requires c.cap <= |r.samples| && r.samples != [] && x.outcome in {Ok, ClientError, ServerError}
    ensures exists v: nat :: GivesUp(r.samples, v) && Takes(c, r, x, v)
  {
    VictimGivenUp(r.samples);
    VictimTaken(c, r, x);
  }

  lemma VictimGivenUp(q: seq<Sample>)
    requires q != []
    ensures GivesUp(q, Victim(q))
  {
  }

  lemma VictimTaken(c: Caps, r: Ring, x: Sample)
    requires c.cap <= |r.samples| && r.samples != [] && x.outcome in {Ok, ClientError, ServerError}
    ensures Takes(c, r, x, Victim(r.samples))
  {
    OneCounted(r.samples[Victim(r.samples)]);
  }

  lemma OneCounted(d: Sample)
    ensures Count([d], true) == (if Ran(d.outcome) then 1 else 0)
    ensures Count([d], false) == (if Ran(d.outcome) then 0 else 1)
  {
    assert [d][..0] == [];
  }

  ghost predicate Takes(c: Caps, r: Ring, x: Sample, v: nat)
    requires v < |r.samples|
  {
    var n, d := Record(c, r, x), r.samples[v];
    && n.samples == r.samples[..v] + r.samples[v + 1..] + [x]
    && n.overflow == WrapAdd(r.overflow, if Ran(d.outcome) then 1 else 0)
    && n.overflowNonBillable == WrapAdd(r.overflowNonBillable, if Ran(d.outcome) then 0 else 1)
    && n.seqNo == r.seqNo && n.events == r.events
  }

  /** Below capacity any call is taken and nothing is given up. */
  lemma RoomTakes(c: Caps, r: Ring, x: Sample)
    requires |r.samples| < c.cap
    ensures Record(c, r, x) == r.(samples := r.samples + [x])
  {
    NoDrops(r);
  }

  /** The early mark is the least positive number of samples that is four fifths of the capacity. */
  lemma EarlyMarkIsLeast(c: Caps, m: nat)
    requires m >= 1
    ensures 5 * m >= 4 * c.cap <==> m >= EarlyMark(c)
    ensures EarlyMark(c) >= 1
  {
  }

  /** A returned batch fills the buffer as far as it goes, from its newest sample down. */
  lemma PutBackFills(c: Caps, q: seq<Sample>, batch: seq<Sample>)
    ensures var k := PutBack(c, q, batch);
            && k.dropped + k.samples == batch + q
            && |k.samples| == Max(|q|, Min(c.cap, |q| + |batch|))
  {
    var cut := |batch| - Room(c, |q|, |batch|);
    assert batch == batch[..cut] + batch[cut..];
    Assoc(batch[..cut], batch[cut..], q);
  }

  // ---- Per-operation laws --------------------------------------------------------------------

  lemma NoDrops(r: Ring)
    ensures CountDrops(r, []) == r
  {
  }

  lemma ReplaceConserves(m: Measure, q: seq<Sample>, v: nat, s: Sample)
    requires v < |q|
    ensures Weigh(m, q[..v] + q[v + 1..] + [s]) + Weigh(m, [q[v]]) == Weigh(m, q) + Weigh(m, [s])
  {
    var a, b := q[..v], q[v + 1..];
    assert q == a + [q[v]] + b;
    WeighConcat(m, a + [q[v]], b);
    WeighConcat(m, a, [q[v]]);
    WeighConcat(m, a + b, [s]);
    WeighConcat(m, a, b);
  }

  /** Recording keeps the bound and loses nothing uncounted. */
  lemma PushConserves(c: Caps, q: seq<Sample>, s: Sample, m: Measure)
    requires |q| <= Limit(c)
    ensures var k := Push(c, q, s);
            && |k.samples| <= Limit(c)
            && |q| <= |k.samples| + |k.dropped| == |q| + 1
            && Weigh(m, k.samples) + Weigh(m, k.dropped) == Weigh(m, q) + Weigh(m, [s])
  {
    if |q| < c.cap || (Billable(s.outcome) && q == []) {
      WeighConcat(m, q, [s]);
      assert q == [] ==> q + [s] == [s];
    } else if Billable(s.outcome) {
      ReplaceConserves(m, q, Victim(q), s);
    }
  }

  /** Returning a batch keeps the bound and loses nothing uncounted. */
  lemma PutBackConserves(c: Caps, q: seq<Sample>, batch: seq<Sample>, m: Measure)
    requires |q| <= Limit(c)
    ensures var k := PutBack(c, q, batch);
            && |k.samples| <= Limit(c)
            && Weigh(m, k.samples) + Weigh(m, k.dropped) == Weigh(m, q) + Weigh(m, batch)
  {
    var cut := |batch| - Room(c, |q|, |batch|);
    assert batch == batch[..cut] + batch[cut..];
    WeighConcat(m, batch[..cut], batch[cut..]);
    WeighConcat(m, batch[cut..], q);
  }

  /**
   * `requeue_front` undoes `drain`, apart from the sequence number, exactly when the ring was
   * within its capacity or the drain took no sample.
   */
  lemma RequeueUndoesDrain(c: Caps, r: Ring, now: int)
    requires r.events.since.None? <==> r.events.counts == map[]
    ensures RequeueFront(c, AfterDrain(c, r), Drained(c, r, now)) == r.(seqNo := r.seqNo + 1)
       <==> |r.samples| <= c.cap || Min(|r.samples|, c.batchCap) == 0
  {
    var b, rest := Drained(c, r, now), AfterDrain(c, r);
    DrainSplits(c, r, now);
    RejoinIff(c, b.samples, rest.samples);
    Rollup.MergeBack(r.events, now);
    if PutBack(c, rest.samples, b.samples) == Kept(r.samples, []) {
      NoDrops(rest);
    }
  }

  lemma DrainSplits(c: Caps, r: Ring, now: int)
    ensures r.samples == Drained(c, r, now).samples + AfterDrain(c, r).samples
  {
  }

  /** A batch put back in front of what it came from is whole again exactly when all of it fits. */
  lemma RejoinIff(c: Caps, batch: seq<Sample>, rest: seq<Sample>)
    ensures var k := PutBack(c, rest, batch);
            && (k.samples == batch + rest <==> |batch| + |rest| <= c.cap || batch == [])
            && (k.samples == batch + rest ==> k.dropped == [])
  {
    var cut := |batch| - Room(c, |rest|, |batch|);
    assert |PutBack(c, rest, batch).samples| == |batch| + |rest| - cut;
    if cut == 0 {
      assert batch[0..] == batch;
    }
  }
}
