/** The metrics buffer as it works: fields updated in place, a cached count instead of a scan. */
module Metrics {
  import opened Words
  import opened Samples
  import Rollup
  import R = MetricsRing

  class MetricsBuffer {
    const cap: nat
    const batchCap: nat
    const flushEarlyAt: nat
    var samples: seq<Sample>
    /** How many buffered samples are non-billable, kept so that a full buffer need not scan. */
    var nonBillable: nat
    /** The stored wake-up of the flush loop. */
    var wake: bool
    var droppedOverflow: u64
    var droppedNonBillable: u64
    var seqNo: nat
    var since: Option<int>
    var counts: map<Rollup.Key, Rollup.EventCounts>

    ghost function Caps(): R.Caps { R.Caps(cap, batchCap) }

    ghost function Value(): R.Ring
      reads this
    {
      R.Ring(samples, droppedOverflow, droppedNonBillable, seqNo, Rollup.Rollup(since, counts))
    }

    /** The cached count agrees with the scan, and the buffer is within its bound. */
    ghost predicate Valid()
      reads this
    {
      && nonBillable == Count(samples, false)
      && |samples| <= R.Limit(Caps())
      && flushEarlyAt == R.EarlyMark(Caps())
    }

    constructor (cap: nat, batchCap: nat)
      ensures Valid() && Caps() == R.Caps(cap, batchCap)
      ensures Value() == R.EMPTY && !wake
    {
      this.cap, this.batchCap := cap, batchCap;
      flushEarlyAt := Max(cap - cap / 5, 1);
      samples, nonBillable, wake := [], 0, false;
      droppedOverflow, droppedNonBillable, seqNo := 0, 0, 0;
      since, counts := None, map[];
    }

    method PushBack(s: Sample)
      modifies this`samples, this`nonBillable
      ensures samples == old(samples) + [s]
      ensures nonBillable == old(nonBillable) + (if Billable(s.outcome) then 0 else 1)
    {
      nonBillable := nonBillable + if Billable(s.outcome) then 0 else 1;
      samples := samples + [s];
    }

    method PushFront(s: Sample)
      modifies this`samples, this`nonBillable
      ensures samples == [s] + old(samples)
      ensures nonBillable == old(nonBillable) + (if Billable(s.outcome) then 0 else 1)
    {
      nonBillable := nonBillable + if Billable(s.outcome) then 0 else 1;
      samples := [s] + samples;
    }

    /** Nothing to remove past the end. */
    method Remove(at: nat) returns (removed: Option<Sample>)
      modifies this`samples, this`nonBillable
      ensures removed == if at < |old(samples)| then Some(old(samples)[at]) else None
      ensures samples == if at < |old(samples)| then old(samples)[..at] + old(samples)[at + 1..] else old(samples)
      ensures at < |old(samples)| ==>
                nonBillable == SatSub(old(nonBillable), if Billable(old(samples)[at].outcome) then 0 else 1)
      ensures at >= |old(samples)| ==> nonBillable == old(nonBillable)
    {
      if at >= |samples| { return None; }
      removed := Some(samples[at]);
      nonBillable := SatSub(nonBillable, if Billable(samples[at].outcome) then 0 else 1);
      samples := samples[..at] + samples[at + 1..];
    }

    method CountDrop(outcome: Outcome)
      modifies this`droppedOverflow, this`droppedNonBillable
      ensures Billable(outcome) ==>
                droppedOverflow == WrapAdd(old(droppedOverflow), 1) && droppedNonBillable == old(droppedNonBillable)
      ensures !Billable(outcome) ==>
                droppedNonBillable == WrapAdd(old(droppedNonBillable), 1) && droppedOverflow == old(droppedOverflow)
    {
      if Billable(outcome) {
        droppedOverflow := WrapAdd(droppedOverflow, 1);
      } else {
        droppedNonBillable := WrapAdd(droppedNonBillable, 1);
      }
    }

    /** The first non-billable sample, or `None`. */
    method Position() returns (at: Option<nat>)
      ensures at.None? ==> forall i :: 0 <= i < |samples| ==> Billable(samples[i].outcome)
      ensures at.Some? ==> at.value < |samples| && !Billable(samples[at.value].outcome)
      ensures at.Some? ==> forall i :: 0 <= i < at.value ==> Billable(samples[i].outcome)
    {
      for i := 0 to |samples|
        invariant forall j :: 0 <= j < i ==> Billable(samples[j].outcome)
      {
        if !Billable(samples[i].outcome) { return Some(i); }
      }
      return None;
    }

    /** The sample to give up: the cache says whether to look for a non-billable one. */
    method PickVictim() returns (victim: nat)
      requires nonBillable == Count(samples, false)
      ensures samples != [] ==> victim == R.Victim(samples)
    {
      victim := 0;
      CacheFindsVictim(samples);
      if nonBillable > 0 {
        var at := Position();
        victim := if at.Some? then at.value else 0;
      }
    }

    /** Give up one sample for an arriving billable one, chosen by the cached count. */
    method Evict()
      requires nonBillable == Count(samples, false)
      modifies this`samples, this`nonBillable, this`droppedOverflow, this`droppedNonBillable
      ensures nonBillable == Count(samples, false)
      ensures old(samples) == [] ==> Value() == old(Value())
      ensures old(samples) != [] ==>
                var v := R.Victim(old(samples));
                Value() == R.CountDrops(old(Value()), [old(samples)[v]])
                           .(samples := old(samples)[..v] + old(samples)[v + 1..])
    {
      var victim := PickVictim();
      ghost var q, start := samples, Value();
      var dropped := Remove(victim);
      if dropped.Some? {
        RemovalCounts(q, victim);
        DropOne(start, dropped.value);
        CountDrop(dropped.value.outcome);
      }
    }

    /**
     * Decides by the cached count, and does what the full scan would: the new value is that of
     * `R.Record`, which never looks at the cache.
     */
    method Record(s: Sample)
      requires Valid()
      modifies this
      ensures Valid()
      ensures Value() == R.Record(Caps(), old(Value()), s)
      ensures wake == (old(wake) || R.Wakes(Caps(), |old(samples)|))
    {
      if |samples| + 1 >= flushEarlyAt { wake := true; }
      Store(s);
    }

    method Store(s: Sample)
      requires Valid()
      modifies this`samples, this`nonBillable, this`droppedOverflow, this`droppedNonBillable
      ensures Valid()
      ensures Value() == R.Record(Caps(), old(Value()), s)
    {
      R.NoDrops(Value());
      OneSample(s);
      if |samples| >= cap {
        if !Billable(s.outcome) {
          CountDrop(s.outcome);
          return;
        }
        Evict();
      }
      OfClassConcat(samples, [s], false);
      PushBack(s);
    }

    method RecordEvents(key: Rollup.Key, c: Rollup.EventCounts, now: int)
      requires Valid()
      modifies this`since, this`counts
      ensures Valid() && Value() == R.RecordEvents(old(Value()), key, c, now)
    {
      if c == Rollup.ZERO { return; }
      if since.None? { since := Some(now); }
      counts := counts[key := Rollup.Add(Rollup.Get(counts, key), c)];
    }

    method Drain(now: int) returns (batch: R.Batch)
      requires Valid()
      modifies this
      ensures Valid() && wake == old(wake)
      ensures batch == R.Drained(Caps(), old(Value()), now)
      ensures Value() == R.AfterDrain(Caps(), old(Value()))
    {
      var n := Min(|samples|, batchCap);
      var taken := samples[..n];
      assert samples == taken + samples[n..];
      OfClassConcat(taken, samples[n..], false);
      samples := samples[n..];
      nonBillable := SatSub(nonBillable, Count(taken, false));
      var start := if since.Some? then since.value else now;
      batch := R.Batch(taken, droppedOverflow, droppedNonBillable, seqNo + 1, Rollup.Rows(start, now, counts));
      since, counts := None, map[];
      droppedOverflow, droppedNonBillable, seqNo := 0, 0, seqNo + 1;
    }

    method PutBackOne(s: Sample)
      requires nonBillable == Count(samples, false)
      modifies this`samples, this`nonBillable, this`droppedOverflow, this`droppedNonBillable
      ensures nonBillable == Count(samples, false)
      ensures |old(samples)| >= cap ==> Value() == R.CountDrops(old(Value()), [s])
      ensures |old(samples)| < cap ==> Value() == old(Value()).(samples := [s] + old(samples))
    {
      OneSample(s);
      if |samples| >= cap {
        CountDrop(s.outcome);
      } else {
        OfClassConcat([s], samples, false);
        PushFront(s);
      }
    }

    /** Sample by sample from the newest: what no longer fits is counted instead. */
    method PutBack(b: seq<Sample>)
      requires nonBillable == Count(samples, false)
      modifies this`samples, this`nonBillable, this`droppedOverflow, this`droppedNonBillable
      ensures nonBillable == Count(samples, false)
      ensures var k := R.PutBack(Caps(), old(samples), b);
              Value() == R.CountDrops(old(Value()), k.dropped).(samples := k.samples)
    {
      ghost var start := Value();
      var i := |b|;
      NoneReturned(Caps(), start, b);
      while i > 0
        invariant 0 <= i <= |b|
        invariant nonBillable == Count(samples, false)
        invariant Value() == Returned(Caps(), start, b, i)
      {
        i := i - 1;
        OneReturned(Caps(), start, b, i);
        PutBackOne(b[i]);
      }
      AllReturned(Caps(), start, b);
    }

    method RequeueFront(batch: R.Batch)
      requires Valid()
      modifies this
      ensures Valid() && wake == old(wake)
      ensures Value() == R.RequeueFront(Caps(), old(Value()), batch)
    {
      PutBack(batch.samples);
      droppedOverflow := WrapAdd(droppedOverflow, batch.overflow);
      droppedNonBillable := WrapAdd(droppedNonBillable, batch.overflowNonBillable);
      MergeRows(batch.rows);
    }

    /** Row by row, in whatever order. */
    method MergeRows(rows: Rollup.Rows)
      modifies this`since, this`counts
      ensures Rollup.Rollup(since, counts) == Rollup.Merge(old(Rollup.Rollup(since, counts)), rows)
    {
      var todo := rows.counts.Keys;
      while todo != {}
        invariant todo <= rows.counts.Keys
        invariant todo == rows.counts.Keys ==> since == old(since) && counts == old(counts)
        invariant todo != rows.counts.Keys ==> since == Some(Rollup.Earlier(old(since), rows.start))
        invariant counts.Keys == old(counts).Keys + (rows.counts.Keys - todo)
        invariant forall k :: k in counts && k in rows.counts && k !in todo ==>
                    counts[k] == Rollup.Add(Rollup.Get(old(counts), k), rows.counts[k])
        invariant forall k :: k in counts && (k !in rows.counts || k in todo) ==>
                    k in old(counts) && counts[k] == old(counts)[k]
      {
        var k :| k in todo;
        since := Some(Rollup.Earlier(since, rows.start));
        counts := counts[k := Rollup.Add(Rollup.Get(counts, k), rows.counts[k])];
        todo := todo - {k};
      }
    }
  }

  /** `usize::saturating_sub`. */
  function SatSub(a: nat, b: nat): nat { if a >= b then a - b else 0 }

  lemma OneSample(s: Sample)
    ensures OfClass([s], Billable(s.outcome)) == [s] && OfClass([s], !Billable(s.outcome)) == []
  {
    assert [s][..0] == [];
  }

  lemma DropOne(r: R.Ring, d: Sample)
    ensures R.CountDrops(r, [d])
         == if Billable(d.outcome) then r.(overflow := WrapAdd(r.overflow, 1))
            else r.(overflowNonBillable := WrapAdd(r.overflowNonBillable, 1))
  {
    OneSample(d);
  }

  /** The cached count says whether there is a non-billable victim to look for. */
  lemma CacheFindsVictim(q: seq<Sample>)
    ensures Count(q, false) > 0 <==> exists i :: 0 <= i < |q| && !Billable(q[i].outcome)
  {
    OfClassMembers(q, false);
    if Count(q, false) > 0 {
      assert OfClass(q, false)[0] in q;
    }
    if i :| 0 <= i < |q| && !Billable(q[i].outcome) {
      assert q[i] in OfClass(q, false);
    }
  }

  /** The subtraction that keeps the cache never goes below zero. */
  lemma RemovalCounts(q: seq<Sample>, v: nat)
    requires v < |q|
    ensures Count(q, false) == Count(q[..v] + q[v + 1..], false) + (if Billable(q[v].outcome) then 0 else 1)
  {
    assert q == q[..v] + [q[v]] + q[v + 1..];
    OfClassConcat(q[..v] + [q[v]], q[v + 1..], false);
    OfClassConcat(q[..v], [q[v]], false);
    OfClassConcat(q[..v], q[v + 1..], false);
    OneSample(q[v]);
  }

  /** The ring once the samples of `b` from `i` on have been returned to `start`. */
  ghost function Returned(c: R.Caps, start: R.Ring, b: seq<Sample>, i: nat): R.Ring
    requires i <= |b|
  {
    var cut := |b| - R.Room(c, |start.samples|, |b|);
    R.CountDrops(start, b[Min(i, cut)..cut]).(samples := b[Max(i, cut)..] + start.samples)
  }

  lemma NoneReturned(c: R.Caps, start: R.Ring, b: seq<Sample>)
    ensures Returned(c, start, b, |b|) == start
  {
    R.NoDrops(start);
    assert b[|b|..] + start.samples == start.samples;
  }

  lemma OneReturned(c: R.Caps, start: R.Ring, b: seq<Sample>, i: nat)
    requires i < |b|
    ensures var r := Returned(c, start, b, i + 1);
            Returned(c, start, b, i)
            == if |r.samples| >= c.cap then R.CountDrops(r, [b[i]]) else r.(samples := [b[i]] + r.samples)
  {
    var cut := |b| - R.Room(c, |start.samples|, |b|);
    if i < cut {
      DropCounts(start, b, i, cut);
    } else {
      assert b[i..] == [b[i]] + b[i + 1..];
      Assoc([b[i]], b[i + 1..], start.samples);
    }
  }

  lemma AllReturned(c: R.Caps, start: R.Ring, b: seq<Sample>)
    ensures var k := R.PutBack(c, start.samples, b);
            Returned(c, start, b, 0) == R.CountDrops(start, k.dropped).(samples := k.samples)
  {
    var cut := |b| - R.Room(c, |start.samples|, |b|);
    assert b[0..cut] == b[..cut];
  }

  /** Counting a run of drops one by one from the back. */
  lemma DropCounts(r: R.Ring, b: seq<Sample>, i: nat, cut: nat)
    requires i < cut <= |b|
    ensures R.CountDrops(R.CountDrops(r, b[i + 1..cut]), [b[i]]) == R.CountDrops(r, b[i..cut])
  {
    var rest := b[i + 1..cut];
    assert b[i..cut] == [b[i]] + rest;
    OneSample(b[i]);
    OfClassConcat([b[i]], rest, true);
    OfClassConcat([b[i]], rest, false);
    WrapAddTwice(r.overflow, Count(rest, true), Count([b[i]], true));
    WrapAddTwice(r.overflowNonBillable, Count(rest, false), Count([b[i]], false));
  }
}
