/** What a run of `record` calls loses: exactly the least any buffer of that size can lose. */
module BillableLoss {
  import opened Words
  import opened Samples
  import opened MetricsRing

  /** Recording a whole sequence: what is left, and everything dropped on the way. */
  function RecordAll(c: Caps, q: seq<Sample>, xs: seq<Sample>): Kept {
    if xs == [] then Kept(q, [])
    else
      var k := RecordAll(c, q, xs[..|xs| - 1]);
      var p := Push(c, k.samples, xs[|xs| - 1]);
      Kept(p.samples, k.dropped + p.dropped)
  }

  /** The same on the whole ring. */
  function RecordRing(c: Caps, r: Ring, xs: seq<Sample>): Ring {
    if xs == [] then r else Record(c, RecordRing(c, r, xs[..|xs| - 1]), xs[|xs| - 1])
  }

  lemma {:induction false} RingCountsDrops(c: Caps, r: Ring, xs: seq<Sample>)
    ensures var k := RecordAll(c, r.samples, xs);
            RecordRing(c, r, xs) == CountDrops(r, k.dropped).(samples := k.samples)
  {
    if xs == [] {
      NoDrops(r);
    } else {
      var init := xs[..|xs| - 1];
      RingCountsDrops(c, r, init);
      var k := RecordAll(c, r.samples, init);
      var p := Push(c, k.samples, xs[|xs| - 1]);
      OfClassConcat(k.dropped, p.dropped, true);
      OfClassConcat(k.dropped, p.dropped, false);
      WrapAddTwice(r.overflow, Count(k.dropped, true), Count(p.dropped, true));
      WrapAddTwice(r.overflowNonBillable, Count(k.dropped, false), Count(p.dropped, false));
    }
  }

  function Newest(s: seq<Sample>, n: nat): seq<Sample> { s[|s| - Min(n, |s|)..] }

  function Older(s: seq<Sample>, n: nat): seq<Sample> { s[..|s| - Min(n, |s|)] }

  lemma {:induction false} AllBillable(q: seq<Sample>)
    requires forall i :: 0 <= i < |q| ==> Billable(q[i].outcome)
    ensures OfClass(q, true) == q
  {
    if q != [] {
      AllBillable(q[..|q| - 1]);
      assert q == q[..|q| - 1] + [q[|q| - 1]];
    }
  }

  lemma EvictedClass(q: seq<Sample>, v: nat)
    requires v < |q| && !Billable(q[v].outcome)
    ensures OfClass(q[..v] + q[v + 1..], true) == OfClass(q, true) && Count(q, true) < |q|
  {
    SplitAt(q, v);
    AllNonBillable([q[v]]);
    ClassWithout(q[..v], [q[v]], q[v + 1..]);
    FewerThanAll(q, v);
  }

  lemma AllNonBillable(x: seq<Sample>)
    requires |x| == 1 && !Billable(x[0].outcome)
    ensures OfClass(x, true) == []
  {
    assert x[..0] == [];
  }

  lemma ClassWithout(a: seq<Sample>, x: seq<Sample>, b: seq<Sample>)
    requires OfClass(x, true) == []
    ensures OfClass(a + x + b, true) == OfClass(a + b, true)
  {
    OfClassConcat(a + x, b, true);
    OfClassConcat(a, x, true);
    OfClassConcat(a, b, true);
  }

  lemma FewerThanAll(q: seq<Sample>, v: nat)
    requires v < |q| && !Billable(q[v].outcome)
    ensures Count(q, true) < |q|
  {
    ClassesPartition(q);
    OfClassMembers(q, false);
    assert q[v] in OfClass(q, false);
  }

  lemma AllFit(f: seq<Sample>, n: nat)
    requires |f| <= n
    ensures Newest(f, n) == f && Older(f, n) == []
  {
  }

  lemma PushClass(c: Caps, q: seq<Sample>, s: Sample)
    requires |q| <= Limit(c)
    ensures var k, f := Push(c, q, s), OfClass(q, true) + OfClass([s], true);
            && OfClass(k.samples, true) == Newest(f, Limit(c))
            && OfClass(k.dropped, true) == Older(f, Limit(c))
  {
    if |q| >= c.cap && Billable(s.outcome) && q != [] {
      PushClassFull(c, q, s);
    } else if |q| >= c.cap && !Billable(s.outcome) {
      PushClassRefused(c, q, s);
    } else {
      PushClassRoom(c, q, s);
    }
  }

  lemma PushClassRefused(c: Caps, q: seq<Sample>, s: Sample)
    requires c.cap <= |q| <= Limit(c) && !Billable(s.outcome)
    ensures var k, f := Push(c, q, s), OfClass(q, true) + OfClass([s], true);
            && OfClass(k.samples, true) == Newest(f, Limit(c))
            && OfClass(k.dropped, true) == Older(f, Limit(c))
  {
    AllNonBillable([s]);
    AllFitStill(OfClass(q, true), OfClass([s], true), Limit(c));
  }

  lemma AllFitStill(f: seq<Sample>, none: seq<Sample>, n: nat)
    requires |f| <= n && none == []
    ensures Newest(f + none, n) == f && Older(f + none, n) == []
  {
    assert f + none == f;
  }

  lemma PushClassRoom(c: Caps, q: seq<Sample>, s: Sample)
    requires |q| < c.cap || (q == [] && Billable(s.outcome))
    ensures var k, f := Push(c, q, s), OfClass(q, true) + OfClass([s], true);
            && OfClass(k.samples, true) == Newest(f, Limit(c))
            && OfClass(k.dropped, true) == Older(f, Limit(c))
  {
    assert Push(c, q, s) == Kept(q + [s], []) by { assert q == [] ==> q + [s] == [s]; }
    OfClassConcat(q, [s], true);
    AllFit(OfClass(q + [s], true), Limit(c));
  }

  lemma ShiftByOne(q: seq<Sample>, s: Sample)
    requires q != []
    ensures Newest(q + [s], |q|) == q[1..] + [s] && Older(q + [s], |q|) == [q[0]]
  {
  }

  lemma ShiftClass(q: seq<Sample>, s: Sample)
    requires q != [] && OfClass(q, true) == q && OfClass([s], true) == [s]
    ensures OfClass(q[1..] + [s], true) == q[1..] + [s]
    ensures OfClass([q[0]], true) == [q[0]]
  {
    assert q == [q[0]] + q[1..];
    OfClassConcat([q[0]], q[1..], true);
    assert OfClass(q[1..], true) == q[1..];
    OfClassConcat(q[1..], [s], true);
  }

  lemma SwapClass(q: seq<Sample>, v: nat, s: Sample)
    requires v < |q| && !Billable(q[v].outcome) && Billable(s.outcome)
    ensures var f := OfClass(q, true) + OfClass([s], true);
            && OfClass(q[..v] + q[v + 1..] + [s], true) == Newest(f, |q|)
            && OfClass([q[v]], true) == Older(f, |q|)
  {
    AllBillable([s]);
    EvictedClass(q, v);
    OfClassConcat(q[..v] + q[v + 1..], [s], true);
    AllFit(OfClass(q, true) + [s], |q|);
    assert [q[v]][..0] == [];
  }

  lemma PushAllBillable(c: Caps, q: seq<Sample>, s: Sample)
    requires c.cap <= |q| && Billable(s.outcome) && q != [] && Billable(q[Victim(q)].outcome)
    ensures Push(c, q, s) == Kept(q[1..] + [s], [q[0]])
    ensures OfClass(q, true) == q
  {
    assert Victim(q) == 0;
    assert q[..0] + q[1..] == q[1..];
    AllBillable(q);
  }

  lemma PushClassShift(c: Caps, q: seq<Sample>, s: Sample)
    requires c.cap <= |q| && |q| == Limit(c) && Billable(s.outcome) && q != [] && Billable(q[Victim(q)].outcome)
    ensures var k, f := Push(c, q, s), OfClass(q, true) + OfClass([s], true);
            && OfClass(k.samples, true) == Newest(f, Limit(c))
            && OfClass(k.dropped, true) == Older(f, Limit(c))
  {
    PushAllBillable(c, q, s);
    AllBillable([s]);
    ShiftByOne(q, s);
    ShiftClass(q, s);
  }

  lemma PushClassFull(c: Caps, q: seq<Sample>, s: Sample)
    requires c.cap <= |q| <= Limit(c) && Billable(s.outcome) && q != []
    ensures var k, f := Push(c, q, s), OfClass(q, true) + OfClass([s], true);
            && OfClass(k.samples, true) == Newest(f, Limit(c))
            && OfClass(k.dropped, true) == Older(f, Limit(c))
  {
    if Billable(q[Victim(q)].outcome) {
      PushClassShift(c, q, s);
    } else {
      PushSwaps(c, q, s);
      SwapClass(q, Victim(q), s);
    }
  }

  lemma PushSwaps(c: Caps, q: seq<Sample>, s: Sample)
    requires c.cap <= |q| <= Limit(c) && Billable(s.outcome) && q != []
    ensures Push(c, q, s) == Kept(q[..Victim(q)] + q[Victim(q) + 1..] + [s], [q[Victim(q)]])
    ensures |q| == Limit(c)
  {
  }

  /**
   * Exactly the newest billable samples that fit are kept, in order; exactly the older ones are
   * dropped.
   */
  lemma {:induction false} ExactLoss(c: Caps, q: seq<Sample>, xs: seq<Sample>)
    requires |q| <= Limit(c)
    ensures var k, f := RecordAll(c, q, xs), OfClass(q, true) + OfClass(xs, true);
            && OfClass(k.samples, true) == Newest(f, Limit(c))
            && OfClass(k.dropped, true) == Older(f, Limit(c))
  {
    if xs == [] {
      assert OfClass(q, true) + OfClass(xs, true) == OfClass(q, true);
      AllFit(OfClass(q, true), Limit(c));
    } else {
      var n := |xs| - 1;
      ExactLoss(c, q, xs[..n]);
      ExactLength(c, q, xs[..n]);
      PushClass(c, RecordAll(c, q, xs[..n]).samples, xs[n]);
      OfClassConcat(RecordAll(c, q, xs[..n]).dropped, Push(c, RecordAll(c, q, xs[..n]).samples, xs[n]).dropped, true);
      ArrivalsSplit(q, xs);
      SuffixOfSuffix(OfClass(q, true) + OfClass(xs[..n], true), OfClass([xs[n]], true), Limit(c));
    }
  }

  lemma ArrivalsSplit(q: seq<Sample>, xs: seq<Sample>)
    requires xs != []
    ensures OfClass(q, true) + OfClass(xs, true)
         == (OfClass(q, true) + OfClass(xs[..|xs| - 1], true)) + OfClass([xs[|xs| - 1]], true)
  {
    var init, last := xs[..|xs| - 1], [xs[|xs| - 1]];
    assert xs == init + last;
    OfClassConcat(init, last, true);
    Assoc(OfClass(q, true), OfClass(init, true), OfClass(last, true));
  }

  /** Nothing is dropped before the buffer is full, and it stays full from then on. */
  lemma {:induction false} ExactLength(c: Caps, q: seq<Sample>, xs: seq<Sample>)
    requires |q| <= Limit(c)
    ensures var k := RecordAll(c, q, xs);
            && |k.samples| <= Limit(c)
            && (c.cap >= 1 ==> |k.samples| == Min(c.cap, |q| + |xs|))
            && |k.samples| + |k.dropped| == |q| + |xs|
  {
    if xs != [] {
      ExactLength(c, q, xs[..|xs| - 1]);
      PushConserves(c, RecordAll(c, q, xs[..|xs| - 1]).samples, xs[|xs| - 1], Class(true));
    }
  }

  lemma SuffixOfSuffix(f: seq<Sample>, g: seq<Sample>, n: nat)
    ensures Newest(Newest(f, n) + g, n) == Newest(f + g, n)
    ensures Older(f, n) + Older(Newest(f, n) + g, n) == Older(f + g, n)
  {
    assert f == Older(f, n) + Newest(f, n);
  }

  /** The counters after the run: the exact numbers of the law above, on the 64-bit counters. */
  lemma LossCounted(c: Caps, r: Ring, xs: seq<Sample>)
    requires |r.samples| <= Limit(c)
    ensures var lost := Count(r.samples, true) + Count(xs, true) - Limit(c);
            RecordRing(c, r, xs).overflow == (r.overflow + if lost > 0 then lost else 0) % 0x1_0000_0000_0000_0000
  {
    WrapIsMod(r.overflow + Count(RecordAll(c, r.samples, xs).dropped, true));
    RingCountsDrops(c, r, xs);
    LossExact(c, r.samples, xs);
  }

  lemma LossExact(c: Caps, q: seq<Sample>, xs: seq<Sample>)
    requires |q| <= Limit(c)
    ensures var lost := Count(q, true) + Count(xs, true) - Limit(c);
            Count(RecordAll(c, q, xs).dropped, true) == if lost > 0 then lost else 0
  {
    ExactLoss(c, q, xs);
    var f := OfClass(q, true) + OfClass(xs, true);
    assert |Older(f, Limit(c))| == |f| - Min(Limit(c), |f|);
  }

  /**
   * A run of any buffer of the same size, with any eviction policy: all that is asked of a step
   * is that it makes no billable samples up.
   */
  ghost predicate PolicyRun(limit: nat, xs: seq<Sample>, held: seq<seq<Sample>>) {
    && |held| == |xs| + 1
    && (forall i :: 0 <= i < |held| ==> |held[i]| <= limit)
    && (forall i :: 0 <= i < |xs| ==> Count(held[i + 1], true) <= Count(held[i], true) + Count([xs[i]], true))
  }

  /** No eviction policy ends with more of the same arrivals, from the same start. */
  lemma MinimalLoss(c: Caps, xs: seq<Sample>, held: seq<seq<Sample>>)
    requires PolicyRun(Limit(c), xs, held)
    ensures Count(held[0], true) + Count(xs, true) - Count(held[|xs|], true)
         >= Count(RecordAll(c, held[0], xs).dropped, true)
  {
    LossExact(c, held[0], xs);
    PolicyHolds(Limit(c), xs, held);
  }

  lemma {:induction false} PolicyHolds(limit: nat, xs: seq<Sample>, held: seq<seq<Sample>>)
    requires PolicyRun(limit, xs, held)
    ensures Count(held[|xs|], true) <= Count(held[0], true) + Count(xs, true)
  {
    if xs != [] {
      var n := |xs| - 1;
      PolicyHolds(limit, xs[..n], held[..n + 1]);
      assert xs == xs[..n] + [xs[n]];
      OfClassConcat(xs[..n], [xs[n]], true);
    }
  }
}
