/** Timing of the flush loop: how fast calls may arrive before a sample is ever dropped. */
module Pacing {
  import opened Samples
  import opened MetricsRing
  import Flush
  import Rounds
  import BillableLoss

  /** `EARLY_FLUSH_SPACING`, in milliseconds. */
  const SPACING: nat := 1000

  /** A round of succeeding sends leaves nothing behind. */
  lemma {:induction false} RoundEmpties(c: Caps, r: Ring, now: int, left: nat, accepts: nat)
    requires c.batchCap >= 1 && left >= 1 && accepts >= left && |r.samples| <= Rounds.Taken(c, left)
    ensures var e := Flush.Round(c, r, now, left, accepts);
            && e.refused == [] && e.ring.samples == [] && e.ring.overflow == 0 && e.ring.overflowNonBillable == 0
    decreases left
  {
    var b, rest := Drained(c, r, now), AfterDrain(c, r);
    if |b.samples| >= c.batchCap {
      if left == 1 {
        assert Rounds.Taken(c, 1) == Rounds.Taken(c, 0) + c.batchCap;
        assert rest.samples == [];
        assert Flush.Round(c, rest, now, 0, accepts - 1) == Flush.RoundEnd(rest, [], []);
      } else {
        RoundEmpties(c, rest, now, left - 1, accepts - 1);
      }
    }
  }

  /** A round over no samples leaves none. */
  lemma {:induction false} NothingFlushed(c: Caps, r: Ring, now: int, left: nat, accepts: nat)
    requires r.samples == [] && accepts >= left
    ensures Flush.Round(c, r, now, left, accepts).ring.samples == []
    decreases left
  {
    if left > 0 {
      var sent := Flush.Shipped(Drained(c, r, now));
      NothingFlushed(c, AfterDrain(c, r), now, left - 1, accepts - |sent|);
    }
  }

  /** `Sleeping`: a wake-up was consumed and the loop sleeps until the spacing is over. */
  datatype Phase = Waiting | Sleeping

  /**
   * `arrived` counts the arrivals and labels the next; `early` counts those within the spacing of the
   * last round's start; `late` those after it and after the wake-up was due; `drops` all samples ever
   * dropped.
   */
  datatype State = State(
    ring: Ring, now: int, started: int, permit: bool, phase: Phase, arrived: nat, early: nat, late: nat, drops: nat)

  datatype Step = Arrive(outcome: Outcome) | Pass(ms: nat) | Consume | StartRound

  /** The ring after a round whose sends all succeed. */
  function Flushed(c: Caps, r: Ring, now: int): Ring {
    Flush.Round(c, r, now, BatchesPerTick(c), BatchesPerTick(c)).ring
  }

  /** The first tick is immediate: its round has found nothing. */
  function Init(c: Caps): State { State(Flushed(c, EMPTY, 0), 0, 0, false, Waiting, 0, 0, 0, 0) }

  predicate Spaced(s: State) { s.now <= s.started + SPACING }

  predicate Pending(s: State) { s.permit || s.phase == Sleeping }

  /** The load the design allows, and a loop that wakes on time: sleeps end when they are over. */
  predicate Allowed(c: Caps, s: State, step: Step) {
    match step
    case Arrive(_) => if Spaced(s) then s.early < c.cap else if Pending(s) then s.late < c.cap / 5 else true
    case Pass(ms) => Pending(s) && Spaced(s) ==> s.now + ms <= s.started + SPACING
    case Consume => s.phase == Waiting && s.permit
    case StartRound => s.phase == Waiting || s.now >= s.started + SPACING
  }

  /** A round is instantaneous, and the outbound queue takes all of it. */
  function Next(c: Caps, s: State, step: Step): State {
    match step
    case Arrive(outcome) =>
      var x := Sample(s.arrived, outcome);
      s.(ring := Record(c, s.ring, x), permit := s.permit || Wakes(c, |s.ring.samples|),
         arrived := s.arrived + 1, early := if Spaced(s) then s.early + 1 else s.early,
         late := if !Spaced(s) && Pending(s) then s.late + 1 else s.late,
         drops := s.drops + |Push(c, s.ring.samples, x).dropped|)
    case Pass(ms) => s.(now := s.now + ms)
    case Consume => s.(permit := false, phase := Sleeping)
    case StartRound =>
      s.(ring := Flushed(c, s.ring, s.now), started := s.now, phase := Waiting, early := 0, late := 0)
  }

  function Run(c: Caps, steps: seq<Step>): State {
    if steps == [] then Init(c) else Next(c, Run(c, steps[..|steps| - 1]), steps[|steps| - 1])
  }

  predicate Paced(c: Caps, steps: seq<Step>) {
    steps == [] || (Paced(c, steps[..|steps| - 1]) && Allowed(c, Run(c, steps[..|steps| - 1]), steps[|steps| - 1]))
  }

  ghost predicate Inv(c: Caps, s: State) {
    var buffered := |s.ring.samples|;
    && s.drops == 0 && buffered <= c.cap && s.started <= s.now
    && (s.phase == Waiting && !s.permit ==> buffered < EarlyMark(c))
    && (Spaced(s) ==> buffered <= s.early <= c.cap)
    && (!Spaced(s) && Pending(s) ==> buffered <= EarlyMark(c) + s.late && s.late <= c.cap / 5)
    && (!Pending(s) || Spaced(s) ==> s.late == 0)
  }

  lemma ArriveKeeps(c: Caps, s: State, outcome: Outcome)
    requires c.cap >= 1 && Inv(c, s) && Allowed(c, s, Arrive(outcome))
    ensures Inv(c, Next(c, s, Arrive(outcome)))
  {
    var x := Sample(s.arrived, outcome);
    assert EarlyMark(c) + c.cap / 5 == c.cap;
    assert |s.ring.samples| < c.cap;
    assert Push(c, s.ring.samples, x) == Kept(s.ring.samples + [x], []);
  }

  lemma RoundKeeps(c: Caps, s: State)
    requires c.cap >= 1 && c.batchCap >= 1 && Inv(c, s) && Allowed(c, s, StartRound)
    ensures Inv(c, Next(c, s, StartRound))
  {
    Rounds.RoundCovers(c);
    RoundEmpties(c, s.ring, s.now, BatchesPerTick(c), BatchesPerTick(c));
  }

  /**
   * No sample is ever dropped while at most `cap` arrive within the spacing of a round's start and
   * at most a fifth of `cap` between a later crossing of the high-water mark and the round it causes.
   */
  lemma {:induction false} NoDropUnderPacedLoad(c: Caps, steps: seq<Step>)
    requires c.cap >= 1 && c.batchCap >= 1 && Paced(c, steps)
    ensures var s := Run(c, steps); Inv(c, s) && s.drops == 0 && |s.ring.samples| <= c.cap
  {
    if steps == [] {
      NothingFlushed(c, EMPTY, 0, BatchesPerTick(c), BatchesPerTick(c));
    } else {
      var s, step := Run(c, steps[..|steps| - 1]), steps[|steps| - 1];
      NoDropUnderPacedLoad(c, steps[..|steps| - 1]);
      match step
      case Arrive(outcome) => ArriveKeeps(c, s, outcome);
      case Pass(_) =>
      case Consume =>
      case StartRound => RoundKeeps(c, s);
    }
  }

  /** Early rounds are spaced: one that a wake-up causes begins at least a second after the one before. */
  lemma EarlyRoundsSpaced(c: Caps, steps: seq<Step>)
    requires steps != [] && Paced(c, steps) && steps[|steps| - 1].StartRound?
    requires Run(c, steps[..|steps| - 1]).phase == Sleeping
    ensures Run(c, steps).started - Run(c, steps[..|steps| - 1]).started >= 1000
    ensures Run(c, steps).started == Elapsed(steps)
  {
    ClockRuns(c, steps);
  }

  /** The milliseconds that pass in a run. */
  ghost function Elapsed(steps: seq<Step>): nat {
    if steps == [] then 0
    else Elapsed(steps[..|steps| - 1]) + (if steps[|steps| - 1].Pass? then steps[|steps| - 1].ms else 0)
  }

  lemma {:induction false} ClockRuns(c: Caps, steps: seq<Step>)
    ensures Run(c, steps).now == Elapsed(steps)
  {
    if steps != [] { ClockRuns(c, steps[..|steps| - 1]); }
  }

  function Arrivals(xs: seq<Outcome>): seq<Step> { seq(|xs|, i requires 0 <= i < |xs| => Arrive(xs[i])) }

  /** The calls with these outcomes, in order of arrival. */
  function Calls(xs: seq<Outcome>): seq<Sample> { seq(|xs|, i requires 0 <= i < |xs| => Sample(i, xs[i])) }

  lemma {:induction false} BurstState(c: Caps, xs: seq<Outcome>)
    ensures var s, k := Run(c, Arrivals(xs)), BillableLoss.RecordAll(c, [], Calls(xs));
            s.ring.samples == k.samples && s.drops == |k.dropped| && s.arrived == |xs|
  {
    if xs == [] {
      NothingFlushed(c, EMPTY, 0, BatchesPerTick(c), BatchesPerTick(c));
    } else {
      var n := |xs| - 1;
      BurstState(c, xs[..n]);
      assert Arrivals(xs)[..n] == Arrivals(xs[..n]) && Arrivals(xs)[n] == Arrive(xs[n]);
      assert Calls(xs)[..n] == Calls(xs[..n]) && Calls(xs)[n] == Sample(n, xs[n]);
    }
  }

  /** The first bound is exact: a burst into an empty buffer loses nothing exactly when it is at most `cap` long. */
  lemma BurstDropsIff(c: Caps, xs: seq<Outcome>)
    requires c.cap >= 1
    ensures Run(c, Arrivals(xs)).drops == 0 <==> |xs| <= c.cap
  {
    BurstState(c, xs);
    BillableLoss.ExactLength(c, [], Calls(xs));
  }
}
