/** Timed runs are runs of the lane, so the timed bound is one about the lane. */
module PacedLane {
  import opened MetricsRing
  import opened Lane
  import Alone
  import Flush
  import P = Pacing

  /** One loop, in step with the timed run. */
  ghost predicate Mirrors(p: P.State, s: State) {
    && s.ring == p.ring && s.permit == p.permit && |s.recorded| == p.arrived && |s.dropped| == p.drops
    && |s.tasks| == 1 && s.tasks[0].pc == (if p.phase == P.Waiting then Waiting else Spacing) && s.lost == []
  }

  lemma {:induction false} NoneRefused(c: Caps, r: Ring, now: int, left: nat, accepts: nat)
    requires accepts >= left
    ensures Flush.Round(c, r, now, left, accepts).refused == []
    decreases left
  {
    if left > 0 {
      NoneRefused(c, AfterDrain(c, r), now, left - 1, accepts - |Flush.Shipped(Drained(c, r, now))|);
    }
  }

  /** A round that a tick or the end of the spacing begins, left alone. */
  lemma RoundRun(c: Caps, pre: seq<Step>, act: Act, now: int) returns (ls: seq<Step>)
    requires |Run(c, pre).tasks| == 1
    requires Next(c, Run(c, pre), On(0, act)) == BeginRound(Run(c, pre), 0)
    ensures var s, n := Run(c, pre), Run(c, ls);
            && n.ring == P.Flushed(c, s.ring, now) && n.permit == s.permit && n.lost == s.lost
            && n.recorded == s.recorded && |n.dropped| == |s.dropped|
            && |n.tasks| == 1 && n.tasks[0].pc == Waiting
  {
    var m := BeginRound(Run(c, pre), 0);
    RunSnoc(c, pre, On(0, act));
    var steps := AcceptedRound(c, m, now);
    RunOn(c, pre + [On(0, act)], steps);
    ls := pre + [On(0, act)] + steps;
  }

  lemma AcceptedRound(c: Caps, m: State, now: int) returns (steps: seq<Step>)
    requires |m.tasks| == 1 && m.tasks[0].pc == Draining(0)
    ensures var n := RunFrom(c, m, steps);
            && n.ring == P.Flushed(c, m.ring, now) && n.permit == m.permit && n.lost == m.lost
            && n.recorded == m.recorded && n.dropped == m.dropped
            && |n.tasks| == 1 && n.tasks[0].pc == Waiting
  {
    var b := BatchesPerTick(c);
    NoneRefused(c, m.ring, now, b, b);
    steps := Alone.RoundIsRun(c, m, 0, now, b);
    assert m.lost + [] == m.lost && m.dropped + [] == m.dropped;
  }

  lemma Starts(c: Caps) returns (ls: seq<Step>)
    ensures Mirrors(P.Init(c), Run(c, ls))
  {
    RunSnoc(c, [], SpawnLoop);
    ls := RoundRun(c, [] + [SpawnLoop], Tick, 0);
  }

  lemma Continues(c: Caps, p: P.State, step: P.Step, pre: seq<Step>) returns (ls: seq<Step>)
    requires Mirrors(p, Run(c, pre)) && P.Allowed(c, p, step)
    ensures Mirrors(P.Next(c, p, step), Run(c, ls))
  {
    match step
    case Arrive(outcome) =>
      RunSnoc(c, pre, RecordSample(outcome));
      ls := pre + [RecordSample(outcome)];
    case Pass(_) =>
      ls := pre;
    case Consume =>
      RunSnoc(c, pre, On(0, Wake));
      ls := pre + [On(0, Wake)];
    case StartRound =>
      ls := RoundRun(c, pre, if p.phase == P.Waiting then Tick else SpacingOver, p.now);
  }

  /** Every timed run of a paced load is a run of the lane, with the same ring and the same drops. */
  lemma {:induction false} PacedIsRun(c: Caps, steps: seq<P.Step>) returns (ls: seq<Step>)
    requires P.Paced(c, steps)
    ensures Mirrors(P.Run(c, steps), Run(c, ls))
  {
    if steps == [] {
      ls := Starts(c);
    } else {
      var pre := steps[..|steps| - 1];
      var before := PacedIsRun(c, pre);
      ls := Continues(c, P.Run(c, pre), steps[|steps| - 1], before);
    }
  }

  /** So the lane drops nothing under a paced load. */
  lemma LaneDropsNothing(c: Caps, steps: seq<P.Step>) returns (ls: seq<Step>)
    requires c.cap >= 1 && c.batchCap >= 1 && P.Paced(c, steps)
    ensures Mirrors(P.Run(c, steps), Run(c, ls)) && Run(c, ls).dropped == []
  {
    ls := PacedIsRun(c, steps);
    P.NoDropUnderPacedLoad(c, steps);
  }
}
