/** A task left alone: the sequential flushes are runs of the step system, so its laws are theirs. */
module Alone {
  import opened Words
  import opened MetricsRing
  import opened Lane
  import Flush
  import Shutdown
  import Ledger

  ghost predicate OnlyTask(steps: seq<Step>, i: nat) {
    forall j :: 0 <= j < |steps| ==> steps[j].On? && steps[j].task == i
  }

  /** No send is refused and no task is dropped. */
  ghost predicate Unbroken(steps: seq<Step>) {
    forall j :: 0 <= j < |steps| ==> !(steps[j].On? && Ledger.Breaks(steps[j].act))
  }

  /** What task `i` has made of `s` once it stands at `pc`. */
  ghost predicate Outcome(s: State, n: State, i: nat, pc: Pc, ring: Ring, sent: seq<Batch>, lost: seq<Batch>)
    requires i < |s.tasks|
  {
    && n.tasks == s.tasks[i := s.tasks[i].(pc := pc)] && n.ring == ring
    && n.queued == s.queued + sent && n.lost == s.lost + lost
    && n.recorded == s.recorded && n.permit == s.permit && n.dropped == s.dropped
  }

  lemma OutcomeThen(
    s: State, m: State, n: State, i: nat, a: seq<Batch>, pc: Pc, ring: Ring, b: seq<Batch>, lost: seq<Batch>)
    requires i < |s.tasks| && |m.tasks| == |s.tasks|
    requires Outcome(s, m, i, m.tasks[i].pc, m.ring, a, [])
    requires Outcome(m, n, i, pc, ring, b, lost)
    ensures Outcome(s, n, i, pc, ring, a + b, lost)
  {
    Assoc(s.queued, a, b);
    assert s.lost + [] == s.lost;
  }

  /** Drain, then send what was drained. */
  function Turn(b: Batch, i: nat, now: int, accepts: nat): seq<Step> {
    if Empty(b) then [On(i, Drain(now))]
    else [On(i, Drain(now)), On(i, if accepts > 0 then Accept else Refuse)]
  }

  lemma TurnRun(c: Caps, s: State, i: nat, now: int, accepts: nat)
    requires i < |s.tasks| && (s.tasks[i].pc.Draining? || s.tasks[i].pc.Flushing?)
    ensures var b, d := Drained(c, s.ring, now), DrainOne(c, s, i, now);
            RunFrom(c, s, Turn(b, i, now, accepts))
            == if Empty(b) then d else TaskNext(c, d, i, if accepts > 0 then Accept else Refuse)
  {
    var b, d := Drained(c, s.ring, now), DrainOne(c, s, i, now);
    var steps := Turn(b, i, now, accepts);
    assert Next(c, s, steps[0]) == d;
    if Empty(b) {
      assert steps[1..] == [];
    } else {
      assert steps[1..] == [steps[1]] && [steps[1]][1..] == [];
      assert RunFrom(c, d, [steps[1]]) == RunFrom(c, Next(c, d, steps[1]), []);
    }
  }

  /** A turn of a round that is not refused. */
  lemma LoopTurn(c: Caps, s: State, i: nat, now: int)
    requires i < |s.tasks| && s.tasks[i].pc.Draining?
    ensures var b, pc := Drained(c, s.ring, now), s.tasks[i].pc;
            Outcome(s, RunFrom(c, s, Turn(b, i, now, 1)), i, AfterBatch(c, pc.done, |b.samples|),
                    AfterDrain(c, s.ring), Flush.Shipped(b), [])
  {
    TurnRun(c, s, i, now, 1);
    assert s.queued + [] == s.queued && s.lost + [] == s.lost;
  }

  /** The batch in hand when a round stands refused. */
  ghost predicate Refused(pc: Pc, e: Flush.RoundEnd) {
    if e.refused == [] then pc == Waiting else pc.Sending? && e.refused == [pc.batch]
  }

  ghost predicate RoundOutcome(s: State, n: State, i: nat, e: Flush.RoundEnd)
    requires i < |s.tasks|
  {
    |n.tasks| == |s.tasks| && Refused(n.tasks[i].pc, e) && Outcome(s, n, i, n.tasks[i].pc, e.ring, e.sent, [])
  }

  lemma RefusedTurn(c: Caps, s: State, i: nat, now: int) returns (steps: seq<Step>, n: State)
    requires i < |s.tasks| && s.tasks[i].pc.Draining? && !Empty(Drained(c, s.ring, now))
    ensures OnlyTask(steps, i) && n == RunFrom(c, s, steps)
    ensures RoundOutcome(s, n, i, Flush.RoundEnd(AfterDrain(c, s.ring), [], [Drained(c, s.ring, now)]))
  {
    steps, n := [On(i, Drain(now))], DrainOne(c, s, i, now);
    assert steps[1..] == [];
    assert Next(c, s, steps[0]) == n;
    assert RunFrom(c, s, steps) == RunFrom(c, n, []);
    assert s.queued + [] == s.queued && s.lost + [] == s.lost;
  }

  /** A round up to its end or its refused send. */
  lemma {:induction false} RoundRuns(c: Caps, s: State, i: nat, now: int, left: nat, accepts: nat)
    returns (steps: seq<Step>, n: State)
    requires i < |s.tasks| && s.tasks[i].pc.Draining? && left > 0 && s.tasks[i].pc.done + left == BatchesPerTick(c)
    ensures OnlyTask(steps, i) && n == RunFrom(c, s, steps)
    ensures RoundOutcome(s, n, i, Flush.Round(c, s.ring, now, left, accepts))
    decreases left
  {
    var b := Drained(c, s.ring, now);
    if !Empty(b) && accepts == 0 {
      steps, n := RefusedTurn(c, s, i, now);
    } else if |b.samples| < c.batchCap || left == 1 {
      steps, n := LastTurn(c, s, i, now, left, accepts);
    } else {
      var turn, more, m := [], [], s;
      turn, m := LoopTurnOn(c, s, i, now, left);
      more, n := RoundRuns(c, m, i, now, left - 1, accepts - |Flush.Shipped(b)|);
      RoundGoesOn(c, s, m, n, i, now, left, accepts);
      steps := ThenRun(c, s, m, n, i, turn, more);
    }
  }

  lemma LoopTurnOn(c: Caps, s: State, i: nat, now: int, left: nat) returns (steps: seq<Step>, m: State)
    requires i < |s.tasks| && s.tasks[i].pc.Draining? && left > 1 && s.tasks[i].pc.done + left == BatchesPerTick(c)
    requires |Drained(c, s.ring, now).samples| >= c.batchCap
    ensures OnlyTask(steps, i) && m == RunFrom(c, s, steps)
    ensures |m.tasks| == |s.tasks| && m.tasks[i].pc == Draining(s.tasks[i].pc.done + 1)
    ensures m.ring == AfterDrain(c, s.ring)
    ensures Outcome(s, m, i, m.tasks[i].pc, m.ring, Flush.Shipped(Drained(c, s.ring, now)), [])
  {
    LoopTurn(c, s, i, now);
    steps := Turn(Drained(c, s.ring, now), i, now, 1);
    m := RunFrom(c, s, steps);
  }

  lemma LastTurn(c: Caps, s: State, i: nat, now: int, left: nat, accepts: nat) returns (steps: seq<Step>, n: State)
    requires i < |s.tasks| && s.tasks[i].pc.Draining? && left > 0 && s.tasks[i].pc.done + left == BatchesPerTick(c)
    requires Empty(Drained(c, s.ring, now)) || accepts > 0
    requires |Drained(c, s.ring, now).samples| < c.batchCap || left == 1
    ensures OnlyTask(steps, i) && n == RunFrom(c, s, steps)
    ensures RoundOutcome(s, n, i, Flush.Round(c, s.ring, now, left, accepts))
  {
    steps := Turn(Drained(c, s.ring, now), i, now, 1);
    n := RunFrom(c, s, steps);
    var rest, sent := AfterDrain(c, s.ring), Flush.Shipped(Drained(c, s.ring, now));
    LoopTurn(c, s, i, now);
    assert sent + [] == sent;
    if left == 1 {
      assert Flush.Round(c, rest, now, 0, accepts - |sent|) == Flush.RoundEnd(rest, [], []);
    }
  }

  lemma RoundGoesOn(c: Caps, s: State, m: State, n: State, i: nat, now: int, left: nat, accepts: nat)
    requires i < |s.tasks| && |m.tasks| == |s.tasks| && m.ring == AfterDrain(c, s.ring)
    requires left > 0 && (Empty(Drained(c, s.ring, now)) || accepts > 0)
    requires |Drained(c, s.ring, now).samples| >= c.batchCap
    requires Outcome(s, m, i, m.tasks[i].pc, m.ring, Flush.Shipped(Drained(c, s.ring, now)), [])
    requires var sent := Flush.Shipped(Drained(c, s.ring, now));
             RoundOutcome(m, n, i, Flush.Round(c, m.ring, now, left - 1, accepts - |sent|))
    ensures RoundOutcome(s, n, i, Flush.Round(c, s.ring, now, left, accepts))
  {
    var sent := Flush.Shipped(Drained(c, s.ring, now));
    RoundUnfolds(c, s.ring, now, left, accepts);
    RoundJoins(s, m, n, i, sent, Flush.Round(c, m.ring, now, left - 1, accepts - |sent|));
  }

  lemma RoundUnfolds(c: Caps, r: Ring, now: int, left: nat, accepts: nat)
    requires left > 0 && (Empty(Drained(c, r, now)) || accepts > 0) && |Drained(c, r, now).samples| >= c.batchCap
    ensures var sent := Flush.Shipped(Drained(c, r, now));
            var more := Flush.Round(c, AfterDrain(c, r), now, left - 1, accepts - |sent|);
            Flush.Round(c, r, now, left, accepts) == more.(sent := sent + more.sent)
  {
  }

  lemma ThenRun(c: Caps, s: State, m: State, n: State, i: nat, a: seq<Step>, b: seq<Step>) returns (steps: seq<Step>)
    requires m == RunFrom(c, s, a) && n == RunFrom(c, m, b) && OnlyTask(a, i) && OnlyTask(b, i)
    ensures n == RunFrom(c, s, steps) && OnlyTask(steps, i)
  {
    RunFromConcat(c, s, a, b);
    steps := a + b;
  }

  lemma RoundJoins(s: State, m: State, n: State, i: nat, sent: seq<Batch>, e: Flush.RoundEnd)
    requires i < |s.tasks| && |m.tasks| == |s.tasks|
    requires Outcome(s, m, i, m.tasks[i].pc, m.ring, sent, []) && RoundOutcome(m, n, i, e)
    ensures RoundOutcome(s, n, i, e.(sent := sent + e.sent))
  {
    OutcomeThen(s, m, n, i, sent, n.tasks[i].pc, e.ring, e.sent, []);
  }

  /**
   * What `FlushRound` computes on the buffer and the queue is a run of the flush loop's own steps:
   * a round that nobody interferes with, ended by its guard if it was refused.
   */
  lemma RoundIsRun(c: Caps, s: State, i: nat, now: int, accepts: nat) returns (steps: seq<Step>)
    requires i < |s.tasks| && s.tasks[i].pc == Draining(0)
    ensures OnlyTask(steps, i)
    ensures var e, n := Flush.Round(c, s.ring, now, BatchesPerTick(c), accepts), RunFrom(c, s, steps);
            && Outcome(s, n.(dropped := s.dropped), i, if e.refused == [] then Waiting else Done,
                       Flush.Settled(c, e), e.sent, [])
            && n.dropped == s.dropped + Flush.Overflown(c, e)
  {
    var e, n := Flush.Round(c, s.ring, now, BatchesPerTick(c), accepts), s;
    steps, n := RoundRuns(c, s, i, now, BatchesPerTick(c), accepts);
    if e.refused == [] {
      assert s.dropped + [] == s.dropped;
    } else {
      GuardDrops(c, s, n, i, e);
      RunFromConcat(c, s, steps, [On(i, Refuse)]);
      steps := steps + [On(i, Refuse)];
    }
  }

  lemma GuardDrops(c: Caps, s: State, n: State, i: nat, e: Flush.RoundEnd)
    requires i < |s.tasks| && RoundOutcome(s, n, i, e) && e.refused != []
    ensures var m := RunFrom(c, n, [On(i, Refuse)]);
            && Outcome(s, m.(dropped := s.dropped), i, Done, Flush.Settled(c, e), e.sent, [])
            && m.dropped == s.dropped + Flush.Overflown(c, e)
  {
    var steps := [On(i, Refuse)];
    assert steps[1..] == [];
    assert RunFrom(c, n, steps) == RunFrom(c, GiveBack(c, n, i), []);
  }

  /** One turn of a shutdown flush. */
  lemma FlushTurn(c: Caps, s: State, i: nat, now: int, accepts: nat)
    requires i < |s.tasks| && s.tasks[i].pc.Flushing?
    ensures var b, rest := Drained(c, s.ring, now), AfterDrain(c, s.ring);
            var n, done := RunFrom(c, s, Turn(b, i, now, accepts)), s.tasks[i].pc.done;
            if Empty(b) then Outcome(s, n, i, Done, rest, [], [])
            else if accepts > 0 then Outcome(s, n, i, AfterFlushBatch(done), rest, [b], [])
            else Outcome(s, n, i, Done, rest, [], [b])
  {
    TurnRun(c, s, i, now, accepts);
    assert s.queued + [] == s.queued && s.lost + [] == s.lost;
  }

  /** The metrics half of `FlushRemaining` is a run of the flush's own steps. */
  lemma {:induction false} FlushIsRun(c: Caps, s: State, i: nat, now: int, left: nat, accepts: nat)
    returns (steps: seq<Step>)
    requires i < |s.tasks| && s.tasks[i].pc.Flushing?
    requires left > 0 && s.tasks[i].pc.done + left == MAX_SHUTDOWN_FLUSH_BATCHES
    ensures OnlyTask(steps, i) && (accepts >= left ==> Unbroken(steps))
    ensures var e := Shutdown.FlushMetrics(c, s.ring, now, left, accepts);
            Outcome(s, RunFrom(c, s, steps), i, Done, e.ring, e.sent, e.lost)
    decreases left
  {
    var b, rest := Drained(c, s.ring, now), AfterDrain(c, s.ring);
    steps := Turn(b, i, now, accepts);
    FlushTurn(c, s, i, now, accepts);
    if !Empty(b) && accepts > 0 {
      var m := RunFrom(c, s, steps);
      var e := Shutdown.FlushMetrics(c, rest, now, left - 1, accepts - 1);
      if left == 1 {
        assert [b] + [] == [b];
      } else {
        var more := FlushIsRun(c, m, i, now, left - 1, accepts - 1);
        RunFromConcat(c, s, steps, more);
        OutcomeThen(s, m, RunFrom(c, m, more), i, [b], Done, e.ring, e.sent, e.lost);
        steps := steps + more;
      }
    }
  }
}
