/** What the un-awaited `abort()` allows: runs in which a cancellation lands late. */
module Overlap {
  import opened Samples
  import opened MetricsRing
  import opened Lane
  import Rollup
  import Order

  function Holding(samples: seq<Sample>, seqNo: nat): Ring { Ring(samples, 0, 0, seqNo, Rollup.EMPTY) }

  function Report(samples: seq<Sample>, seqNo: nat): Batch { Batch(samples, 0, 0, seqNo, Rollup.Rows(0, 0, map[])) }

  /** A state of one or two recorded calls and nothing lost or dropped. */
  function Scene(
    samples: seq<Sample>, seqNo: nat, permit: bool, tasks: seq<Task>, recorded: seq<Sample>, queued: seq<Batch>): State
  {
    State(Holding(samples, seqNo), permit, tasks, recorded, queued, [], [])
  }

  ghost predicate Unrefused(steps: seq<Step>) {
    forall j :: 0 <= j < |steps| ==> !(steps[j].On? && steps[j].act.Refuse?)
  }

  /** One more step of an unrefused run. */
  lemma Then(c: Caps, pre: seq<Step>, s: State, step: Step, n: State) returns (steps: seq<Step>)
    requires Run(c, pre) == s && n == Next(c, s, step)
    requires Unrefused(pre) && !(step.On? && step.act.Refuse?)
    ensures Run(c, steps) == n && Unrefused(steps)
  {
    RunSnoc(c, pre, step);
    steps := pre + [step];
  }

  // ---- Single steps ------------------------------------------------------------------------------

  function Call(k: nat): Sample { Sample(k, Ok) }

  lemma Recorded(
    c: Caps, samples: seq<Sample>, seqNo: nat, tasks: seq<Task>, recorded: seq<Sample>, queued: seq<Batch>,
    permit: bool)
    requires |samples| < c.cap
    ensures Next(c, Scene(samples, seqNo, permit, tasks, recorded, queued), RecordSample(Ok))
         == Scene(samples + [Call(|recorded|)], seqNo, permit || Wakes(c, |samples|), tasks,
                  recorded + [Call(|recorded|)], queued)
  {
    NoDrops(Holding(samples, seqNo));
  }

  lemma CallDrained(c: Caps, k: nat, seqNo: nat)
    requires c.batchCap >= 1
    ensures Drained(c, Holding([Call(k)], seqNo), 0) == Report([Call(k)], seqNo + 1)
    ensures AfterDrain(c, Holding([Call(k)], seqNo)) == Holding([], seqNo + 1)
  {
    assert [Call(k)][..1] == [Call(k)] && [Call(k)][1..] == [];
  }

  lemma NothingDrained(c: Caps, seqNo: nat)
    ensures Drained(c, Holding([], seqNo), 0) == Report([], seqNo + 1)
    ensures AfterDrain(c, Holding([], seqNo)) == Holding([], seqNo + 1)
  {
  }

  /** A loop or a flush drains the one call there is. */
  lemma DrainsCall(c: Caps, s: State, i: nat, k: nat, seqNo: nat)
    requires c.batchCap >= 1 && i < |s.tasks| && (s.tasks[i].pc.Draining? || s.tasks[i].pc.Flushing?)
    requires s.ring == Holding([Call(k)], seqNo)
    ensures var b, t := Report([Call(k)], seqNo + 1), s.tasks[i];
            var pc := if t.pc.Draining? then Sending(t.pc.done, b) else FlushSending(t.pc.done, b);
            Next(c, s, On(i, Drain(0))) == SetTask(s, i, t.(pc := pc)).(ring := Holding([], seqNo + 1))
  {
    CallDrained(c, k, seqNo);
  }

  /** A loop or a flush finds nothing to drain. */
  lemma DrainsNothing(c: Caps, s: State, i: nat, seqNo: nat)
    requires c.batchCap >= 1 && i < |s.tasks| && (s.tasks[i].pc.Draining? || s.tasks[i].pc.Flushing?)
    requires s.ring == Holding([], seqNo)
    ensures var t := s.tasks[i];
            Next(c, s, On(i, Drain(0)))
            == SetTask(s, i, t.(pc := if t.pc.Draining? then Waiting else Done)).(ring := Holding([], seqNo + 1))
  {
    NothingDrained(c, seqNo);
    var t := s.tasks[i];
    assert Empty(Drained(c, s.ring, 0));
    assert t.pc.Draining? ==> AfterBatch(c, t.pc.done, 0) == Waiting;
    assert Next(c, s, On(i, Drain(0))) == DrainOne(c, s, i, 0);
  }

  /** An abort lands on a task that holds a call, and the ring has room for it. */
  lemma Cancelled(c: Caps, s: State, i: nat, k: nat, seqNo: nat)
    requires c.cap >= 1 && s.ring == Holding([], seqNo) && s.dropped == []
    requires i < |s.tasks| && s.tasks[i].aborting && s.tasks[i].pc == Sending(0, Report([Call(k)], 1))
    ensures Next(c, s, On(i, Cancel))
         == s.(ring := Holding([Call(k)], seqNo), tasks := s.tasks[i := s.tasks[i].(pc := Done)])
  {
    NoDrops(s.ring);
    assert PutBack(c, [], [Call(k)]) == Kept([Call(k)], []);
  }

  /** A call is recorded, and a loop begins its round. */
  lemma RoundBegun(c: Caps) returns (steps: seq<Step>)
    requires c.cap >= 1
    ensures Unrefused(steps)
    ensures Run(c, steps) == Scene([Call(0)], 0, Wakes(c, 0), [Task(Draining(0), false, 1)], [Call(0)], [])
  {
    steps := [];
    Recorded(c, [], 0, [], [], [], false);
    var s1 := Scene([Call(0)], 0, Wakes(c, 0), [], [Call(0)], []);
    steps := Then(c, steps, INIT, RecordSample(Ok), s1);
    var s2 := s1.(tasks := [Task(Starting, false, 0)]);
    steps := Then(c, steps, s1, SpawnLoop, s2);
    steps := Then(c, steps, s2, On(0, Tick), s1.(tasks := [Task(Draining(0), false, 1)]));
  }

  /** It drains the call and awaits its send, and its session ends. */
  lemma CaughtSending(c: Caps) returns (steps: seq<Step>)
    requires c.cap >= 1 && c.batchCap >= 1
    ensures Unrefused(steps)
    ensures Run(c, steps) == Scene([], 1, Wakes(c, 0), [Task(Sending(0, Report([Call(0)], 1)), true, 1)], [Call(0)], [])
  {
    var sending := Sending(0, Report([Call(0)], 1));
    steps := RoundBegun(c);
    var s3 := Run(c, steps);
    DrainsCall(c, s3, 0, 0, 0);
    var s4 := Scene([], 1, Wakes(c, 0), [Task(sending, false, 1)], [Call(0)], []);
    steps := Then(c, steps, s3, On(0, Drain(0)), s4);
    steps := Then(c, steps, s4, On(0, Abort), s4.(tasks := [Task(sending, true, 1)]));
  }

  // ---- A flush that finishes first ---------------------------------------------------------------

  /** One more call is recorded, and the shutdown flush starts. */
  lemma FlushBegun(c: Caps) returns (steps: seq<Step>)
    requires c.cap >= 1 && c.batchCap >= 1
    ensures Unrefused(steps)
    ensures Run(c, steps)
         == Scene([Call(1)], 1, Wakes(c, 0),
                  [Task(Sending(0, Report([Call(0)], 1)), true, 1), Task(Flushing(0), false, 0)],
                  [Call(0), Call(1)], [])
  {
    steps := CaughtSending(c);
    var s := Run(c, steps);
    Recorded(c, [], 1, s.tasks, [Call(0)], [], s.permit);
    var s1 := Scene([Call(1)], 1, s.permit, s.tasks, [Call(0), Call(1)], []);
    steps := Then(c, steps, s, RecordSample(Ok), s1);
    steps := Then(c, steps, s1, SpawnFlush, s1.(tasks := [s.tasks[0], Task(Flushing(0), false, 0)]));
  }

  /** It ships that call and finishes. */
  lemma FlushFinishes(c: Caps) returns (steps: seq<Step>)
    requires c.cap >= 1 && c.batchCap >= 1
    ensures Unrefused(steps)
    ensures Run(c, steps)
         == Scene([], 3, Wakes(c, 0), [Task(Sending(0, Report([Call(0)], 1)), true, 1), Task(Done, false, 0)],
                  [Call(0), Call(1)], [Report([Call(1)], 2)])
  {
    steps := FlushBegun(c);
    var s2 := Run(c, steps);
    var t, both, permit := s2.tasks[0], s2.recorded, s2.permit;
    DrainsCall(c, s2, 1, 1, 1);
    var s3 := Scene([], 2, permit, [t, Task(FlushSending(0, Report([Call(1)], 2)), false, 0)], both, []);
    steps := Then(c, steps, s2, On(1, Drain(0)), s3);
    var s4 := Scene([], 2, permit, [t, Task(Flushing(1), false, 0)], both, [Report([Call(1)], 2)]);
    steps := Then(c, steps, s3, On(1, Accept), s4);
    DrainsNothing(c, s4, 1, 2);
    steps := Then(c, steps, s4, On(1, Drain(0)), Scene([], 3, permit, [t, Task(Done, false, 0)], both, s4.queued));
  }

  /**
   * For every buffer: with no send refused, the shutdown flush can finish and yet leave a billable
   * call in the ring, after a later one has been shipped. The cancellation lands only afterwards.
   */
  lemma LateCancelOutlivesFlush(c: Caps) returns (steps: seq<Step>)
    requires c.cap >= 1 && c.batchCap >= 1
    ensures Unrefused(steps)
    ensures var s := Run(c, steps);
            && |s.tasks| == 2 && s.tasks[1].pc.Done? && s.lost == []
            && s.ring.samples == [Call(0)] && Cargo(s.queued) == [Call(1)] && Billable(Call(0).outcome)
            && !Order.Timeline(Order.Line(s), s.recorded)
  {
    steps := FlushFinishes(c);
    var s := Run(c, steps);
    Cancelled(c, s, 0, 0, 3);
    var n := Scene([Call(0)], 3, s.permit, [Task(Done, true, 1), Task(Done, false, 0)], s.recorded, s.queued);
    steps := Then(c, steps, s, On(0, Cancel), n);
    OneBatch(Report([Call(1)], 2), true);
    OutOfOrder(n);
  }

  lemma OutOfOrder(s: State)
    requires forall t :: t in s.tasks ==> Hand(t) == []
    requires Cargo(s.queued) == [Call(1)] && s.ring.samples == [Call(0)]
    ensures !Order.Timeline(Order.Line(s), s.recorded)
  {
    Order.EmptyHands(s.tasks);
    assert Order.Line(s) == [Call(1), Call(0)];
    assert Order.Line(s)[0].call > Order.Line(s)[1].call;
  }

  // ---- Two loops on one permit -------------------------------------------------------------------

  /** The next session's loop starts while the first still holds its batch. */
  lemma SecondRound(c: Caps) returns (steps: seq<Step>)
    requires c.cap >= 1 && c.batchCap >= 1
    ensures Unrefused(steps)
    ensures Run(c, steps)
         == Scene([], 1, Wakes(c, 0),
                  [Task(Sending(0, Report([Call(0)], 1)), true, 1), Task(Draining(0), false, 1)], [Call(0)], [])
  {
    steps := CaughtSending(c);
    var s := Run(c, steps);
    var s1 := s.(tasks := [s.tasks[0], Task(Starting, false, 0)]);
    steps := Then(c, steps, s, SpawnLoop, s1);
    steps := Then(c, steps, s1, On(1, Tick), s.(tasks := [s.tasks[0], Task(Draining(0), false, 1)]));
  }

  /** Its round finds nothing. */
  lemma IdleRound(c: Caps, pre: seq<Step>, s: State, seqNo: nat) returns (steps: seq<Step>)
    requires c.batchCap >= 1 && Unrefused(pre) && Run(c, pre) == s && s.ring == Holding([], seqNo)
    requires |s.tasks| == 2 && s.tasks[1] == Task(Draining(0), false, 1)
    ensures Unrefused(steps)
    ensures Run(c, steps) == s.(ring := Holding([], seqNo + 1), tasks := [s.tasks[0], Task(Waiting, false, 1)])
  {
    DrainsNothing(c, s, 1, seqNo);
    var n := s.(ring := Holding([], seqNo + 1), tasks := [s.tasks[0], Task(Waiting, false, 1)]);
    assert n.tasks == s.tasks[1 := Task(Waiting, false, 1)];
    steps := Then(c, pre, s, On(1, Drain(0)), n);
  }

  /** A stored permit is spent on an empty ring. */
  lemma PermitSpent(c: Caps, pre: seq<Step>, s: State, seqNo: nat) returns (steps: seq<Step>)
    requires c.batchCap >= 1 && Unrefused(pre) && Run(c, pre) == s && s.ring == Holding([], seqNo) && s.permit
    requires |s.tasks| == 2 && s.tasks[1] == Task(Waiting, false, 1) && |s.recorded| == 1
    ensures Unrefused(steps)
    ensures Run(c, steps) == s.(ring := Holding([], seqNo + 1), permit := false)
  {
    var t := s.tasks[0];
    var s4 := s.(permit := false, tasks := [t, Task(Spacing, false, 1)]);
    steps := Then(c, pre, s, On(1, Wake), s4);
    var s5 := s4.(tasks := [t, Task(Draining(0), false, 1)]);
    steps := Then(c, steps, s4, On(1, SpacingOver), s5);
    steps := IdleRound(c, steps, s5, seqNo);
    assert s.tasks == [t, Task(Waiting, false, 1)];
  }

  /** The second loop waits, no permit is stored, and the first still holds its call. */
  ghost predicate Poised(s: State) {
    && |s.tasks| == 2 && s.tasks[1].pc.Waiting? && !s.permit && s.dropped == []
    && s.tasks[0].aborting && s.tasks[0].pc.Sending? && |s.tasks[0].pc.batch.samples| == 1
  }

  lemma SecondLoopWaits(c: Caps) returns (steps: seq<Step>)
    requires c.cap >= 1 && c.batchCap >= 1
    ensures Unrefused(steps) && Poised(Run(c, steps)) && Run(c, steps).ring.samples == []
  {
    steps := SecondRound(c);
    steps := IdleRound(c, steps, Run(c, steps), 1);
    if Wakes(c, 0) { steps := PermitSpent(c, steps, Run(c, steps), 2); }
  }

  /** Calls below the early mark store no permit. */
  lemma {:induction false} Filled(c: Caps, pre: seq<Step>, k: nat) returns (steps: seq<Step>)
    requires Unrefused(pre) && Poised(Run(c, pre)) && Run(c, pre).ring.samples == []
    requires k < EarlyMark(c) && k <= c.cap
    ensures Unrefused(steps) && Poised(Run(c, steps)) && |Run(c, steps).ring.samples| == k
  {
    if k == 0 {
      steps := pre;
    } else {
      steps := Filled(c, pre, k - 1);
      var s := Run(c, steps);
      OneMoreCall(c, s);
      steps := Then(c, steps, s, RecordSample(Ok), Next(c, s, RecordSample(Ok)));
    }
  }

  lemma OneMoreCall(c: Caps, s: State)
    requires Poised(s) && |s.ring.samples| < c.cap && |s.ring.samples| + 1 < EarlyMark(c)
    ensures var n := Next(c, s, RecordSample(Ok)); Poised(n) && |n.ring.samples| == |s.ring.samples| + 1
  {
  }

  lemma CallReturns(c: Caps, s: State)
    requires Poised(s) && |s.ring.samples| < c.cap
    ensures var n := Next(c, s, On(0, Cancel));
            |n.tasks| == 2 && n.tasks[1] == s.tasks[1] && !n.permit && |n.ring.samples| == |s.ring.samples| + 1
  {
  }

  /**
   * For every buffer: when loops overlap a wake-up can be lost. A loop waits, the ring is at its
   * early mark, and no permit is stored, because a returned batch stores none.
   */
  lemma OverlapLosesWakeup(c: Caps) returns (steps: seq<Step>)
    requires c.cap >= 1 && c.batchCap >= 1
    ensures Unrefused(steps)
    ensures var s := Run(c, steps);
            |s.tasks| == 2 && s.tasks[1].pc.Waiting? && |s.ring.samples| == EarlyMark(c) && !s.permit
  {
    steps := SecondLoopWaits(c);
    steps := Filled(c, steps, EarlyMark(c) - 1);
    var s := Run(c, steps);
    CallReturns(c, s);
    steps := Then(c, steps, s, On(0, Cancel), Next(c, s, On(0, Cancel)));
  }
}
