/** Flush rounds under interference: no wake-up is lost, and a round ships everything it found. */
module Rounds {
  import opened Words
  import opened Samples
  import opened MetricsRing
  import opened Lane
  import Ledger
  import Order

  /** A flush loop starts only when no other is alive, an aborted one whose cancellation is pending included. */
  ghost predicate Solo(c: Caps, steps: seq<Step>) {
    steps == [] ||
    (var pre, step := steps[..|steps| - 1], steps[|steps| - 1];
     && Solo(c, pre)
     && (step.SpawnLoop? ==> forall t :: t in Run(c, pre).tasks ==> !LiveLoop(t)))
  }

  /** Only the first `n` waiting samples can be older than the round that began at `since`. */
  ghost predicate OldWithin(q: seq<Sample>, since: nat, n: int) {
    forall i :: 0 <= i < |q| && n <= i ==> q[i].call >= since
  }

  /** Nothing waiting needs a wake-up, or one is stored. */
  ghost predicate Heard(c: Caps, s: State) { s.permit || |s.ring.samples| < EarlyMark(c) }

  /** What `done` full batches take. */
  ghost function Taken(c: Caps, done: nat): nat {
    if done == 0 then 0 else Taken(c, done - 1) + c.batchCap
  }

  lemma {:induction false} TakenIsProduct(c: Caps, done: nat)
    ensures Taken(c, done) == done * c.batchCap
  {
    if done > 0 {
      TakenIsProduct(c, done - 1);
      assert done * c.batchCap == (done - 1) * c.batchCap + c.batchCap;
    }
  }

  lemma {:induction false} TakenGrows(c: Caps, m: nat, n: nat)
    requires m <= n
    ensures Taken(c, m) <= Taken(c, n)
  {
    if m < n {
      TakenGrows(c, m, n - 1);
    }
  }

  /** After `done` drains of a round. */
  ghost predicate Progress(c: Caps, s: State, since: nat, done: nat) {
    && (Heard(c, s) || |s.ring.samples| + Taken(c, done) <= Limit(c))
    && OldWithin(s.ring.samples, since, Limit(c) - Taken(c, done))
  }

  /** After the last drain of a round. */
  ghost predicate Cleared(c: Caps, s: State, since: nat) {
    Heard(c, s) && OldWithin(s.ring.samples, since, 0)
  }

  ghost predicate LoopOk(c: Caps, s: State, t: Task) {
    && t.since <= |s.recorded|
    && match t.pc
       case Draining(done) => done < BatchesPerTick(c) && Progress(c, s, t.since, done)
       case Sending(done, b) =>
         && done < BatchesPerTick(c) && Progress(c, s, t.since, done + 1)
         && (|b.samples| < c.batchCap ==> Cleared(c, s, t.since))
       case Waiting => Cleared(c, s, t.since)
       case Spacing => OldWithin(s.ring.samples, t.since, 0)
       case _ => true
  }

  ghost predicate OneLoop(tasks: seq<Task>) {
    forall i, j :: 0 <= i < |tasks| && 0 <= j < |tasks| && LiveLoop(tasks[i]) && LiveLoop(tasks[j]) ==> i == j
  }

  ghost predicate Inv(c: Caps, s: State) {
    && OneLoop(s.tasks)
    && |s.ring.samples| <= Limit(c)
    && forall i :: 0 <= i < |s.tasks| && LiveLoop(s.tasks[i]) ==> LoopOk(c, s, s.tasks[i])
  }

  /** With no batch size to speak of, a round is one drain per sample of capacity. */
  lemma UnsizedRound(c: Caps)
    requires c.batchCap == 0
    ensures BatchesPerTick(c) == Max(c.cap, 1)
  {
    CeilByOne(c.cap);
  }

  lemma {:induction false} CeilByOne(n: nat)
    ensures DivCeil(n, 1) == n
  {
    if n > 0 { CeilByOne(n - 1); }
  }

  /** A round is the least number of full batches that covers a full ring. */
  lemma RoundCovers(c: Caps)
    requires c.batchCap >= 1
    ensures Taken(c, BatchesPerTick(c)) >= Limit(c) && Taken(c, BatchesPerTick(c) - 1) < Limit(c)
  {
    CeilIsLeast(c, c.cap, DivCeil(c.cap, c.batchCap));
    if c.cap > 0 { CeilIsLeast(c, c.cap, BatchesPerTick(c) - 1); }
    assert Taken(c, 1) == Taken(c, 0) + c.batchCap;
  }

  lemma {:induction false} CeilIsLeast(c: Caps, n: nat, k: nat)
    requires c.batchCap >= 1
    ensures Taken(c, k) >= n <==> k >= DivCeil(n, c.batchCap)
    decreases n
  {
    if k > 0 && n > c.batchCap {
      CeilIsLeast(c, n - c.batchCap, k - 1);
    }
  }

  lemma PushOld(c: Caps, q: seq<Sample>, x: Sample, since: nat, n: int)
    requires OldWithin(q, since, n) && x.call >= since
    ensures OldWithin(Push(c, q, x).samples, since, n) && |Push(c, q, x).samples| <= |q| + 1
  {
    if |q| >= c.cap && Billable(x.outcome) && q != [] {
      var v, k := Victim(q), Push(c, q, x);
      forall i | 0 <= i < |k.samples| && n <= i
        ensures k.samples[i].call >= since
      {
        if i < v {
          assert k.samples[i] == q[i];
        } else if i < |q| - 1 {
          assert k.samples[i] == q[i + 1];
        } else {
          assert k.samples[i] == x;
        }
      }
    }
  }

  lemma TailOld(q: seq<Sample>, since: nat, n: int, k: nat)
    requires OldWithin(q, since, n) && k <= |q|
    ensures OldWithin(q[k..], since, n) && OldWithin(q[k..], since, n - k)
  {
  }

  /** Whatever the loop is doing, a producer recording keeps its invariant. */
  lemma RecordOk(c: Caps, s: State, outcome: Outcome, t: Task)
    requires LoopOk(c, s, t)
    ensures LoopOk(c, RecordNext(c, s, outcome), t)
  {
    var x, n := Sample(|s.recorded|, outcome), RecordNext(c, s, outcome);
    PushOld(c, s.ring.samples, x, t.since, |s.ring.samples|);
    assert Heard(c, n);
    match t.pc
    case Draining(done) => PushOld(c, s.ring.samples, x, t.since, Limit(c) - Taken(c, done));
    case Sending(done, b) =>
      PushOld(c, s.ring.samples, x, t.since, Limit(c) - Taken(c, done + 1));
      if |b.samples| < c.batchCap { PushOld(c, s.ring.samples, x, t.since, 0); }
    case Waiting => PushOld(c, s.ring.samples, x, t.since, 0);
    case Spacing => PushOld(c, s.ring.samples, x, t.since, 0);
    case _ =>
  }

  /** Another task taking samples from the front keeps the loop's invariant. */
  lemma ShrunkOk(c: Caps, s: State, n: State, t: Task, k: nat)
    requires LoopOk(c, s, t) && k <= |s.ring.samples|
    requires n.ring.samples == s.ring.samples[k..] && n.permit == s.permit && n.recorded == s.recorded
    ensures LoopOk(c, n, t)
  {
    match t.pc
    case Draining(done) => TailOld(s.ring.samples, t.since, Limit(c) - Taken(c, done), k);
    case Sending(done, b) =>
      TailOld(s.ring.samples, t.since, Limit(c) - Taken(c, done + 1), k);
      if |b.samples| < c.batchCap { TailOld(s.ring.samples, t.since, 0, k); }
    case Waiting => TailOld(s.ring.samples, t.since, 0, k);
    case Spacing => TailOld(s.ring.samples, t.since, 0, k);
    case _ =>
  }

  /** A drain either takes a full batch or empties the ring. */
  lemma DrainProgress(c: Caps, s: State, n: State, since: nat, done: nat)
    requires Progress(c, s, since, done)
    requires n.ring == AfterDrain(c, s.ring) && n.permit == s.permit && n.recorded == s.recorded
    ensures Progress(c, n, since, done + 1)
    ensures |s.ring.samples| < c.batchCap ==> Cleared(c, n, since)
  {
    if |s.ring.samples| < c.batchCap {
      assert n.ring.samples == [];
    } else {
      TailOld(s.ring.samples, since, Limit(c) - Taken(c, done), c.batchCap);
    }
  }

  /** The last batch of a round leaves nothing old and nothing unheard. */
  lemma LastBatch(c: Caps, s: State, since: nat, done: nat)
    requires c.batchCap >= 1 && done + 1 >= BatchesPerTick(c)
    requires Progress(c, s, since, done + 1)
    ensures Cleared(c, s, since)
  {
    RoundCovers(c);
    TakenGrows(c, BatchesPerTick(c), done + 1);
  }

  lemma AfterBatchOk(c: Caps, s: State, t: Task, done: nat, count: nat)
    requires c.batchCap >= 1 && t.since <= |s.recorded| && done < BatchesPerTick(c)
    requires Progress(c, s, t.since, done + 1) && (count < c.batchCap ==> Cleared(c, s, t.since))
    ensures LoopOk(c, s, t.(pc := AfterBatch(c, done, count)))
  {
    if count >= c.batchCap && done + 1 >= BatchesPerTick(c) {
      LastBatch(c, s, t.since, done);
    }
  }

  lemma LoopDrainOk(c: Caps, s: State, i: nat, now: int)
    requires c.batchCap >= 1 && i < |s.tasks| && s.tasks[i].pc.Draining? && LoopOk(c, s, s.tasks[i])
    ensures var n := DrainOne(c, s, i, now); LoopOk(c, n, n.tasks[i])
  {
    var t, n, b := s.tasks[i], DrainOne(c, s, i, now), Drained(c, s.ring, now);
    DrainProgress(c, s, n, t.since, t.pc.done);
    if Empty(b) {
      AfterBatchOk(c, n, t, t.pc.done, |b.samples|);
    }
  }

  lemma RoundBeginsOk(c: Caps, s: State, i: nat)
    requires |s.ring.samples| <= Limit(c) && i < |s.tasks|
    ensures var n := BeginRound(s, i); LoopOk(c, n, n.tasks[i])
  {
  }

  /** The acting task keeps its own invariant. */
  lemma ActorOk(c: Caps, s: State, i: nat, act: Act)
    requires c.batchCap >= 1 && Inv(c, s) && i < |s.tasks| && LiveLoop(s.tasks[i])
    ensures var n := TaskNext(c, s, i, act); |n.tasks| == |s.tasks| && LoopOk(c, n, n.tasks[i])
  {
    var t := s.tasks[i];
    assert LoopOk(c, s, t);
    match act
    case Drain(now) => if t.pc.Draining? { LoopDrainOk(c, s, i, now); }
    case Accept => if t.pc.Sending? { AfterBatchOk(c, s, t, t.pc.done, |t.pc.batch.samples|); }
    case Tick => RoundBeginsOk(c, s, i);
    case SpacingOver => RoundBeginsOk(c, s, i);
    case _ =>
  }

  /** A task that is not a live loop cannot return anything to the ring or take the permit. */
  lemma BystanderOk(c: Caps, s: State, i: nat, act: Act, t: Task)
    requires i < |s.tasks| && !LiveLoop(s.tasks[i]) && LoopOk(c, s, t)
    ensures LoopOk(c, TaskNext(c, s, i, act), t) && !LiveLoop(TaskNext(c, s, i, act).tasks[i])
  {
    if act.Drain? && s.tasks[i].pc.Flushing? {
      ShrunkOk(c, s, DrainOne(c, s, i, act.now), t, Min(|s.ring.samples|, c.batchCap));
    }
  }

  lemma TaskShape(c: Caps, s: State, i: nat, act: Act)
    requires i < |s.tasks|
    ensures var n := TaskNext(c, s, i, act);
            |n.tasks| == |s.tasks| && forall j :: 0 <= j < |s.tasks| && j != i ==> n.tasks[j] == s.tasks[j]
  {
  }

  lemma TaskInv(c: Caps, s: State, i: nat, act: Act)
    requires c.batchCap >= 1 && Inv(c, s) && i < |s.tasks|
    requires |TaskNext(c, s, i, act).ring.samples| <= Limit(c)
    ensures Inv(c, TaskNext(c, s, i, act))
  {
    var n := TaskNext(c, s, i, act);
    TaskShape(c, s, i, act);
    forall j | 0 <= j < |n.tasks| && LiveLoop(n.tasks[j])
      ensures LoopOk(c, n, n.tasks[j])
    {
      if LiveLoop(s.tasks[i]) {
        assert j == i;
        ActorOk(c, s, i, act);
      } else {
        BystanderOk(c, s, i, act, s.tasks[j]);
      }
    }
    if !LiveLoop(s.tasks[i]) {
      BystanderOk(c, s, i, act, Task(Starting, false, 0));
    }
  }

  lemma RecordInv(c: Caps, s: State, outcome: Outcome)
    requires Inv(c, s)
    requires |RecordNext(c, s, outcome).ring.samples| <= Limit(c)
    ensures Inv(c, RecordNext(c, s, outcome))
  {
    forall i | 0 <= i < |s.tasks| && LiveLoop(s.tasks[i])
      ensures LoopOk(c, RecordNext(c, s, outcome), s.tasks[i])
    {
      RecordOk(c, s, outcome, s.tasks[i]);
    }
  }

  lemma NextInv(c: Caps, s: State, step: Step)
    requires c.batchCap >= 1 && Inv(c, s)
    requires step.SpawnLoop? ==> forall t :: t in s.tasks ==> !LiveLoop(t)
    requires |Next(c, s, step).ring.samples| <= Limit(c)
    ensures Inv(c, Next(c, s, step))
  {
    match step
    case RecordSample(outcome) => RecordInv(c, s, outcome);
    case RecordUsage(_, _, _) =>
    case SpawnLoop =>
    case SpawnFlush =>
    case On(i, act) => if i < |s.tasks| { TaskInv(c, s, i, act); }
  }

  lemma {:induction false} InvSolo(c: Caps, steps: seq<Step>)
    requires c.batchCap >= 1 && Solo(c, steps)
    ensures Inv(c, Run(c, steps))
  {
    if steps != [] {
      InvSolo(c, steps[..|steps| - 1]);
      Ledger.InvRun(c, steps, Class(true), true);
      NextInv(c, Run(c, steps[..|steps| - 1]), steps[|steps| - 1]);
    }
  }

  /**
   * No lost wake-up: a flush loop at its wait point with the ring at the early mark has a permit
   * stored, whatever was recorded during its round and its spacing sleep.
   */
  lemma NoLostWakeup(c: Caps, steps: seq<Step>, i: nat)
    requires c.batchCap >= 1 && Solo(c, steps)
    ensures var s := Run(c, steps);
            i < |s.tasks| && s.tasks[i].pc.Waiting? && |s.ring.samples| >= EarlyMark(c) ==> s.permit
  {
    InvSolo(c, steps);
  }

  /** Step `j` begins a round of task `i`. */
  ghost predicate BeganAt(c: Caps, steps: seq<Step>, i: nat, j: nat) {
    && j < |steps| && i < |Run(c, steps[..j]).tasks| && i < |Run(c, steps[..j + 1]).tasks|
    && !Run(c, steps[..j]).tasks[i].pc.Draining? && !Run(c, steps[..j]).tasks[i].pc.Sending?
    && Run(c, steps[..j + 1]).tasks[i].pc == Draining(0)
  }

  lemma SinceNext(c: Caps, s: State, step: Step, i: nat)
    requires i < |s.tasks|
    ensures var n := Next(c, s, step);
            && i < |n.tasks| && s.recorded <= n.recorded
            && (n.tasks[i].since == s.tasks[i].since || n.tasks[i].since == |s.recorded|)
  {
  }

  lemma BeginsNow(c: Caps, s: State, step: Step, i: nat)
    requires i < |s.tasks| && !s.tasks[i].pc.Draining? && !s.tasks[i].pc.Sending?
    requires Next(c, s, step).tasks[i].pc == Draining(0)
    ensures Next(c, s, step).tasks[i].since == |s.recorded|
  {
  }

  /** What was recorded when a round began is older than what its task counts as new. */
  lemma {:induction false} SinceCovers(c: Caps, steps: seq<Step>, i: nat, j: nat)
    requires BeganAt(c, steps, i, j)
    ensures var s, before := Run(c, steps), Run(c, steps[..j]);
            i < |s.tasks| && before.recorded <= s.recorded && |before.recorded| <= s.tasks[i].since <= |s.recorded|
  {
    var pre, step := steps[..|steps| - 1], steps[|steps| - 1];
    assert steps[..|steps|] == steps;
    if j == |steps| - 1 {
      BeginsNow(c, Run(c, pre), step, i);
      SinceNext(c, Run(c, pre), step, i);
    } else {
      assert pre[..j] == steps[..j] && pre[..j + 1] == steps[..j + 1];
      SinceCovers(c, pre, i, j);
      SinceNext(c, Run(c, pre), step, i);
    }
  }

  /**
   * Round completeness: when a loop waits again, every sample that had been recorded when one of its
   * rounds began has left the ring, and stands exactly once among the queued, the dropped, and
   * whatever a shutdown flush holds or lost.
   */
  lemma RoundShipsAll(c: Caps, steps: seq<Step>, i: nat, j: nat, x: Sample)
    requires c.batchCap >= 1 && Solo(c, steps) && BeganAt(c, steps, i, j)
    requires i < |Run(c, steps).tasks| && Run(c, steps).tasks[i].pc.Waiting?
    requires x in Run(c, steps[..j]).recorded
    ensures var s := Run(c, steps);
            && x !in s.ring.samples
            && multiset(Cargo(s.queued))[x] + multiset(s.dropped)[x]
             + multiset(Cargo(InHand(s.tasks)))[x] + multiset(Cargo(s.lost))[x] == 1
  {
    SinceCovers(c, steps, i, j);
    Ledger.LabelledRun(c, steps);
    assert x !in Run(c, steps).ring.samples by { InvSolo(c, steps); }
    Ledger.ExactlyOnePlace(c, steps, x);
  }

  lemma {:induction false} NoFlushTasks(c: Caps, steps: seq<Step>)
    requires forall j :: 0 <= j < |steps| ==> !steps[j].SpawnFlush?
    ensures forall t :: t in Run(c, steps).tasks ==> LiveLoop(t) || t.pc.Done?
  {
    if steps != [] {
      var s, step := Run(c, steps[..|steps| - 1]), steps[|steps| - 1];
      NoFlushTasks(c, steps[..|steps| - 1]);
      NoFlushNext(c, s, step);
    }
  }

  lemma NoFlushNext(c: Caps, s: State, step: Step)
    requires !step.SpawnFlush? && forall t :: t in s.tasks ==> LiveLoop(t) || t.pc.Done?
    ensures forall t :: t in Next(c, s, step).tasks ==> LiveLoop(t) || t.pc.Done?
  {
    if step.On? && step.task < |s.tasks| {
      TaskShape(c, s, step.task, step.act);
      assert s.tasks[step.task] in s.tasks;
    }
  }

  /** Before any shutdown flush, that means: queued, or counted as dropped. */
  lemma RoundQueuesOrCounts(c: Caps, steps: seq<Step>, i: nat, j: nat, x: Sample)
    requires c.batchCap >= 1 && Solo(c, steps) && BeganAt(c, steps, i, j)
    requires forall k :: 0 <= k < |steps| ==> !steps[k].SpawnFlush?
    requires i < |Run(c, steps).tasks| && Run(c, steps).tasks[i].pc.Waiting?
    requires x in Run(c, steps[..j]).recorded
    ensures x in Cargo(Run(c, steps).queued) || x in Run(c, steps).dropped
  {
    RoundShipsAll(c, steps, i, j, x);
    NoFlushHands(c, steps, i);
    NoFlushLoses(c, steps);
  }

  lemma NoFlushHands(c: Caps, steps: seq<Step>, i: nat)
    requires c.batchCap >= 1 && Solo(c, steps)
    requires forall j :: 0 <= j < |steps| ==> !steps[j].SpawnFlush?
    requires i < |Run(c, steps).tasks|
    requires Run(c, steps).tasks[i].pc.Waiting?
    ensures InHand(Run(c, steps).tasks) == []
  {
    var s := Run(c, steps);
    NoFlushTasks(c, steps);
    InvSolo(c, steps);
    forall t | t in s.tasks
      ensures Hand(t) == []
    {
      var j :| 0 <= j < |s.tasks| && s.tasks[j] == t;
      assert LiveLoop(s.tasks[i]);
    }
    Order.EmptyHands(s.tasks);
  }

  lemma NoFlushLoses(c: Caps, steps: seq<Step>)
    requires forall j :: 0 <= j < |steps| ==> !steps[j].SpawnFlush?
    ensures Run(c, steps).lost == []
  {
    forall j: nat ensures !Ledger.LosesAt(c, steps, j) {
      if j < |steps| { NoFlushTasks(c, steps[..j]); }
    }
    Ledger.OnlyFlushLoses(c, steps);
  }

  lemma DrainsPerRound(c: Caps, steps: seq<Step>, i: nat)
    requires c.batchCap >= 1 && Solo(c, steps)
    ensures var s := Run(c, steps);
            i < |s.tasks| && (s.tasks[i].pc.Draining? || s.tasks[i].pc.Sending?) ==>
              s.tasks[i].pc.done < BatchesPerTick(c)
  {
    InvSolo(c, steps);
  }
}
