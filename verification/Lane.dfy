/**
 * The metrics lane as a step system: producers, flush loops and shutdown flushes over one buffer.
 * `record`, `drain` and `requeue_front` hold the ring's lock for their whole body, so each is one
 * step. Any number of tasks may be alive, because a session's `abort()` calls are not awaited.
 */
module Lane {
  import opened Words
  import opened Samples
  import opened MetricsRing
  import Rollup

  const MAX_SHUTDOWN_FLUSH_BATCHES: nat := 16

  /** Where a task stands. `Sending` and `FlushSending` await the outbound queue with a batch in hand. */
  datatype Pc =
    | Starting
    | Draining(done: nat)
    | Sending(done: nat, batch: Batch)
    | Waiting
    | Spacing
    | Flushing(done: nat)
    | FlushSending(done: nat, batch: Batch)
    | Done

  /** `since` is how many samples had been recorded when the task's last round began. */
  datatype Task = Task(pc: Pc, aborting: bool, since: nat)

  /** `recorded`, `queued`, `lost` and `dropped` are histories; the rest is the program's state. */
  datatype State = State(
    ring: Ring, permit: bool, tasks: seq<Task>,
    recorded: seq<Sample>, queued: seq<Batch>, lost: seq<Batch>, dropped: seq<Sample>)

  datatype Act =
    | Tick          // the ticker fires (the first tick included)
    | Wake          // the stored permit is consumed
    | SpacingOver   // the early-flush sleep ends
    | Drain(now: int)
    | Accept        // the outbound queue takes the report
    | Refuse        // the outbound queue is closed
    | Abort         // the session asks for cancellation
    | Cancel        // cancellation lands at an await point, dropping the task's locals

  datatype Step =
    | RecordSample(outcome: Outcome)
    | RecordUsage(key: Rollup.Key, counts: Rollup.EventCounts, now: int)
    | SpawnLoop
    | SpawnFlush
    | On(task: nat, act: Act)

  const INIT: State := State(EMPTY, false, [], [], [], [], [])

  /** Only at an await can an abort land; a shutdown flush is dropped with the future of `run()`. */
  predicate Cancellable(pc: Pc) { pc.Starting? || pc.Sending? || pc.Waiting? || pc.Spacing? || pc.FlushSending? }

  predicate LiveLoop(t: Task) {
    t.pc.Starting? || t.pc.Draining? || t.pc.Sending? || t.pc.Waiting? || t.pc.Spacing?
  }

  /** What follows a batch of `count` samples in a round. */
  function AfterBatch(c: Caps, done: nat, count: nat): Pc {
    if count < c.batchCap || done + 1 >= BatchesPerTick(c) then Waiting else Draining(done + 1)
  }

  function AfterFlushBatch(done: nat): Pc {
    if done + 1 >= MAX_SHUTDOWN_FLUSH_BATCHES then Done else Flushing(done + 1)
  }

  function SetTask(s: State, i: nat, t: Task): State
    requires i < |s.tasks|
  {
    s.(tasks := s.tasks[i := t])
  }

  function BeginRound(s: State, i: nat): State
    requires i < |s.tasks|
  {
    SetTask(s, i, s.tasks[i].(pc := Draining(0), since := |s.recorded|))
  }

  function DrainOne(c: Caps, s: State, i: nat, now: int): State
    requires i < |s.tasks| && (s.tasks[i].pc.Draining? || s.tasks[i].pc.Flushing?)
  {
    var t, b := s.tasks[i], Drained(c, s.ring, now);
    var pc :=
      if t.pc.Draining? then
        if Empty(b) then AfterBatch(c, t.pc.done, |b.samples|) else Sending(t.pc.done, b)
      else
        if Empty(b) then Done else FlushSending(t.pc.done, b);
    SetTask(s, i, t.(pc := pc)).(ring := AfterDrain(c, s.ring))
  }

  /** The in-flight guard drops: its batch goes back to the front of the ring, and the task ends. */
  function GiveBack(c: Caps, s: State, i: nat): State
    requires i < |s.tasks| && s.tasks[i].pc.Sending?
  {
    var t := s.tasks[i];
    SetTask(s, i, t.(pc := Done))
    .(ring := RequeueFront(c, s.ring, t.pc.batch),
      dropped := s.dropped + PutBack(c, s.ring.samples, t.pc.batch.samples).dropped)
  }

  /** A step of a task; a step that is not enabled changes nothing. */
  function TaskNext(c: Caps, s: State, i: nat, act: Act): State
    requires i < |s.tasks|
  {
    var t := s.tasks[i];
    match act
    case Tick => if t.pc.Starting? || t.pc.Waiting? then BeginRound(s, i) else s
    case Wake => if t.pc.Waiting? && s.permit then SetTask(s, i, t.(pc := Spacing)).(permit := false) else s
    case SpacingOver => if t.pc.Spacing? then BeginRound(s, i) else s
    case Drain(now) => if t.pc.Draining? || t.pc.Flushing? then DrainOne(c, s, i, now) else s
    case Accept =>
      if t.pc.Sending? then
        SetTask(s, i, t.(pc := AfterBatch(c, t.pc.done, |t.pc.batch.samples|))).(queued := s.queued + [t.pc.batch])
      else if t.pc.FlushSending? then
        SetTask(s, i, t.(pc := AfterFlushBatch(t.pc.done))).(queued := s.queued + [t.pc.batch])
      else s
    case Refuse =>
      if t.pc.Sending? then GiveBack(c, s, i)
      else if t.pc.FlushSending? then SetTask(s, i, t.(pc := Done)).(lost := s.lost + [t.pc.batch])
      else s
    case Abort => if t.pc.Done? then s else SetTask(s, i, t.(aborting := true))
    case Cancel =>
      if !t.aborting || !Cancellable(t.pc) then s
      else if t.pc.Sending? then GiveBack(c, s, i)
      else if t.pc.FlushSending? then SetTask(s, i, t.(pc := Done)).(lost := s.lost + [t.pc.batch])
      else SetTask(s, i, t.(pc := Done))
  }

  /** A recorded sample is labelled with its position, so that it can be told from its look-alikes. */
  function RecordNext(c: Caps, s: State, outcome: Outcome): State {
    var x := Sample(|s.recorded|, outcome);
    s.(ring := Record(c, s.ring, x), permit := s.permit || Wakes(c, |s.ring.samples|),
       recorded := s.recorded + [x], dropped := s.dropped + Push(c, s.ring.samples, x).dropped)
  }

  function Next(c: Caps, s: State, step: Step): State {
    match step
    case RecordSample(outcome) => RecordNext(c, s, outcome)
    case RecordUsage(k, counts, now) => s.(ring := RecordEvents(s.ring, k, counts, now))
    case SpawnLoop => s.(tasks := s.tasks + [Task(Starting, false, 0)])
    case SpawnFlush => s.(tasks := s.tasks + [Task(Flushing(0), false, 0)])
    case On(i, act) => if i < |s.tasks| then TaskNext(c, s, i, act) else s
  }

  /** Every interleaving of every workload is such a sequence. */
  function Run(c: Caps, steps: seq<Step>): State {
    if steps == [] then INIT else Next(c, Run(c, steps[..|steps| - 1]), steps[|steps| - 1])
  }

  lemma RunSnoc(c: Caps, pre: seq<Step>, step: Step)
    ensures Run(c, pre + [step]) == Next(c, Run(c, pre), step)
  {
    assert (pre + [step])[..|pre|] == pre;
  }

  lemma RunLast(c: Caps, pre: seq<Step>, steps: seq<Step>)
    requires steps != []
    ensures Run(c, pre + steps) == Next(c, Run(c, pre + steps[..|steps| - 1]), steps[|steps| - 1])
  {
    assert (pre + steps)[..|pre + steps| - 1] == pre + steps[..|steps| - 1];
  }

  /** Where further steps lead. */
  function RunFrom(c: Caps, s: State, steps: seq<Step>): State
    decreases |steps|
  {
    if steps == [] then s else RunFrom(c, Next(c, s, steps[0]), steps[1..])
  }

  lemma {:induction false} RunOn(c: Caps, pre: seq<Step>, steps: seq<Step>)
    ensures Run(c, pre + steps) == RunFrom(c, Run(c, pre), steps)
    decreases |steps|
  {
    if steps == [] {
      assert pre + steps == pre;
    } else {
      var first, rest := steps[0], steps[1..];
      calc {
        Run(c, pre + steps);
        { assert pre + steps == (pre + [first]) + rest; }
        Run(c, (pre + [first]) + rest);
        { RunOn(c, pre + [first], rest); }
        RunFrom(c, Run(c, pre + [first]), rest);
        { RunSnoc(c, pre, first); }
        RunFrom(c, Next(c, Run(c, pre), first), rest);
        RunFrom(c, Run(c, pre), steps);
      }
    }
  }

  lemma {:induction false} RunFromConcat(c: Caps, s: State, a: seq<Step>, b: seq<Step>)
    ensures RunFrom(c, s, a + b) == RunFrom(c, RunFrom(c, s, a), b)
    decreases |a|
  {
    if a == [] {
      assert a + b == b;
    } else {
      calc {
        RunFrom(c, s, a + b);
        { assert (a + b)[1..] == a[1..] + b && (a + b)[0] == a[0]; }
        RunFrom(c, Next(c, s, a[0]), a[1..] + b);
        { RunFromConcat(c, Next(c, s, a[0]), a[1..], b); }
        RunFrom(c, RunFrom(c, Next(c, s, a[0]), a[1..]), b);
        RunFrom(c, RunFrom(c, s, a), b);
      }
    }
  }

  // ---- Where samples and drop counts are ------------------------------------------------------

  function Hand(t: Task): seq<Batch> {
    if t.pc.Sending? || t.pc.FlushSending? then [t.pc.batch] else []
  }

  function InHand(tasks: seq<Task>): seq<Batch> {
    if tasks == [] then [] else InHand(tasks[..|tasks| - 1]) + Hand(tasks[|tasks| - 1])
  }

  function Cargo(bs: seq<Batch>): seq<Sample> {
    if bs == [] then [] else Cargo(bs[..|bs| - 1]) + bs[|bs| - 1].samples
  }

  function BatchDrops(b: Batch, billable: bool): nat { if billable then b.overflow else b.overflowNonBillable }

  function RingDrops(r: Ring, billable: bool): nat { if billable then r.overflow else r.overflowNonBillable }

  /** What is read off a batch: a drop count, whether it carries a number, or a usage total. */
  datatype Gauge = DropGauge(billable: bool) | NumberGauge(n: nat) | UsageGauge(key: Rollup.Key, field: Rollup.Field)

  function Reading(g: Gauge, b: Batch): nat {
    match g
    case DropGauge(billable) => BatchDrops(b, billable)
    case NumberGauge(n) => if b.seqNo == n then 1 else 0
    case UsageGauge(key, field) => Rollup.Of(Rollup.Get(b.rows.counts, key), field)
  }

  function Tally(g: Gauge, bs: seq<Batch>): nat {
    if bs == [] then 0 else Tally(g, bs[..|bs| - 1]) + Reading(g, bs[|bs| - 1])
  }

  /** The same read off the ring, which has no number to give away. */
  function RingReading(g: Gauge, r: Ring): nat {
    match g
    case DropGauge(billable) => RingDrops(r, billable)
    case NumberGauge(_) => 0
    case UsageGauge(key, field) => Rollup.Of(Rollup.Get(r.events.counts, key), field)
  }

  /** A drain hands over every count of the ring. */
  lemma DrainReads(g: Gauge, c: Caps, r: Ring, now: int)
    requires !g.NumberGauge?
    ensures Reading(g, Drained(c, r, now)) == RingReading(g, r) && RingReading(g, AfterDrain(c, r)) == 0
    ensures Empty(Drained(c, r, now)) ==> RingReading(g, r) == 0
  {
  }

  function Drops(bs: seq<Batch>, billable: bool): nat { Tally(DropGauge(billable), bs) }

  lemma {:induction false} InHandConcat(a: seq<Task>, b: seq<Task>)
    ensures InHand(a + b) == InHand(a) + InHand(b)
  {
    if b == [] {
      assert a + b == a;
    } else {
      var init, t := b[..|b| - 1], b[|b| - 1];
      assert (a + b)[..|a + b| - 1] == a + init && (a + b)[|a + b| - 1] == t;
      InHandConcat(a, init);
      calc {
        InHand(a + b);
        InHand(a + init) + Hand(t);
        InHand(a) + InHand(init) + Hand(t);
        InHand(a) + (InHand(init) + Hand(t));
        InHand(a) + InHand(b);
      }
    }
  }

  lemma {:induction false} CargoConcat(a: seq<Batch>, b: seq<Batch>)
    ensures Cargo(a + b) == Cargo(a) + Cargo(b)
  {
    if b == [] {
      assert a + b == a;
    } else {
      var init, x := b[..|b| - 1], b[|b| - 1];
      assert (a + b)[..|a + b| - 1] == a + init && (a + b)[|a + b| - 1] == x;
      calc {
        Cargo(a + b);
        Cargo(a + init) + x.samples;
        { CargoConcat(a, init); }
        Cargo(a) + Cargo(init) + x.samples;
        { Assoc(Cargo(a), Cargo(init), x.samples); }
        Cargo(a) + Cargo(b);
      }
    }
  }

  lemma {:induction false} TallyConcat(g: Gauge, a: seq<Batch>, b: seq<Batch>)
    ensures Tally(g, a + b) == Tally(g, a) + Tally(g, b)
  {
    if b == [] {
      assert a + b == a;
    } else {
      TallyConcat(g, a, b[..|b| - 1]);
      assert (a + b)[..|a + b| - 1] == a + b[..|b| - 1];
    }
  }

  lemma TallyOne(g: Gauge, b: Batch)
    ensures Tally(g, [b]) == Reading(g, b)
  {
    assert [b][..0] == [];
  }

  lemma OneBatch(b: Batch, billable: bool)
    ensures Cargo([b]) == b.samples && Drops([b], billable) == BatchDrops(b, billable)
  {
    TallyOne(DropGauge(billable), b);
    assert [b][..0] == [];
  }

  /** Replacing one task's state replaces its hand and leaves the others'. */
  lemma HandSplit(tasks: seq<Task>, i: nat, t: Task)
    requires i < |tasks|
    ensures var before, after := InHand(tasks[..i]), InHand(tasks[i + 1..]);
            && InHand(tasks) == before + Hand(tasks[i]) + after
            && InHand(tasks[i := t]) == before + Hand(t) + after
  {
    assert tasks == tasks[..i] + [tasks[i]] + tasks[i + 1..];
    assert tasks[i := t] == tasks[..i] + [t] + tasks[i + 1..];
    InHandConcat(tasks[..i] + [tasks[i]], tasks[i + 1..]);
    InHandConcat(tasks[..i], [tasks[i]]);
    InHandConcat(tasks[..i] + [t], tasks[i + 1..]);
    InHandConcat(tasks[..i], [t]);
    assert [tasks[i]][..0] == [] && [t][..0] == [];
  }

  /** Tasks that hold the same hold the same together. */
  lemma SameHands(tasks: seq<Task>, i: nat, t: Task)
    requires i < |tasks| && Hand(t) == Hand(tasks[i])
    ensures InHand(tasks[i := t]) == InHand(tasks)
  {
    HandSplit(tasks, i, t);
  }

  /** With nothing in hand, no task holds anything. */
  lemma NothingHeld(tasks: seq<Task>)
    requires InHand(tasks) == []
    ensures forall i :: 0 <= i < |tasks| ==> Hand(tasks[i]) == []
  {
    forall i | 0 <= i < |tasks| ensures Hand(tasks[i]) == [] {
      HandSplit(tasks, i, tasks[i]);
    }
  }

  function Load(m: Measure, bs: seq<Batch>): nat { Weigh(m, Cargo(bs)) }

  lemma LoadConcat(m: Measure, a: seq<Batch>, b: seq<Batch>)
    ensures Load(m, a + b) == Load(m, a) + Load(m, b)
  {
    CargoConcat(a, b);
    WeighConcat(m, Cargo(a), Cargo(b));
  }

  lemma HandLoad(m: Measure, tasks: seq<Task>, i: nat, t: Task)
    requires i < |tasks|
    ensures Load(m, InHand(tasks[i := t])) + Load(m, Hand(tasks[i])) == Load(m, InHand(tasks)) + Load(m, Hand(t))
  {
    HandSplit(tasks, i, t);
    var before, after := InHand(tasks[..i]), InHand(tasks[i + 1..]);
    LoadConcat(m, before + Hand(tasks[i]), after);
    LoadConcat(m, before, Hand(tasks[i]));
    LoadConcat(m, before + Hand(t), after);
    LoadConcat(m, before, Hand(t));
  }

  lemma HandTally(g: Gauge, tasks: seq<Task>, i: nat, t: Task)
    requires i < |tasks|
    ensures Tally(g, InHand(tasks[i := t])) + Tally(g, Hand(tasks[i])) == Tally(g, InHand(tasks)) + Tally(g, Hand(t))
  {
    HandSplit(tasks, i, t);
    var before, after := InHand(tasks[..i]), InHand(tasks[i + 1..]);
    TallyConcat(g, before + Hand(tasks[i]), after);
    TallyConcat(g, before, Hand(tasks[i]));
    TallyConcat(g, before + Hand(t), after);
    TallyConcat(g, before, Hand(t));
  }

  lemma SpawnedHand(tasks: seq<Task>, t: Task)
    requires Hand(t) == []
    ensures InHand(tasks + [t]) == InHand(tasks)
  {
    assert (tasks + [t])[..|tasks|] == tasks;
  }
}
