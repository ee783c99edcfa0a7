/** The timeline of the lane: what has been shipped, what is in flight and what waits never change order. */
module Order {
  import opened Samples
  import opened MetricsRing
  import opened Lane
  import opened Ledger

  /** Shipped, then in flight, then waiting. */
  ghost function Line(s: State): seq<Sample> {
    Cargo(s.queued) + Cargo(InHand(s.tasks)) + s.ring.samples
  }

  /** `line` is a subsequence of `recorded`: each sample sits at its own position, and positions increase. */
  ghost predicate Timeline(line: seq<Sample>, recorded: seq<Sample>) {
    && (forall i :: 0 <= i < |line| ==> line[i].call < |recorded| && recorded[line[i].call] == line[i])
    && (forall i, j :: 0 <= i < j < |line| ==> line[i].call < line[j].call)
  }

  /** Batches are drained only while none is in flight. */
  ghost predicate Orderly(c: Caps, steps: seq<Step>) {
    steps == [] ||
    (var pre, step := steps[..|steps| - 1], steps[|steps| - 1];
     && Orderly(c, pre)
     && (Drains(Run(c, pre), step) ==> InHand(Run(c, pre).tasks) == []))
  }

  /** The step takes a batch out of the ring. */
  predicate Drains(s: State, step: Step) {
    && step.On? && step.act.Drain? && step.task < |s.tasks|
    && (s.tasks[step.task].pc.Draining? || s.tasks[step.task].pc.Flushing?)
  }

  ghost predicate Inv(s: State) {
    && |InHand(s.tasks)| <= 1
    && Timeline(Line(s), s.recorded)
  }

  lemma WithoutMiddle(a: seq<Sample>, b: seq<Sample>, d: seq<Sample>, recorded: seq<Sample>)
    requires Timeline(a + b + d, recorded)
    ensures Timeline(a + d, recorded)
  {
    var whole, part := a + b + d, a + d;
    forall i | 0 <= i < |part|
      ensures part[i] == whole[if i < |a| then i else i + |b|]
    {
    }
  }

  lemma Extended(line: seq<Sample>, recorded: seq<Sample>, x: Sample)
    requires Timeline(line, recorded) && x.call == |recorded|
    ensures Timeline(line, recorded + [x]) && Timeline(line + [x], recorded + [x])
  {
  }

  lemma RecordKeeps(c: Caps, a: seq<Sample>, q: seq<Sample>, x: Sample, recorded: seq<Sample>)
    requires Timeline(a + q, recorded) && x.call == |recorded|
    ensures Timeline(a + Push(c, q, x).samples, recorded + [x])
  {
    Extended(a + q, recorded, x);
    if |q| < c.cap || (Billable(x.outcome) && q == []) {
      assert a + (q + [x]) == a + q + [x];
      assert q == [] ==> q + [x] == [x];
    } else if Billable(x.outcome) {
      var v := Victim(q);
      assert a + q + [x] == (a + q[..v]) + [q[v]] + (q[v + 1..] + [x]);
      WithoutMiddle(a + q[..v], [q[v]], q[v + 1..] + [x], recorded + [x]);
      assert (a + q[..v]) + (q[v + 1..] + [x]) == a + (q[..v] + q[v + 1..] + [x]);
    }
  }

  lemma PutBackKeeps(c: Caps, a: seq<Sample>, q: seq<Sample>, batch: seq<Sample>, recorded: seq<Sample>)
    requires Timeline(a + batch + q, recorded)
    ensures Timeline(a + PutBack(c, q, batch).samples, recorded)
  {
    var cut := |batch| - Room(c, |q|, |batch|);
    assert a + batch + q == a + batch[..cut] + (batch[cut..] + q);
    WithoutMiddle(a, batch[..cut], batch[cut..] + q, recorded);
  }

  /** The only batch in flight is this task's. */
  lemma AloneInHand(tasks: seq<Task>, i: nat, t: Task)
    requires i < |tasks| && |InHand(tasks)| <= 1 && |Hand(tasks[i])| == 1
    ensures InHand(tasks) == Hand(tasks[i]) && InHand(tasks[i := t]) == Hand(t)
  {
    HandSplit(tasks, i, t);
  }

  lemma DrainLine(c: Caps, s: State, i: nat, now: int)
    requires InHand(s.tasks) == []
    requires i < |s.tasks| && (s.tasks[i].pc.Draining? || s.tasks[i].pc.Flushing?)
    ensures var n := DrainOne(c, s, i, now); Line(n) == Line(s) && InHand(n.tasks) == Hand(n.tasks[i])
  {
    DrainHand(c, s, i, now);
    DrainSplits(c, s.ring, now);
    Regroup(Cargo(s.queued), Cargo(InHand(s.tasks)), Drained(c, s.ring, now).samples, AfterDrain(c, s.ring).samples);
  }

  lemma DrainHand(c: Caps, s: State, i: nat, now: int)
    requires InHand(s.tasks) == []
    requires i < |s.tasks| && (s.tasks[i].pc.Draining? || s.tasks[i].pc.Flushing?)
    ensures var n := DrainOne(c, s, i, now);
            && InHand(n.tasks) == Hand(n.tasks[i]) && n.queued == s.queued && n.ring == AfterDrain(c, s.ring)
            && Cargo(InHand(n.tasks)) == Drained(c, s.ring, now).samples
  {
    DrainTask(c, s, i, now, true);
    HandSplit(s.tasks, i, DrainOne(c, s, i, now).tasks[i]);
  }

  lemma DrainOrder(c: Caps, s: State, i: nat, now: int)
    requires Inv(s) && InHand(s.tasks) == []
    requires i < |s.tasks| && (s.tasks[i].pc.Draining? || s.tasks[i].pc.Flushing?)
    ensures Inv(DrainOne(c, s, i, now))
  {
    DrainLine(c, s, i, now);
  }

  lemma Regroup(a: seq<Sample>, none: seq<Sample>, b: seq<Sample>, d: seq<Sample>)
    requires none == []
    ensures a + none + (b + d) == a + b + d && (a + b) + none + d == a + b + d
  {
  }

  lemma GiveBackOrder(c: Caps, s: State, i: nat)
    requires Inv(s) && i < |s.tasks| && s.tasks[i].pc.Sending?
    ensures Inv(GiveBack(c, s, i))
  {
    var batch := s.tasks[i].pc.batch;
    GiveBackLine(c, s, i);
    PutBackKeeps(c, Cargo(s.queued), s.ring.samples, batch.samples, s.recorded);
  }

  lemma GiveBackLine(c: Caps, s: State, i: nat)
    requires |InHand(s.tasks)| <= 1 && i < |s.tasks| && s.tasks[i].pc.Sending?
    ensures var n, batch := GiveBack(c, s, i), s.tasks[i].pc.batch.samples;
            && Line(s) == Cargo(s.queued) + batch + s.ring.samples
            && InHand(n.tasks) == []
            && Line(n) == Cargo(s.queued) + PutBack(c, s.ring.samples, batch).samples
  {
    AloneInHand(s.tasks, i, s.tasks[i].(pc := Done));
    OneBatch(s.tasks[i].pc.batch, true);
    Emptied(Cargo(s.queued), Cargo([]), PutBack(c, s.ring.samples, s.tasks[i].pc.batch.samples).samples);
  }

  lemma Emptied(a: seq<Sample>, none: seq<Sample>, d: seq<Sample>)
    requires none == []
    ensures a + none + d == a + d
  {
  }

  lemma HandOverOrder(s: State, i: nat, t: Task, lost: bool)
    requires Inv(s) && i < |s.tasks| && (s.tasks[i].pc.Sending? || s.tasks[i].pc.FlushSending?) && Hand(t) == []
    ensures Inv(HandOver(s, i, t, lost))
  {
    HandOverLine(s, i, t, lost);
    if lost { WithoutMiddle(Cargo(s.queued), s.tasks[i].pc.batch.samples, s.ring.samples, s.recorded); }
  }

  lemma HandOverLine(s: State, i: nat, t: Task, lost: bool)
    requires |InHand(s.tasks)| <= 1
    requires i < |s.tasks| && (s.tasks[i].pc.Sending? || s.tasks[i].pc.FlushSending?) && Hand(t) == []
    ensures var n, batch := HandOver(s, i, t, lost), s.tasks[i].pc.batch.samples;
            && InHand(n.tasks) == []
            && Line(s) == Cargo(s.queued) + batch + s.ring.samples
            && Line(n) == if lost then Cargo(s.queued) + s.ring.samples else Line(s)
  {
    var batch := s.tasks[i].pc.batch;
    AloneInHand(s.tasks, i, t);
    OneBatch(batch, true);
    if lost {
      Emptied(Cargo(s.queued), Cargo([]), s.ring.samples);
    } else {
      CargoConcat(s.queued, [batch]);
      Emptied(Cargo(s.queued) + batch.samples, Cargo([]), s.ring.samples);
    }
  }

  lemma QuietOrder(s: State, i: nat, t: Task, permit: bool)
    requires Inv(s) && i < |s.tasks| && Hand(t) == Hand(s.tasks[i])
    ensures Inv(SetTask(s, i, t).(permit := permit))
  {
    SameHands(s.tasks, i, t);
  }

  lemma TaskOrder(c: Caps, s: State, i: nat, act: Act)
    requires Inv(s) && i < |s.tasks|
    requires Drains(s, On(i, act)) ==> InHand(s.tasks) == []
    ensures Inv(TaskNext(c, s, i, act))
  {
    var t, n := s.tasks[i], TaskNext(c, s, i, act);
    if !Moves(t, act) {
      QuietStep(c, s, i, act);
      QuietOrder(s, i, n.tasks[i], n.permit);
    } else {
      MovingStep(c, s, i, act);
      if act.Drain? {
        DrainOrder(c, s, i, act.now);
      } else if Returns(t, act) {
        GiveBackOrder(c, s, i);
      } else {
        HandOverOrder(s, i, n.tasks[i], !act.Accept?);
      }
    }
  }

  lemma RecordOrder(c: Caps, s: State, outcome: Outcome)
    requires Inv(s)
    ensures Inv(RecordNext(c, s, outcome))
  {
    RecordKeeps(c, Cargo(s.queued) + Cargo(InHand(s.tasks)), s.ring.samples, Sample(|s.recorded|, outcome), s.recorded);
  }

  lemma {:induction false} InvOrder(c: Caps, steps: seq<Step>)
    requires Orderly(c, steps)
    ensures Inv(Run(c, steps))
  {
    if steps != [] {
      var pre, step := steps[..|steps| - 1], steps[|steps| - 1];
      InvOrder(c, pre);
      NextOrder(c, Run(c, pre), step);
    }
  }

  lemma SpawnOrder(s: State, t: Task)
    requires Inv(s) && Hand(t) == []
    ensures Inv(s.(tasks := s.tasks + [t]))
  {
    SpawnedHand(s.tasks, t);
  }

  lemma NextOrder(c: Caps, s: State, step: Step)
    requires Inv(s)
    requires Drains(s, step) ==> InHand(s.tasks) == []
    ensures Inv(Next(c, s, step))
  {
    match step
    case RecordSample(outcome) => RecordOrder(c, s, outcome);
    case RecordUsage(_, _, _) =>
    case SpawnLoop => SpawnOrder(s, Task(Starting, false, 0));
    case SpawnFlush => SpawnOrder(s, Task(Flushing(0), false, 0));
    case On(i, act) => if i < |s.tasks| { TaskOrder(c, s, i, act); }
  }

  /** With one batch in flight at a time, nothing is shipped twice or out of order. */
  lemma TimelineHolds(c: Caps, steps: seq<Step>)
    requires Orderly(c, steps)
    ensures var s := Run(c, steps); Timeline(Cargo(s.queued) + Cargo(InHand(s.tasks)) + s.ring.samples, s.recorded)
  {
    InvOrder(c, steps);
  }

  // ---- When one batch is in flight at a time --------------------------------------------------

  /** Sessions do not overlap: a task starts only when every earlier one has ended. */
  ghost predicate Sequential(c: Caps, steps: seq<Step>) {
    steps == [] ||
    (var pre, step := steps[..|steps| - 1], steps[|steps| - 1];
     && Sequential(c, pre)
     && (step.SpawnLoop? || step.SpawnFlush? ==> forall t :: t in Run(c, pre).tasks ==> t.pc.Done?))
  }

  ghost predicate OneAlive(tasks: seq<Task>) {
    forall i, j :: 0 <= i < |tasks| && 0 <= j < |tasks| && !tasks[i].pc.Done? && !tasks[j].pc.Done? ==> i == j
  }

  lemma {:induction false} EmptyHands(tasks: seq<Task>)
    requires forall t :: t in tasks ==> Hand(t) == []
    ensures InHand(tasks) == []
  {
    if tasks != [] {
      EmptyHands(tasks[..|tasks| - 1]);
    }
  }

  lemma OneAliveNext(c: Caps, s: State, step: Step)
    requires OneAlive(s.tasks)
    requires step.SpawnLoop? || step.SpawnFlush? ==> forall t :: t in s.tasks ==> t.pc.Done?
    ensures OneAlive(Next(c, s, step).tasks)
  {
    if step.On? && step.task < |s.tasks| {
      var i, n := step.task, Next(c, s, step);
      if Moves(s.tasks[i], step.act) { MovingStep(c, s, i, step.act); } else { QuietStep(c, s, i, step.act); }
      assert s.tasks[i].pc.Done? ==> n.tasks == s.tasks;
    }
  }

  /** Sessions that do not overlap are orderly; so the timeline is theirs. */
  lemma {:induction false} SequentialIsOrderly(c: Caps, steps: seq<Step>)
    requires Sequential(c, steps)
    ensures Orderly(c, steps) && OneAlive(Run(c, steps).tasks)
  {
    if steps != [] {
      var pre, step := steps[..|steps| - 1], steps[|steps| - 1];
      var s := Run(c, pre);
      SequentialIsOrderly(c, pre);
      OneAliveNext(c, s, step);
      if Drains(s, step) {
        assert forall t :: t in s.tasks ==> Hand(t) == [];
        EmptyHands(s.tasks);
      }
    }
  }
}
