/** Conservation over every run of the lane: no sample and no drop count is created or forgotten. */
module Ledger {
  import opened Words
  import opened Samples
  import opened MetricsRing
  import opened Lane

  /** Where a measured sample can be: queued, in some task's hand, in the ring, lost, or dropped. */
  ghost function Placed(s: State, m: Measure): nat {
    Load(m, s.queued) + Load(m, InHand(s.tasks)) + Weigh(m, s.ring.samples) + Load(m, s.lost) + Weigh(m, s.dropped)
  }

  /** Where a drop of a class can be counted. */
  ghost function Counted(s: State, b: bool): nat {
    Drops(s.queued, b) + Drops(InHand(s.tasks), b) + RingDrops(s.ring, b) + Drops(s.lost, b)
  }

  ghost predicate Inv(c: Caps, s: State, m: Measure, b: bool) {
    && |s.ring.samples| <= Limit(c)
    && Weigh(m, s.recorded) == Placed(s, m)
    && Accounts(Count(s.dropped, b), Counted(s, b))
  }

  lemma LoadOne(bs: seq<Batch>, batch: Batch, m: Measure)
    ensures Load(m, bs + [batch]) == Load(m, bs) + Weigh(m, batch.samples)
  {
    assert (bs + [batch])[..|bs|] == bs;
    WeighConcat(m, Cargo(bs), batch.samples);
  }

  lemma DropsOne(bs: seq<Batch>, batch: Batch, b: bool)
    ensures Drops(bs + [batch], b) == Drops(bs, b) + BatchDrops(batch, b)
  {
    assert (bs + [batch])[..|bs|] == bs;
  }

  lemma RecordPlaced(c: Caps, s: State, outcome: Outcome, m: Measure)
    requires |s.ring.samples| <= Limit(c)
    ensures var n := RecordNext(c, s, outcome);
            && |n.ring.samples| <= Limit(c)
            && Weigh(m, n.recorded) + Placed(s, m) == Weigh(m, s.recorded) + Placed(n, m)
  {
    var x := Sample(|s.recorded|, outcome);
    PushConserves(c, s.ring.samples, x, m);
    WeighConcat(m, s.recorded, [x]);
    WeighConcat(m, s.dropped, Push(c, s.ring.samples, x).dropped);
  }

  lemma RecordCounted(c: Caps, s: State, outcome: Outcome, b: bool)
    requires Accounts(Count(s.dropped, b), Counted(s, b))
    ensures var n := RecordNext(c, s, outcome); Accounts(Count(n.dropped, b), Counted(n, b))
  {
    var rest, ring, more := RecordParts(c, s, outcome, b);
    RecordCounts(Count(s.dropped, b), rest, ring, more);
  }

  /** The counts a recorded sample leaves alone, joins and adds. */
  lemma RecordParts(c: Caps, s: State, outcome: Outcome, b: bool) returns (rest: nat, ring: nat, more: nat)
    ensures var n := RecordNext(c, s, outcome);
            && Counted(s, b) == rest + ring
            && Count(n.dropped, b) == Count(s.dropped, b) + more
            && Counted(n, b) == rest + WrapAdd(ring, more)
  {
    var dropped := Push(c, s.ring.samples, Sample(|s.recorded|, outcome)).dropped;
    rest := Drops(s.queued, b) + Drops(InHand(s.tasks), b) + Drops(s.lost, b);
    ring, more := RingDrops(s.ring, b), Count(dropped, b);
    OfClassConcat(s.dropped, dropped, b);
  }

  lemma RecordCounts(exact: nat, rest: nat, ring: nat, more: nat)
    requires Accounts(exact, rest + ring)
    ensures Accounts(exact + more, rest + WrapAdd(ring, more))
  {
    AccountsGrow(exact, rest + ring, more);
    AccountsWrap(exact + more, rest, ring, more);
  }

  lemma DrainConserves(c: Caps, r: Ring, now: int, m: Measure, b: bool)
    ensures Weigh(m, r.samples) == Weigh(m, Drained(c, r, now).samples) + Weigh(m, AfterDrain(c, r).samples)
    ensures RingDrops(r, b) == BatchDrops(Drained(c, r, now), b) + RingDrops(AfterDrain(c, r), b)
  {
    assert r.samples == Drained(c, r, now).samples + AfterDrain(c, r).samples;
    WeighConcat(m, Drained(c, r, now).samples, AfterDrain(c, r).samples);
  }

  lemma DrainTask(c: Caps, s: State, i: nat, now: int, b: bool)
    requires i < |s.tasks| && (s.tasks[i].pc.Draining? || s.tasks[i].pc.Flushing?)
    ensures var n, batch := DrainOne(c, s, i, now), Drained(c, s.ring, now);
            && |n.tasks| == |s.tasks| && n == SetTask(s, i, n.tasks[i]).(ring := AfterDrain(c, s.ring))
            && Hand(s.tasks[i]) == []
            && Cargo(Hand(n.tasks[i])) == batch.samples
            && Drops(Hand(n.tasks[i]), b) == BatchDrops(batch, b)
  {
    OneBatch(Drained(c, s.ring, now), b);
  }

  lemma DrainPlaced(c: Caps, s: State, i: nat, now: int, m: Measure)
    requires i < |s.tasks| && (s.tasks[i].pc.Draining? || s.tasks[i].pc.Flushing?)
    ensures Placed(DrainOne(c, s, i, now), m) == Placed(s, m)
  {
    DrainTask(c, s, i, now, true);
    HandLoad(m, s.tasks, i, DrainOne(c, s, i, now).tasks[i]);
    DrainConserves(c, s.ring, now, m, true);
  }

  lemma DrainCounted(c: Caps, s: State, i: nat, now: int, b: bool)
    requires i < |s.tasks| && (s.tasks[i].pc.Draining? || s.tasks[i].pc.Flushing?)
    ensures Counted(DrainOne(c, s, i, now), b) == Counted(s, b)
  {
    DrainTask(c, s, i, now, b);
    HandTally(DropGauge(b), s.tasks, i, DrainOne(c, s, i, now).tasks[i]);
  }

  lemma GiveBackPlaced(c: Caps, s: State, i: nat, m: Measure)
    requires |s.ring.samples| <= Limit(c)
    requires i < |s.tasks| && s.tasks[i].pc.Sending?
    ensures Placed(GiveBack(c, s, i), m) == Placed(s, m)
    ensures |GiveBack(c, s, i).ring.samples| <= Limit(c)
  {
    var batch, t := s.tasks[i].pc.batch, s.tasks[i].(pc := Done);
    HandLoad(m, s.tasks, i, t);
    OneBatch(batch, true);
    PutBackConserves(c, s.ring.samples, batch.samples, m);
    WeighConcat(m, s.dropped, PutBack(c, s.ring.samples, batch.samples).dropped);
  }

  lemma GiveBackCounted(c: Caps, s: State, i: nat, b: bool)
    requires Accounts(Count(s.dropped, b), Counted(s, b))
    requires i < |s.tasks| && s.tasks[i].pc.Sending?
    ensures Accounts(Count(GiveBack(c, s, i).dropped, b), Counted(GiveBack(c, s, i), b))
  {
    var rest, ring, batch, more := GiveBackParts(c, s, i, b);
    GiveBackCounts(Count(s.dropped, b), rest, ring, batch, more);
  }

  /** The counts a returned batch leaves alone, joins, brings and adds. */
  lemma GiveBackParts(c: Caps, s: State, i: nat, b: bool) returns (rest: nat, ring: nat, batch: nat, more: nat)
    requires i < |s.tasks| && s.tasks[i].pc.Sending?
    ensures Counted(s, b) == rest + ring + batch
    ensures Count(GiveBack(c, s, i).dropped, b) == Count(s.dropped, b) + more
    ensures Counted(GiveBack(c, s, i), b) == rest + WrapAdd(WrapAdd(ring, more), batch)
  {
    var inHand, t := s.tasks[i].pc.batch, s.tasks[i].(pc := Done);
    var cut := PutBack(c, s.ring.samples, inHand.samples).dropped;
    rest := Drops(s.queued, b) + Drops(InHand(s.tasks[i := t]), b) + Drops(s.lost, b);
    ring, batch, more := RingDrops(s.ring, b), BatchDrops(inHand, b), Count(cut, b);
    HandTally(DropGauge(b), s.tasks, i, t);
    OneBatch(inHand, b);
    OfClassConcat(s.dropped, cut, b);
  }

  lemma GiveBackCounts(exact: nat, rest: nat, ring: nat, batch: nat, more: nat)
    requires Accounts(exact, rest + ring + batch)
    ensures Accounts(exact + more, rest + WrapAdd(WrapAdd(ring, more), batch))
  {
    AccountsGrow(exact, rest + ring + batch, more);
    AccountsWrap(exact + more, rest + batch, ring, more);
    AccountsWrap(exact + more, rest, WrapAdd(ring, more), batch);
  }

  /** A batch leaves a hand for the queue, or is lost. */
  function HandOver(s: State, i: nat, t: Task, lost: bool): State
    requires i < |s.tasks| && (s.tasks[i].pc.Sending? || s.tasks[i].pc.FlushSending?)
  {
    var batch := s.tasks[i].pc.batch;
    if lost then SetTask(s, i, t).(lost := s.lost + [batch]) else SetTask(s, i, t).(queued := s.queued + [batch])
  }

  lemma HandOverPlaced(s: State, i: nat, t: Task, lost: bool, m: Measure)
    requires i < |s.tasks| && (s.tasks[i].pc.Sending? || s.tasks[i].pc.FlushSending?) && Hand(t) == []
    ensures Placed(HandOver(s, i, t, lost), m) == Placed(s, m)
  {
    HandLoad(m, s.tasks, i, t);
    OneBatch(s.tasks[i].pc.batch, true);
    if lost { LoadOne(s.lost, s.tasks[i].pc.batch, m); } else { LoadOne(s.queued, s.tasks[i].pc.batch, m); }
  }

  lemma HandOverCounted(s: State, i: nat, t: Task, lost: bool, b: bool)
    requires i < |s.tasks| && (s.tasks[i].pc.Sending? || s.tasks[i].pc.FlushSending?) && Hand(t) == []
    ensures Counted(HandOver(s, i, t, lost), b) == Counted(s, b)
  {
    HandTally(DropGauge(b), s.tasks, i, t);
    OneBatch(s.tasks[i].pc.batch, b);
    if lost { DropsOne(s.lost, s.tasks[i].pc.batch, b); } else { DropsOne(s.queued, s.tasks[i].pc.batch, b); }
  }

  /** A step that moves no batch. */
  lemma QuietKeeps(s: State, i: nat, t: Task, permit: bool, m: Measure, b: bool)
    requires i < |s.tasks| && Hand(t) == Hand(s.tasks[i])
    ensures Placed(SetTask(s, i, t).(permit := permit), m) == Placed(s, m)
    ensures Counted(SetTask(s, i, t).(permit := permit), b) == Counted(s, b)
  {
    HandLoad(m, s.tasks, i, t);
    HandTally(DropGauge(b), s.tasks, i, t);
  }

  predicate Moves(t: Task, act: Act) {
    || (act.Drain? && (t.pc.Draining? || t.pc.Flushing?))
    || ((act.Accept? || act.Refuse?) && (t.pc.Sending? || t.pc.FlushSending?))
    || (act.Cancel? && t.aborting && (t.pc.Sending? || t.pc.FlushSending?))
  }

  /** The guard gives the batch back. */
  predicate Returns(t: Task, act: Act) { (act.Cancel? || act.Refuse?) && t.pc.Sending? }

  lemma QuietStep(c: Caps, s: State, i: nat, act: Act)
    requires i < |s.tasks| && !Moves(s.tasks[i], act)
    ensures var n := TaskNext(c, s, i, act);
            && |n.tasks| == |s.tasks| && n == SetTask(s, i, n.tasks[i]).(permit := n.permit)
            && Hand(n.tasks[i]) == Hand(s.tasks[i])
  {
  }

  lemma MovingStep(c: Caps, s: State, i: nat, act: Act)
    requires i < |s.tasks| && Moves(s.tasks[i], act)
    ensures var t, n := s.tasks[i], TaskNext(c, s, i, act);
            && |n.tasks| == |s.tasks|
            && (act.Drain? ==> n == DrainOne(c, s, i, act.now))
            && (Returns(t, act) ==> n == GiveBack(c, s, i))
            && (!act.Drain? && !Returns(t, act) ==>
                  Hand(n.tasks[i]) == [] && n == HandOver(s, i, n.tasks[i], !act.Accept?))
  {
  }

  lemma InvTask(c: Caps, s: State, i: nat, act: Act, m: Measure, b: bool)
    requires Inv(c, s, m, b) && i < |s.tasks|
    ensures Inv(c, TaskNext(c, s, i, act), m, b)
  {
    var t, n := s.tasks[i], TaskNext(c, s, i, act);
    if !Moves(t, act) {
      QuietStep(c, s, i, act);
      QuietKeeps(s, i, n.tasks[i], n.permit, m, b);
    } else {
      MovingStep(c, s, i, act);
      if act.Drain? {
        DrainPlaced(c, s, i, act.now, m);
        DrainCounted(c, s, i, act.now, b);
      } else if Returns(t, act) {
        GiveBackPlaced(c, s, i, m);
        GiveBackCounted(c, s, i, b);
      } else {
        HandOverPlaced(s, i, n.tasks[i], !act.Accept?, m);
        HandOverCounted(s, i, n.tasks[i], !act.Accept?, b);
      }
    }
  }

  lemma InvNext(c: Caps, s: State, step: Step, m: Measure, b: bool)
    requires Inv(c, s, m, b)
    ensures Inv(c, Next(c, s, step), m, b)
  {
    match step
    case RecordSample(outcome) =>
      RecordPlaced(c, s, outcome, m);
      RecordCounted(c, s, outcome, b);
    case RecordUsage(k, counts, now) => InvUsage(c, s, RecordEvents(s.ring, k, counts, now), m, b);
    case SpawnLoop => InvSpawn(c, s, Task(Starting, false, 0), m, b);
    case SpawnFlush => InvSpawn(c, s, Task(Flushing(0), false, 0), m, b);
    case On(i, act) => if i < |s.tasks| { InvTask(c, s, i, act, m, b); }
  }

  lemma InvUsage(c: Caps, s: State, r: Ring, m: Measure, b: bool)
    requires Inv(c, s, m, b) && r == s.ring.(events := r.events)
    ensures Inv(c, s.(ring := r), m, b)
  {
  }

  lemma InvSpawn(c: Caps, s: State, t: Task, m: Measure, b: bool)
    requires Inv(c, s, m, b) && Hand(t) == []
    ensures Inv(c, s.(tasks := s.tasks + [t]), m, b)
  {
    SpawnedHand(s.tasks, t);
  }

  lemma {:induction false} InvRun(c: Caps, steps: seq<Step>, m: Measure, b: bool)
    ensures Inv(c, Run(c, steps), m, b)
  {
    if steps == [] {
      AccountsSame(0);
    } else {
      InvRun(c, steps[..|steps| - 1], m, b);
      InvNext(c, Run(c, steps[..|steps| - 1]), steps[|steps| - 1], m, b);
    }
  }

  /** Samples and counts of a class in the reports of `bs`. */
  ghost function Billed(bs: seq<Batch>, b: bool): nat { Count(Cargo(bs), b) + Drops(bs, b) }

  lemma PlacedClass(s: State, b: bool)
    requires Weigh(Class(b), s.recorded) == Placed(s, Class(b))
    ensures Count(s.recorded, b) == Count(Cargo(s.queued), b) + Count(Cargo(InHand(s.tasks)), b)
                                  + Count(s.ring.samples, b) + Count(Cargo(s.lost), b) + Count(s.dropped, b)
  {
    WeighClass(s.recorded, b);
    WeighClass(Cargo(s.queued), b);
    WeighClass(Cargo(InHand(s.tasks)), b);
    WeighClass(s.ring.samples, b);
    WeighClass(Cargo(s.lost), b);
    WeighClass(s.dropped, b);
  }

  /** Everything the lane still answers for, and what a shutdown flush lost. */
  ghost function Held(s: State, b: bool): nat {
    Billed(s.queued, b) + Billed(InHand(s.tasks), b)
    + Count(s.ring.samples, b) + RingDrops(s.ring, b) + Billed(s.lost, b)
  }

  lemma HeldSplits(s: State, b: bool)
    requires Weigh(Class(b), s.recorded) == Placed(s, Class(b))
    ensures Count(s.recorded, b) >= Count(s.dropped, b)
    ensures Held(s, b) == Counted(s, b) + (Count(s.recorded, b) - Count(s.dropped, b))
  {
    PlacedClass(s, b);
  }

  /**
   * The ledger, for each billing class, under every interleaving: what was recorded is what is
   * queued, in hand, in the ring or lost, samples and drop counts together; exactly so while
   * fewer than 2^64 samples were recorded, and up to whole wraps of the counters after that.
   */
  lemma LedgerBalances(c: Caps, steps: seq<Step>, b: bool)
    ensures var s := Run(c, steps);
            && Accounts(Count(s.recorded, b), Held(s, b))
            && (|s.recorded| < 0x1_0000_0000_0000_0000 ==> Count(s.recorded, b) == Held(s, b))
  {
    InvRun(c, steps, Class(b), b);
    HeldAccounts(Run(c, steps), b);
  }

  lemma HeldAccounts(s: State, b: bool)
    requires Weigh(Class(b), s.recorded) == Placed(s, Class(b))
    requires Accounts(Count(s.dropped, b), Counted(s, b))
    ensures Accounts(Count(s.recorded, b), Held(s, b))
    ensures |s.recorded| < 0x1_0000_0000_0000_0000 ==> Count(s.recorded, b) == Held(s, b)
  {
    HeldSplits(s, b);
    AccountsShift(Count(s.dropped, b), Counted(s, b), Count(s.recorded, b), Held(s, b), |s.recorded|);
  }

  lemma AccountsShift(exact: nat, counted: nat, exactAll: nat, countedAll: nat, bound: nat)
    requires Accounts(exact, counted) && exact <= exactAll <= bound && countedAll == counted + (exactAll - exact)
    ensures Accounts(exactAll, countedAll)
    ensures bound < 0x1_0000_0000_0000_0000 ==> exactAll == countedAll
  {
    AccountsGrow(exact, counted, exactAll - exact);
    if bound < 0x1_0000_0000_0000_0000 {
      AccountsExact(exactAll, countedAll);
    }
  }

  /** A send that does not succeed: refused, or dropped by its cancelled task. */
  predicate Breaks(act: Act) { act.Refuse? || act.Cancel? }

  /** A shutdown flush at its send is refused, or dropped after an abort. */
  predicate Loses(s: State, step: Step) {
    && step.On? && step.task < |s.tasks| && s.tasks[step.task].pc.FlushSending?
    && (step.act.Refuse? || (step.act.Cancel? && s.tasks[step.task].aborting))
  }

  lemma StepLoses(c: Caps, s: State, step: Step)
    ensures |Next(c, s, step).lost| == |s.lost| + (if Loses(s, step) then 1 else 0)
  {
  }

  ghost predicate LosesAt(c: Caps, steps: seq<Step>, j: nat) {
    j < |steps| && Loses(Run(c, steps[..j]), steps[j])
  }

  /** Something is lost exactly when some shutdown flush was refused or dropped at its send. */
  lemma {:induction false} OnlyFlushLoses(c: Caps, steps: seq<Step>)
    ensures Run(c, steps).lost != [] <==> LosesSome(c, steps)
  {
    if steps != [] {
      OnlyFlushLoses(c, steps[..|steps| - 1]);
      StepLoses(c, Run(c, steps[..|steps| - 1]), steps[|steps| - 1]);
      LosesOn(c, steps);
    }
  }

  ghost predicate LosesSome(c: Caps, steps: seq<Step>) { exists j: nat :: LosesAt(c, steps, j) }

  lemma LosesBefore(c: Caps, steps: seq<Step>, j: nat)
    requires j < |steps| - 1
    ensures LosesAt(c, steps, j) <==> LosesAt(c, steps[..|steps| - 1], j)
  {
    assert steps[..|steps| - 1][..j] == steps[..j];
  }

  lemma LosesOn(c: Caps, steps: seq<Step>)
    requires steps != []
    ensures var pre := steps[..|steps| - 1];
            LosesSome(c, steps) <==> LosesSome(c, pre) || Loses(Run(c, pre), steps[|steps| - 1])
  {
    var pre, n := steps[..|steps| - 1], |steps| - 1;
    if j: nat :| LosesAt(c, pre, j) { LosesBefore(c, steps, j); }
    if j: nat :| LosesAt(c, steps, j) {
      if j < n { LosesBefore(c, steps, j); }
    }
    assert LosesAt(c, steps, n) <==> Loses(Run(c, pre), steps[n]);
  }

  // ---- Exactly one place -------------------------------------------------------------------

  ghost predicate Labelled(recorded: seq<Sample>) {
    forall i :: 0 <= i < |recorded| ==> recorded[i].call == i
  }

  lemma {:induction false} LabelledRun(c: Caps, steps: seq<Step>)
    ensures Labelled(Run(c, steps).recorded)
  {
    if steps != [] {
      LabelledRun(c, steps[..|steps| - 1]);
    }
  }

  lemma {:induction false} LabelledOnce(recorded: seq<Sample>, x: Sample)
    requires Labelled(recorded)
    ensures Weigh(Copies(x), recorded) == if x in recorded then 1 else 0
  {
    if recorded != [] {
      var n := |recorded| - 1;
      LabelledOnce(recorded[..n], x);
      assert recorded == recorded[..n] + [recorded[n]];
      assert x in recorded[..n] ==> x != recorded[n];
    }
  }

  ghost function Everywhere(s: State): multiset<Sample> {
    multiset(Cargo(s.queued)) + multiset(Cargo(InHand(s.tasks))) + multiset(s.ring.samples)
    + multiset(Cargo(s.lost)) + multiset(s.dropped)
  }

  /** However many batches are in flight, each recorded call is in exactly one place, and nothing else is anywhere. */
  lemma ExactlyOnePlace(c: Caps, steps: seq<Step>, x: Sample)
    ensures var s := Run(c, steps); Everywhere(s)[x] == if x in s.recorded then 1 else 0
  {
    var s := Run(c, steps);
    InvRun(c, steps, Copies(x), true);
    LabelledRun(c, steps);
    LabelledOnce(s.recorded, x);
    WeighCopies(Cargo(s.queued), x);
    WeighCopies(Cargo(InHand(s.tasks)), x);
    WeighCopies(s.ring.samples, x);
    WeighCopies(Cargo(s.lost), x);
    WeighCopies(s.dropped, x);
  }
}
