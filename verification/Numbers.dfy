/** Report numbers: no number is ever used for two reports. */
module Numbers {
  import opened MetricsRing
  import opened Lane
  import opened Ledger

  ghost function Uses(bs: seq<Batch>, n: nat): nat { Tally(NumberGauge(n), bs) }

  /** How often a number is on a report that is queued, in hand or lost. */
  ghost function Used(s: State, n: nat): nat { Uses(s.queued, n) + Uses(InHand(s.tasks), n) + Uses(s.lost, n) }

  /** A number is used at most once, and none before it is drawn; numbers start at one. */
  ghost predicate Fresh(s: State, n: nat) { Used(s, n) <= 1 && (n == 0 || n > s.ring.seqNo ==> Used(s, n) == 0) }

  lemma DrainDraws(c: Caps, s: State, i: nat, now: int, n: nat)
    requires i < |s.tasks| && (s.tasks[i].pc.Draining? || s.tasks[i].pc.Flushing?)
    ensures var m := DrainOne(c, s, i, now);
            && |m.tasks| == |s.tasks| && m == SetTask(s, i, m.tasks[i]).(ring := AfterDrain(c, s.ring))
            && Uses(Hand(s.tasks[i]), n) == 0
            && Uses(Hand(m.tasks[i]), n) <= (if n == s.ring.seqNo + 1 then 1 else 0)
  {
    TallyOne(NumberGauge(n), Drained(c, s.ring, now));
  }

  lemma DrainFresh(c: Caps, s: State, i: nat, now: int, n: nat)
    requires Fresh(s, n) && i < |s.tasks| && (s.tasks[i].pc.Draining? || s.tasks[i].pc.Flushing?)
    ensures Fresh(DrainOne(c, s, i, now), n)
  {
    DrainDraws(c, s, i, now, n);
    HandTally(NumberGauge(n), s.tasks, i, DrainOne(c, s, i, now).tasks[i]);
  }

  lemma GiveBackFresh(c: Caps, s: State, i: nat, n: nat)
    requires Fresh(s, n) && i < |s.tasks| && s.tasks[i].pc.Sending?
    ensures Fresh(GiveBack(c, s, i), n)
  {
    HandTally(NumberGauge(n), s.tasks, i, s.tasks[i].(pc := Done));
  }

  lemma HandOverFresh(s: State, i: nat, t: Task, lost: bool, n: nat)
    requires Fresh(s, n) && i < |s.tasks| && (s.tasks[i].pc.Sending? || s.tasks[i].pc.FlushSending?) && Hand(t) == []
    ensures Fresh(HandOver(s, i, t, lost), n)
  {
    var batch := s.tasks[i].pc.batch;
    HandTally(NumberGauge(n), s.tasks, i, t);
    if lost { TallyConcat(NumberGauge(n), s.lost, [batch]); } else { TallyConcat(NumberGauge(n), s.queued, [batch]); }
  }

  lemma TaskFresh(c: Caps, s: State, i: nat, act: Act, n: nat)
    requires Fresh(s, n) && i < |s.tasks|
    ensures Fresh(TaskNext(c, s, i, act), n)
  {
    var t, m := s.tasks[i], TaskNext(c, s, i, act);
    if !Moves(t, act) {
      QuietStep(c, s, i, act);
      HandTally(NumberGauge(n), s.tasks, i, m.tasks[i]);
    } else {
      MovingStep(c, s, i, act);
      if act.Drain? {
        DrainFresh(c, s, i, act.now, n);
      } else if Returns(t, act) {
        GiveBackFresh(c, s, i, n);
      } else {
        HandOverFresh(s, i, m.tasks[i], !act.Accept?, n);
      }
    }
  }

  lemma SpawnFresh(s: State, t: Task, n: nat)
    requires Fresh(s, n) && Hand(t) == []
    ensures Fresh(s.(tasks := s.tasks + [t]), n)
  {
    SpawnedHand(s.tasks, t);
  }

  lemma NextFresh(c: Caps, s: State, step: Step, n: nat)
    requires Fresh(s, n)
    ensures Fresh(Next(c, s, step), n)
  {
    match step
    case RecordSample(_) =>
    case RecordUsage(_, _, _) =>
    case SpawnLoop => SpawnFresh(s, Task(Starting, false, 0), n);
    case SpawnFlush => SpawnFresh(s, Task(Flushing(0), false, 0), n);
    case On(i, act) => if i < |s.tasks| { TaskFresh(c, s, i, act, n); }
  }

  lemma {:induction false} FreshRun(c: Caps, steps: seq<Step>, n: nat)
    ensures Fresh(Run(c, steps), n)
  {
    if steps != [] {
      FreshRun(c, steps[..|steps| - 1], n);
      NextFresh(c, Run(c, steps[..|steps| - 1]), steps[|steps| - 1], n);
    }
  }

  lemma {:induction false} UsesAt(bs: seq<Batch>, i: nat, n: nat)
    requires i < |bs| && bs[i].seqNo == n
    ensures Uses(bs, n) >= 1
  {
    if i < |bs| - 1 { UsesAt(bs[..|bs| - 1], i, n); }
  }

  lemma {:induction false} UsesTwice(bs: seq<Batch>, i: nat, j: nat, n: nat)
    requires i < j < |bs| && bs[i].seqNo == n && bs[j].seqNo == n
    ensures Uses(bs, n) >= 2
  {
    var init := bs[..|bs| - 1];
    if j < |bs| - 1 { UsesTwice(init, i, j, n); } else { UsesAt(init, i, n); }
  }

  /** In no run do two queued reports carry the same number, batches that came back and were drained again included. */
  lemma NumberedOnce(c: Caps, steps: seq<Step>, i: nat, j: nat)
    requires i < j < |Run(c, steps).queued|
    ensures Run(c, steps).queued[i].seqNo != Run(c, steps).queued[j].seqNo
    ensures 0 < Run(c, steps).queued[j].seqNo <= Run(c, steps).ring.seqNo
  {
    var s := Run(c, steps);
    FreshRun(c, steps, s.queued[j].seqNo);
    UsesAt(s.queued, j, s.queued[j].seqNo);
    if s.queued[i].seqNo == s.queued[j].seqNo { UsesTwice(s.queued, i, j, s.queued[j].seqNo); }
  }
}
