/** The ledger of MCP Events usage over every run of the lane. */
module Usage {
  import opened Words
  import opened MetricsRing
  import opened Lane
  import opened Ledger
  import opened U = Rollup

  /** The exact total recorded under one (event, mode), read off the steps. */
  ghost function Recorded(steps: seq<Lane.Step>, k: Key, f: Field): nat {
    if steps == [] then 0 else Recorded(steps[..|steps| - 1], k, f) + Adds(steps[|steps| - 1], k, f)
  }

  function Adds(step: Lane.Step, k: Key, f: Field): nat {
    if step.RecordUsage? && step.key == k then Of(step.counts, f) else 0
  }

  /** The total that stands somewhere: queued, in hand, in the ring, or lost. */
  ghost function Standing(s: Lane.State, k: Key, f: Field): nat {
    var g := UsageGauge(k, f);
    Tally(g, s.queued) + Tally(g, Lane.InHand(s.tasks)) + RingReading(g, s.ring) + Tally(g, s.lost)
  }

  lemma OfAdd(a: EventCounts, b: EventCounts, f: Field)
    ensures Of(Add(a, b), f) == SatAdd(Of(a, f), Of(b, f))
  {
  }

  lemma MergedGet(r: U.Rollup, rows: Rows, k: Key, f: Field)
    ensures Of(Get(Merge(r, rows).counts, k), f) == SatAdd(Of(Get(r.counts, k), f), Of(Get(rows.counts, k), f))
  {
    OfAdd(Get(r.counts, k), Get(rows.counts, k), f);
  }

  lemma RecordStands(s: Lane.State, key: Key, counts: EventCounts, now: int, k: Key, f: Field)
    ensures var before := RingReading(UsageGauge(k, f), s.ring);
            RingReading(UsageGauge(k, f), MetricsRing.RecordEvents(s.ring, key, counts, now))
            == if key == k then SatAdd(before, Of(counts, f)) else before
  {
    OfAdd(Get(s.ring.events.counts, key), counts, f);
  }

  lemma DrainStands(c: Caps, s: Lane.State, i: nat, now: int, k: Key, f: Field)
    requires i < |s.tasks| && (s.tasks[i].pc.Draining? || s.tasks[i].pc.Flushing?)
    ensures Standing(DrainOne(c, s, i, now), k, f) == Standing(s, k, f)
  {
    var g := UsageGauge(k, f);
    DrainTask(c, s, i, now, true);
    HandTally(g, s.tasks, i, DrainOne(c, s, i, now).tasks[i]);
    DrainReads(g, c, s.ring, now);
    TallyOne(g, Drained(c, s.ring, now));
  }

  /** A returned batch merges its rows, saturating. */
  lemma GiveBackStands(c: Caps, s: Lane.State, i: nat, k: Key, f: Field)
    requires i < |s.tasks| && s.tasks[i].pc.Sending?
    ensures Standing(GiveBack(c, s, i), k, f) <= Standing(s, k, f)
    ensures Standing(s, k, f) < 0x1_0000_0000_0000_0000 ==> Standing(GiveBack(c, s, i), k, f) == Standing(s, k, f)
  {
    var g, batch := UsageGauge(k, f), s.tasks[i].pc.batch;
    HandTally(g, s.tasks, i, s.tasks[i].(pc := Done));
    TallyOne(g, batch);
    MergedGet(s.ring.events, batch.rows, k, f);
  }

  lemma HandOverStands(s: Lane.State, i: nat, t: Task, lost: bool, k: Key, f: Field)
    requires i < |s.tasks| && (s.tasks[i].pc.Sending? || s.tasks[i].pc.FlushSending?) && Hand(t) == []
    ensures Standing(HandOver(s, i, t, lost), k, f) == Standing(s, k, f)
  {
    var g, batch := UsageGauge(k, f), s.tasks[i].pc.batch;
    HandTally(g, s.tasks, i, t);
    if lost { TallyConcat(g, s.lost, [batch]); } else { TallyConcat(g, s.queued, [batch]); }
  }

  /** A step of a task moves usage about, and can only lose it by saturating. */
  lemma TaskStands(c: Caps, s: Lane.State, i: nat, act: Act, k: Key, f: Field)
    requires i < |s.tasks|
    ensures var n := TaskNext(c, s, i, act);
            && Standing(n, k, f) <= Standing(s, k, f)
            && (Standing(s, k, f) < 0x1_0000_0000_0000_0000 ==> Standing(n, k, f) == Standing(s, k, f))
  {
    var t, n := s.tasks[i], TaskNext(c, s, i, act);
    if !Moves(t, act) {
      QuietStep(c, s, i, act);
      HandTally(UsageGauge(k, f), s.tasks, i, n.tasks[i]);
    } else {
      MovingStep(c, s, i, act);
      if act.Drain? {
        DrainStands(c, s, i, act.now, k, f);
      } else if Returns(t, act) {
        GiveBackStands(c, s, i, k, f);
      } else {
        HandOverStands(s, i, n.tasks[i], !act.Accept?, k, f);
      }
    }
  }

  lemma NextStands(c: Caps, s: Lane.State, step: Lane.Step, k: Key, f: Field)
    ensures var n, all := Lane.Next(c, s, step), Standing(s, k, f) + Adds(step, k, f);
            Standing(n, k, f) <= all && (all < 0x1_0000_0000_0000_0000 ==> Standing(n, k, f) == all)
  {
    match step
    case RecordSample(_) =>
    case RecordUsage(key, counts, now) => RecordStands(s, key, counts, now, k, f);
    case SpawnLoop => SpawnedHand(s.tasks, Task(Starting, false, 0));
    case SpawnFlush => SpawnedHand(s.tasks, Task(Flushing(0), false, 0));
    case On(i, act) => if i < |s.tasks| { TaskStands(c, s, i, act, k, f); }
  }

  /**
   * The usage ledger, for each (event, mode) and each count, under every interleaving: what was
   * recorded is queued, in hand, in the ring or lost; exactly so while the total recorded is below
   * 2^64, and never more than that beyond.
   */
  lemma {:induction false} UsageBalances(c: Caps, steps: seq<Lane.Step>, k: Key, f: Field)
    ensures Standing(Lane.Run(c, steps), k, f) <= Recorded(steps, k, f)
    ensures Recorded(steps, k, f) < 0x1_0000_0000_0000_0000 ==>
              Standing(Lane.Run(c, steps), k, f) == Recorded(steps, k, f)
  {
    if steps != [] {
      var pre, step := steps[..|steps| - 1], steps[|steps| - 1];
      UsageBalances(c, pre, k, f);
      NextStands(c, Lane.Run(c, pre), step, k, f);
    }
  }

  /** Steps of tasks record nothing. */
  lemma {:induction false} RecordedSame(pre: seq<Lane.Step>, more: seq<Lane.Step>, k: Key, f: Field)
    requires forall j :: 0 <= j < |more| ==> !more[j].RecordUsage?
    ensures Recorded(pre + more, k, f) == Recorded(pre, k, f)
  {
    if more == [] {
      assert pre + more == pre;
    } else {
      RecordedSame(pre, more[..|more| - 1], k, f);
      assert (pre + more)[..|pre + more| - 1] == pre + more[..|more| - 1];
    }
  }
}
