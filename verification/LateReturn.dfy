/** What late cancellations bring back after a shutdown flush has finished. */
module LateReturn {
  import opened Words
  import opened Samples
  import opened MetricsRing
  import opened Lane
  import Ledger

  // ---- What a returned batch leaves in the ring --------------------------------------------------

  /** Below 2^64 a batch with anything in it leaves a ring with something in it. */
  lemma ReturnShows(c: Caps, r: Ring, b: Batch)
    requires forall x :: RingDrops(r, x) + Count(b.samples, x) + BatchDrops(b, x) < 0x1_0000_0000_0000_0000
    requires !Empty(b)
    ensures !Emptied(RequeueFront(c, r, b))
  {
    var k := PutBack(c, r.samples, b.samples);
    if b.rows.counts == map[] && k.samples == [] {
      assert k.dropped == b.samples;
      ClassesPartition(b.samples);
      ExactReturn(r, b, true);
      ExactReturn(r, b, false);
    }
  }

  lemma ExactReturn(r: Ring, b: Batch, x: bool)
    requires RingDrops(r, x) + Count(b.samples, x) + BatchDrops(b, x) < 0x1_0000_0000_0000_0000
    ensures WrapAdd(WrapAdd(RingDrops(r, x), Count(b.samples, x)), BatchDrops(b, x))
         == RingDrops(r, x) + Count(b.samples, x) + BatchDrops(b, x)
  {
  }

  /** A batch in hand carries no more than was recorded. */
  lemma HandWithin(c: Caps, pre: seq<Step>, i: nat, x: bool)
    requires |Run(c, pre).recorded| < 0x1_0000_0000_0000_0000
    requires i < |Run(c, pre).tasks| && Run(c, pre).tasks[i].pc.Sending?
    ensures var s, b := Run(c, pre), Run(c, pre).tasks[i].pc.batch;
            RingDrops(s.ring, x) + Count(b.samples, x) + BatchDrops(b, x) < 0x1_0000_0000_0000_0000
  {
    var s, b := Run(c, pre), Run(c, pre).tasks[i].pc.batch;
    Ledger.LedgerBalances(c, pre, x);
    OneOfHands(s.tasks, i, x);
    OneBatch(b, x);
  }

  lemma OneOfHands(tasks: seq<Task>, i: nat, x: bool)
    requires i < |tasks|
    ensures Ledger.Billed(Hand(tasks[i]), x) <= Ledger.Billed(InHand(tasks), x)
  {
    var t := tasks[i].(pc := Done);
    HandTally(DropGauge(x), tasks, i, t);
    HandLoad(Class(x), tasks, i, t);
    WeighClass(Cargo(InHand(tasks)), x);
    WeighClass(Cargo(Hand(tasks[i])), x);
  }

  // ---- Batches in hand are never empty -----------------------------------------------------------

  ghost predicate NoEmptyHands(s: State) {
    forall i :: 0 <= i < |s.tasks| && Hand(s.tasks[i]) != [] ==> !Empty(s.tasks[i].pc.batch)
  }

  lemma NoEmptyHandsNext(c: Caps, s: State, step: Step)
    requires NoEmptyHands(s)
    ensures NoEmptyHands(Next(c, s, step))
  {
    if step.On? && step.task < |s.tasks| {
      var i := step.task;
      if Ledger.Moves(s.tasks[i], step.act) {
        Ledger.MovingStep(c, s, i, step.act);
      } else {
        Ledger.QuietStep(c, s, i, step.act);
      }
    }
  }

  lemma {:induction false} NoEmptyHandsRun(c: Caps, steps: seq<Step>)
    ensures NoEmptyHands(Run(c, steps))
  {
    if steps != [] {
      NoEmptyHandsRun(c, steps[..|steps| - 1]);
      NoEmptyHandsNext(c, Run(c, steps[..|steps| - 1]), steps[|steps| - 1]);
    }
  }

  // ---- Cancellations -----------------------------------------------------------------------------

  /** Nothing is owed: the ring is empty, no task holds a batch, and no more was lost. */
  ghost predicate Paid(s: State, lost: nat) { Emptied(s.ring) && InHand(s.tasks) == [] && |s.lost| <= lost }

  lemma Holds(tasks: seq<Task>, i: nat)
    requires i < |tasks| && Hand(tasks[i]) != []
    ensures InHand(tasks) != []
  {
    HandSplit(tasks, i, tasks[i]);
  }

  lemma CancelNext(c: Caps, pre: seq<Step>, i: nat, lost: nat)
    requires |Run(c, pre).recorded| < 0x1_0000_0000_0000_0000 && lost <= |Run(c, pre).lost|
    ensures var s := Run(c, pre);
            var n := Next(c, s, On(i, Cancel));
            && n.recorded == s.recorded && s.lost <= n.lost
            && (Paid(n, lost) <==> Paid(s, lost))
  {
    var s := Run(c, pre);
    if i < |s.tasks| && s.tasks[i].aborting && Cancellable(s.tasks[i].pc) {
      if s.tasks[i].pc.Sending? {
        Holds(s.tasks, i);
        NoEmptyHandsRun(c, pre);
        forall x ensures var b := s.tasks[i].pc.batch;
                         RingDrops(s.ring, x) + Count(b.samples, x) + BatchDrops(b, x) < 0x1_0000_0000_0000_0000 {
          HandWithin(c, pre, i, x);
        }
        ReturnShows(c, s.ring, s.tasks[i].pc.batch);
      } else if s.tasks[i].pc.FlushSending? {
        Holds(s.tasks, i);
      } else {
        HandSplit(s.tasks, i, s.tasks[i].(pc := Done));
      }
    }
  }

  ghost predicate OnlyCancels(steps: seq<Step>) {
    forall j :: 0 <= j < |steps| ==> steps[j].On? && steps[j].act.Cancel?
  }

  lemma {:induction false} CancelsKeep(c: Caps, pre: seq<Step>, steps: seq<Step>)
    requires |Run(c, pre).recorded| < 0x1_0000_0000_0000_0000 && OnlyCancels(steps)
    ensures var s, n := Run(c, pre), Run(c, pre + steps);
            && n.recorded == s.recorded && s.lost <= n.lost
            && (Paid(n, |s.lost|) <==> Paid(s, |s.lost|))
  {
    if steps == [] {
      assert pre + steps == pre;
    } else {
      var init, last := steps[..|steps| - 1], steps[|steps| - 1];
      CancelsKeep(c, pre, init);
      CancelNext(c, pre + init, last.task, |Run(c, pre).lost|);
      RunLast(c, pre, steps);
    }
  }

  /**
   * Once every late cancellation has landed on a ring that a finished flush left empty, everything
   * recorded is still out, with nothing back in the ring (samples, drop counts and events alike) and
   * nothing lost, exactly when no task had a batch in hand. So the flush is complete only if the
   * aborted tasks were waited for.
   */
  lemma LateReturnIff(c: Caps, pre: seq<Step>, steps: seq<Step>)
    requires |Run(c, pre).recorded| < 0x1_0000_0000_0000_0000 && Emptied(Run(c, pre).ring)
    requires OnlyCancels(steps) && InHand(Run(c, pre + steps).tasks) == []
    ensures var s, n := Run(c, pre), Run(c, pre + steps);
            Emptied(n.ring) && n.lost == s.lost <==> InHand(s.tasks) == []
  {
    CancelsKeep(c, pre, steps);
  }

  /** When no flush is at its send, a late cancellation can only return: nothing is lost to it. */
  ghost predicate NoFlushHand(s: State) {
    forall i :: 0 <= i < |s.tasks| ==> !s.tasks[i].pc.FlushSending?
  }

  lemma CancelLosesNothing(c: Caps, s: State, i: nat)
    requires NoFlushHand(s)
    ensures var n := Next(c, s, On(i, Cancel)); NoFlushHand(n) && n.lost == s.lost
  {
  }

  lemma {:induction false} CancelsLoseNothing(c: Caps, pre: seq<Step>, steps: seq<Step>)
    requires OnlyCancels(steps) && NoFlushHand(Run(c, pre))
    ensures var n := Run(c, pre + steps); NoFlushHand(n) && n.lost == Run(c, pre).lost
  {
    if steps == [] {
      assert pre + steps == pre;
    } else {
      var init, last := steps[..|steps| - 1], steps[|steps| - 1];
      CancelsLoseNothing(c, pre, init);
      CancelLosesNothing(c, Run(c, pre + init), last.task);
      RunLast(c, pre, steps);
    }
  }

  /** After the flush has finished, the ring stays empty exactly when no loop had a batch in hand. */
  lemma RingStaysEmptyIff(c: Caps, pre: seq<Step>, steps: seq<Step>)
    requires |Run(c, pre).recorded| < 0x1_0000_0000_0000_0000
    requires Emptied(Run(c, pre).ring) && NoFlushHand(Run(c, pre))
    requires OnlyCancels(steps) && InHand(Run(c, pre + steps).tasks) == []
    ensures Emptied(Run(c, pre + steps).ring) <==> InHand(Run(c, pre).tasks) == []
  {
    LateReturnIff(c, pre, steps);
    CancelsLoseNothing(c, pre, steps);
  }
}
