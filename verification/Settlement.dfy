/** What every shutdown flush that is not refused achieves, whatever else happens meanwhile. */
module Settlement {
  import opened Samples
  import opened MetricsRing
  import opened Lane
  import Ledger
  import Usage
  import Rounds
  import Alone
  import Order
  import Rollup

  /**
   * The steps while task `f` flushes: it is neither refused nor dropped, and no producer records.
   * Other tasks may be aborted, cancelled, woken or ticked, but drain nothing.
   */
  ghost predicate FlushOf(steps: seq<Step>, f: nat) {
    forall j :: 0 <= j < |steps| ==> Allowed(steps[j], f)
  }

  predicate Allowed(step: Step, f: nat) {
    step.On? && if step.task == f then !Ledger.Breaks(step.act) else !step.act.Drain?
  }

  /** What is left of `n` samples when `taken` could be shipped. */
  function Rest(n: nat, taken: nat): nat { if n <= taken then 0 else n - taken }

  /** No drop count and no event. */
  ghost predicate Told(r: Ring) { r.overflow == 0 && r.overflowNonBillable == 0 && r.events == Rollup.EMPTY }

  /** Where the flush stands, with `n` samples in the ring when it began. */
  ghost predicate Standing(c: Caps, r: Ring, pc: Pc, n: nat) {
    match pc
    case Flushing(done) => done < MAX_SHUTDOWN_FLUSH_BATCHES && |r.samples| == Rest(n, Rounds.Taken(c, done))
    case FlushSending(done, _) =>
      && done < MAX_SHUTDOWN_FLUSH_BATCHES && Told(r) && |r.samples| == Rest(n, Rounds.Taken(c, done + 1))
    case Done => Told(r) && |r.samples| == Rest(n, Rounds.Taken(c, MAX_SHUTDOWN_FLUSH_BATCHES))
    case _ => false
  }

  ghost predicate Inv(c: Caps, s: State, f: nat, n: nat) {
    && f < |s.tasks| && Standing(c, s.ring, s.tasks[f].pc, n) && s.lost == []
    && forall i :: 0 <= i < |s.tasks| && i != f ==> Hand(s.tasks[i]) == []
  }

  /** One drain takes one full batch more, or all there is. */
  lemma DrainRest(c: Caps, r: Ring, n: nat, done: nat)
    requires |r.samples| == Rest(n, Rounds.Taken(c, done))
    ensures |AfterDrain(c, r).samples| == Rest(n, Rounds.Taken(c, done + 1)) && Told(AfterDrain(c, r))
  {
  }

  /** A drain that finds nothing has left what any number of batches leaves. */
  lemma NothingFound(c: Caps, r: Ring, now: int, n: nat, done: nat)
    requires done < MAX_SHUTDOWN_FLUSH_BATCHES && |r.samples| == Rest(n, Rounds.Taken(c, done))
    requires Empty(Drained(c, r, now))
    ensures Standing(c, AfterDrain(c, r), Done, n)
  {
    Rounds.TakenGrows(c, done, MAX_SHUTDOWN_FLUSH_BATCHES);
    if c.batchCap == 0 { SameTaken(c, done, MAX_SHUTDOWN_FLUSH_BATCHES); }
  }

  lemma {:induction false} SameTaken(c: Caps, m: nat, n: nat)
    requires c.batchCap == 0 && m <= n
    ensures Rounds.Taken(c, m) == Rounds.Taken(c, n)
  {
    if m < n { SameTaken(c, m, n - 1); }
  }

  lemma FlusherNext(c: Caps, s: State, f: nat, act: Act, n: nat)
    requires Inv(c, s, f, n) && !Ledger.Breaks(act)
    ensures var m := TaskNext(c, s, f, act);
            && |m.tasks| == |s.tasks| && Standing(c, m.ring, m.tasks[f].pc, n) && m.lost == []
            && m.recorded == s.recorded && (forall i :: 0 <= i < |s.tasks| && i != f ==> m.tasks[i] == s.tasks[i])
  {
    var pc := s.tasks[f].pc;
    if act.Drain? && pc.Flushing? {
      DrainRest(c, s.ring, n, pc.done);
      if Empty(Drained(c, s.ring, act.now)) { NothingFound(c, s.ring, act.now, n, pc.done); }
    }
  }

  lemma OtherNext(c: Caps, s: State, f: nat, i: nat, act: Act, n: nat)
    requires Inv(c, s, f, n) && i < |s.tasks| && i != f && !act.Drain?
    ensures Inv(c, TaskNext(c, s, i, act), f, n) && TaskNext(c, s, i, act).recorded == s.recorded
  {
    assert Hand(s.tasks[i]) == [];
    Ledger.QuietStep(c, s, i, act);
  }

  lemma InvNext(c: Caps, s: State, f: nat, step: Step, n: nat)
    requires Inv(c, s, f, n) && Allowed(step, f)
    ensures Inv(c, Next(c, s, step), f, n) && Next(c, s, step).recorded == s.recorded
  {
    if step.task == f {
      FlusherNext(c, s, f, step.act, n);
    } else if step.task < |s.tasks| {
      OtherNext(c, s, f, step.task, step.act, n);
    }
  }

  /** The flush starts with nothing in hand or lost. */
  lemma InvStart(c: Caps, pre: seq<Step>)
    requires InHand(Run(c, pre).tasks) == [] && Run(c, pre).lost == []
    ensures var s := Run(c, pre); Inv(c, Run(c, pre + [SpawnFlush]), |s.tasks|, |s.ring.samples|)
    ensures Run(c, pre + [SpawnFlush]).recorded == Run(c, pre).recorded
  {
    RunSnoc(c, pre, SpawnFlush);
    InvSpawn(c, Run(c, pre));
  }

  lemma InvSpawn(c: Caps, s: State)
    requires InHand(s.tasks) == [] && s.lost == []
    ensures var n := Next(c, s, SpawnFlush); Inv(c, n, |s.tasks|, |s.ring.samples|) && n.recorded == s.recorded
  {
    NothingHeld(s.tasks);
  }

  lemma {:induction false} InvRun(c: Caps, pre: seq<Step>, steps: seq<Step>)
    requires InHand(Run(c, pre).tasks) == [] && Run(c, pre).lost == [] && FlushOf(steps, |Run(c, pre).tasks|)
    ensures var s, m := Run(c, pre), Run(c, pre + [SpawnFlush] + steps);
            Inv(c, m, |s.tasks|, |s.ring.samples|) && m.recorded == s.recorded
  {
    var s := Run(c, pre);
    if steps == [] {
      assert pre + [SpawnFlush] + steps == pre + [SpawnFlush];
      InvStart(c, pre);
    } else {
      var init := steps[..|steps| - 1];
      InvRun(c, pre, init);
      RunLast(c, pre + [SpawnFlush], steps);
      InvNext(c, Run(c, pre + [SpawnFlush] + init), |s.tasks|, steps[|steps| - 1], |s.ring.samples|);
    }
  }

  predicate HasEnded(s: State, f: nat) { f < |s.tasks| && s.tasks[f].pc.Done? }

  /** What a finished flush leaves. */
  lemma Finished(c: Caps, m: State, f: nat, n: nat)
    requires Inv(c, m, f, n) && HasEnded(m, f)
    ensures InHand(m.tasks) == [] && m.lost == [] && Told(m.ring)
    ensures Emptied(m.ring) <==> n <= 16 * c.batchCap
  {
    forall t | t in m.tasks ensures Hand(t) == [] {
      var i :| 0 <= i < |m.tasks| && m.tasks[i] == t;
    }
    Order.EmptyHands(m.tasks);
    Rounds.TakenIsProduct(c, MAX_SHUTDOWN_FLUSH_BATCHES);
  }

  lemma RestOfAccount(m: State, b: bool)
    requires InHand(m.tasks) == [] && m.lost == [] && Told(m.ring)
    ensures Ledger.Held(m, b) == Count(Cargo(m.queued), b) + Drops(m.queued, b) + Count(m.ring.samples, b)
  {
  }

  /**
   * From every reachable state with nothing in flight and nothing lost, every shutdown flush that is
   * neither refused nor dropped has, once it is done, nothing in hand, nothing lost, and every drop
   * count and all usage ever recorded in the queued reports. The ring is empty exactly when it fitted
   * in sixteen batches; then, for each billing class, all that was ever recorded is in the queued
   * reports, as a sample or as a count, and otherwise the rest is in the ring.
   */
  lemma ShutdownSettlesAll(c: Caps, pre: seq<Step>, steps: seq<Step>)
    requires InHand(Run(c, pre).tasks) == [] && Run(c, pre).lost == [] && FlushOf(steps, |Run(c, pre).tasks|)
    requires |Run(c, pre).recorded| < 0x1_0000_0000_0000_0000
    requires HasEnded(Run(c, pre + [SpawnFlush] + steps), |Run(c, pre).tasks|)
    ensures var s, m := Run(c, pre), Run(c, pre + [SpawnFlush] + steps);
            && m.recorded == s.recorded && InHand(m.tasks) == [] && m.lost == [] && Told(m.ring)
            && (Emptied(m.ring) <==> |s.ring.samples| <= 16 * c.batchCap)
            && (forall b :: Count(m.recorded, b)
                         == Count(Cargo(m.queued), b) + Drops(m.queued, b) + Count(m.ring.samples, b))
            && (forall k, f :: Usage.Recorded(pre, k, f) < 0x1_0000_0000_0000_0000 ==>
                  Tally(UsageGauge(k, f), m.queued) == Usage.Recorded(pre, k, f))
  {
    InvRun(c, pre, steps);
    Finished(c, Run(c, pre + [SpawnFlush] + steps), |Run(c, pre).tasks|, |Run(c, pre).ring.samples|);
    assert pre + [SpawnFlush] + steps == pre + ([SpawnFlush] + steps);
    Accounted(c, pre, [SpawnFlush] + steps, pre + [SpawnFlush] + steps);
  }

  /** With nothing in hand, lost or untold, the ledgers are in the queue and the ring. */
  lemma Accounted(c: Caps, pre: seq<Step>, more: seq<Step>, all: seq<Step>)
    requires all == pre + more && forall j :: 0 <= j < |more| ==> !more[j].RecordUsage?
    requires InHand(Run(c, all).tasks) == [] && Run(c, all).lost == [] && Told(Run(c, all).ring)
    requires |Run(c, all).recorded| < 0x1_0000_0000_0000_0000
    ensures var m := Run(c, all);
            forall b :: Count(m.recorded, b)
                     == Count(Cargo(m.queued), b) + Drops(m.queued, b) + Count(m.ring.samples, b)
    ensures forall k, f :: Usage.Recorded(pre, k, f) < 0x1_0000_0000_0000_0000 ==>
              Tally(UsageGauge(k, f), Run(c, all).queued) == Usage.Recorded(pre, k, f)
  {
    var m := Run(c, all);
    forall b ensures Count(m.recorded, b)
                  == Count(Cargo(m.queued), b) + Drops(m.queued, b) + Count(m.ring.samples, b) {
      ClassSettled(c, all, b);
    }
    forall k, f | Usage.Recorded(pre, k, f) < 0x1_0000_0000_0000_0000
      ensures Tally(UsageGauge(k, f), m.queued) == Usage.Recorded(pre, k, f)
    {
      UsageSettled(c, pre, more, all, k, f);
    }
  }

  lemma ClassSettled(c: Caps, all: seq<Step>, b: bool)
    requires InHand(Run(c, all).tasks) == [] && Run(c, all).lost == [] && Told(Run(c, all).ring)
    requires |Run(c, all).recorded| < 0x1_0000_0000_0000_0000
    ensures var m := Run(c, all);
            Count(m.recorded, b) == Count(Cargo(m.queued), b) + Drops(m.queued, b) + Count(m.ring.samples, b)
  {
    Ledger.LedgerBalances(c, all, b);
    RestOfAccount(Run(c, all), b);
  }

  lemma UsageSettled(c: Caps, pre: seq<Step>, more: seq<Step>, all: seq<Step>, k: Rollup.Key, f: Rollup.Field)
    requires all == pre + more && forall j :: 0 <= j < |more| ==> !more[j].RecordUsage?
    requires InHand(Run(c, all).tasks) == [] && Run(c, all).lost == [] && Told(Run(c, all).ring)
    requires Usage.Recorded(pre, k, f) < 0x1_0000_0000_0000_0000
    ensures Tally(UsageGauge(k, f), Run(c, all).queued) == Usage.Recorded(pre, k, f)
  {
    Usage.RecordedSame(pre, more, k, f);
    Usage.UsageBalances(c, all, k, f);
  }

  /** There always is such a run: the flush's own, with every send accepted. */
  lemma FlushCanFinish(c: Caps, pre: seq<Step>, now: int) returns (steps: seq<Step>)
    ensures FlushOf(steps, |Run(c, pre).tasks|)
    ensures HasEnded(Run(c, pre + [SpawnFlush] + steps), |Run(c, pre).tasks|)
  {
    var s, n := Run(c, pre), MAX_SHUTDOWN_FLUSH_BATCHES;
    RunSnoc(c, pre, SpawnFlush);
    steps := Alone.FlushIsRun(c, Next(c, s, SpawnFlush), |s.tasks|, now, n, n);
    RunOn(c, pre + [SpawnFlush], steps);
  }
}
