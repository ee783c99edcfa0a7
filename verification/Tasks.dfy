/** The life of a task: when an abort lands, what it ends, and what a wake-up costs. */
module Tasks {
  import opened MetricsRing
  import opened Lane

  /** A cancellation lands exactly on an aborted task at an await, and ends it; else nothing happens. */
  lemma CancelLands(c: Caps, s: State, i: nat)
    requires i < |s.tasks|
    ensures var t, n := s.tasks[i], Next(c, s, On(i, Cancel));
            if t.aborting && (t.pc.Starting? || t.pc.Waiting? || t.pc.Spacing? || t.pc.Sending? || t.pc.FlushSending?)
            then |n.tasks| == |s.tasks| && n.tasks[i].pc == Done
            else n == s
  {
  }

  /** What moves a task on from where it stands, as its code is written. */
  predicate MovesOn(s: State, t: Task, act: Act) {
    match t.pc
    case Starting => act.Tick? || (act.Cancel? && t.aborting)
    case Draining(_) => act.Drain?
    case Sending(_, _) => act.Accept? || act.Refuse? || (act.Cancel? && t.aborting)
    case Waiting => act.Tick? || (act.Wake? && s.permit) || (act.Cancel? && t.aborting)
    case Spacing => act.SpacingOver? || (act.Cancel? && t.aborting)
    case Flushing(_) => act.Drain?
    case FlushSending(_, _) => act.Accept? || act.Refuse? || (act.Cancel? && t.aborting)
    case Done => false
  }

  /**
   * A task moves on exactly by its own enabled steps: no step of another task, no record and no tick
   * during the early-flush spacing moves it.
   */
  lemma MovesOnIff(c: Caps, s: State, i: nat, step: Step)
    requires i < |s.tasks|
    ensures i < |Next(c, s, step).tasks|
    ensures Next(c, s, step).tasks[i].pc != s.tasks[i].pc
       <==> step.On? && step.task == i && MovesOn(s, s.tasks[i], step.act)
  {
    if step.On? && step.task < |s.tasks| && step.task == i { OwnStep(c, s, i, step.act); }
  }

  lemma OwnStep(c: Caps, s: State, i: nat, act: Act)
    requires i < |s.tasks|
    ensures i < |TaskNext(c, s, i, act).tasks|
    ensures TaskNext(c, s, i, act).tasks[i].pc != s.tasks[i].pc <==> MovesOn(s, s.tasks[i], act)
  {
  }

  lemma DoneNext(c: Caps, s: State, i: nat, step: Step)
    requires i < |s.tasks| && s.tasks[i].pc.Done?
    ensures var n := Next(c, s, step); i < |n.tasks| && n.tasks[i] == s.tasks[i]
  {
  }

  lemma {:induction false} DoneStays(c: Caps, pre: seq<Step>, more: seq<Step>, i: nat)
    requires i < |Run(c, pre).tasks| && Run(c, pre).tasks[i].pc.Done?
    ensures i < |Run(c, pre + more).tasks| && Run(c, pre + more).tasks[i].pc.Done?
  {
    if more == [] {
      assert pre + more == pre;
    } else {
      var init := more[..|more| - 1];
      DoneStays(c, pre, init, i);
      RunLast(c, pre, more);
      DoneNext(c, Run(c, pre + init), i, more[|more| - 1]);
    }
  }

  /** An aborted task whose cancellation lands is over for good, whatever it was waiting for. */
  lemma CancelEnds(c: Caps, steps: seq<Step>, i: nat, more: seq<Step>)
    requires i < |Run(c, steps).tasks| && Run(c, steps).tasks[i].aborting
    requires var pc := Run(c, steps).tasks[i].pc;
             pc.Starting? || pc.Waiting? || pc.Spacing? || pc.Sending? || pc.FlushSending?
    ensures var n := Run(c, steps + [On(i, Cancel)] + more); i < |n.tasks| && n.tasks[i].pc.Done?
  {
    RunSnoc(c, steps, On(i, Cancel));
    CancelLands(c, Run(c, steps), i);
    DoneStays(c, steps + [On(i, Cancel)], more, i);
  }

  // ---- Who is aborted ----------------------------------------------------------------------------

  /** The abort of step `j` found task `i` alive. */
  ghost predicate AbortedAt(c: Caps, steps: seq<Step>, i: nat, j: nat) {
    && j < |steps| && steps[j] == On(i, Abort)
    && i < |Run(c, steps[..j]).tasks| && !Run(c, steps[..j]).tasks[i].pc.Done?
  }

  ghost predicate WasAborted(c: Caps, steps: seq<Step>, i: nat) { exists j: nat :: AbortedAt(c, steps, i, j) }

  lemma AbortedBefore(c: Caps, steps: seq<Step>, i: nat, j: nat)
    requires j < |steps| - 1
    ensures AbortedAt(c, steps, i, j) <==> AbortedAt(c, steps[..|steps| - 1], i, j)
  {
    assert steps[..|steps| - 1][..j] == steps[..j];
  }

  lemma AbortedOn(c: Caps, steps: seq<Step>, i: nat)
    requires steps != []
    ensures WasAborted(c, steps, i)
       <==> WasAborted(c, steps[..|steps| - 1], i) || AbortedAt(c, steps, i, |steps| - 1)
  {
    var pre := steps[..|steps| - 1];
    if j: nat :| AbortedAt(c, pre, i, j) { AbortedBefore(c, steps, i, j); }
    if j: nat :| AbortedAt(c, steps, i, j) {
      if j < |steps| - 1 { AbortedBefore(c, steps, i, j); }
    }
  }

  lemma AbortingNext(c: Caps, s: State, step: Step, i: nat)
    requires i < |Next(c, s, step).tasks|
    ensures Next(c, s, step).tasks[i].aborting
       <==> i < |s.tasks| && (s.tasks[i].aborting || (step == On(i, Abort) && !s.tasks[i].pc.Done?))
  {
  }

  /** A task is being aborted exactly when an abort found it alive. */
  lemma {:induction false} AbortingIff(c: Caps, steps: seq<Step>, i: nat)
    ensures i < |Run(c, steps).tasks| && Run(c, steps).tasks[i].aborting <==> WasAborted(c, steps, i)
  {
    if steps != [] {
      var pre, step := steps[..|steps| - 1], steps[|steps| - 1];
      AbortingIff(c, pre, i);
      AbortedOn(c, steps, i);
      TasksStay(c, Run(c, pre), step);
      if i < |Run(c, steps).tasks| { AbortingNext(c, Run(c, pre), step, i); }
    }
  }

  lemma TasksStay(c: Caps, s: State, step: Step)
    ensures |Next(c, s, step).tasks| >= |s.tasks|
  {
  }

  // ---- What a wake-up costs ----------------------------------------------------------------------

  /** The step wakes a waiting loop. */
  ghost predicate WakesLoop(c: Caps, s: State, step: Step) {
    && step.On? && step.act.Wake? && step.task < |s.tasks| && s.tasks[step.task].pc.Waiting?
    && !Next(c, s, step).tasks[step.task].pc.Waiting?
  }

  /** The early wake-ups of a run. */
  ghost function Woken(c: Caps, steps: seq<Step>): nat {
    if steps == [] then 0
    else
      var pre := steps[..|steps| - 1];
      Woken(c, pre) + (if WakesLoop(c, Run(c, pre), steps[|steps| - 1]) then 1 else 0)
  }

  /** The calls recorded into a buffer that they bring to four fifths of its capacity. */
  ghost function Earned(c: Caps, steps: seq<Step>): nat {
    if steps == [] then 0
    else
      var pre, step := steps[..|steps| - 1], steps[|steps| - 1];
      Earned(c, pre) + (if step.RecordSample? && 5 * (|Run(c, pre).ring.samples| + 1) >= 4 * c.cap then 1 else 0)
  }

  lemma WakeNext(c: Caps, s: State, step: Step)
    ensures var n := Next(c, s, step);
            (if WakesLoop(c, s, step) then 1 else 0) + (if n.permit then 1 else 0)
            <= (if s.permit then 1 else 0)
             + (if step.RecordSample? && 5 * (|s.ring.samples| + 1) >= 4 * c.cap then 1 else 0)
  {
  }

  /** Every early wake-up spends a permit that a call at the mark stored: there are no more of them than such calls. */
  lemma {:induction false} WakesAreEarned(c: Caps, steps: seq<Step>)
    ensures Woken(c, steps) + (if Run(c, steps).permit then 1 else 0) <= Earned(c, steps)
  {
    if steps != [] {
      WakesAreEarned(c, steps[..|steps| - 1]);
      WakeNext(c, Run(c, steps[..|steps| - 1]), steps[|steps| - 1]);
    }
  }
}
