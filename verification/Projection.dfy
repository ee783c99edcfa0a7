/** The events of a lane run are a run of the rollup, so the rollup's laws are the lane's. */
module Projection {
  import opened Words
  import opened MetricsRing
  import opened Lane
  import opened Ledger
  import U = Rollup
  import Usage

  // ---- The step of the rollup that a step of the lane is -----------------------------------------

  /** Parcels are numbered as batches are, from one. */
  function ParcelOf(b: Batch): nat { if b.seqNo == 0 then 0 else b.seqNo - 1 }

  /** A step that settles no parcel there is. */
  function Idle(u: U.State): U.Step { U.Report(0, |u.parcels|) }

  function Image(s: State, u: U.State, step: Step): U.Step {
    match step
    case RecordUsage(k, counts, now) => U.RecordEvents(now - u.now, k, counts)
    case On(i, act) => if i < |s.tasks| && Moves(s.tasks[i], act) then TaskImage(u, s.tasks[i], act) else Idle(u)
    case _ => Idle(u)
  }

  function TaskImage(u: U.State, t: Task, act: Act): U.Step
    requires Moves(t, act)
  {
    if act.Drain? then U.Drain(act.now - u.now)
    else if Returns(t, act) then U.Requeue(0, ParcelOf(t.pc.batch))
    else if act.Accept? then U.Report(0, ParcelOf(t.pc.batch))
    else U.Lose(0, ParcelOf(t.pc.batch))
  }

  /** The run of the rollup, step by step. */
  ghost function Projected(c: Caps, steps: seq<Step>): seq<U.Step> {
    if steps == [] then []
    else
      var pre := steps[..|steps| - 1];
      Projected(c, pre) + [Image(Run(c, pre), U.Run(Projected(c, pre)), steps[|steps| - 1])]
  }

  // ---- The two runs agree ------------------------------------------------------------------------

  /** The parcel of a batch has its rows, and the fate the lane gave it. */
  ghost predicate Linked(u: U.State, b: Batch, fate: U.Fate) {
    && 1 <= b.seqNo <= |u.parcels|
    && u.parcels[b.seqNo - 1].rows == b.rows && u.parcels[b.seqNo - 1].fate == fate
  }

  predicate Holding(t: Task) { t.pc.Sending? || t.pc.FlushSending? }

  ghost predicate Apart(tasks: seq<Task>) {
    forall i, j :: 0 <= i < j < |tasks| && Holding(tasks[i]) && Holding(tasks[j]) ==>
      tasks[i].pc.batch.seqNo != tasks[j].pc.batch.seqNo
  }

  ghost predicate Mirrors(s: State, u: U.State) {
    && u.held == s.ring.events && |u.parcels| == s.ring.seqNo
    && (forall k :: 0 <= k < |s.queued| ==> Linked(u, s.queued[k], U.Reported))
    && (forall k :: 0 <= k < |s.lost| ==> Linked(u, s.lost[k], U.Lost))
    && (forall i :: 0 <= i < |s.tasks| && Holding(s.tasks[i]) ==> Linked(u, s.tasks[i].pc.batch, U.InHand))
    && Apart(s.tasks)
  }

  lemma IdleSame(u: U.State)
    ensures U.Next(u, Idle(u)) == u
  {
  }

  lemma DrainMirrors(c: Caps, s: State, u: U.State, i: nat, now: int)
    requires Mirrors(s, u) && i < |s.tasks| && (s.tasks[i].pc.Draining? || s.tasks[i].pc.Flushing?)
    ensures Mirrors(DrainOne(c, s, i, now), U.Next(u, U.Drain(now - u.now)))
  {
    var n, v := DrainOne(c, s, i, now), U.Next(u, U.Drain(now - u.now));
    assert v.parcels[..|u.parcels|] == u.parcels;
    assert forall b, fate :: Linked(u, b, fate) ==> Linked(v, b, fate);
    assert Linked(v, Drained(c, s.ring, now), U.InHand);
  }

  /** Settling one parcel leaves the links of all others. */
  lemma SettleLinks(u: U.State, v: U.State, n: nat, fate: U.Fate, b: Batch, of: U.Fate)
    requires 1 <= n <= |u.parcels| && u.parcels[n - 1].fate == U.InHand
    requires v.parcels == u.parcels[n - 1 := u.parcels[n - 1].(fate := fate)]
    requires Linked(u, b, of) && (of == U.InHand ==> b.seqNo != n)
    ensures Linked(v, b, of)
  {
  }

  /** What is common to a batch going back, being queued and being lost. */
  lemma SettleMirrors(s: State, u: U.State, v: U.State, i: nat, t: Task, fate: U.Fate)
    requires Mirrors(s, u) && i < |s.tasks| && Holding(s.tasks[i]) && !Holding(t)
    requires var n := s.tasks[i].pc.batch.seqNo;
             v.parcels == u.parcels[n - 1 := u.parcels[n - 1].(fate := fate)]
    ensures |v.parcels| == |u.parcels| && Linked(v, s.tasks[i].pc.batch, fate)
    ensures forall k :: 0 <= k < |s.queued| ==> Linked(v, s.queued[k], U.Reported)
    ensures forall k :: 0 <= k < |s.lost| ==> Linked(v, s.lost[k], U.Lost)
    ensures var tasks := s.tasks[i := t];
            && (forall j :: 0 <= j < |tasks| && Holding(tasks[j]) ==> Linked(v, tasks[j].pc.batch, U.InHand))
            && Apart(tasks)
  {
    var n := s.tasks[i].pc.batch.seqNo;
    forall k | 0 <= k < |s.queued| ensures Linked(v, s.queued[k], U.Reported) {
      SettleLinks(u, v, n, fate, s.queued[k], U.Reported);
    }
    forall k | 0 <= k < |s.lost| ensures Linked(v, s.lost[k], U.Lost) {
      SettleLinks(u, v, n, fate, s.lost[k], U.Lost);
    }
    var tasks := s.tasks[i := t];
    forall j | 0 <= j < |tasks| && Holding(tasks[j]) ensures Linked(v, tasks[j].pc.batch, U.InHand) {
      assert tasks[j] == s.tasks[j] && j != i;
      SettleLinks(u, v, n, fate, s.tasks[j].pc.batch, U.InHand);
    }
  }

  lemma GiveBackMirrors(c: Caps, s: State, u: U.State, i: nat)
    requires Mirrors(s, u) && i < |s.tasks| && s.tasks[i].pc.Sending?
    ensures Mirrors(GiveBack(c, s, i), U.Next(u, U.Requeue(0, ParcelOf(s.tasks[i].pc.batch))))
  {
    var v := U.Next(u, U.Requeue(0, ParcelOf(s.tasks[i].pc.batch)));
    assert Linked(u, s.tasks[i].pc.batch, U.InHand);
    SettleMirrors(s, u, v, i, s.tasks[i].(pc := Done), U.Returned);
  }

  lemma HandOverMirrors(s: State, u: U.State, i: nat, t: Task, lost: bool)
    requires Mirrors(s, u) && i < |s.tasks| && Holding(s.tasks[i]) && Hand(t) == []
    ensures var p := ParcelOf(s.tasks[i].pc.batch);
            Mirrors(HandOver(s, i, t, lost), U.Next(u, if lost then U.Lose(0, p) else U.Report(0, p)))
  {
    var p := ParcelOf(s.tasks[i].pc.batch);
    var v := U.Next(u, if lost then U.Lose(0, p) else U.Report(0, p));
    assert Linked(u, s.tasks[i].pc.batch, U.InHand);
    SettleMirrors(s, u, v, i, t, if lost then U.Lost else U.Reported);
  }

  lemma QuietMirrors(s: State, u: U.State, i: nat, t: Task, permit: bool)
    requires Mirrors(s, u) && i < |s.tasks| && Hand(t) == Hand(s.tasks[i])
    ensures Mirrors(SetTask(s, i, t).(permit := permit), u)
  {
    assert Holding(t) <==> Holding(s.tasks[i]);
    assert Holding(t) ==> Hand(t)[0] == Hand(s.tasks[i])[0];
  }

  lemma TaskMirrors(c: Caps, s: State, u: U.State, i: nat, act: Act)
    requires Mirrors(s, u) && i < |s.tasks|
    ensures Mirrors(TaskNext(c, s, i, act), U.Next(u, Image(s, u, On(i, act))))
  {
    var t, n := s.tasks[i], TaskNext(c, s, i, act);
    if !Moves(t, act) {
      QuietStep(c, s, i, act);
      IdleSame(u);
      QuietMirrors(s, u, i, n.tasks[i], n.permit);
    } else {
      MovingStep(c, s, i, act);
      if act.Drain? {
        DrainMirrors(c, s, u, i, act.now);
      } else if Returns(t, act) {
        GiveBackMirrors(c, s, u, i);
      } else {
        HandOverMirrors(s, u, i, n.tasks[i], !act.Accept?);
      }
    }
  }

  lemma NextMirrors(c: Caps, s: State, u: U.State, step: Step)
    requires Mirrors(s, u)
    ensures Mirrors(Next(c, s, step), U.Next(u, Image(s, u, step)))
  {
    IdleSame(u);
    if step.On? && step.task < |s.tasks| { TaskMirrors(c, s, u, step.task, step.act); }
  }

  lemma ProjectedLast(c: Caps, steps: seq<Step>)
    requires steps != []
    ensures var pre := steps[..|steps| - 1];
            var u := U.Run(Projected(c, pre));
            && Projected(c, steps) == Projected(c, pre) + [Image(Run(c, pre), u, steps[|steps| - 1])]
            && U.Run(Projected(c, steps)) == U.Next(u, Image(Run(c, pre), u, steps[|steps| - 1]))
  {
    var pre := steps[..|steps| - 1];
    assert Projected(c, steps)[..|Projected(c, pre)|] == Projected(c, pre);
  }

  lemma {:induction false} RunMirrors(c: Caps, steps: seq<Step>)
    ensures Mirrors(Run(c, steps), U.Run(Projected(c, steps)))
  {
    if steps != [] {
      var pre := steps[..|steps| - 1];
      RunMirrors(c, pre);
      NextMirrors(c, Run(c, pre), U.Run(Projected(c, pre)), steps[|steps| - 1]);
      ProjectedLast(c, steps);
    }
  }

  /** The rollup's history is the usage the lane recorded. */
  lemma {:induction false} SameUsage(c: Caps, steps: seq<Step>, k: U.Key, f: U.Field)
    ensures U.Total(U.Run(Projected(c, steps)).recorded, k, f) == Usage.Recorded(steps, k, f)
  {
    if steps != [] {
      var pre, step := steps[..|steps| - 1], steps[|steps| - 1];
      SameUsage(c, pre, k, f);
      ProjectedLast(c, steps);
      OneUsage(Run(c, pre), U.Run(Projected(c, pre)), step, k, f);
    }
  }

  lemma OneUsage(s: State, u: U.State, step: Step, k: U.Key, f: U.Field)
    ensures U.Total(U.Next(u, Image(s, u, step)).recorded, k, f) == U.Total(u.recorded, k, f) + Usage.Adds(step, k, f)
  {
    if step.RecordUsage? { OneNote(u, step.now - u.now, step.key, step.counts, k, f); } else { NoNote(s, u, step); }
  }

  lemma NoNote(s: State, u: U.State, step: Step)
    requires !step.RecordUsage?
    ensures U.Next(u, Image(s, u, step)).recorded == u.recorded
  {
  }

  lemma OneNote(u: U.State, wait: int, key: U.Key, counts: U.EventCounts, k: U.Key, f: U.Field)
    ensures U.Total(U.Next(u, U.RecordEvents(wait, key, counts)).recorded, k, f)
         == U.Total(u.recorded, k, f) + (if key == k then U.Of(counts, f) else 0)
  {
    if counts != U.ZERO {
      var n := U.Next(u, U.RecordEvents(wait, key, counts)).recorded;
      assert n[..|u.recorded|] == u.recorded;
    }
  }

  // ---- The rollup's laws on the lane's reports ---------------------------------------------------

  /** The usage a queued report stands for. */
  ghost function NotesOf(c: Caps, steps: seq<Step>, k: nat): seq<U.Note>
    requires k < |Run(c, steps).queued|
  {
    NotesIn(U.Run(Projected(c, steps)), Run(c, steps).queued[k].seqNo)
  }

  ghost function NotesIn(u: U.State, n: nat): seq<U.Note> {
    if 1 <= n <= |u.parcels| then u.parcels[n - 1].log else []
  }

  /**
   * Every total of every queued report is the saturated exact sum of the usage it stands for, and no
   * row is all zero, under every interleaving.
   */
  lemma ReportTotals(c: Caps, steps: seq<Step>, k: nat, key: U.Key)
    requires k < |Run(c, steps).queued|
    ensures var counts := Run(c, steps).queued[k].rows.counts;
            && (forall f :: U.Of(U.Get(counts, key), f) == Sat(U.Total(NotesOf(c, steps, k), key, f)))
            && (key in counts ==> counts[key] != U.ZERO)
  {
    var us, p := ReportParcel(c, steps, k);
    ParcelTotals(us, p, key);
  }

  lemma ReportLinked(c: Caps, steps: seq<Step>, k: nat)
    requires k < |Run(c, steps).queued|
    ensures Linked(U.Run(Projected(c, steps)), Run(c, steps).queued[k], U.Reported)
  {
    RunMirrors(c, steps);
  }

  lemma LinkedParcel(u: U.State, b: Batch) returns (p: nat)
    requires Linked(u, b, U.Reported)
    ensures p < |u.parcels| && b.seqNo == p + 1
    ensures u.parcels[p].rows == b.rows && u.parcels[p].log == NotesIn(u, b.seqNo)
  {
    p := b.seqNo - 1;
  }

  /** The parcel a queued report is. */
  lemma ReportParcel(c: Caps, steps: seq<Step>, k: nat) returns (us: seq<U.Step>, p: nat)
    requires k < |Run(c, steps).queued|
    ensures us == Projected(c, steps) && p < |U.Run(us).parcels|
    ensures U.Run(us).parcels[p].rows == Run(c, steps).queued[k].rows
    ensures U.Run(us).parcels[p].log == NotesOf(c, steps, k)
    ensures Run(c, steps).queued[k].seqNo == p + 1
  {
    us := Projected(c, steps);
    ReportLinked(c, steps, k);
    p := LinkedParcel(U.Run(us), Run(c, steps).queued[k]);
  }

  lemma ParcelTotals(us: seq<U.Step>, p: nat, key: U.Key)
    requires p < |U.Run(us).parcels|
    ensures var parcel := U.Run(us).parcels[p];
            && (forall f :: U.Of(U.Get(parcel.rows.counts, key), f) == Sat(U.Total(parcel.log, key, f)))
            && (key in parcel.rows.counts ==> parcel.rows.counts[key] != U.ZERO)
  {
    U.RollupTotals(us);
  }

  /** The wall clock of a step, where it reads one. */
  function TimeOf(step: Step, before: int): int {
    match step
    case RecordUsage(_, _, now) => now
    case On(_, Drain(now)) => now
    case _ => before
  }

  /** The time of the last step that read the clock. */
  ghost function Clock(steps: seq<Step>): int {
    if steps == [] then 0 else TimeOf(steps[|steps| - 1], Clock(steps[..|steps| - 1]))
  }

  /** The clock never goes back. */
  ghost predicate Timely(steps: seq<Step>) {
    steps == [] || (Timely(steps[..|steps| - 1]) && Clock(steps[..|steps| - 1]) <= Clock(steps))
  }

  lemma ImageWaits(c: Caps, s: State, u: U.State, step: Step, clock: int)
    requires u.now <= clock <= TimeOf(step, clock)
    ensures Image(s, u, step).wait >= 0 && U.Next(u, Image(s, u, step)).now <= TimeOf(step, clock)
  {
  }

  lemma {:induction false} ProjectedMonotone(c: Caps, steps: seq<Step>)
    requires Timely(steps)
    ensures U.Monotone(Projected(c, steps)) && U.Run(Projected(c, steps)).now <= Clock(steps)
  {
    if steps != [] {
      var pre := steps[..|steps| - 1];
      ProjectedMonotone(c, pre);
      ImageWaits(c, Run(c, pre), U.Run(Projected(c, pre)), steps[|steps| - 1], Clock(pre));
      ProjectedLast(c, steps);
    }
  }

  /** With a clock that never goes back, the window of every queued report covers the usage in it. */
  lemma ReportWindows(c: Caps, steps: seq<Step>, k: nat)
    requires Timely(steps) && k < |Run(c, steps).queued|
    ensures var rows := Run(c, steps).queued[k].rows; U.Covers(rows.start, rows.end, NotesOf(c, steps, k))
  {
    var us, p := ReportParcel(c, steps, k);
    ProjectedMonotone(c, steps);
    ParcelWindow(us, p);
  }

  lemma ParcelWindow(us: seq<U.Step>, p: nat)
    requires U.Monotone(us) && p < |U.Run(us).parcels|
    ensures var parcel := U.Run(us).parcels[p]; U.Covers(parcel.rows.start, parcel.rows.end, parcel.log)
  {
    U.WindowsCover(us);
  }

  /** And it opens at the time of some usage in it, if there is any. */
  lemma ReportWindowOpens(c: Caps, steps: seq<Step>, k: nat)
    requires k < |Run(c, steps).queued| && NotesOf(c, steps, k) != []
    ensures U.TimeIn(NotesOf(c, steps, k), Run(c, steps).queued[k].rows.start)
  {
    var us, p := ReportParcel(c, steps, k);
    ParcelOpens(us, p);
  }

  lemma ParcelOpens(us: seq<U.Step>, p: nat)
    requires p < |U.Run(us).parcels| && U.Run(us).parcels[p].log != []
    ensures U.TimeIn(U.Run(us).parcels[p].log, U.Run(us).parcels[p].rows.start)
  {
    U.WindowsExact(us);
  }

  /** The times at which batches were drained, in order. */
  ghost function DrainTimes(c: Caps, steps: seq<Step>): seq<int> {
    if steps == [] then []
    else
      var pre, step := steps[..|steps| - 1], steps[|steps| - 1];
      DrainTimes(c, pre) + DrainTime(Run(c, pre), step)
  }

  function DrainTime(s: State, step: Step): seq<int> {
    if && step.On? && step.act.Drain? && step.task < |s.tasks|
       && (s.tasks[step.task].pc.Draining? || s.tasks[step.task].pc.Flushing?)
    then [step.act.now] else []
  }

  lemma {:induction false} SameDrains(c: Caps, steps: seq<Step>)
    ensures U.DrainTimes(Projected(c, steps)) == DrainTimes(c, steps)
  {
    if steps != [] {
      var pre := steps[..|steps| - 1];
      SameDrains(c, pre);
      ProjectedLast(c, steps);
      OneDrain(Projected(c, pre), Run(c, pre), steps[|steps| - 1]);
    }
  }

  lemma OneDrain(us: seq<U.Step>, s: State, step: Step)
    ensures var image := Image(s, U.Run(us), step);
            U.DrainTimes(us + [image]) == U.DrainTimes(us) + DrainTime(s, step)
  {
    var image := Image(s, U.Run(us), step);
    U.HistoryHolds(us);
    assert (us + [image])[..|us|] == us;
  }

  /** The window of every queued report ends when its batch was drained. */
  lemma ReportWindowEnds(c: Caps, steps: seq<Step>, k: nat)
    requires k < |Run(c, steps).queued|
    ensures var b, times := Run(c, steps).queued[k], DrainTimes(c, steps);
            1 <= b.seqNo <= |times| && b.rows.end == times[b.seqNo - 1]
  {
    var us, p := ReportParcel(c, steps, k);
    SameDrains(c, steps);
    ParcelEnds(us, DrainTimes(c, steps), p);
  }

  lemma ParcelEnds(us: seq<U.Step>, times: seq<int>, p: nat)
    requires p < |U.Run(us).parcels| && times == U.DrainTimes(us)
    ensures p < |times| && U.Run(us).parcels[p].rows.end == times[p]
  {
    U.WindowsEnd(us);
  }
}
