/** The MCP Events rollup: saturating counts per (event, mode) since the last drain. */
module Rollup {
  import opened Words

  type Key = (string, string)

  datatype EventCounts = EventCounts(delivered: u64, abandoned: u64, ingested: u64, bytes: u64)

  const ZERO: EventCounts := EventCounts(0, 0, 0, 0)

  function Add(a: EventCounts, b: EventCounts): EventCounts {
    EventCounts(SatAdd(a.delivered, b.delivered), SatAdd(a.abandoned, b.abandoned),
                SatAdd(a.ingested, b.ingested), SatAdd(a.bytes, b.bytes))
  }

  datatype Rollup = Rollup(since: Option<int>, counts: map<Key, EventCounts>)

  /** The rows of one report; they share one window. */
  datatype Rows = Rows(start: int, end: int, counts: map<Key, EventCounts>)

  const EMPTY: Rollup := Rollup(None, map[])

  function Get(counts: map<Key, EventCounts>, k: Key): EventCounts {
    if k in counts then counts[k] else ZERO
  }

  function Record(r: Rollup, k: Key, c: EventCounts, now: int): Rollup {
    if c == ZERO then r
    else Rollup(if r.since.Some? then r.since else Some(now), r.counts[k := Add(Get(r.counts, k), c)])
  }

  /** What a drain takes; the rollup left behind is `EMPTY`. */
  function Take(r: Rollup, now: int): Rows {
    Rows(if r.since.Some? then r.since.value else now, now, r.counts)
  }

  function Earlier(since: Option<int>, start: int): int {
    if since.Some? && since.value <= start then since.value else start
  }

  /** All returned rows added back, whatever order they are taken in. */
  function Merge(r: Rollup, rows: Rows): Rollup {
    if rows.counts == map[] then r
    else Rollup(Some(Earlier(r.since, rows.start)),
                map k | k in r.counts.Keys + rows.counts.Keys :: Add(Get(r.counts, k), Get(rows.counts, k)))
  }

  /** Rows merged into an empty rollup are the rollup they were taken from. */
  lemma MergeBack(r: Rollup, now: int)
    requires r.since.None? <==> r.counts == map[]
    ensures Merge(EMPTY, Take(r, now)) == r
  {
    var m := Merge(EMPTY, Take(r, now));
    assert m.counts.Keys == r.counts.Keys;
    assert forall k :: k in r.counts ==> m.counts[k] == r.counts[k];
    assert m.counts == r.counts;
  }

  // ---- The rollup over whole runs ------------------------------------------------------------

  /** One recorded usage, as a history of what a rollup or a report stands for. */
  datatype Note = Note(key: Key, counts: EventCounts, at: int)

  datatype Field = Delivered | Abandoned | Ingested | Bytes

  function Of(c: EventCounts, f: Field): u64 {
    match f
    case Delivered => c.delivered
    case Abandoned => c.abandoned
    case Ingested => c.ingested
    case Bytes => c.bytes
  }

  /** The exact sum of one field over the notes of one key. */
  ghost function Total(log: seq<Note>, k: Key, f: Field): nat {
    if log == [] then 0
    else
      var n := log[|log| - 1];
      Total(log[..|log| - 1], k, f) + (if n.key == k then Of(n.counts, f) else 0)
  }

  lemma {:induction false} TotalConcat(a: seq<Note>, b: seq<Note>, k: Key, f: Field)
    ensures Total(a + b, k, f) == Total(a, k, f) + Total(b, k, f)
  {
    if b == [] {
      assert a + b == a;
    } else {
      TotalConcat(a, b[..|b| - 1], k, f);
      assert (a + b)[..|a + b| - 1] == a + b[..|b| - 1];
    }
  }

  ghost predicate Mentions(log: seq<Note>, k: Key) {
    exists i :: 0 <= i < |log| && log[i].key == k
  }

  ghost predicate NonZero(log: seq<Note>) {
    forall i :: 0 <= i < |log| ==> log[i].counts != ZERO
  }

  /** `counts` holds, for exactly the keys of `log`, the saturated exact totals. */
  ghost predicate Tallies(counts: map<Key, EventCounts>, log: seq<Note>) {
    && (forall k :: k in counts <==> Mentions(log, k))
    && (forall k, f :: k in counts ==> Of(counts[k], f) == Sat(Total(log, k, f)))
  }

  lemma {:induction false} UnmentionedTotal(log: seq<Note>, k: Key, f: Field)
    requires !Mentions(log, k)
    ensures Total(log, k, f) == 0
  {
    if log != [] {
      var init, n := log[..|log| - 1], log[|log| - 1];
      assert log == init + [n];
      MentionsConcat(init, [n], k);
      assert log[|log| - 1].key != k;
      UnmentionedTotal(init, k, f);
    }
  }

  lemma {:induction false} MentionedTotal(log: seq<Note>, k: Key) returns (f: Field)
    requires NonZero(log) && Mentions(log, k)
    ensures Total(log, k, f) > 0
  {
    var init, n := log[..|log| - 1], log[|log| - 1];
    if n.key == k {
      f := if n.counts.delivered > 0 then Delivered else if n.counts.abandoned > 0 then Abandoned
           else if n.counts.ingested > 0 then Ingested else Bytes;
      assert log[|log| - 1].counts != ZERO;
    } else {
      assert log == init + [n];
      MentionsConcat(init, [n], k);
      f := MentionedTotal(init, k);
    }
  }

  lemma MentionsConcat(a: seq<Note>, b: seq<Note>, k: Key)
    ensures Mentions(a + b, k) <==> Mentions(a, k) || Mentions(b, k)
  {
    if Mentions(a, k) {
      var i :| 0 <= i < |a| && a[i].key == k;
      assert (a + b)[i].key == k;
    }
    if Mentions(b, k) {
      var i :| 0 <= i < |b| && b[i].key == k;
      assert (a + b)[|a| + i].key == k;
    }
  }

  lemma TalliesGet(counts: map<Key, EventCounts>, log: seq<Note>, k: Key, f: Field)
    requires Tallies(counts, log)
    ensures Of(Get(counts, k), f) == Sat(Total(log, k, f))
  {
    if k !in counts {
      UnmentionedTotal(log, k, f);
    }
  }

  /** Merging two tallies is the tally of the joined history: saturating as one goes is saturating once. */
  lemma MergedTallies(a: map<Key, EventCounts>, la: seq<Note>, b: map<Key, EventCounts>, lb: seq<Note>)
    requires Tallies(a, la) && Tallies(b, lb)
    ensures Tallies(map k | k in a.Keys + b.Keys :: Add(Get(a, k), Get(b, k)), la + lb)
  {
    var m := map k | k in a.Keys + b.Keys :: Add(Get(a, k), Get(b, k));
    forall k ensures k in m <==> Mentions(la + lb, k) {
      MentionsConcat(la, lb, k);
    }
    forall k, f | k in m ensures Of(m[k], f) == Sat(Total(la + lb, k, f)) {
      TotalConcat(la, lb, k, f);
      TalliesGet(a, la, k, f);
      TalliesGet(b, lb, k, f);
    }
  }

  lemma NotedTallies(counts: map<Key, EventCounts>, log: seq<Note>, n: Note)
    requires Tallies(counts, log)
    ensures Tallies(counts[n.key := Add(Get(counts, n.key), n.counts)], log + [n])
  {
    var m := counts[n.key := Add(Get(counts, n.key), n.counts)];
    forall k ensures k in m <==> Mentions(log + [n], k) {
      MentionsConcat(log, [n], k);
      assert [n][0].key == k ==> Mentions([n], k);
    }
    forall k, f | k in m ensures Of(m[k], f) == Sat(Total(log + [n], k, f)) {
      assert (log + [n])[..|log|] == log;
      TalliesGet(counts, log, k, f);
    }
  }

  datatype Fate = InHand | Reported | Lost | Returned

  /** A drained set of rows, with the history it stands for. */
  datatype Parcel = Parcel(rows: Rows, log: seq<Note>, fate: Fate)

  datatype State = State(now: int, held: Rollup, log: seq<Note>, parcels: seq<Parcel>, recorded: seq<Note>)

  /** `wait` is how far the wall clock moved since the previous step; it may go backwards. */
  datatype Step =
    | RecordEvents(wait: int, key: Key, counts: EventCounts)
    | Drain(wait: int)
    | Requeue(wait: int, parcel: nat)
    | Report(wait: int, parcel: nat)
    | Lose(wait: int, parcel: nat)

  const INIT: State := State(0, EMPTY, [], [], [])

  function Settle(s: State, i: nat, fate: Fate): seq<Parcel>
    requires i < |s.parcels|
  {
    s.parcels[i := s.parcels[i].(fate := fate)]
  }

  function Next(s: State, step: Step): State {
    var now := s.now + step.wait;
    match step
    case RecordEvents(_, k, c) =>
      if c == ZERO then s.(now := now)
      else s.(now := now, held := Record(s.held, k, c, now),
              log := s.log + [Note(k, c, now)], recorded := s.recorded + [Note(k, c, now)])
    case Drain(_) =>
      s.(now := now, held := EMPTY, log := [],
         parcels := s.parcels + [Parcel(Take(s.held, now), s.log, InHand)])
    case Requeue(_, i) =>
      if i < |s.parcels| && s.parcels[i].fate == InHand then
        s.(now := now, held := Merge(s.held, s.parcels[i].rows), log := s.log + s.parcels[i].log,
           parcels := Settle(s, i, Returned))
      else s.(now := now)
    case Report(_, i) =>
      if i < |s.parcels| && s.parcels[i].fate == InHand then s.(now := now, parcels := Settle(s, i, Reported))
      else s.(now := now)
    case Lose(_, i) =>
      if i < |s.parcels| && s.parcels[i].fate == InHand then s.(now := now, parcels := Settle(s, i, Lost))
      else s.(now := now)
  }

  function Run(steps: seq<Step>): State {
    if steps == [] then INIT else Next(Run(steps[..|steps| - 1]), steps[|steps| - 1])
  }

  /** How often a note stands in parcels that were not merged back. */
  ghost function Out(parcels: seq<Parcel>, x: Note): nat {
    if parcels == [] then 0 else Out(parcels[..|parcels| - 1], x) + Own(parcels[|parcels| - 1], x)
  }

  ghost function Own(p: Parcel, x: Note): nat { if p.fate == Returned then 0 else multiset(p.log)[x] }

  lemma {:induction false} OutMiddle(a: seq<Parcel>, p: Parcel, b: seq<Parcel>, x: Note)
    ensures Out(a + [p] + b, x) == Out(a, x) + Own(p, x) + Out(b, x)
  {
    var all := a + [p] + b;
    if b == [] {
      assert all[..|a|] == a && all[|a|] == p;
    } else {
      var init := b[..|b| - 1];
      assert all[..|all| - 1] == a + [p] + init && all[|all| - 1] == b[|b| - 1];
      OutMiddle(a, p, init, x);
    }
  }

  lemma SettledOut(parcels: seq<Parcel>, i: nat, fate: Fate, x: Note)
    requires i < |parcels| && parcels[i].fate == InHand
    ensures Out(parcels, x) == Out(parcels[i := parcels[i].(fate := fate)], x)
                             + (if fate == Returned then multiset(parcels[i].log)[x] else 0)
  {
    var a, p, b := parcels[..i], parcels[i].(fate := fate), parcels[i + 1..];
    SplitAt(parcels, i);
    OutMiddle(a, parcels[i], b, x);
    assert parcels[i := p] == a + [p] + b;
    OutMiddle(a, p, b, x);
  }

  /** How often a note stands anywhere. */
  ghost function Noted(s: State, x: Note): nat { multiset(s.log)[x] + Out(s.parcels, x) }

  lemma NotedDrain(s: State, wait: int, x: Note)
    ensures Noted(Next(s, Drain(wait)), x) == Noted(s, x)
  {
    assert Next(s, Drain(wait)).parcels[..|s.parcels|] == s.parcels;
  }

  lemma NotedNext(s: State, step: Step, x: Note)
    requires multiset(s.recorded)[x] == Noted(s, x)
    ensures var n := Next(s, step); multiset(n.recorded)[x] == Noted(n, x)
  {
    match step
    case RecordEvents(_, _, _) =>
    case Drain(wait) => NotedDrain(s, wait, x);
    case Requeue(_, i) => if i < |s.parcels| && s.parcels[i].fate == InHand { SettledOut(s.parcels, i, Returned, x); }
    case Report(_, i) => if i < |s.parcels| && s.parcels[i].fate == InHand { SettledOut(s.parcels, i, Reported, x); }
    case Lose(_, i) => if i < |s.parcels| && s.parcels[i].fate == InHand { SettledOut(s.parcels, i, Lost, x); }
  }

  /** Every recorded note stands in exactly one place. */
  lemma {:induction false} NotedOnce(steps: seq<Step>, x: Note)
    ensures multiset(Run(steps).recorded)[x] == Noted(Run(steps), x)
  {
    if steps != [] {
      NotedOnce(steps[..|steps| - 1], x);
      NotedNext(Run(steps[..|steps| - 1]), steps[|steps| - 1], x);
    }
  }

  ghost predicate ParcelTallies(p: Parcel) { Tallies(p.rows.counts, p.log) && NonZero(p.log) }

  /** What every run keeps, whatever the clock does. */
  ghost predicate Inv(s: State) {
    && Tallies(s.held.counts, s.log) && NonZero(s.log)
    && (forall i :: 0 <= i < |s.parcels| ==> ParcelTallies(s.parcels[i]))
  }

  lemma InvRecord(s: State, wait: int, k: Key, c: EventCounts)
    requires Inv(s)
    ensures Inv(Next(s, RecordEvents(wait, k, c)))
  {
    if c != ZERO {
      NotedTallies(s.held.counts, s.log, Note(k, c, s.now + wait));
      assert NonZero(s.log + [Note(k, c, s.now + wait)]);
    }
  }

  lemma InvDrain(s: State, wait: int)
    requires Inv(s)
    ensures Inv(Next(s, Drain(wait)))
  {
  }

  lemma InvRequeue(s: State, wait: int, i: nat)
    requires Inv(s) && i < |s.parcels| && s.parcels[i].fate == InHand
    ensures Inv(Next(s, Requeue(wait, i)))
  {
    var p := s.parcels[i];
    assert ParcelTallies(p);
    if p.rows.counts == map[] {
      assert p.log == [] by {
        if p.log != [] { assert Mentions(p.log, p.log[0].key); }
      }
      assert s.log + p.log == s.log;
    } else {
      MergedTallies(s.held.counts, s.log, p.rows.counts, p.log);
    }
    assert ParcelTallies(Next(s, Requeue(wait, i)).parcels[i]);
  }

  lemma InvSettle(s: State, wait: int, i: nat, fate: Fate)
    requires Inv(s) && i < |s.parcels| && s.parcels[i].fate == InHand
    requires fate != Returned
    ensures Inv(s.(now := s.now + wait, parcels := Settle(s, i, fate)))
  {
    assert ParcelTallies(s.parcels[i]);
    assert ParcelTallies(s.parcels[i].(fate := fate));
  }

  lemma InvNext(s: State, step: Step)
    requires Inv(s)
    ensures Inv(Next(s, step))
  {
    match step
    case RecordEvents(wait, k, c) => InvRecord(s, wait, k, c);
    case Drain(wait) => InvDrain(s, wait);
    case Requeue(wait, i) =>
      if i < |s.parcels| && s.parcels[i].fate == InHand { InvRequeue(s, wait, i); }
    case Report(wait, i) =>
      if i < |s.parcels| && s.parcels[i].fate == InHand { InvSettle(s, wait, i, Reported); }
    case Lose(wait, i) =>
      if i < |s.parcels| && s.parcels[i].fate == InHand { InvSettle(s, wait, i, Lost); }
  }

  lemma {:induction false} InvRun(steps: seq<Step>)
    ensures Inv(Run(steps))
  {
    if steps != [] {
      InvRun(steps[..|steps| - 1]);
      InvNext(Run(steps[..|steps| - 1]), steps[|steps| - 1]);
    }
  }

  /**
   * Every total that is held or was handed out is the saturated exact sum of the notes it
   * stands for, whatever order batches came back in; no handed-out row is all zero; and
   * every recorded note stands in exactly one place.
   */
  lemma RollupTotals(steps: seq<Step>)
    ensures var s := Run(steps);
            && (forall k, f :: Of(Get(s.held.counts, k), f) == Sat(Total(s.log, k, f)))
            && (forall i, k, f :: 0 <= i < |s.parcels| ==>
                  Of(Get(s.parcels[i].rows.counts, k), f) == Sat(Total(s.parcels[i].log, k, f)))
            && (forall i, k :: 0 <= i < |s.parcels| && k in s.parcels[i].rows.counts ==>
                  s.parcels[i].rows.counts[k] != ZERO)
            && (forall x :: multiset(s.recorded)[x] == multiset(s.log)[x] + Out(s.parcels, x))
  {
    InvRun(steps);
    var s := Run(steps);
    forall x ensures multiset(s.recorded)[x] == multiset(s.log)[x] + Out(s.parcels, x) {
      NotedOnce(steps, x);
    }
    forall k, f ensures Of(Get(s.held.counts, k), f) == Sat(Total(s.log, k, f)) {
      TalliesGet(s.held.counts, s.log, k, f);
    }
    forall i, k, f | 0 <= i < |s.parcels|
      ensures Of(Get(s.parcels[i].rows.counts, k), f) == Sat(Total(s.parcels[i].log, k, f))
    {
      assert ParcelTallies(s.parcels[i]);
      TalliesGet(s.parcels[i].rows.counts, s.parcels[i].log, k, f);
    }
    forall i, k | 0 <= i < |s.parcels| && k in s.parcels[i].rows.counts
      ensures s.parcels[i].rows.counts[k] != ZERO
    {
      assert ParcelTallies(s.parcels[i]);
      var f := MentionedTotal(s.parcels[i].log, k);
      assert Of(s.parcels[i].rows.counts[k], f) > 0;
    }
  }

  // ---- Windows and histories, read off the steps -----------------------------------------------

  /** The wall clock after a run. */
  ghost function Clock(steps: seq<Step>): int {
    if steps == [] then 0 else Clock(steps[..|steps| - 1]) + steps[|steps| - 1].wait
  }

  /** The times of its drains. */
  ghost function DrainTimes(steps: seq<Step>): seq<int> {
    if steps == [] then []
    else DrainTimes(steps[..|steps| - 1]) + (if steps[|steps| - 1].Drain? then [Clock(steps)] else [])
  }

  /** The usage it recorded, and when. */
  ghost function UsageOf(steps: seq<Step>): seq<Note> {
    if steps == [] then []
    else
      var step := steps[|steps| - 1];
      UsageOf(steps[..|steps| - 1])
      + (if step.RecordEvents? && step.counts != ZERO then [Note(step.key, step.counts, Clock(steps))] else [])
  }

  lemma {:induction false} HistoryHolds(steps: seq<Step>)
    ensures Run(steps).now == Clock(steps) && Run(steps).recorded == UsageOf(steps)
  {
    if steps != [] { HistoryHolds(steps[..|steps| - 1]); }
  }

  /** Each window ends at the time of its drain. */
  lemma {:induction false} WindowsEnd(steps: seq<Step>)
    ensures var ps := Run(steps).parcels;
            |ps| == |DrainTimes(steps)| && forall k :: 0 <= k < |ps| ==> ps[k].rows.end == DrainTimes(steps)[k]
  {
    if steps != [] {
      WindowsEnd(steps[..|steps| - 1]);
      HistoryHolds(steps[..|steps| - 1]);
    }
  }

  ghost predicate TimeIn(log: seq<Note>, at: int) { exists i :: 0 <= i < |log| && log[i].at == at }

  /** A window opens at the time of a count in it, and only for a count. */
  ghost predicate Exact(s: State) {
    && (s.held.since.Some? <==> s.log != [])
    && (s.held.since.Some? ==> TimeIn(s.log, s.held.since.value))
    && (forall i :: 0 <= i < |s.parcels| ==>
          var rows, log := s.parcels[i].rows, s.parcels[i].log;
          if log != [] then TimeIn(log, rows.start) else rows.start == rows.end)
  }

  lemma TimeInConcat(a: seq<Note>, b: seq<Note>, at: int)
    requires TimeIn(a, at) || TimeIn(b, at)
    ensures TimeIn(a + b, at)
  {
    if i :| 0 <= i < |a| && a[i].at == at { assert (a + b)[i].at == at; }
    if i :| 0 <= i < |b| && b[i].at == at { assert (a + b)[|a| + i].at == at; }
  }

  lemma ExactRecord(s: State, wait: int, k: Key, c: EventCounts)
    requires Exact(s)
    ensures Exact(Next(s, RecordEvents(wait, k, c)))
  {
    if c != ZERO {
      var n := Note(k, c, s.now + wait);
      assert [n][0].at == s.now + wait;
      if s.log == [] {
        TimeInConcat(s.log, [n], s.now + wait);
      } else {
        TimeInConcat(s.log, [n], s.held.since.value);
      }
    }
  }

  lemma ExactRequeue(s: State, wait: int, i: nat)
    requires Inv(s) && Exact(s) && i < |s.parcels| && s.parcels[i].fate == InHand
    ensures Exact(Next(s, Requeue(wait, i)))
  {
    var p := s.parcels[i];
    assert ParcelTallies(p);
    if p.log == [] {
      assert s.log + p.log == s.log;
      assert forall k :: k !in p.rows.counts;
    } else {
      assert Mentions(p.log, p.log[0].key);
      TimeInConcat(s.log, p.log, p.rows.start);
      if s.held.since.Some? { TimeInConcat(s.log, p.log, s.held.since.value); }
    }
  }

  lemma {:induction false} WindowsExact(steps: seq<Step>)
    ensures Exact(Run(steps))
  {
    if steps != [] {
      var pre, step := steps[..|steps| - 1], steps[|steps| - 1];
      var s := Run(pre);
      WindowsExact(pre);
      InvRun(pre);
      match step
      case RecordEvents(wait, k, c) => ExactRecord(s, wait, k, c);
      case Drain(_) =>
      case Requeue(wait, i) => if i < |s.parcels| && s.parcels[i].fate == InHand { ExactRequeue(s, wait, i); }
      case Report(_, _) =>
      case Lose(_, _) =>
    }
  }

  ghost predicate Monotone(steps: seq<Step>) {
    forall i :: 0 <= i < |steps| ==> steps[i].wait >= 0
  }

  ghost predicate Covers(from: int, to: int, log: seq<Note>) {
    forall i :: 0 <= i < |log| ==> from <= log[i].at <= to
  }

  ghost predicate Windows(s: State) {
    && (s.held.since.None? ==> s.log == [])
    && (s.held.since.Some? ==> Covers(s.held.since.value, s.now, s.log))
    && (s.held.since.Some? ==> s.held.since.value <= s.now)
    && (forall i :: 0 <= i < |s.parcels| ==>
          s.parcels[i].rows.end <= s.now && Covers(s.parcels[i].rows.start, s.parcels[i].rows.end, s.parcels[i].log))
  }

  lemma WindowsRequeue(s: State, wait: nat, i: nat)
    requires Inv(s) && Windows(s) && i < |s.parcels| && s.parcels[i].fate == InHand
    ensures Windows(Next(s, Requeue(wait, i)))
  {
    var p := s.parcels[i];
    assert ParcelTallies(p);
    if p.log == [] {
      assert s.log + p.log == s.log;
      assert forall k :: k !in p.rows.counts;
    } else {
      assert Mentions(p.log, p.log[0].key);
      assert p.rows.start <= p.log[0].at <= p.rows.end;
    }
  }

  /** With a clock that never goes back, every window covers the time of every count in it. */
  lemma {:induction false} WindowsCover(steps: seq<Step>)
    requires Monotone(steps)
    ensures Windows(Run(steps))
  {
    if steps != [] {
      var pre, step := steps[..|steps| - 1], steps[|steps| - 1];
      WindowsCover(pre);
      InvRun(pre);
      var s := Run(pre);
      assert step.wait >= 0;
      if step.Requeue? && step.parcel < |s.parcels| && s.parcels[step.parcel].fate == InHand {
        WindowsRequeue(s, step.wait, step.parcel);
      }
    }
  }
}
