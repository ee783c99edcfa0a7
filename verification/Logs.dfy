/** The log lane: the same ring without the in-flight guard. */
module Logs {
  import opened Words

  datatype Level = Trace | Debug | Info | Warn | Error

  datatype LogLine = LogLine(level: Level, target: string, message: string)

  datatype Caps = Caps(cap: nat, batchCap: nat)

  datatype Ring = Ring(lines: seq<LogLine>, dropped: u64, seqNo: nat)

  datatype Batch = Batch(lines: seq<LogLine>, dropped: u64, seqNo: nat)

  const EMPTY: Ring := Ring([], 0, 0)

  function Limit(c: Caps): nat { Max(c.cap, 1) }

  predicate Empty(b: Batch) { b.lines == [] && b.dropped == 0 }

  function Tail(lines: seq<LogLine>): seq<LogLine> { if lines == [] then [] else lines[1..] }

  function Append(c: Caps, r: Ring, line: LogLine): Ring {
    if |r.lines| >= c.cap then r.(lines := Tail(r.lines) + [line], dropped := WrapAdd(r.dropped, 1))
    else r.(lines := r.lines + [line])
  }

  function Drained(c: Caps, r: Ring): Batch {
    Batch(r.lines[..Min(|r.lines|, c.batchCap)], r.dropped, r.seqNo + 1)
  }

  function AfterDrain(c: Caps, r: Ring): Ring {
    Ring(r.lines[Min(|r.lines|, c.batchCap)..], 0, r.seqNo + 1)
  }

  class LogBuffer {
    const cap: nat
    const batchCap: nat
    var lines: seq<LogLine>
    var droppedOverflow: u64
    var seqNo: nat

    ghost function Sizes(): Caps { Caps(cap, batchCap) }

    ghost function Value(): Ring
      reads this
    {
      Ring(lines, droppedOverflow, seqNo)
    }

    ghost predicate Valid()
      reads this
    {
      |lines| <= Limit(Sizes())
    }

    constructor (cap: nat, batchCap: nat)
      ensures Valid() && Sizes() == Caps(cap, batchCap) && Value() == EMPTY
    {
      this.cap, this.batchCap := cap, batchCap;
      lines, droppedOverflow, seqNo := [], 0, 0;
    }

    method Record(line: LogLine)
      requires Valid()
      modifies this
      ensures Valid() && Value() == Append(Sizes(), old(Value()), line)
    {
      if |lines| >= cap {
        if lines != [] { lines := lines[1..]; }
        droppedOverflow := WrapAdd(droppedOverflow, 1);
      }
      lines := lines + [line];
    }

    method Drain() returns (batch: Batch)
      requires Valid()
      modifies this
      ensures Valid() && batch == Drained(Sizes(), old(Value())) && Value() == AfterDrain(Sizes(), old(Value()))
    {
      var n := Min(|lines|, batchCap);
      batch := Batch(lines[..n], droppedOverflow, seqNo + 1);
      lines, droppedOverflow, seqNo := lines[n..], 0, seqNo + 1;
    }
  }

  // ---- Exact loss ------------------------------------------------------------------------------

  function RecordAll(c: Caps, r: Ring, xs: seq<LogLine>): Ring {
    if xs == [] then r else Append(c, RecordAll(c, r, xs[..|xs| - 1]), xs[|xs| - 1])
  }

  /** How many drops a run of records counts: none before the ring is full, then one each. */
  function Overflows(c: Caps, held: nat, arrivals: nat): nat {
    if held >= c.cap then arrivals
    else if held + arrivals > c.cap then held + arrivals - c.cap else 0
  }

  function Newest(s: seq<LogLine>, n: nat): seq<LogLine> { s[|s| - Min(n, |s|)..] }

  /** The newest lines that fit are kept, in order, and the counter says how often the ring was full. */
  lemma {:induction false} ExactLoss(c: Caps, r: Ring, xs: seq<LogLine>)
    requires |r.lines| <= Limit(c)
    ensures RecordAll(c, r, xs).lines == Newest(r.lines + xs, Limit(c))
    ensures RecordAll(c, r, xs).dropped == WrapAdd(r.dropped, Overflows(c, |r.lines|, |xs|))
  {
    if xs == [] {
      assert r.lines + xs == r.lines;
    } else {
      var n := |xs| - 1;
      var q := RecordAll(c, r, xs[..n]);
      ExactLoss(c, r, xs[..n]);
      assert r.lines + xs == (r.lines + xs[..n]) + [xs[n]];
      OneMore(c, q.lines, r.lines + xs[..n], xs[n]);
      WrapAddTwice(r.dropped, Overflows(c, |r.lines|, n), 1);
    }
  }

  lemma OneMore(c: Caps, q: seq<LogLine>, s: seq<LogLine>, x: LogLine)
    requires q == Newest(s, Limit(c))
    ensures Append(c, Ring(q, 0, 0), x).lines == Newest(s + [x], Limit(c))
  {
  }

  /** The count equals the lines actually lost exactly when no record found a zero-capacity ring empty. */
  lemma CountIsLossIff(c: Caps, r: Ring, xs: seq<LogLine>)
    requires |r.lines| <= Limit(c)
    ensures Overflows(c, |r.lines|, |xs|) == |r.lines| + |xs| - |RecordAll(c, r, xs).lines|
       <==> c.cap >= 1 || r.lines != [] || xs == []
  {
    ExactLoss(c, r, xs);
  }

  // ---- Sequences of batches --------------------------------------------------------------------

  function Lines(bs: seq<Batch>): seq<LogLine> {
    if bs == [] then [] else Lines(bs[..|bs| - 1]) + bs[|bs| - 1].lines
  }

  function Dropped(bs: seq<Batch>): nat {
    if bs == [] then 0 else Dropped(bs[..|bs| - 1]) + bs[|bs| - 1].dropped
  }

  lemma OneBatch(b: Batch)
    ensures Lines([b]) == b.lines && Dropped([b]) == b.dropped
  {
    assert [b][..0] == [];
  }

  lemma {:induction false} BatchesConcat(a: seq<Batch>, b: seq<Batch>)
    ensures Lines(a + b) == Lines(a) + Lines(b) && Dropped(a + b) == Dropped(a) + Dropped(b)
  {
    if b == [] {
      assert a + b == a;
    } else {
      var init, x := b[..|b| - 1], b[|b| - 1];
      assert (a + b)[..|a + b| - 1] == a + init && (a + b)[|a + b| - 1] == x;
      BatchesConcat(a, init);
      Assoc(Lines(a), Lines(init), x.lines);
    }
  }

  // ---- The lane: a failed or aborted send loses the batch in hand ----------------------------

  /** `hand` holds the batch of every task at its send. */
  datatype State = State(ring: Ring, hand: seq<Batch>, recorded: nat, queued: seq<Batch>, lost: seq<Batch>)

  /** `Fail` is a closed outbound queue or an abort landing at the send: there is no guard. */
  datatype Step = Log(line: LogLine) | Drain | Accept(task: nat) | Fail(task: nat)

  const INIT: State := State(EMPTY, [], 0, [], [])

  function Next(c: Caps, s: State, step: Step): State {
    match step
    case Log(line) => s.(ring := Append(c, s.ring, line), recorded := s.recorded + 1)
    case Drain =>
      var b := Drained(c, s.ring);
      s.(ring := AfterDrain(c, s.ring), hand := if Empty(b) then s.hand else s.hand + [b])
    case Accept(i) => if i < |s.hand| then s.(hand := Without(s.hand, i), queued := s.queued + [s.hand[i]]) else s
    case Fail(i) => if i < |s.hand| then s.(hand := Without(s.hand, i), lost := s.lost + [s.hand[i]]) else s
  }

  function Without(hand: seq<Batch>, i: nat): seq<Batch>
    requires i < |hand|
  {
    hand[..i] + hand[i + 1..]
  }

  function Run(c: Caps, steps: seq<Step>): State {
    if steps == [] then INIT else Next(c, Run(c, steps[..|steps| - 1]), steps[|steps| - 1])
  }

  /** Lines and drop counts of a sequence of batches. */
  ghost function Billed(bs: seq<Batch>): nat {
    if bs == [] then 0 else Billed(bs[..|bs| - 1]) + |bs[|bs| - 1].lines| + bs[|bs| - 1].dropped
  }

  lemma {:induction false} BilledConcat(a: seq<Batch>, b: seq<Batch>)
    ensures Billed(a + b) == Billed(a) + Billed(b)
  {
    if b == [] {
      assert a + b == a;
    } else {
      BilledConcat(a, b[..|b| - 1]);
      assert (a + b)[..|a + b| - 1] == a + b[..|b| - 1];
    }
  }

  lemma BilledWithout(hand: seq<Batch>, i: nat)
    requires i < |hand|
    ensures Billed(hand) == Billed(Without(hand, i)) + Billed([hand[i]])
  {
    SplitAt(hand, i);
    BilledThree(hand[..i], [hand[i]], hand[i + 1..]);
  }

  lemma BilledThree(a: seq<Batch>, x: seq<Batch>, b: seq<Batch>)
    ensures Billed(a + x + b) == Billed(a + b) + Billed(x)
  {
    BilledConcat(a + x, b);
    BilledConcat(a, x);
    BilledConcat(a, b);
  }

  ghost function Held(s: State): nat {
    |s.ring.lines| + s.ring.dropped + Billed(s.hand) + Billed(s.queued) + Billed(s.lost)
  }

  /** A drop counted for a line that never was: a record into an empty ring of capacity zero. */
  function Phantom(c: Caps, s: State, step: Step): nat {
    if step.Log? && c.cap == 0 && s.ring.lines == [] then 1 else 0
  }

  ghost function Phantoms(c: Caps, steps: seq<Step>): nat {
    if steps == [] then 0
    else Phantoms(c, steps[..|steps| - 1]) + Phantom(c, Run(c, steps[..|steps| - 1]), steps[|steps| - 1])
  }

  lemma {:induction false} NoPhantoms(c: Caps, steps: seq<Step>)
    requires c.cap >= 1
    ensures Phantoms(c, steps) == 0
  {
    if steps != [] { NoPhantoms(c, steps[..|steps| - 1]); }
  }

  lemma HeldNext(c: Caps, s: State, step: Step, told: nat)
    requires Accounts(told, Held(s))
    ensures var n := Next(c, s, step);
            Accounts(told + (n.recorded - s.recorded) + Phantom(c, s, step), Held(n))
  {
    match step
    case Log(line) =>
      var more := 1 + Phantom(c, s, step);
      AccountsGrow(told, Held(s), more);
      if |s.ring.lines| >= c.cap {
        AccountsWrap(told + more, Held(s) - s.ring.dropped + (more - 1), s.ring.dropped, 1);
      }
    case Drain =>
      var b := Drained(c, s.ring);
      assert [b][..0] == [];
      BilledConcat(s.hand, [b]);
    case Accept(i) =>
      if i < |s.hand| {
        BilledWithout(s.hand, i);
        BilledConcat(s.queued, [s.hand[i]]);
      }
    case Fail(i) =>
      if i < |s.hand| {
        BilledWithout(s.hand, i);
        BilledConcat(s.lost, [s.hand[i]]);
      }
  }

  /**
   * Every line is in the ring, a drop count, a batch in hand, the queue, or a lost batch; what the
   * lane answers for beyond that is the phantom drops, of which a ring of positive capacity has none.
   */
  lemma {:induction false} LogLedger(c: Caps, steps: seq<Step>)
    ensures var s, told := Run(c, steps), Run(c, steps).recorded + Phantoms(c, steps);
            && Accounts(told, Held(s)) && (told < 0x1_0000_0000_0000_0000 ==> told == Held(s))
            && (c.cap >= 1 ==> told == s.recorded)
  {
    if steps == [] {
      AccountsSame(0);
    } else {
      var pre := steps[..|steps| - 1];
      LogLedger(c, pre);
      HeldNext(c, Run(c, pre), steps[|steps| - 1], Run(c, pre).recorded + Phantoms(c, pre));
    }
    var s, told := Run(c, steps), Run(c, steps).recorded + Phantoms(c, steps);
    if told < 0x1_0000_0000_0000_0000 { AccountsExact(told, Held(s)); }
    if c.cap >= 1 { NoPhantoms(c, steps); }
  }

  // ---- What becomes of a batch -------------------------------------------------------------------

  /** The sends that were accepted, and those that failed. */
  ghost function Accepted(c: Caps, steps: seq<Step>): nat {
    if steps == [] then 0
    else
      var pre, step := steps[..|steps| - 1], steps[|steps| - 1];
      Accepted(c, pre) + (if step.Accept? && step.task < |Run(c, pre).hand| then 1 else 0)
  }

  ghost function FailedSends(c: Caps, steps: seq<Step>): nat {
    if steps == [] then 0
    else
      var pre, step := steps[..|steps| - 1], steps[|steps| - 1];
      FailedSends(c, pre) + (if step.Fail? && step.task < |Run(c, pre).hand| then 1 else 0)
  }

  /** Exactly the accepted batches are queued, and exactly the failed or aborted ones are lost. */
  lemma {:induction false} FatesCounted(c: Caps, steps: seq<Step>)
    ensures |Run(c, steps).queued| == Accepted(c, steps) && |Run(c, steps).lost| == FailedSends(c, steps)
  {
    if steps != [] { FatesCounted(c, steps[..|steps| - 1]); }
  }

  // ---- Batch numbers -----------------------------------------------------------------------------

  ghost function Uses(bs: seq<Batch>, n: nat): nat {
    if bs == [] then 0 else Uses(bs[..|bs| - 1], n) + (if bs[|bs| - 1].seqNo == n then 1 else 0)
  }

  lemma {:induction false} UsesConcat(a: seq<Batch>, b: seq<Batch>, n: nat)
    ensures Uses(a + b, n) == Uses(a, n) + Uses(b, n)
  {
    if b == [] {
      assert a + b == a;
    } else {
      UsesConcat(a, b[..|b| - 1], n);
      assert (a + b)[..|a + b| - 1] == a + b[..|b| - 1];
    }
  }

  lemma UsesThree(a: seq<Batch>, x: seq<Batch>, b: seq<Batch>, n: nat)
    ensures Uses(a + x + b, n) == Uses(a + b, n) + Uses(x, n)
  {
    UsesConcat(a + x, b, n);
    UsesConcat(a, x, n);
    UsesConcat(a, b, n);
  }

  lemma UsesWithout(hand: seq<Batch>, i: nat, n: nat)
    requires i < |hand|
    ensures Uses(hand, n) == Uses(Without(hand, i), n) + Uses([hand[i]], n)
  {
    SplitAt(hand, i);
    UsesThree(hand[..i], [hand[i]], hand[i + 1..], n);
  }

  ghost function Used(s: State, n: nat): nat { Uses(s.hand, n) + Uses(s.queued, n) + Uses(s.lost, n) }

  /** A number is used at most once, and none before it is drawn; numbers start at one. */
  ghost predicate Fresh(s: State, n: nat) { Used(s, n) <= 1 && (n == 0 || n > s.ring.seqNo ==> Used(s, n) == 0) }

  lemma FreshNext(c: Caps, s: State, step: Step, n: nat)
    requires Fresh(s, n)
    ensures Fresh(Next(c, s, step), n)
  {
    match step
    case Log(_) =>
    case Drain =>
      var b := Drained(c, s.ring);
      assert [b][..0] == [];
      UsesConcat(s.hand, [b], n);
    case Accept(i) =>
      if i < |s.hand| {
        UsesWithout(s.hand, i, n);
        UsesConcat(s.queued, [s.hand[i]], n);
      }
    case Fail(i) =>
      if i < |s.hand| {
        UsesWithout(s.hand, i, n);
        UsesConcat(s.lost, [s.hand[i]], n);
      }
  }

  lemma {:induction false} FreshRun(c: Caps, steps: seq<Step>, n: nat)
    ensures Fresh(Run(c, steps), n)
  {
    if steps != [] {
      FreshRun(c, steps[..|steps| - 1], n);
      FreshNext(c, Run(c, steps[..|steps| - 1]), steps[|steps| - 1], n);
    }
  }

  lemma {:induction false} UsesAt(bs: seq<Batch>, i: nat, n: nat)
    requires i < |bs| && bs[i].seqNo == n
    ensures Uses(bs, n) >= 1
  {
    if i < |bs| - 1 { UsesAt(bs[..|bs| - 1], i, n); }
  }

  lemma {:induction false} UsesTwice(bs: seq<Batch>, i: nat, j: nat, n: nat)
    requires i < j < |bs| && bs[i].seqNo == n && bs[j].seqNo == n
    ensures Uses(bs, n) >= 2
  {
    var init := bs[..|bs| - 1];
    if j < |bs| - 1 { UsesTwice(init, i, j, n); } else { UsesAt(init, i, n); }
  }

  /** In no run do two queued log batches carry the same number. */
  lemma NumberedOnce(c: Caps, steps: seq<Step>, i: nat, j: nat)
    requires i < j < |Run(c, steps).queued|
    ensures Run(c, steps).queued[i].seqNo != Run(c, steps).queued[j].seqNo
    ensures 0 < Run(c, steps).queued[j].seqNo <= Run(c, steps).ring.seqNo
  {
    var s := Run(c, steps);
    FreshRun(c, steps, s.queued[j].seqNo);
    UsesAt(s.queued, j, s.queued[j].seqNo);
    if s.queued[i].seqNo == s.queued[j].seqNo { UsesTwice(s.queued, i, j, s.queued[j].seqNo); }
  }
}
