/** Tool-call samples and their two billing classes. */
module Samples {
  datatype Outcome = Ok | ClientError | ServerError | PolicyDenied | QuotaExceeded | IdempotentReplay

  predicate Billable(o: Outcome) {
    !(o.PolicyDenied? || o.QuotaExceeded? || o.IdempotentReplay?)
  }

  /** The tool ran. */
  predicate Ran(o: Outcome) { o == Ok || o == ClientError || o == ServerError }

  /** Exactly the calls that ran are billable; a denied, over-quota or replayed one is not. */
  lemma BillableIffRan(o: Outcome)
    ensures Billable(o) <==> o in {Ok, ClientError, ServerError}
    ensures !Billable(o) <==> o in {PolicyDenied, QuotaExceeded, IdempotentReplay}
  {
  }

  /** One recorded call. `call` stands for everything but the outcome. */
  datatype Sample = Sample(call: nat, outcome: Outcome)

  /** The samples of one billing class, in order. */
  function OfClass(s: seq<Sample>, billable: bool): (r: seq<Sample>)
    ensures |r| <= |s|
  {
    if s == [] then []
    else
      var rest := OfClass(s[..|s| - 1], billable);
      if Billable(s[|s| - 1].outcome) == billable then rest + [s[|s| - 1]] else rest
  }

  function Count(s: seq<Sample>, billable: bool): nat {
    |OfClass(s, billable)|
  }

  lemma {:induction false} OfClassConcat(a: seq<Sample>, b: seq<Sample>, billable: bool)
    ensures OfClass(a + b, billable) == OfClass(a, billable) + OfClass(b, billable)
  {
    if b == [] {
      assert a + b == a;
    } else {
      var init, x := b[..|b| - 1], b[|b| - 1];
      assert (a + b)[..|a + b| - 1] == a + init && (a + b)[|a + b| - 1] == x;
      OfClassConcat(a, init, billable);
      var last := if Billable(x.outcome) == billable then [x] else [];
      calc {
        OfClass(a + b, billable);
        OfClass(a + init, billable) + last;
        OfClass(a, billable) + OfClass(init, billable) + last;
        OfClass(a, billable) + (OfClass(init, billable) + last);
        OfClass(a, billable) + OfClass(b, billable);
      }
    }
  }

  /** Every sample is in exactly one class. */
  lemma {:induction false} ClassesPartition(s: seq<Sample>)
    ensures Count(s, true) + Count(s, false) == |s|
    ensures multiset(OfClass(s, true)) + multiset(OfClass(s, false)) == multiset(s)
  {
    if s != [] {
      ClassesPartition(s[..|s| - 1]);
      assert s == s[..|s| - 1] + [s[|s| - 1]];
    }
  }

  lemma {:induction false} OfClassMembers(s: seq<Sample>, billable: bool)
    ensures forall x :: x in OfClass(s, billable) <==> x in s && Billable(x.outcome) == billable
  {
    if s != [] {
      OfClassMembers(s[..|s| - 1], billable);
      assert s == s[..|s| - 1] + [s[|s| - 1]];
    }
  }

  // ---- Counting by weight ----------------------------------------------------------------

  /** What is counted: the copies of one sample, or the samples of one class. */
  datatype Measure = Copies(of: Sample) | Class(billable: bool)

  function Weight(m: Measure, x: Sample): nat {
    match m
    case Copies(of) => if x == of then 1 else 0
    case Class(billable) => if Billable(x.outcome) == billable then 1 else 0
  }

  function Weigh(m: Measure, s: seq<Sample>): nat {
    if s == [] then 0 else Weigh(m, s[..|s| - 1]) + Weight(m, s[|s| - 1])
  }

  lemma {:induction false} WeighConcat(m: Measure, a: seq<Sample>, b: seq<Sample>)
    ensures Weigh(m, a + b) == Weigh(m, a) + Weigh(m, b)
  {
    if b == [] {
      assert a + b == a;
    } else {
      WeighConcat(m, a, b[..|b| - 1]);
      assert (a + b)[..|a + b| - 1] == a + b[..|b| - 1];
    }
  }

  lemma {:induction false} WeighClass(s: seq<Sample>, billable: bool)
    ensures Weigh(Class(billable), s) == Count(s, billable)
  {
    if s != [] {
      WeighClass(s[..|s| - 1], billable);
    }
  }

  lemma {:induction false} WeighCopies(s: seq<Sample>, x: Sample)
    ensures Weigh(Copies(x), s) == multiset(s)[x]
  {
    if s != [] {
      WeighCopies(s[..|s| - 1], x);
      assert s == s[..|s| - 1] + [s[|s| - 1]];
    }
  }
}
