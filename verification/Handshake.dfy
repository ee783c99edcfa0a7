/** `AgentShutdown::finished` against the agent raising its flag, under every interleaving. */
module Handshake {

  /** The agent stores the finished flag, then notifies the waiters registered by then. */
  datatype Agent = Working | FlagUp | Notified

  /** A call of `finished()`: it loads the flag, registers, loads it again, and only then waits. */
  datatype Waiter = Called | SawNothing | Registered(notified: bool) | Awaiting(notified: bool) | Returned

  datatype State = State(agent: Agent, waiters: seq<Waiter>)

  datatype Step = Call | RaiseFlag | NotifyWaiters | Advance(waiter: nat)

  const INIT: State := State(Working, [])

  predicate Flag(a: Agent) { !a.Working? }

  function Notify(w: Waiter): Waiter {
    match w
    case Registered(_) => Registered(true)
    case Awaiting(_) => Awaiting(true)
    case _ => w
  }

  function AdvanceOne(a: Agent, w: Waiter): Waiter {
    match w
    case Called => if Flag(a) then Returned else SawNothing
    case SawNothing => Registered(false)
    case Registered(n) => if Flag(a) then Returned else Awaiting(n)
    case Awaiting(n) => if n then Returned else w
    case Returned => w
  }

  function Next(s: State, step: Step): State {
    match step
    case Call => s.(waiters := s.waiters + [Called])
    case RaiseFlag => if s.agent.Working? then s.(agent := FlagUp) else s
    case NotifyWaiters =>
      if s.agent.FlagUp? then
        State(Notified, seq(|s.waiters|, i requires 0 <= i < |s.waiters| => Notify(s.waiters[i])))
      else s
    case Advance(i) =>
      if i < |s.waiters| then s.(waiters := s.waiters[i := AdvanceOne(s.agent, s.waiters[i])]) else s
  }

  function Run(steps: seq<Step>): State {
    if steps == [] then INIT else Next(Run(steps[..|steps| - 1]), steps[|steps| - 1])
  }

  ghost predicate Inv(s: State) {
    forall i :: 0 <= i < |s.waiters| ==>
      && (s.agent.Notified? ==> s.waiters[i] != Awaiting(false))
      && (s.waiters[i].Returned? ==> Flag(s.agent))
      && (s.waiters[i] == Awaiting(true) || s.waiters[i] == Registered(true) ==> s.agent.Notified?)
  }

  lemma {:induction false} InvRun(steps: seq<Step>)
    ensures Inv(Run(steps))
  {
    if steps != [] {
      InvRun(steps[..|steps| - 1]);
    }
  }

  /** The agent has raised its flag. */
  ghost predicate Raised(steps: seq<Step>) { exists j :: 0 <= j < |steps| && steps[j].RaiseFlag? }

  /** It has notified its waiters since. */
  ghost predicate Told(steps: seq<Step>) {
    exists j :: 0 <= j < |steps| && steps[j].NotifyWaiters? && Raised(steps[..j])
  }

  lemma RaisedOn(steps: seq<Step>)
    requires steps != []
    ensures Raised(steps) <==> Raised(steps[..|steps| - 1]) || steps[|steps| - 1].RaiseFlag?
  {
    var pre := steps[..|steps| - 1];
    if j :| 0 <= j < |pre| && pre[j].RaiseFlag? { assert steps[j].RaiseFlag?; }
    if j :| 0 <= j < |steps| && steps[j].RaiseFlag? { assert j < |pre| ==> pre[j].RaiseFlag?; }
  }

  lemma ToldOn(steps: seq<Step>)
    requires steps != []
    ensures Told(steps)
       <==> Told(steps[..|steps| - 1]) || (steps[|steps| - 1].NotifyWaiters? && Raised(steps[..|steps| - 1]))
  {
    var pre := steps[..|steps| - 1];
    if j :| 0 <= j < |pre| && pre[j].NotifyWaiters? && Raised(pre[..j]) {
      assert pre[..j] == steps[..j] && steps[j].NotifyWaiters?;
    }
    if j :| 0 <= j < |steps| && steps[j].NotifyWaiters? && Raised(steps[..j]) {
      if j < |pre| { assert pre[..j] == steps[..j] && pre[j].NotifyWaiters?; }
    }
  }

  /** The flag is up exactly once raised, and the waiters notified exactly by a notification after that. */
  lemma {:induction false} AgentIs(steps: seq<Step>)
    ensures Flag(Run(steps).agent) <==> Raised(steps)
    ensures Run(steps).agent.Notified? <==> Told(steps)
  {
    if steps != [] {
      AgentIs(steps[..|steps| - 1]);
      RaisedOn(steps);
      ToldOn(steps);
    }
  }

  /** How many of its own steps a call has left once the waiters have been notified. */
  function StepsLeft(w: Waiter): nat {
    match w
    case Called => 1
    case SawNothing => 2
    case Registered(_) => 1
    case Awaiting(_) => 1
    case Returned => 0
  }

  /**
   * No interleaving leaves a call waiting: once the agent has raised its flag and notified, each
   * step of a call brings it closer to returning. And no call returns before the flag is up.
   */
  lemma FinishedNeverHangs(steps: seq<Step>, i: nat)
    requires i < |Run(steps).waiters|
    ensures var s := Run(steps);
            && (s.agent.Notified? && !s.waiters[i].Returned? ==>
                  StepsLeft(AdvanceOne(s.agent, s.waiters[i])) < StepsLeft(s.waiters[i]))
            && (s.waiters[i].Returned? ==> Flag(s.agent))
  {
    InvRun(steps);
  }
}
