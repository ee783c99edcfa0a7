/** The agent's run loop as a step system: what every run keeps, whatever the control plane answers. */
module RunLoop {
  import opened Words
  import opened Enrollment
  import Backoffs

  /** What the loop reads of its configuration: whether it can enrol, and the refresh window in seconds. */
  datatype Config = Config(canEnrol: bool, window: nat)

  function Settings(url: string, heartbeat: nat): Config {
    Config(ExtractToken(url).Some?, RefreshWindow(heartbeat))
  }

  /** How a session ended; an error is known by what `Classify` makes of it. */
  datatype End = Clean | Failed(failure: Failure)

  datatype Pc =
    | Boot
    | BootEnrolling
    | Top
    | Enrolling(rejected: bool)
    | Connecting
    | Established          // the Channel is open; the select is not entered yet
    | InSession(woken: bool)
    | Ending(end: End)     // the tasks are aborted; the stopping flag is not looked at yet
    | Flushing(end: End)
    | Ended(end: End)
    | Raising              // the finished flag is up; its waiters are not notified yet
    | Exited(ok: bool)

  datatype Event =
    | Registered(token: Token, iteration: nat)
    | Rotated(token: Token)
    | Presented(token: Token, iteration: nat, checkedAt: int)
    | Rejected(token: Token)

  /** How the creds file is after a write: written, left as it was, or torn beyond reading. */
  datatype Write = Written | Untouched | Torn

  /** Histories of the tokens: what this iteration checked and presented, and the log of all of it. */
  datatype Trace = Trace(presented: Option<Token>, iteration: nat, checkedAt: int, log: seq<Event>)

  /** The backoff's attempt counter, and a history: the failures since the last clean end. */
  datatype Retry = Retry(attempt: nat, failures: nat)

  /** The stopping and finished flags. */
  datatype Stop = Stop(stopping: bool, finished: bool)

  /** `jwt` and `file` are the token in memory and in a readable creds file. */
  datatype State = State(pc: Pc, jwt: Option<Token>, file: Option<Token>, trace: Trace, retry: Retry, stop: Stop)

  datatype Step =
    | Start
    | Trigger                                  // trigger() raises the stopping flag ...
    | NotifyTrigger                            // ... and wakes the waiters registered by then
    | CheckTop(now: int)
    | Enrol(token: Token, write: Write)
    | ConnectFails
    | Open(refused: Option<Failure>)
    | EnterSelect
    | Rotate(token: Token, write: Write)
    | StreamEnds(end: End)
    | ShutdownWakes
    | LookAtStopping
    | FlushDone
    | Handle(removed: bool)
    | NotifyFinished

  function Init(file: Option<Token>): State {
    State(Boot, None, file, Trace(None, 0, 0, []), Retry(0, 0), Stop(false, false))
  }

  function Failing(r: Retry): Retry { Retry(Min(r.attempt + 1, 0xFFFF_FFFF), r.failures + 1) }

  function Log(t: Trace, e: Event): Trace { t.(log := t.log + [e]) }

  function AfterWrite(file: Option<Token>, token: Token, write: Write): Option<Token> {
    match write
    case Written => Some(token)
    case Untouched => file
    case Torn => None
  }

  /** `register_fresh`: fails only without an enrolment token, else retries until the CP answers. */
  function EnrolNext(cfg: Config, s: State, token: Token, write: Write): State {
    if !s.pc.BootEnrolling? && !s.pc.Enrolling? then s
    else if !cfg.canEnrol then s.(pc := Exited(false))
    else s.(pc := if s.pc == Enrolling(false) then Connecting else Top,
            jwt := Some(token), file := AfterWrite(s.file, token, write),
            trace := Log(s.trace, Registered(token, s.trace.iteration)))
  }

  function Expiring(cfg: Config, jwt: Option<Token>, now: int): bool {
    ExpiresWithin(if jwt.Some? then jwt.value.exp else None, now, cfg.window)
  }

  function CheckNext(cfg: Config, s: State, now: int): State {
    if s.stop.stopping then s.(pc := Raising, stop := s.stop.(finished := true))
    else s.(pc := if Expiring(cfg, s.jwt, now) && cfg.canEnrol then Enrolling(false) else Connecting,
            trace := Trace(None, s.trace.iteration + 1, now, s.trace.log))
  }

  function OpenNext(s: State, refused: Option<Failure>): State
    requires s.jwt.Some?
  {
    s.(pc := if refused.Some? then Ended(Failed(refused.value)) else Established,
       trace := Log(s.trace.(presented := s.jwt), Presented(s.jwt.value, s.trace.iteration, s.trace.checkedAt)))
  }

  function HandleNext(cfg: Config, s: State, removed: bool): State
    requires s.pc.Ended?
  {
    match s.pc.end
    case Clean => s.(pc := Top, retry := Retry(0, 0))
    case Failed(CredentialsRejected) =>
      s.(pc := if cfg.canEnrol then Enrolling(true) else Top,
         file := if cfg.canEnrol && removed then None else s.file, retry := Failing(s.retry),
         trace := if s.trace.presented.Some? then Log(s.trace, Rejected(s.trace.presented.value)) else s.trace)
    case Failed(SlotHeld(_)) => s.(pc := Top)
    case Failed(OtherFailure) => s.(pc := Top, retry := Failing(s.retry))
  }

  /** A step that is not enabled changes nothing. */
  function Next(cfg: Config, s: State, step: Step): State {
    match step
    case Start =>
      if !s.pc.Boot? then s
      else if s.file.Some? then s.(pc := Top, jwt := s.file) else s.(pc := BootEnrolling)
    case Trigger => s.(stop := s.stop.(stopping := true))
    case NotifyTrigger =>
      if s.stop.stopping && s.pc.InSession? then s.(pc := InSession(true)) else s
    case CheckTop(now) => if s.pc.Top? then CheckNext(cfg, s, now) else s
    case Enrol(token, write) => EnrolNext(cfg, s, token, write)
    case ConnectFails => if s.pc.Connecting? then s.(pc := Ended(Failed(OtherFailure))) else s
    case Open(refused) => if s.pc.Connecting? && s.jwt.Some? then OpenNext(s, refused) else s
    case EnterSelect => if s.pc.Established? then s.(pc := InSession(false)) else s
    case Rotate(token, write) =>
      if s.pc.InSession? then
        s.(jwt := Some(token), trace := Log(s.trace, Rotated(token)),
           file := if s.file.Some? && write.Written? then Some(token) else s.file)
      else s
    case StreamEnds(end) =>
      if s.pc.InSession? then s.(pc := Ending(end)) else s
    case ShutdownWakes =>
      if s.pc == InSession(true) then s.(pc := Ending(Clean)) else s
    case LookAtStopping =>
      if s.pc.Ending? then s.(pc := if s.stop.stopping then Flushing(s.pc.end) else Ended(s.pc.end)) else s
    case FlushDone =>
      if s.pc.Flushing? then s.(pc := Ended(s.pc.end)) else s
    case Handle(removed) => if s.pc.Ended? then HandleNext(cfg, s, removed) else s
    case NotifyFinished => if s.pc.Raising? then s.(pc := Exited(true)) else s
  }

  function Run(cfg: Config, file: Option<Token>, steps: seq<Step>): State {
    if steps == [] then Init(file)
    else Next(cfg, Run(cfg, file, steps[..|steps| - 1]), steps[|steps| - 1])
  }

  predicate Started(pc: Pc) { !pc.Boot? && !pc.BootEnrolling? && pc != Exited(false) }

  // ---- The loop ends only by shutdown, and never without a way back ----------------------------

  ghost predicate LifeInv(cfg: Config, s: State) {
    && (s.pc.Enrolling? ==> cfg.canEnrol)
    && (Started(s.pc) && s.file.None? ==> cfg.canEnrol)
    && (s.stop.finished <==> s.pc.Raising? || s.pc == Exited(true))
    && (s.stop.finished ==> s.stop.stopping)
  }

  lemma LifeNext(cfg: Config, s: State, step: Step)
    requires LifeInv(cfg, s)
    ensures LifeInv(cfg, Next(cfg, s, step))
  {
  }

  lemma {:induction false} LifeRun(cfg: Config, file: Option<Token>, steps: seq<Step>)
    ensures LifeInv(cfg, Run(cfg, file, steps))
  {
    if steps != [] {
      LifeRun(cfg, file, steps[..|steps| - 1]);
      LifeNext(cfg, Run(cfg, file, steps[..|steps| - 1]), steps[|steps| - 1]);
    }
  }

  lemma StartedNext(cfg: Config, s: State, step: Step)
    requires LifeInv(cfg, s) && Started(s.pc)
    ensures Started(Next(cfg, s, step).pc)
  {
  }

  lemma {:induction false} StartedRun(cfg: Config, file: Option<Token>, steps: seq<Step>, j: nat)
    requires j <= |steps| && Started(Run(cfg, file, steps[..j]).pc)
    ensures Started(Run(cfg, file, steps).pc)
  {
    if j == |steps| {
      assert steps[..j] == steps;
    } else {
      var pre := steps[..|steps| - 1];
      assert pre[..j] == steps[..j];
      StartedRun(cfg, file, pre, j);
      LifeRun(cfg, file, pre);
      StartedNext(cfg, Run(cfg, file, pre), steps[|steps| - 1]);
    }
  }

  /**
   * Once the loop has started it returns only with success and only because shutdown was asked
   * for; and whenever the creds file is gone there is a token to enrol with again.
   */
  lemma OnlyShutdownEnds(url: string, heartbeat: nat, file: Option<Token>, steps: seq<Step>, j: nat)
    requires j <= |steps| && Started(Run(Settings(url, heartbeat), file, steps[..j]).pc)
    ensures var s := Run(Settings(url, heartbeat), file, steps);
            && (s.pc.Exited? ==> s.pc.ok && s.stop.stopping)
            && (s.file.None? ==> ExtractToken(url).Some?)
  {
    LifeRun(Settings(url, heartbeat), file, steps);
    StartedRun(Settings(url, heartbeat), file, steps, j);
  }

  // ---- Backoff -------------------------------------------------------------------------------

  ghost predicate RetryInv(s: State) { s.retry.attempt == Min(s.retry.failures, 0xFFFF_FFFF) }

  lemma {:induction false} RetryRun(cfg: Config, file: Option<Token>, steps: seq<Step>)
    ensures RetryInv(Run(cfg, file, steps))
  {
    if steps != [] {
      RetryRun(cfg, file, steps[..|steps| - 1]);
    }
  }

  /** The sessions that failed since the last that ended cleanly, read off the steps; held slots do not count. */
  ghost function FailuresIn(cfg: Config, file: Option<Token>, steps: seq<Step>): nat {
    if steps == [] then 0
    else
      var pre, step := steps[..|steps| - 1], steps[|steps| - 1];
      var s := Run(cfg, file, pre);
      if !step.Handle? || !s.pc.Ended? then FailuresIn(cfg, file, pre)
      else match s.pc.end
        case Clean => 0
        case Failed(SlotHeld(_)) => FailuresIn(cfg, file, pre)
        case Failed(_) => FailuresIn(cfg, file, pre) + 1
  }

  lemma {:induction false} FailuresCounted(cfg: Config, file: Option<Token>, steps: seq<Step>)
    ensures Run(cfg, file, steps).retry.failures == FailuresIn(cfg, file, steps)
  {
    if steps != [] {
      FailuresCounted(cfg, file, steps[..|steps| - 1]);
    }
  }

  /** The delay slept after the next failure is that of the failures since the last clean end. */
  lemma BackoffThroughLoop(cfg: Config, file: Option<Token>, steps: seq<Step>, initial: nat, max: nat)
    ensures Backoffs.Delay(initial, max, Run(cfg, file, steps).retry.attempt)
         == Backoffs.Delay(initial, max, FailuresIn(cfg, file, steps))
  {
    RetryRun(cfg, file, steps);
    FailuresCounted(cfg, file, steps);
    Backoffs.SaturatedDelay(initial, max, FailuresIn(cfg, file, steps));
  }

  /** Until a session ends cleanly, the delay never shrinks. */
  lemma DelayNeverShrinks(cfg: Config, file: Option<Token>, steps: seq<Step>, step: Step, initial: nat, max: nat)
    requires !(step.Handle? && Run(cfg, file, steps).pc == Ended(Clean))
    ensures Backoffs.Delay(initial, max, Run(cfg, file, steps).retry.attempt)
         <= Backoffs.Delay(initial, max, Run(cfg, file, steps + [step]).retry.attempt) <= max
  {
    assert (steps + [step])[..|steps|] == steps;
    BackoffThroughLoop(cfg, file, steps, initial, max);
    BackoffThroughLoop(cfg, file, steps + [step], initial, max);
    Backoffs.DelayMonotone(initial, max, FailuresIn(cfg, file, steps), FailuresIn(cfg, file, steps + [step]));
  }

  // ---- Which token is presented ----------------------------------------------------------------

  /** The token was outside the refresh window when its iteration checked it. */
  predicate Fit(cfg: Config, token: Token, checkedAt: int) {
    !ExpiresWithin(token.exp, checkedAt, cfg.window)
  }

  /** The token was issued by Register in this very iteration. */
  ghost predicate IssuedIn(log: seq<Event>, token: Token, iteration: nat) {
    exists j :: 0 <= j < |log| && log[j] == Registered(token, iteration)
  }

  ghost predicate Sound(cfg: Config, log: seq<Event>, e: Event) {
    e.Presented? && cfg.canEnrol ==> Fit(cfg, e.token, e.checkedAt) || IssuedIn(log, e.token, e.iteration)
  }

  ghost predicate AllSound(cfg: Config, log: seq<Event>) {
    forall i :: 0 <= i < |log| ==> Sound(cfg, log[..i], log[i])
  }

  /** What holds of the token about to be presented. */
  ghost predicate Ready(cfg: Config, s: State) {
    s.pc.Connecting? && cfg.canEnrol ==>
      && s.jwt.Some?
      && (Fit(cfg, s.jwt.value, s.trace.checkedAt) || IssuedIn(s.trace.log, s.jwt.value, s.trace.iteration))
  }

  /** A step logs at most one event, and these are the steps that do. */
  lemma LogEffect(cfg: Config, s: State, step: Step)
    ensures var n := Next(cfg, s, step);
            || n.trace.log == s.trace.log
            || (step.Enrol? && n.trace.log == s.trace.log + [Registered(step.token, s.trace.iteration)]
                && n.jwt == Some(step.token) && n.trace.iteration == s.trace.iteration && !n.pc.Enrolling?)
            || (step.Open? && s.pc.Connecting? && s.jwt.Some? && n.jwt == s.jwt && !n.pc.Connecting?
                && n.trace.log == s.trace.log + [Presented(s.jwt.value, s.trace.iteration, s.trace.checkedAt)])
            || (step.Rotate? && s.pc.InSession? && n.pc == s.pc && n.jwt == Some(step.token)
                && n.trace.log == s.trace.log + [Rotated(step.token)])
            || (step.Handle? && s.trace.presented.Some? && n.pc == (if cfg.canEnrol then Enrolling(true) else Top)
                && n.trace.log == s.trace.log + [Rejected(s.trace.presented.value)])
  {
  }

  lemma SoundGrows(cfg: Config, log: seq<Event>, e: Event)
    requires AllSound(cfg, log) && Sound(cfg, log, e)
    ensures AllSound(cfg, log + [e])
  {
    var more := log + [e];
    forall i | 0 <= i < |more| ensures Sound(cfg, more[..i], more[i]) {
      assert more[..i] == if i < |log| then log[..i] else log;
    }
  }

  lemma ReadyNext(cfg: Config, s: State, step: Step)
    requires Ready(cfg, s)
    ensures Ready(cfg, Next(cfg, s, step))
  {
    var n := Next(cfg, s, step);
    if step.Enrol? && |n.trace.log| > |s.trace.log| {
      assert n.trace.log[|s.trace.log|] == Registered(step.token, s.trace.iteration);
    }
  }

  lemma {:induction false} TokenRun(cfg: Config, file: Option<Token>, steps: seq<Step>)
    ensures Ready(cfg, Run(cfg, file, steps)) && AllSound(cfg, Run(cfg, file, steps).trace.log)
  {
    if steps != [] {
      var s, step := Run(cfg, file, steps[..|steps| - 1]), steps[|steps| - 1];
      TokenRun(cfg, file, steps[..|steps| - 1]);
      ReadyNext(cfg, s, step);
      LogEffect(cfg, s, step);
      var log := Next(cfg, s, step).trace.log;
      if log != s.trace.log { SoundGrows(cfg, s.trace.log, log[|s.trace.log|]); }
    }
  }

  /**
   * With an enrolment token, every Channel open presents a token that was outside the refresh
   * window at that iteration's check, or that Register issued in that iteration.
   */
  lemma TokenSafety(url: string, heartbeat: nat, file: Option<Token>, steps: seq<Step>, i: nat)
    requires ExtractToken(url).Some?
    ensures var log := Run(Settings(url, heartbeat), file, steps).trace.log;
            i < |log| && log[i].Presented? ==>
              || Outlives(log[i].token.exp, log[i].checkedAt, RefreshWindow(heartbeat))
              || IssuedIn(log[..i], log[i].token, log[i].iteration)
  {
    TokenRun(Settings(url, heartbeat), file, steps);
    var log := Run(Settings(url, heartbeat), file, steps).trace.log;
    if i < |log| { assert Sound(Settings(url, heartbeat), log[..i], log[i]); }
  }

  /** The expiry can be read, passes the check, and (for any sane window) lies beyond it. */
  ghost predicate Outlives(exp: Option<int>, now: int, window: nat) {
    && exp.Some? && !ExpiresWithin(exp, now, window)
    && (window < 0x7FFF_FFFF_FFFF_FFFF ==> exp.value - now > window)
  }

  // ---- The histories are what the steps say ------------------------------------------------------

  /** An iteration begins: the loop's check finds no request to stop. */
  predicate Begins(s: State, step: Step) { step.CheckTop? && s.pc.Top? && !s.stop.stopping }

  /** Register answers. */
  predicate Registers(cfg: Config, s: State, step: Step) {
    step.Enrol? && (s.pc.BootEnrolling? || s.pc.Enrolling?) && cfg.canEnrol
  }

  /** What a step adds to the story so far, told without looking at the trace the state carries. */
  function Tells(cfg: Config, s: State, t: Trace, step: Step): Trace {
    if Begins(s, step) then Trace(None, t.iteration + 1, step.now, t.log)
    else if Opens(s, step) then
      Trace(s.jwt, t.iteration, t.checkedAt, t.log + [Presented(s.jwt.value, t.iteration, t.checkedAt)])
    else if Registers(cfg, s, step) then t.(log := t.log + [Registered(step.token, t.iteration)])
    else if step.Rotate? && s.pc.InSession? then t.(log := t.log + [Rotated(step.token)])
    else if step.Handle? && s.pc == Ended(Failed(CredentialsRejected)) && t.presented.Some? then
      t.(log := t.log + [Rejected(t.presented.value)])
    else t
  }

  ghost function Story(cfg: Config, file: Option<Token>, steps: seq<Step>): Trace {
    if steps == [] then Trace(None, 0, 0, [])
    else
      var pre := steps[..|steps| - 1];
      Tells(cfg, Run(cfg, file, pre), Story(cfg, file, pre), steps[|steps| - 1])
  }

  lemma TellsNext(cfg: Config, s: State, step: Step)
    ensures Next(cfg, s, step).trace == Tells(cfg, s, s.trace, step)
  {
  }

  /** The log is truthful: it holds exactly the opens, registers, rotations and rejections of the run. */
  lemma {:induction false} LogIsStory(cfg: Config, file: Option<Token>, steps: seq<Step>)
    ensures Run(cfg, file, steps).trace == Story(cfg, file, steps)
  {
    if steps != [] {
      LogIsStory(cfg, file, steps[..|steps| - 1]);
      TellsNext(cfg, Run(cfg, file, steps[..|steps| - 1]), steps[|steps| - 1]);
    }
  }

  /** How the last session ended, read off the steps. */
  ghost function LastEnd(cfg: Config, file: Option<Token>, steps: seq<Step>): End {
    if steps == [] then Clean
    else
      var pre, step := steps[..|steps| - 1], steps[|steps| - 1];
      var s := Run(cfg, file, pre);
      if step.ConnectFails? && s.pc.Connecting? then Failed(OtherFailure)
      else if Opens(s, step) && step.refused.Some? then Failed(step.refused.value)
      else if step.StreamEnds? && s.pc.InSession? then step.end
      else if step.ShutdownWakes? && s.pc.InSession? then Clean
      else LastEnd(cfg, file, pre)
  }

  /** What is handled is how the session ended. */
  lemma {:induction false} EndIsLast(cfg: Config, file: Option<Token>, steps: seq<Step>)
    ensures var pc := Run(cfg, file, steps).pc;
            pc.Ending? || pc.Flushing? || pc.Ended? ==> pc.end == LastEnd(cfg, file, steps)
  {
    if steps != [] { EndIsLast(cfg, file, steps[..|steps| - 1]); }
  }

  // ---- Where the loop goes next ------------------------------------------------------------------

  lemma RunSnoc(cfg: Config, file: Option<Token>, pre: seq<Step>, step: Step)
    ensures Run(cfg, file, pre + [step]) == Next(cfg, Run(cfg, file, pre), step)
  {
    assert (pre + [step])[..|pre|] == pre;
  }

  /** A session whose stream ends brings the loop back to its top, or to enrolling after a rejection. */
  lemma SessionReturns(cfg: Config, file: Option<Token>, steps: seq<Step>, end: End, removed: bool)
    requires Run(cfg, file, steps).pc.InSession?
    ensures var s := Run(cfg, file, steps + [StreamEnds(end)] + [LookAtStopping] + [FlushDone] + [Handle(removed)]);
            s.pc == if end == Failed(CredentialsRejected) && cfg.canEnrol then Enrolling(true) else Top
  {
    RunSnoc(cfg, file, steps, StreamEnds(end));
    RunSnoc(cfg, file, steps + [StreamEnds(end)], LookAtStopping);
    RunSnoc(cfg, file, steps + [StreamEnds(end)] + [LookAtStopping], FlushDone);
    RunSnoc(cfg, file, steps + [StreamEnds(end)] + [LookAtStopping] + [FlushDone], Handle(removed));
  }

  /** A connection is lost, refused for a reason, or open and soon in its select. */
  lemma OpenLeads(cfg: Config, file: Option<Token>, steps: seq<Step>, refused: Option<Failure>)
    requires Run(cfg, file, steps).pc.Connecting?
    ensures Run(cfg, file, steps + [ConnectFails]).pc == Ended(Failed(OtherFailure))
    ensures Run(cfg, file, steps).jwt.Some? && refused.Some? ==>
              Run(cfg, file, steps + [Open(refused)]).pc == Ended(Failed(refused.value))
    ensures Run(cfg, file, steps).jwt.Some? && refused.None? ==>
              Run(cfg, file, steps + [Open(refused)] + [EnterSelect]).pc == InSession(false)
  {
    RunSnoc(cfg, file, steps, ConnectFails);
    RunSnoc(cfg, file, steps, Open(refused));
    RunSnoc(cfg, file, steps + [Open(refused)], EnterSelect);
  }

  /** Register answered: the loop connects if its check had sent it enrolling, and begins again otherwise. */
  lemma EnrolReturns(cfg: Config, file: Option<Token>, steps: seq<Step>, token: Token, write: Write)
    requires Run(cfg, file, steps).pc.BootEnrolling? || Run(cfg, file, steps).pc.Enrolling?
    ensures var s, n := Run(cfg, file, steps), Run(cfg, file, steps + [Enrol(token, write)]);
            && (cfg.canEnrol ==> n.jwt == Some(token) && n.pc == if s.pc == Enrolling(false) then Connecting else Top)
            && (!cfg.canEnrol ==> n.pc == Exited(false))
  {
    RunSnoc(cfg, file, steps, Enrol(token, write));
  }

  /** A stopping agent at the loop's top finishes. */
  lemma StopsAtTop(cfg: Config, file: Option<Token>, steps: seq<Step>, now: int)
    requires Run(cfg, file, steps).pc.Top? && Run(cfg, file, steps).stop.stopping
    ensures var s := Run(cfg, file, steps + [CheckTop(now)] + [NotifyFinished]); s.pc == Exited(true) && s.stop.finished
  {
    RunSnoc(cfg, file, steps, CheckTop(now));
    RunSnoc(cfg, file, steps + [CheckTop(now)], NotifyFinished);
  }

  /** No session flushes before `trigger` is called: its buffers carry over to the next. */
  lemma {:induction false} NoEarlyFlush(cfg: Config, file: Option<Token>, steps: seq<Step>)
    ensures Run(cfg, file, steps).pc.Flushing? ==> Triggered(steps)
  {
    if steps != [] {
      NoEarlyFlush(cfg, file, steps[..|steps| - 1]);
      StoppingIff(cfg, file, steps[..|steps| - 1]);
      TriggeredOn(steps);
    }
  }

  // ---- The creds file ----------------------------------------------------------------------------

  /** Rejected creds leave the disk when there is a token to enrol with and the removal succeeds, and only then. */
  lemma RejectedLeaveDisk(cfg: Config, file: Option<Token>, steps: seq<Step>, removed: bool)
    requires Run(cfg, file, steps).pc == Ended(Failed(CredentialsRejected))
    ensures var s, n := Run(cfg, file, steps), Run(cfg, file, steps + [Handle(removed)]);
            n.file == if cfg.canEnrol && removed then None else s.file
  {
    RunSnoc(cfg, file, steps, Handle(removed));
  }

  /**
   * What a step does to the file: Register writes it as the write comes out, a rotation rewrites one
   * that is there or leaves it, a handled rejection may remove it, and nothing else touches it.
   */
  lemma FileAfter(cfg: Config, s: State, step: Step)
    ensures var n := Next(cfg, s, step);
            && (Registers(cfg, s, step) ==>
                  && (step.write.Written? ==> n.file == Some(step.token))
                  && (step.write.Untouched? ==> n.file == s.file) && (step.write.Torn? ==> n.file == None))
            && (step.Rotate? && s.pc.InSession? && s.file.Some? && step.write.Written? ==> n.file == Some(step.token))
            && (step.Rotate? && (s.file.None? || !step.write.Written?) ==> n.file == s.file)
            && (!Registers(cfg, s, step) && !step.Rotate? && !step.Handle? ==> n.file == s.file)
            && (step.Handle? && s.pc != Ended(Failed(CredentialsRejected)) ==> n.file == s.file)
  {
  }

  /** Every removal of the creds file succeeds. */
  predicate Removing(steps: seq<Step>) { forall j :: 0 <= j < |steps| && steps[j].Handle? ==> steps[j].removed }

  /** Every write of the creds file succeeds too. */
  predicate Writing(steps: seq<Step>) {
    && Removing(steps)
    && forall j :: 0 <= j < |steps| && (steps[j].Enrol? || steps[j].Rotate?) ==> steps[j].write == Written
  }

  /** In step: the file is the token in memory, but for a rejected one about to be replaced. */
  ghost predicate InStep(s: State) {
    Started(s.pc) ==> if s.pc == Enrolling(true) then s.file == None else s.file == s.jwt && s.jwt.Some?
  }

  lemma InStepNext(cfg: Config, s: State, step: Step)
    requires LifeInv(cfg, s) && InStep(s) && Writing([step])
    ensures InStep(Next(cfg, s, step))
  {
    assert [step][0] == step;
  }

  /** While writes succeed, a restart at any point presents the token the process holds. */
  lemma {:induction false} FileIsToken(cfg: Config, file: Option<Token>, steps: seq<Step>)
    requires Writing(steps)
    ensures InStep(Run(cfg, file, steps))
  {
    if steps != [] {
      var pre, step := steps[..|steps| - 1], steps[|steps| - 1];
      FileIsToken(cfg, file, pre);
      LifeRun(cfg, file, pre);
      assert steps[|steps| - 1] == step;
      InStepNext(cfg, Run(cfg, file, pre), step);
    }
  }

  // ---- A rejected token is not presented again -------------------------------------------------

  predicate Issues(e: Event, token: Token) {
    (e.Registered? || e.Rotated?) && e.token == token
  }

  /** Every rejection of `token` is followed by a fresh issue of it. */
  ghost predicate Reissued(log: seq<Event>, token: Token) {
    forall a :: 0 <= a < |log| && log[a] == Rejected(token) ==> exists b :: a < b < |log| && Issues(log[b], token)
  }

  ghost predicate NoReplay(log: seq<Event>) {
    forall i :: 0 <= i < |log| && log[i].Presented? ==> Reissued(log[..i], log[i].token)
  }

  ghost predicate ReplayInv(s: State) {
    && NoReplay(s.trace.log)
    && (s.pc.Boot? ==> s.trace.log == [])
    && (s.pc != Enrolling(true) && s.jwt.Some? ==> Reissued(s.trace.log, s.jwt.value))
  }

  lemma NoReplayGrows(log: seq<Event>, e: Event)
    requires NoReplay(log) && (e.Presented? ==> Reissued(log, e.token))
    ensures NoReplay(log + [e])
  {
    var more := log + [e];
    forall i | 0 <= i < |more| && more[i].Presented? ensures Reissued(more[..i], more[i].token) {
      assert more[..i] == if i < |log| then log[..i] else log;
    }
  }

  lemma ReissuedGrows(log: seq<Event>, e: Event, token: Token)
    requires Issues(e, token) || (Reissued(log, token) && e != Rejected(token))
    ensures Reissued(log + [e], token)
  {
    var more := log + [e];
    forall a | 0 <= a < |more| && more[a] == Rejected(token)
      ensures exists b :: a < b < |more| && Issues(more[b], token)
    {
      if Issues(e, token) {
        assert Issues(more[|log|], token);
      } else {
        assert log[a] == Rejected(token);
        var b :| a < b < |log| && Issues(log[b], token);
        assert Issues(more[b], token);
      }
    }
  }

  /** Steps that log nothing keep the token, install the file's at boot, or have not left the rejection. */
  lemma QuietToken(cfg: Config, s: State, step: Step)
    requires Next(cfg, s, step).trace.log == s.trace.log
    ensures var n := Next(cfg, s, step);
            && (n.jwt == s.jwt || s.pc.Boot?)
            && (n.pc.Boot? ==> s.pc.Boot?)
            && (s.pc == Enrolling(true) && cfg.canEnrol ==> n.pc == Enrolling(true))
  {
  }

  lemma ReplayNext(cfg: Config, s: State, step: Step)
    requires cfg.canEnrol && ReplayInv(s)
    ensures ReplayInv(Next(cfg, s, step))
  {
    var n := Next(cfg, s, step);
    LogEffect(cfg, s, step);
    if n.trace.log == s.trace.log {
      QuietToken(cfg, s, step);
    } else {
      var e := n.trace.log[|s.trace.log|];
      NoReplayGrows(s.trace.log, e);
      if n.pc != Enrolling(true) && n.jwt.Some? { ReissuedGrows(s.trace.log, e, n.jwt.value); }
    }
  }

  lemma {:induction false} ReplayRun(cfg: Config, file: Option<Token>, steps: seq<Step>)
    requires cfg.canEnrol
    ensures ReplayInv(Run(cfg, file, steps))
  {
    if steps != [] {
      ReplayRun(cfg, file, steps[..|steps| - 1]);
      ReplayNext(cfg, Run(cfg, file, steps[..|steps| - 1]), steps[|steps| - 1]);
    }
  }

  /** With an enrolment token, a token the CP rejected is presented again only after being issued again. */
  lemma RejectedNotReplayed(cfg: Config, file: Option<Token>, steps: seq<Step>, a: nat, i: nat)
    requires cfg.canEnrol
    requires a < i < |Run(cfg, file, steps).trace.log|
    requires Run(cfg, file, steps).trace.log[i].Presented?
    requires Run(cfg, file, steps).trace.log[a] == Rejected(Run(cfg, file, steps).trace.log[i].token)
    ensures var log := Run(cfg, file, steps).trace.log;
            exists b :: a < b < i && Issues(log[b], log[i].token)
  {
    ReplayRun(cfg, file, steps);
    var log := Run(cfg, file, steps).trace.log;
    assert Reissued(log[..i], log[i].token);
    assert log[..i][a] == Rejected(log[i].token);
    var b :| a < b < i && Issues(log[..i][b], log[i].token);
    assert Issues(log[b], log[i].token);
  }

  /** What a step that logs something leaves in the file: what was there, nothing, or the token just issued. */
  lemma FileEffect(cfg: Config, s: State, step: Step)
    ensures var n := Next(cfg, s, step);
            || n.file == s.file || n.file == None
            || (n.file == Some(step.token) && (step.Enrol? || step.Rotate?)
                && n.trace.log != s.trace.log && Issues(n.trace.log[|n.trace.log| - 1], step.token))
  {
  }

  lemma RejectionEmpties(cfg: Config, s: State, step: Step)
    requires cfg.canEnrol && Removing([step])
    requires step.Handle? && Next(cfg, s, step).trace.log != s.trace.log
    ensures Next(cfg, s, step).file == None
  {
    assert [step][0] == step;
  }

  ghost predicate FileReissued(s: State) { s.file.Some? ==> Reissued(s.trace.log, s.file.value) }

  lemma FileReissuedNext(cfg: Config, s: State, step: Step)
    requires cfg.canEnrol && FileReissued(s) && Removing([step])
    ensures FileReissued(Next(cfg, s, step))
  {
    var n := Next(cfg, s, step);
    LogEffect(cfg, s, step);
    FileEffect(cfg, s, step);
    if n.trace.log != s.trace.log && n.file.Some? {
      if step.Handle? { RejectionEmpties(cfg, s, step); }
      ReissuedGrows(s.trace.log, n.trace.log[|s.trace.log|], n.file.value);
    }
  }

  /**
   * With an enrolment token, and removals that succeed, no rejected token stands in the file unless it
   * was issued again: a restart at any point presents none.
   */
  lemma {:induction false} RejectedNotStored(cfg: Config, file: Option<Token>, steps: seq<Step>)
    requires cfg.canEnrol && Removing(steps)
    ensures FileReissued(Run(cfg, file, steps))
  {
    if steps != [] {
      RejectedNotStored(cfg, file, steps[..|steps| - 1]);
      assert steps[|steps| - 1].Handle? ==> steps[|steps| - 1].removed;
      FileReissuedNext(cfg, Run(cfg, file, steps[..|steps| - 1]), steps[|steps| - 1]);
    }
  }

  /** Without an enrolment token the rejected token is all there is, and is presented again. */
  lemma WithoutTokenReplays(cfg: Config, token: Token)
    requires !cfg.canEnrol
    ensures var log := Run(cfg, Some(token), ReplayRunSteps()).trace.log;
            log == [Presented(token, 1, 0), Rejected(token), Presented(token, 2, 0)]
  {
    var p := ReplayRunSteps();
    assert p[..6] == p && p[..0] == [];
    assert forall i :: 0 <= i < 6 ==> p[..i + 1][..i] == p[..i];
    var s0 := Run(cfg, Some(token), p[..0]);
    var s1 := Run(cfg, Some(token), p[..1]);
    assert s1 == Next(cfg, s0, p[0]);
    var s2 := Run(cfg, Some(token), p[..2]);
    assert s2 == Next(cfg, s1, p[1]);
    var s3 := Run(cfg, Some(token), p[..3]);
    assert s3 == Next(cfg, s2, p[2]) && s3.trace.log == [Presented(token, 1, 0)];
    var s4 := Run(cfg, Some(token), p[..4]);
    assert s4 == Next(cfg, s3, p[3]) && s4.trace.log == [Presented(token, 1, 0), Rejected(token)];
    var s5 := Run(cfg, Some(token), p[..5]);
    assert s5 == Next(cfg, s4, p[4]);
    assert Run(cfg, Some(token), p[..6]) == Next(cfg, s5, p[5]);
  }

  function ReplayRunSteps(): seq<Step> {
    [Start, CheckTop(0), Open(Some(CredentialsRejected)), Handle(true), CheckTop(0), Open(None)]
  }

  // ---- Shutdown ------------------------------------------------------------------------------

  ghost predicate Triggered(steps: seq<Step>) { exists j :: 0 <= j < |steps| && steps[j].Trigger? }

  lemma TriggeredOn(steps: seq<Step>)
    requires steps != []
    ensures Triggered(steps) <==> Triggered(steps[..|steps| - 1]) || steps[|steps| - 1].Trigger?
  {
    var pre := steps[..|steps| - 1];
    if j :| 0 <= j < |pre| && pre[j].Trigger? { assert steps[j].Trigger?; }
    if j :| 0 <= j < |steps| && steps[j].Trigger? { assert j < |pre| ==> pre[j].Trigger?; }
  }

  /** The stopping flag is up exactly when `trigger` has been called. */
  lemma {:induction false} StoppingIff(cfg: Config, file: Option<Token>, steps: seq<Step>)
    ensures Run(cfg, file, steps).stop.stopping <==> Triggered(steps)
  {
    if steps != [] {
      StoppingIff(cfg, file, steps[..|steps| - 1]);
      TriggeredOn(steps);
    }
  }

  /** The step opens a Channel. */
  predicate Opens(s: State, step: Step) { step.Open? && s.pc.Connecting? && s.jwt.Some? }

  /** How many Channels are opened after the first call of `trigger`, read off the steps. */
  ghost function OpensAfter(cfg: Config, file: Option<Token>, steps: seq<Step>): nat {
    if steps == [] then 0
    else
      var pre := steps[..|steps| - 1];
      OpensAfter(cfg, file, pre)
      + (if Triggered(pre) && Opens(Run(cfg, file, pre), steps[|steps| - 1]) then 1 else 0)
  }

  /** On the way to an open. */
  predicate Heading(pc: Pc) { pc.Connecting? || pc == Enrolling(false) }

  lemma HeadingNext(cfg: Config, s: State, step: Step)
    ensures Heading(Next(cfg, s, step).pc) ==> Heading(s.pc) || !s.stop.stopping
    ensures Opens(s, step) ==> Heading(s.pc) && !Heading(Next(cfg, s, step).pc)
  {
  }

  lemma {:induction false} OpensRun(cfg: Config, file: Option<Token>, steps: seq<Step>)
    ensures OpensAfter(cfg, file, steps) <= 1
    ensures Heading(Run(cfg, file, steps).pc) || !Triggered(steps) ==> OpensAfter(cfg, file, steps) == 0
  {
    if steps != [] {
      var pre, step := steps[..|steps| - 1], steps[|steps| - 1];
      OpensRun(cfg, file, pre);
      StoppingIff(cfg, file, pre);
      TriggeredOn(steps);
      HeadingNext(cfg, Run(cfg, file, pre), step);
    }
  }

  /** A session ends at step `e`, after `trigger` was called. */
  ghost predicate EndsAfter(cfg: Config, file: Option<Token>, steps: seq<Step>, e: nat) {
    && e < |steps| && Triggered(steps[..e])
    && Run(cfg, file, steps[..e]).pc.InSession? && !Run(cfg, file, steps[..e + 1]).pc.InSession?
  }

  predicate Closing(pc: Pc) { pc.Ending? || pc.Flushing? }

  /** The flush of the session that ended at step `e` is done at step `d`. */
  ghost predicate FlushedAt(cfg: Config, file: Option<Token>, steps: seq<Step>, e: nat, d: nat) {
    && e < d < |steps| && steps[d].FlushDone? && Run(cfg, file, steps[..d]).pc.Flushing?
    && forall k :: e < k <= d ==> Closing(Run(cfg, file, steps[..k]).pc)
  }

  /** A stopping agent leaves a closing session only through its flush. */
  lemma ClosingNext(cfg: Config, s: State, step: Step)
    requires Closing(s.pc) && s.stop.stopping
    ensures Closing(Next(cfg, s, step).pc) || (step.FlushDone? && s.pc.Flushing?)
  {
  }

  lemma SessionCloses(cfg: Config, s: State, step: Step)
    requires s.pc.InSession? && !Next(cfg, s, step).pc.InSession?
    ensures Closing(Next(cfg, s, step).pc)
  {
  }

  /** Up to step `m` the session is closing, or its flush is done. */
  lemma {:induction false} ClosingUntil(cfg: Config, file: Option<Token>, steps: seq<Step>, e: nat, m: nat)
    requires EndsAfter(cfg, file, steps, e) && e < m <= |steps|
    ensures || (forall k :: e < k <= m ==> Closing(Run(cfg, file, steps[..k]).pc))
            || exists d: nat :: FlushedAt(cfg, file, steps, e, d)
  {
    if m == e + 1 {
      assert steps[..m][..e] == steps[..e];
      SessionCloses(cfg, Run(cfg, file, steps[..e]), steps[e]);
    } else {
      ClosingUntil(cfg, file, steps, e, m - 1);
      if forall k :: e < k <= m - 1 ==> Closing(Run(cfg, file, steps[..k]).pc) {
        ClosingStep(cfg, file, steps, e, m - 1);
      }
    }
  }

  lemma ClosingStep(cfg: Config, file: Option<Token>, steps: seq<Step>, e: nat, m: nat)
    requires EndsAfter(cfg, file, steps, e) && e < m < |steps|
    requires forall k :: e < k <= m ==> Closing(Run(cfg, file, steps[..k]).pc)
    ensures Closing(Run(cfg, file, steps[..m + 1]).pc) || FlushedAt(cfg, file, steps, e, m)
  {
    var j :| 0 <= j < e && steps[..e][j].Trigger?;
    assert steps[..m][j].Trigger?;
    StoppingIff(cfg, file, steps[..m]);
    assert steps[..m + 1][..m] == steps[..m];
    ClosingNext(cfg, Run(cfg, file, steps[..m]), steps[m]);
  }

  /** After `trigger` at most one further Channel is opened. */
  lemma ShutdownIsPrompt(cfg: Config, file: Option<Token>, steps: seq<Step>)
    ensures OpensAfter(cfg, file, steps) <= 1
    ensures Run(cfg, file, steps).stop.finished ==> Triggered(steps)
  {
    OpensRun(cfg, file, steps);
    LifeRun(cfg, file, steps);
    StoppingIff(cfg, file, steps);
  }

  /** A session that ends after `trigger` has its own flush done before the finished flag is up. */
  lemma FlushedBeforeFinished(cfg: Config, file: Option<Token>, steps: seq<Step>, e: nat)
    requires EndsAfter(cfg, file, steps, e) && Run(cfg, file, steps).stop.finished
    ensures exists d: nat :: FlushedAt(cfg, file, steps, e, d)
  {
    LifeRun(cfg, file, steps);
    ClosingUntil(cfg, file, steps, e, |steps|);
    assert steps[..|steps|] == steps;
  }

  // ---- Which sessions a trigger wakes ----------------------------------------------------------

  /** The notification at step `j` found a session in its select, and it has been there since. */
  ghost predicate NotifiedAt(cfg: Config, file: Option<Token>, steps: seq<Step>, j: nat) {
    && j < |steps| && steps[j].NotifyTrigger? && Run(cfg, file, steps[..j]).stop.stopping
    && forall k :: j <= k <= |steps| ==> Run(cfg, file, steps[..k]).pc.InSession?
  }

  ghost predicate NotifiedInside(cfg: Config, file: Option<Token>, steps: seq<Step>) {
    exists j: nat :: NotifiedAt(cfg, file, steps, j)
  }

  /** One more step: what was notified stays so while the session lasts. */
  lemma NotifiedOn(cfg: Config, file: Option<Token>, steps: seq<Step>, j: nat)
    requires steps != [] && j < |steps| - 1
    ensures NotifiedAt(cfg, file, steps, j)
       <==> NotifiedAt(cfg, file, steps[..|steps| - 1], j) && Run(cfg, file, steps).pc.InSession?
  {
    var pre := steps[..|steps| - 1];
    assert steps[..|steps|] == steps;
    assert forall k :: 0 <= k <= |pre| ==> pre[..k] == steps[..k];
  }

  lemma NotifiedLast(cfg: Config, file: Option<Token>, steps: seq<Step>)
    requires steps != []
    ensures NotifiedAt(cfg, file, steps, |steps| - 1)
       <==> var s := Run(cfg, file, steps[..|steps| - 1]);
            && steps[|steps| - 1].NotifyTrigger? && s.stop.stopping
            && s.pc.InSession? && Run(cfg, file, steps).pc.InSession?
  {
    assert steps[..|steps|] == steps;
  }

  lemma {:induction false} WokenIff(cfg: Config, file: Option<Token>, steps: seq<Step>)
    requires Run(cfg, file, steps).pc.InSession?
    ensures Run(cfg, file, steps).pc.woken <==> NotifiedInside(cfg, file, steps)
  {
    var pre, step := steps[..|steps| - 1], steps[|steps| - 1];
    var s := Run(cfg, file, pre);
    NotifiedLast(cfg, file, steps);
    forall j: nat | j < |pre|
      ensures NotifiedAt(cfg, file, steps, j) <==> NotifiedAt(cfg, file, pre, j)
    {
      NotifiedOn(cfg, file, steps, j);
    }
    if s.pc.InSession? {
      WokenIff(cfg, file, pre);
      if step.NotifyTrigger? && s.stop.stopping { assert NotifiedAt(cfg, file, steps, |pre|); }
    } else {
      NotInside(cfg, file, pre);
    }
  }

  lemma NotInside(cfg: Config, file: Option<Token>, steps: seq<Step>)
    requires !Run(cfg, file, steps).pc.InSession?
    ensures !NotifiedInside(cfg, file, steps)
  {
    assert steps[..|steps|] == steps;
  }

  /** Neither the stream's end nor a further call of `trigger`. */
  predicate Unaided(steps: seq<Step>) {
    forall j :: 0 <= j < |steps| ==> !steps[j].StreamEnds? && !steps[j].NotifyTrigger?
  }

  /** A session the notification missed goes on, and the agent does not finish. */
  lemma {:induction false} SessionRunsOn(cfg: Config, file: Option<Token>, steps: seq<Step>, more: seq<Step>)
    requires Run(cfg, file, steps).pc == InSession(false) && Unaided(more)
    ensures var n := Run(cfg, file, steps + more);
            n.pc == InSession(false) && !n.stop.finished && (Run(cfg, file, steps).stop.stopping ==> n.stop.stopping)
  {
    LifeRun(cfg, file, steps + more);
    if more == [] {
      assert steps + more == steps;
    } else {
      var init := more[..|more| - 1];
      SessionRunsOn(cfg, file, steps, init);
      assert (steps + more)[..|steps + more| - 1] == steps + init;
    }
  }

  /** The session is left with no help from the stream or another trigger. */
  ghost predicate Leaves(cfg: Config, file: Option<Token>, steps: seq<Step>, more: seq<Step>) {
    Unaided(more) && !Run(cfg, file, steps + more).pc.InSession?
  }

  /**
   * A live session can end without its stream ending or `trigger` being called again exactly when a
   * notification found it in its select.
   */
  lemma TriggerEndsIff(cfg: Config, file: Option<Token>, steps: seq<Step>)
    requires Run(cfg, file, steps).pc.InSession?
    ensures (exists more :: Leaves(cfg, file, steps, more)) <==> NotifiedInside(cfg, file, steps)
  {
    WokenIff(cfg, file, steps);
    if Run(cfg, file, steps).pc.woken {
      var more := [ShutdownWakes];
      assert (steps + more)[..|steps|] == steps;
      assert Leaves(cfg, file, steps, more);
    } else {
      forall more ensures !Leaves(cfg, file, steps, more) {
        if Unaided(more) { SessionRunsOn(cfg, file, steps, more); }
      }
    }
  }

  /** The trigger falls between the loop's check and the select. */
  function MissedTrigger(): seq<Step> { [Start, CheckTop(0), Trigger, NotifyTrigger, Open(None), EnterSelect] }

  lemma MissedState(cfg: Config, token: Token)
    requires !(cfg.canEnrol && ExpiresWithin(token.exp, 0, cfg.window))
    ensures var s := Run(cfg, Some(token), MissedTrigger()); s.pc == InSession(false) && s.stop.stopping
  {
    var p := MissedTrigger();
    assert p[..6] == p && p[..0] == [];
    assert forall i :: 0 <= i < 6 ==> p[..i + 1][..i] == p[..i];
    var s0 := Run(cfg, Some(token), p[..0]);
    var s1 := Run(cfg, Some(token), p[..1]);
    assert s1 == Next(cfg, s0, p[0]);
    var s2 := Run(cfg, Some(token), p[..2]);
    assert s2 == Next(cfg, s1, p[1]) && s2.pc == Connecting;
    var s3 := Run(cfg, Some(token), p[..3]);
    assert s3 == Next(cfg, s2, p[2]);
    var s4 := Run(cfg, Some(token), p[..4]);
    assert s4 == Next(cfg, s3, p[3]);
    var s5 := Run(cfg, Some(token), p[..5]);
    assert s5 == Next(cfg, s4, p[4]);
    assert Run(cfg, Some(token), p[..6]) == Next(cfg, s5, p[5]);
  }

  /**
   * After a trigger in that gap the session runs on, and `finished()` waits, through every
   * continuation in which neither the stream ends nor `trigger` is called again.
   */
  lemma TriggerCanBeMissed(cfg: Config, token: Token, more: seq<Step>)
    requires !(cfg.canEnrol && ExpiresWithin(token.exp, 0, cfg.window)) && Unaided(more)
    ensures var s := Run(cfg, Some(token), MissedTrigger() + more);
            s.pc == InSession(false) && s.stop.stopping && !s.stop.finished
  {
    MissedState(cfg, token);
    SessionRunsOn(cfg, Some(token), MissedTrigger(), more);
  }
}
