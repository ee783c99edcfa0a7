/** Pushed configuration: what is kept on disk, what is reported as applied, and what is acknowledged. */
module ConfigLane {
  import opened Words

  /** One ConfigUpdate, with what saving and applying it come to. `refusal` is the applier's reason. */
  datatype Update = Update(hash: string, hasBundle: bool, saved: bool, refusal: Option<string>)

  datatype Ack = Ack(hash: string, active: bool, error: string)

  /** `disk` is the hash of the cached bundle, `applied` the hash that status reports carry. */
  datatype State = State(disk: Option<string>, applied: Option<string>, acks: seq<Ack>)

  /** Only an applier that is wired can refuse, and only a bundle. */
  function Verdict(hasApplier: bool, u: Update): Option<string> {
    if u.hasBundle && hasApplier then u.refusal else None
  }

  function AckOf(hasApplier: bool, u: Update): Ack {
    match Verdict(hasApplier, u)
    case None => Ack(u.hash, true, "")
    case Some(reason) => Ack(u.hash, false, reason)
  }

  predicate Applies(hasApplier: bool, u: Update) { Verdict(hasApplier, u).None? && u.hash != "" }

  function Receive(hasApplier: bool, s: State, u: Update): State {
    State(if u.hasBundle && u.saved then Some(u.hash) else s.disk,
          if Applies(hasApplier, u) then Some(u.hash) else s.applied,
          s.acks + [AckOf(hasApplier, u)])
  }

  function ReceiveAll(hasApplier: bool, s: State, us: seq<Update>): State {
    if us == [] then s else Receive(hasApplier, ReceiveAll(hasApplier, s, us[..|us| - 1]), us[|us| - 1])
  }

  /** A process that starts with `cached` on disk. */
  function Boot(cached: Option<string>): State { State(cached, cached, []) }

  class ConfigReceiver {
    const hasApplier: bool
    var diskHash: Option<string>
    var appliedHash: Option<string>
    var acks: seq<Ack>

    ghost function Value(): State
      reads this
    {
      State(diskHash, appliedHash, acks)
    }

    /** At boot the cached configuration, if it loads, is reported as the applied one. */
    constructor (hasApplier: bool, cached: Option<string>)
      ensures this.hasApplier == hasApplier && Value() == Boot(cached)
    {
      this.hasApplier := hasApplier;
      diskHash, appliedHash, acks := cached, cached, [];
    }

    /** The bundle is saved before it is applied. */
    method Handle(u: Update)
      modifies this
      ensures Value() == Receive(hasApplier, old(Value()), u)
    {
      if u.hasBundle && u.saved { diskHash := Some(u.hash); }
      var active, error := true, "";
      if u.hasBundle && hasApplier && u.refusal.Some? { active, error := false, u.refusal.value; }
      if active && u.hash != "" { appliedHash := Some(u.hash); }
      acks := acks + [Ack(u.hash, active, error)];
    }

    /** The configuration updates of a session, as they come. */
    method ReadInbound(us: seq<Update>)
      modifies this
      ensures Value() == ReceiveAll(hasApplier, old(Value()), us)
    {
      assert us[..0] == [];
      for i := 0 to |us|
        invariant Value() == ReceiveAll(hasApplier, old(Value()), us[..i])
      {
        Handle(us[i]);
        assert us[..i + 1][..i] == us[..i];
      }
      assert us[..|us|] == us;
    }
  }

  /** One ack per update, in order, with its hash, active exactly when no applier refused, and else with the reason. */
  lemma {:induction false} AcksTruthful(hasApplier: bool, s: State, us: seq<Update>, i: nat)
    requires i < |us|
    ensures var acks := ReceiveAll(hasApplier, s, us).acks;
            && |acks| == |s.acks| + |us|
            && acks[|s.acks| + i].hash == us[i].hash
            && (acks[|s.acks| + i].active <==> !(us[i].hasBundle && hasApplier && us[i].refusal.Some?))
            && acks[|s.acks| + i].error == (if acks[|s.acks| + i].active then "" else us[i].refusal.value)
  {
    AckCount(hasApplier, s, us[..|us| - 1]);
    if i < |us| - 1 { AcksTruthful(hasApplier, s, us[..|us| - 1], i); }
  }

  lemma {:induction false} AckCount(hasApplier: bool, s: State, us: seq<Update>)
    ensures |ReceiveAll(hasApplier, s, us).acks| == |s.acks| + |us|
  {
    if us != [] { AckCount(hasApplier, s, us[..|us| - 1]); }
  }

  /** An update moves the report exactly when it has a hash and no applier refused its bundle. */
  lemma AppliesIff(hasApplier: bool, s: State, u: Update)
    ensures Applies(hasApplier, u) <==> u.hash != "" && !(u.hasBundle && hasApplier && u.refusal.Some?)
    ensures u.hash == "" ==> Receive(hasApplier, s, u).applied == s.applied
  {
  }

  /** The reported hash is that of the last update that was applied and had one. */
  lemma {:induction false} ReportsLastApplied(hasApplier: bool, s: State, us: seq<Update>, k: nat)
    requires k < |us| && Applies(hasApplier, us[k])
    requires forall j :: k < j < |us| ==> !Applies(hasApplier, us[j])
    ensures ReceiveAll(hasApplier, s, us).applied == Some(us[k].hash)
  {
    if k < |us| - 1 {
      ReportsLastApplied(hasApplier, s, us[..|us| - 1], k);
    }
  }

  lemma {:induction false} ReportsOldOtherwise(hasApplier: bool, s: State, us: seq<Update>)
    requires forall j :: 0 <= j < |us| ==> !Applies(hasApplier, us[j])
    ensures ReceiveAll(hasApplier, s, us).applied == s.applied
  {
    if us != [] { ReportsOldOtherwise(hasApplier, s, us[..|us| - 1]); }
  }

  predicate Saves(u: Update) { u.hasBundle && u.saved }

  /** The last update whose bundle was saved. */
  function LastSaved(us: seq<Update>): (k: Option<nat>)
    ensures k.Some? ==> k.value < |us| && Saves(us[k.value]) && forall j :: k.value < j < |us| ==> !Saves(us[j])
    ensures k.None? ==> forall j :: 0 <= j < |us| ==> !Saves(us[j])
  {
    if us == [] then None else if Saves(us[|us| - 1]) then Some(|us| - 1) else LastSaved(us[..|us| - 1])
  }

  /** The last update that was applied and had a hash. */
  function LastApplied(hasApplier: bool, us: seq<Update>): (k: Option<nat>)
    ensures k.Some? ==> && k.value < |us| && Applies(hasApplier, us[k.value])
                        && forall j :: k.value < j < |us| ==> !Applies(hasApplier, us[j])
    ensures k.None? ==> forall j :: 0 <= j < |us| ==> !Applies(hasApplier, us[j])
  {
    if us == [] then None
    else if Applies(hasApplier, us[|us| - 1]) then Some(|us| - 1) else LastApplied(hasApplier, us[..|us| - 1])
  }

  /** The disk holds the last saved bundle. */
  lemma {:induction false} DiskHoldsLastSaved(hasApplier: bool, s: State, us: seq<Update>, k: nat)
    requires k < |us| && Saves(us[k]) && forall j :: k < j < |us| ==> !Saves(us[j])
    ensures ReceiveAll(hasApplier, s, us).disk == Some(us[k].hash)
  {
    if k < |us| - 1 { DiskHoldsLastSaved(hasApplier, s, us[..|us| - 1], k); }
  }

  lemma {:induction false} DiskOldOtherwise(hasApplier: bool, s: State, us: seq<Update>)
    requires forall j :: 0 <= j < |us| ==> !Saves(us[j])
    ensures ReceiveAll(hasApplier, s, us).disk == s.disk
  {
    if us != [] { DiskOldOtherwise(hasApplier, s, us[..|us| - 1]); }
  }

  /** The hash at a position, or the one from before the stream. */
  function HashAt(us: seq<Update>, k: Option<nat>, before: Option<string>): Option<string>
    requires k.Some? ==> k.value < |us|
  {
    if k.Some? then Some(us[k.value].hash) else before
  }

  /** Disk and report agree: the last saved update and the last applied one carry the same hash. */
  predicate SameHash(hasApplier: bool, s: State, us: seq<Update>) {
    HashAt(us, LastSaved(us), s.disk) == HashAt(us, LastApplied(hasApplier, us), s.applied)
  }

  /**
   * For every stream, saves failing or not and bundles there or not, disk and report agree exactly
   * when the last saved update and the last applied one carry the same hash.
   */
  lemma DiskMatchesReportIff(hasApplier: bool, s: State, us: seq<Update>)
    ensures var n := ReceiveAll(hasApplier, s, us);
            && n.disk == HashAt(us, LastSaved(us), s.disk)
            && n.applied == HashAt(us, LastApplied(hasApplier, us), s.applied)
            && (n.applied == n.disk <==> SameHash(hasApplier, s, us))
  {
    match LastSaved(us) {
      case Some(k) => DiskHoldsLastSaved(hasApplier, s, us, k);
      case None => DiskOldOtherwise(hasApplier, s, us);
    }
    match LastApplied(hasApplier, us) {
      case Some(k) => ReportsLastApplied(hasApplier, s, us, k);
      case None => ReportsOldOtherwise(hasApplier, s, us);
    }
  }

  /** Every update carries a bundle and a hash, and is saved. */
  predicate Whole(us: seq<Update>) {
    forall i :: 0 <= i < |us| ==> us[i].hasBundle && us[i].saved && us[i].hash != ""
  }

  /**
   * With whole updates, disk and report agree exactly when the last update was not refused (or was
   * refused what is reported anyway); a refused one moves only the disk.
   */
  lemma WholeStreamsAgreeIff(hasApplier: bool, s: State, us: seq<Update>)
    requires Whole(us) && us != []
    ensures var n, before := ReceiveAll(hasApplier, s, us), ReceiveAll(hasApplier, s, us[..|us| - 1]);
            var last := us[|us| - 1];
            && n.disk == Some(last.hash)
            && (Verdict(hasApplier, last).Some? ==> n.applied == before.applied)
            && (n.applied == n.disk <==> Verdict(hasApplier, last).None? || before.applied == Some(last.hash))
  {
    DiskHoldsLastSaved(hasApplier, s, us, |us| - 1);
  }

  /** So a restart reports what the process did exactly then: else it may report what was refused as applied. */
  lemma RestartKeepsReportIff(hasApplier: bool, s: State, us: seq<Update>)
    ensures var n := ReceiveAll(hasApplier, s, us);
            Boot(n.disk).applied == n.applied <==> SameHash(hasApplier, s, us)
  {
    DiskMatchesReportIff(hasApplier, s, us);
  }

  /** And it does report a whole update that was refused. */
  lemma RestartReportsRefused(s: State, us: seq<Update>)
    requires Whole(us) && us != [] && us[|us| - 1].refusal.Some?
    requires ReceiveAll(true, s, us[..|us| - 1]).applied != Some(us[|us| - 1].hash)
    ensures var n := ReceiveAll(true, s, us); Boot(n.disk).applied == Some(us[|us| - 1].hash) != n.applied
  {
    WholeStreamsAgreeIff(true, s, us);
  }
}
