/** Credentials in memory and on disk: what a restart rebuilds. */
module Credentials {
  import opened Words

  type Bytes = seq<bv8>

  datatype Dek = Dek(raw: Bytes, version: nat)

  datatype DekResult = NoDek | Key(dek: Dek) | BadKeyLen(len: nat) | ZeroVersion

  /** `DekHandle::from_proto`. */
  function FromProto(raw: Bytes, version: nat): (r: DekResult)
    ensures r.Key? <==> |raw| == 32 && version != 0
    ensures r.Key? ==> r.dek == Dek(raw, version)
    ensures r.NoDek? <==> raw == []
    ensures r.BadKeyLen? <==> |raw| != 0 && |raw| != 32
  {
    if raw == [] then NoDek
    else if |raw| != 32 then BadKeyLen(|raw|)
    else if version == 0 then ZeroVersion
    else Key(Dek(raw, version))
  }

  datatype Tls = Tls(ca: string, cert: string, key: string)

  /** `agent-creds.json`, less what no restart installs. */
  datatype Stored = Stored(jwt: string, cert: string, key: string, ca: string, dek: Bytes, dekVersion: nat)

  /** `RegisterResponse` and `CredentialRotation` carry the same fields, but for the CA. */
  datatype Rotation = Rotation(jwt: string, cert: string, key: string, dek: Bytes, dekVersion: nat)

  /** What the process presents and encrypts with. */
  datatype Memory = Memory(jwt: Option<string>, tls: Option<Tls>, dek: Option<Dek>)

  datatype State = State(memory: Memory, file: Option<Stored>)

  /** A process that has just started: at most the bootstrap CA, without a client certificate. */
  function Fresh(bootstrapCa: Option<string>): Memory {
    Memory(None, if bootstrapCa.Some? then Some(Tls(bootstrapCa.value, "", "")) else None, None)
  }

  predicate HasTls(s: Stored) { s.cert != "" && s.ca != "" }

  function Install(m: Memory, s: Stored): Memory {
    Memory(Some(s.jwt),
           if HasTls(s) then Some(Tls(s.ca, s.cert, s.key)) else m.tls,
           match FromProto(s.dek, s.dekVersion) case Key(k) => Some(k) case _ => m.dek)
  }

  /** `persist_rotated_creds` on the file's contents. */
  function Persisted(s: Stored, r: Rotation): Stored {
    Stored(r.jwt,
           if r.cert != "" then r.cert else s.cert,
           if r.key != "" then r.key else s.key,
           s.ca,
           if r.dek != [] && r.dekVersion != 0 then r.dek else s.dek,
           if r.dek != [] && r.dekVersion != 0 then r.dekVersion else s.dekVersion)
  }

  /** A CredentialRotation, its write succeeding when there is a file to rewrite. */
  function Rotate(s: State, r: Rotation): State {
    if r.jwt == "" then s
    else
      var file := if s.file.Some? then Some(Persisted(s.file.value, r)) else None;
      State(Memory(Some(r.jwt),
                   if r.cert != "" && file.Some? then Some(Tls(file.value.ca, r.cert, r.key)) else s.memory.tls,
                   match FromProto(r.dek, r.dekVersion) case Key(k) => Some(k) case _ => s.memory.dek),
            file)
  }

  /** A Register whose write succeeds. */
  function Register(s: State, creds: Stored): State { State(Install(s.memory, creds), Some(creds)) }

  // ---- As the program does it ------------------------------------------------------------------

  class AgentClient {
    var channel: bool
    var jwt: Option<string>
    var tls: Option<Tls>

    constructor ()
      ensures !channel && jwt == None && tls == None
    {
      channel, jwt, tls := false, None, None;
    }

    method SetTls(material: Option<Tls>)
      modifies this`tls
      ensures tls == material
    {
      tls := material;
    }

    method SetJwt(token: string)
      modifies this`jwt
      ensures jwt == Some(token)
    {
      jwt := Some(token);
    }

    /** Reuses an open channel; `reachable` is whether a new one can be opened. */
    method Connect(reachable: bool) returns (ok: bool)
      modifies this`channel
      ensures ok == (old(channel) || reachable) && channel == ok
    {
      if !channel { channel := reachable; }
      ok := channel;
    }

    method Reset()
      modifies this`channel
      ensures !channel
    {
      channel := false;
    }
  }

  class AgentRunner {
    const client: AgentClient
    var payloadDek: Option<Dek>
    var credsFile: Option<Stored>

    ghost function Value(): State
      reads this, client
    {
      State(Memory(client.jwt, client.tls, payloadDek), credsFile)
    }

    /** The process starts: the file, if there is one, is installed. */
    constructor (bootstrapCa: Option<string>, file: Option<Stored>)
      ensures fresh(client) && !client.channel
      ensures file.None? ==> client.jwt == None && payloadDek == None
      ensures file.None? || file.value.cert == "" || file.value.ca == "" ==>
                client.tls == if bootstrapCa.Some? then Some(Tls(bootstrapCa.value, "", "")) else None
      ensures Value() == State(if file.Some? then Install(Fresh(bootstrapCa), file.value) else Fresh(bootstrapCa), file)
    {
      client := new AgentClient();
      payloadDek, credsFile := None, file;
      new;
      if bootstrapCa.Some? { client.SetTls(Some(Tls(bootstrapCa.value, "", ""))); }
      if file.Some? { InstallCreds(file.value); }
    }

    method InstallPayloadDek(creds: Stored)
      modifies this`payloadDek
      ensures payloadDek
           == match FromProto(creds.dek, creds.dekVersion) case Key(k) => Some(k) case _ => old(payloadDek)
    {
      if creds.dek == [] { return; }
      match FromProto(creds.dek, creds.dekVersion)
      case Key(k) => payloadDek := Some(k);
      case _ =>
    }

    method InstallCreds(creds: Stored)
      modifies this`payloadDek, client
      ensures Value() == State(Install(old(Value()).memory, creds), old(credsFile))
      ensures client.jwt == Some(creds.jwt)
      ensures creds.cert != "" && creds.ca != "" ==>
                client.tls == Some(Tls(creds.ca, creds.cert, creds.key)) && !client.channel
      ensures creds.cert == "" || creds.ca == "" ==>
                client.tls == old(client.tls) && client.channel == old(client.channel)
    {
      client.SetJwt(creds.jwt);
      InstallPayloadDek(creds);
      if creds.cert != "" && creds.ca != "" {
        client.SetTls(Some(Tls(creds.ca, creds.cert, creds.key)));
        client.Reset();
      }
    }

    /** `register_fresh` once the CP has answered. */
    method RegisterFresh(creds: Stored)
      modifies this, client
      ensures Value() == Register(old(Value()), creds)
      ensures credsFile == Some(creds) && client.jwt == Some(creds.jwt)
      ensures client.channel == (old(client.channel) && (creds.cert == "" || creds.ca == ""))
    {
      credsFile := Some(creds);
      InstallCreds(creds);
    }

    method PersistRotatedCreds(r: Rotation)
      modifies this`credsFile
      ensures credsFile == if old(credsFile).Some? then Some(Persisted(old(credsFile).value, r)) else None
    {
      if credsFile.None? { return; }
      var creds := credsFile.value;
      creds := creds.(jwt := r.jwt);
      if r.cert != "" { creds := creds.(cert := r.cert); }
      if r.key != "" { creds := creds.(key := r.key); }
      if r.dek != [] && r.dekVersion != 0 { creds := creds.(dek := r.dek, dekVersion := r.dekVersion); }
      credsFile := Some(creds);
    }

    method HandleRotation(r: Rotation)
      modifies this, client
      ensures Value() == Rotate(old(Value()), r) && client.channel == old(client.channel)
      ensures r.jwt == "" ==> Value() == old(Value())
      ensures r.jwt != "" ==> client.jwt == Some(r.jwt) && (old(credsFile).Some? <==> credsFile.Some?)
      ensures r.cert == "" || old(credsFile).None? ==> client.tls == old(client.tls)
      ensures r.jwt != "" && r.cert != "" && old(credsFile).Some? ==>
                client.tls == Some(Tls(old(credsFile).value.ca, r.cert, r.key))
      ensures |r.dek| != 32 || r.dekVersion == 0 ==> payloadDek == old(payloadDek)
      ensures r.jwt != "" && |r.dek| == 32 && r.dekVersion != 0 ==> payloadDek == Some(Dek(r.dek, r.dekVersion))
      ensures r.jwt != "" && old(credsFile).Some? ==>
                && credsFile.value.jwt == r.jwt && credsFile.value.ca == old(credsFile).value.ca
                && credsFile.value.cert == (if r.cert == "" then old(credsFile).value.cert else r.cert)
                && credsFile.value.key == (if r.key == "" then old(credsFile).value.key else r.key)
    {
      if r.jwt == "" { return; }
      client.SetJwt(r.jwt);
      PersistRotatedCreds(r);
      if r.cert != "" && credsFile.Some? {
        client.SetTls(Some(Tls(credsFile.value.ca, r.cert, r.key)));
      }
      if r.dek != [] {
        match FromProto(r.dek, r.dekVersion)
        case Key(k) => payloadDek := Some(k);
        case _ =>
      }
    }

    method DiscardStoredCreds()
      modifies this`credsFile
      ensures Value() == State(old(Value()).memory, None)
    {
      credsFile := None;
    }
  }

  /** A boot presents the bootstrap CA unless its file carries a certificate with a CA. */
  lemma BootPresents(bootstrapCa: Option<string>, file: Option<Stored>)
    ensures var m := Boot(bootstrapCa, file).memory;
            && (file.None? || file.value.cert == "" || file.value.ca == "" ==>
                  m.tls == if bootstrapCa.Some? then Some(Tls(bootstrapCa.value, "", "")) else None)
            && (file.Some? && file.value.cert != "" && file.value.ca != "" ==>
                  m.tls == Some(Tls(file.value.ca, file.value.cert, file.value.key)))
            && m.jwt == (if file.None? then None else Some(file.value.jwt))
            && (m.dek.Some? <==> file.Some? && |file.value.dek| == 32 && file.value.dekVersion != 0)
            && (m.dek.Some? ==> m.dek.value == Dek(file.value.dek, file.value.dekVersion))
  {
  }

  // ---- A restart rebuilds what the process holds --------------------------------------------

  /** Reinstalling from the file, in a new process, gives exactly what this one holds. */
  predicate Coherent(bootstrapCa: Option<string>, s: State) {
    s.file.Some? ==> Install(Fresh(bootstrapCa), s.file.value) == s.memory
  }

  /** Registering leaves nothing in memory that the new creds do not carry. */
  predicate RegisterOk(bootstrapCa: Option<string>, s: State, creds: Stored) {
    && (HasTls(creds) || s.memory.tls == Fresh(bootstrapCa).tls)
    && ((|creds.dek| == 32 && creds.dekVersion != 0) || s.memory.dek == None)
  }

  /** A re-Register keeps the file and the process in step exactly when it withdraws nothing. */
  lemma RegisterCoherentIff(bootstrapCa: Option<string>, s: State, creds: Stored)
    ensures Coherent(bootstrapCa, Register(s, creds)) <==> RegisterOk(bootstrapCa, s, creds)
  {
  }

  /**
   * A rotated certificate needs a CA on file and its key with it (or none ever); a rotated key
   * alone must not change the one in use; a rotated DEK with a version must be a whole key, or
   * there must be none to keep.
   */
  predicate RotateOk(s: Stored, m: Memory, r: Rotation) {
    && (r.cert != "" ==> s.ca != "" && (r.key != "" || s.key == ""))
    && (r.cert == "" && r.key != "" && HasTls(s) ==> r.key == s.key)
    && (r.dek != [] && r.dekVersion != 0 && |r.dek| != 32 ==> m.dek == None)
  }

  /** A rotation keeps the file and the process in step exactly under those conditions. */
  lemma RotateCoherentIff(bootstrapCa: Option<string>, s: State, r: Rotation)
    requires s.file.Some? && Coherent(bootstrapCa, s) && r.jwt != ""
    ensures Coherent(bootstrapCa, Rotate(s, r)) <==> RotateOk(s.file.value, s.memory, r)
  {
    var f := s.file.value;
    var g := Persisted(f, r);
    assert Rotate(s, r).file == Some(g);
    assert Install(Fresh(bootstrapCa), g).jwt == Rotate(s, r).memory.jwt;
    RotateTlsIff(bootstrapCa, s, r);
    RotateDekIff(bootstrapCa, s, r);
  }

  lemma RotateTlsIff(bootstrapCa: Option<string>, s: State, r: Rotation)
    requires s.file.Some? && Coherent(bootstrapCa, s) && r.jwt != ""
    ensures Install(Fresh(bootstrapCa), Persisted(s.file.value, r)).tls == Rotate(s, r).memory.tls
       <==> && (r.cert != "" ==> s.file.value.ca != "" && (r.key != "" || s.file.value.key == ""))
            && (r.cert == "" && r.key != "" && HasTls(s.file.value) ==> r.key == s.file.value.key)
  {
  }

  lemma RotateDekIff(bootstrapCa: Option<string>, s: State, r: Rotation)
    requires s.file.Some? && Coherent(bootstrapCa, s) && r.jwt != ""
    ensures Install(Fresh(bootstrapCa), Persisted(s.file.value, r)).dek == Rotate(s, r).memory.dek
       <==> (r.dek != [] && r.dekVersion != 0 && |r.dek| != 32 ==> s.memory.dek == None)
  {
  }

  /** A rotated key of the wrong length is written to disk but refused in memory: a restart forgets the old one. */
  lemma WrongLengthDekDiverges(s: State, r: Rotation)
    requires s.file.Some? && Coherent(None, s) && s.memory.dek.Some?
    requires r == Rotation("jwt", "", "", [0, 0, 0], 1)
    ensures !Coherent(None, Rotate(s, r))
    ensures Rotate(s, r).memory.dek == s.memory.dek
    ensures Install(Fresh(None), Rotate(s, r).file.value).dek == None
  {
  }

  datatype Step = Registering(creds: Stored) | Rotating(rotation: Rotation) | Discarding

  function Next(s: State, step: Step): State {
    match step
    case Registering(creds) => Register(s, creds)
    case Rotating(r) => Rotate(s, r)
    case Discarding => s.(file := None)
  }

  predicate StepOk(bootstrapCa: Option<string>, s: State, step: Step) {
    match step
    case Registering(creds) => RegisterOk(bootstrapCa, s, creds)
    case Rotating(r) => r.jwt != "" && s.file.Some? ==> RotateOk(s.file.value, s.memory, r)
    case Discarding => true
  }

  function Boot(bootstrapCa: Option<string>, file: Option<Stored>): State {
    State(if file.Some? then Install(Fresh(bootstrapCa), file.value) else Fresh(bootstrapCa), file)
  }

  function Run(bootstrapCa: Option<string>, file: Option<Stored>, steps: seq<Step>): State {
    if steps == [] then Boot(bootstrapCa, file)
    else Next(Run(bootstrapCa, file, steps[..|steps| - 1]), steps[|steps| - 1])
  }

  predicate AllOk(bootstrapCa: Option<string>, file: Option<Stored>, steps: seq<Step>) {
    forall i :: 0 <= i < |steps| ==> StepOk(bootstrapCa, Run(bootstrapCa, file, steps[..i]), steps[i])
  }

  /** Over every run of such Registers and rotations, a restart from disk is indistinguishable. */
  lemma {:induction false} RestartEquivalence(bootstrapCa: Option<string>, file: Option<Stored>, steps: seq<Step>)
    requires AllOk(bootstrapCa, file, steps)
    ensures var s := Run(bootstrapCa, file, steps);
            s.file.Some? ==> Boot(bootstrapCa, s.file) == s
  {
    if steps != [] {
      var n := |steps| - 1;
      assert forall i :: 0 <= i < n ==> steps[..n][..i] == steps[..i];
      RestartEquivalence(bootstrapCa, file, steps[..n]);
      var s := Run(bootstrapCa, file, steps[..n]);
      match steps[n]
      case Registering(creds) => RegisterCoherentIff(bootstrapCa, s, creds);
      case Rotating(r) => if r.jwt != "" && s.file.Some? { RotateCoherentIff(bootstrapCa, s, r); }
      case Discarding =>
    }
  }
}
