/** The last-known-good config cache: a sealed file that survives a crash at any point of a save. */
module Lkg {
  import opened Words

  type Bytes = seq<bv8>

  const FILE_VERSION: bv8 := 1
  const NONCE_LEN: nat := 12
  const NODE_SECRET_LEN: nat := 32

  /** Library code: key derivation, authenticated encryption, and the entry's encoding. */
  datatype Library<!Entry> = Library(
    kdf: Bytes -> Bytes,
    seal: (Bytes, Bytes, Bytes) -> Bytes,
    open: (Bytes, Bytes, Bytes) -> Option<Bytes>,
    encode: Entry -> Bytes,
    decode: Bytes -> Option<Entry>)

  /** Decryption inverts encryption under the same key and nonce, and decoding inverts encoding. */
  ghost predicate Lawful<Entry(!new)>(lib: Library<Entry>) {
    && (forall k, n, p :: lib.open(k, n, lib.seal(k, n, p)) == Some(p))
    && (forall e :: lib.decode(lib.encode(e)) == Some(e))
  }

  datatype Loaded<Entry> = Missing | Entry(entry: Entry) | Unreadable

  /** The state directory. `tmp` and `secret` may hold part of what was being written. */
  datatype Disk = Disk(lkg: Option<Bytes>, tmp: Option<Bytes>, secret: Option<Bytes>)

  /** `/etc/machine-id` if it can be read and is not blank, else a complete node secret. */
  function KnownSecret(machineId: Option<Bytes>, d: Disk): Option<Bytes> {
    if machineId.Some? then machineId
    else if d.secret.Some? && |d.secret.value| == NODE_SECRET_LEN then d.secret
    else None
  }

  /** `node_secret`: a missing or damaged secret is replaced by fresh random bytes. */
  function NodeSecret(machineId: Option<Bytes>, d: Disk, random: Bytes): (Bytes, Disk) {
    var known := KnownSecret(machineId, d);
    if known.Some? then (known.value, d) else (random, d.(secret := Some(random)))
  }

  function Frame(nonce: Bytes, ct: Bytes): Bytes { [FILE_VERSION] + nonce + ct }

  function Sealed<Entry>(lib: Library<Entry>, secret: Bytes, nonce: Bytes, e: Entry): Bytes {
    Frame(nonce, lib.seal(lib.kdf(secret), nonce, lib.encode(e)))
  }

  /** `decrypt`, once the secret is at hand. */
  function Unseal<Entry>(lib: Library<Entry>, secret: Bytes, sealed: Bytes): Loaded<Entry> {
    if !Framed(sealed) then Unreadable
    else
      match lib.open(lib.kdf(secret), sealed[1..1 + NONCE_LEN], sealed[1 + NONCE_LEN..])
      case None => Unreadable
      case Some(plain) => match lib.decode(plain) case Some(e) => Entry(e) case None => Unreadable
  }

  /** Not empty, of this version, and long enough to hold a nonce. */
  predicate Framed(sealed: Bytes) {
    sealed != [] && sealed[0] == FILE_VERSION && |sealed| >= 1 + NONCE_LEN
  }

  /** `load`, with its side effect on the secret: a file that is not framed is refused before the key is derived. */
  function Load<Entry>(lib: Library<Entry>, machineId: Option<Bytes>, d: Disk, random: Bytes): (Loaded<Entry>, Disk) {
    match d.lkg
    case None => (Missing, d)
    case Some(bytes) =>
      if !Framed(bytes) then (Unreadable, d)
      else
        var (secret, d') := NodeSecret(machineId, d, random);
        (Unseal(lib, secret, bytes), d')
  }

  /** The secret is the machine id, else a stored secret of 32 bytes, else fresh and stored. */
  lemma SecretMeaning(machineId: Option<Bytes>, d: Disk, random: Bytes)
    ensures machineId.Some? ==> NodeSecret(machineId, d, random) == (machineId.value, d)
    ensures machineId.None? && d.secret.Some? && |d.secret.value| == 32 ==>
              NodeSecret(machineId, d, random) == (d.secret.value, d)
    ensures machineId.None? && (d.secret.None? || |d.secret.value| != 32) ==>
              NodeSecret(machineId, d, random) == (random, Disk(d.lkg, d.tmp, Some(random)))
  {
  }

  /** One byte of version, twelve of nonce, then the entry sealed under the derived key. */
  lemma FileLayout<Entry(!new)>(lib: Library<Entry>, secret: Bytes, nonce: Bytes, e: Entry)
    requires |nonce| == 12
    ensures var sealed := Sealed(lib, secret, nonce, e);
            && |sealed| >= 13 && sealed[0] == 1 && sealed[1..13] == nonce
            && sealed[13..] == lib.seal(lib.kdf(secret), nonce, lib.encode(e))
  {
  }

  /**
   * Nothing loads exactly when there is no file; an entry loads exactly when the file is framed and its
   * third part opens under the derived key to that entry; else the file is unreadable.
   */
  lemma LoadMeaning<Entry(!new)>(lib: Library<Entry>, machineId: Option<Bytes>, d: Disk, random: Bytes, e: Entry)
    ensures Load(lib, machineId, d, random).0.Missing? <==> d.lkg.None?
    ensures Load(lib, machineId, d, random).0 == Loaded.Entry(e)
       <==> && d.lkg.Some? && |d.lkg.value| >= 13 && d.lkg.value[0] == 1
            && var file := d.lkg.value;
               var plain := lib.open(lib.kdf(NodeSecret(machineId, d, random).0), file[1..13], file[13..]);
               plain.Some? && lib.decode(plain.value) == Some(e)
  {
  }

  /** Unsealing inverts sealing under the same secret. */
  lemma UnsealSealed<Entry(!new)>(lib: Library<Entry>, secret: Bytes, nonce: Bytes, e: Entry)
    requires Lawful(lib) && |nonce| == NONCE_LEN
    ensures Framed(Sealed(lib, secret, nonce, e))
    ensures Unseal(lib, secret, Sealed(lib, secret, nonce, e)) == Loaded.Entry(e)
  {
    var ct := lib.seal(lib.kdf(secret), nonce, lib.encode(e));
    var sealed := Frame(nonce, ct);
    assert sealed[1..1 + NONCE_LEN] == nonce && sealed[1 + NONCE_LEN..] == ct;
  }

  /** The cache as the agent uses it, when nothing goes wrong. */
  class LkgCache<Entry(!new)> {
    const lib: Library<Entry>
    const machineId: Option<Bytes>
    var disk: Disk

    constructor (lib: Library<Entry>, machineId: Option<Bytes>, disk: Disk)
      ensures this.lib == lib && this.machineId == machineId && this.disk == disk
    {
      this.lib, this.machineId, this.disk := lib, machineId, disk;
    }

    method ReadNodeSecret(random: Bytes) returns (secret: Bytes)
      modifies this
      ensures (secret, disk) == NodeSecret(machineId, old(disk), random)
    {
      if machineId.Some? { return machineId.value; }
      if disk.secret.Some? && |disk.secret.value| == NODE_SECRET_LEN { return disk.secret.value; }
      disk := disk.(secret := Some(random));
      return random;
    }

    /** After a save the entry loads, whatever the directory held before. */
    method SaveEntry(e: Entry, nonce: Bytes, random: Bytes)
      requires Lawful(lib) && |nonce| == NONCE_LEN && |random| == NODE_SECRET_LEN
      modifies this
      ensures disk.tmp == None && disk.secret == NodeSecret(machineId, old(disk), random).1.secret
      ensures forall r :: Load(lib, machineId, disk, r) == (Loaded.Entry(e), disk)
    {
      var secret := ReadNodeSecret(random);
      var sealed := Sealed(lib, secret, nonce, e);
      disk := disk.(tmp := Some(sealed));
      disk := disk.(lkg := disk.tmp, tmp := None);
      UnsealSealed(lib, secret, nonce, e);
    }

    method LoadEntry(random: Bytes) returns (r: Loaded<Entry>)
      modifies this
      ensures (r, disk) == Load(lib, machineId, old(disk), random)
    {
      if disk.lkg.None? { return Missing; }
      var bytes := disk.lkg.value;
      if !Framed(bytes) { return Unreadable; }
      var secret := ReadNodeSecret(random);
      r := Unseal(lib, secret, bytes);
    }
  }

  // ---- Saving, one file operation at a time ---------------------------------------------------

  /** A plain write truncates, then extends the file piece by piece; a rename is one step. */
  datatype Pc<Entry> =
    | Idle
    | WritingSecret(entry: Entry, nonce: Bytes, random: Bytes, done: nat)
    | WritingTmp(entry: Entry, nonce: Bytes, done: nat)
    | Renaming(entry: Entry, nonce: Bytes)

  /** `current` is a history: the entry, and its nonce, of the last rename. */
  datatype State<Entry> = State(disk: Disk, pc: Pc<Entry>, current: Option<(Entry, Bytes)>)

  datatype Step<Entry> =
    | Save(entry: Entry, nonce: Bytes, random: Bytes)
    | WriteMore(bytes: nat)
    | Rename
    | Crash                       // or an I/O error: the save stops where it is
    | LoadAgain(random: Bytes)

  function Init<Entry>(): State<Entry> { State(Disk(None, None, None), Idle, None) }

  /** The secret of a save under way, or of a load. */
  function SecretOf(machineId: Option<Bytes>, d: Disk): Bytes {
    var known := KnownSecret(machineId, d);
    if known.Some? then known.value else []
  }

  function Next<Entry>(lib: Library<Entry>, machineId: Option<Bytes>, s: State<Entry>, step: Step<Entry>): State<Entry>
  {
    match step
    case Save(e, nonce, random) =>
      if !s.pc.Idle? || |nonce| != NONCE_LEN || |random| != NODE_SECRET_LEN then s
      else if KnownSecret(machineId, s.disk).Some? then
        s.(pc := WritingTmp(e, nonce, 0), disk := s.disk.(tmp := Some([])))
      else
        s.(pc := WritingSecret(e, nonce, random, 0), disk := s.disk.(secret := Some([])))
    case WriteMore(n) => WriteNext(lib, machineId, s, n)
    case Rename =>
      if s.pc.Renaming? then
        State(s.disk.(lkg := s.disk.tmp, tmp := None), Idle, Some((s.pc.entry, s.pc.nonce)))
      else s
    case Crash => s.(pc := Idle)
    case LoadAgain(random) =>
      if s.pc.Idle? && |random| == NODE_SECRET_LEN then s.(disk := Load(lib, machineId, s.disk, random).1) else s
  }

  function WriteNext<Entry>(lib: Library<Entry>, machineId: Option<Bytes>, s: State<Entry>, n: nat): State<Entry> {
    match s.pc
    case WritingSecret(e, nonce, random, done) =>
      if |random| != NODE_SECRET_LEN then s
      else if done == |random| then s.(pc := WritingTmp(e, nonce, 0), disk := s.disk.(tmp := Some([])))
      else
        var upTo := Min(done + n, |random|);
        s.(pc := WritingSecret(e, nonce, random, upTo), disk := s.disk.(secret := Some(random[..upTo])))
    case WritingTmp(e, nonce, done) =>
      var sealed := Sealed(lib, SecretOf(machineId, s.disk), nonce, e);
      if done >= |sealed| then s.(pc := Renaming(e, nonce))
      else
        var upTo := Min(done + n, |sealed|);
        s.(pc := WritingTmp(e, nonce, upTo), disk := s.disk.(tmp := Some(sealed[..upTo])))
    case _ => s
  }

  function Run<Entry>(lib: Library<Entry>, machineId: Option<Bytes>, steps: seq<Step<Entry>>): State<Entry> {
    if steps == [] then Init()
    else Next(lib, machineId, Run(lib, machineId, steps[..|steps| - 1]), steps[|steps| - 1])
  }

  /** What a sealed file in place looks like. */
  ghost predicate InPlace<Entry>(lib: Library<Entry>, machineId: Option<Bytes>, s: State<Entry>) {
    match s.current
    case None => s.disk.lkg == None
    case Some((e, nonce)) =>
      && KnownSecret(machineId, s.disk).Some?
      && |nonce| == NONCE_LEN
      && s.disk.lkg == Some(Sealed(lib, SecretOf(machineId, s.disk), nonce, e))
  }

  ghost predicate Inv<Entry>(lib: Library<Entry>, machineId: Option<Bytes>, s: State<Entry>) {
    && InPlace(lib, machineId, s)
    && match s.pc
       case Idle => true
       case WritingSecret(_, nonce, random, done) =>
         && machineId.None? && s.current.None? && |nonce| == NONCE_LEN
         && |random| == NODE_SECRET_LEN && done <= |random| && s.disk.secret == Some(random[..done])
       case WritingTmp(e, nonce, done) =>
         && KnownSecret(machineId, s.disk).Some? && |nonce| == NONCE_LEN
         && done <= |Sealed(lib, SecretOf(machineId, s.disk), nonce, e)|
         && s.disk.tmp == Some(Sealed(lib, SecretOf(machineId, s.disk), nonce, e)[..done])
       case Renaming(e, nonce) =>
         && KnownSecret(machineId, s.disk).Some? && |nonce| == NONCE_LEN
         && s.disk.tmp == Some(Sealed(lib, SecretOf(machineId, s.disk), nonce, e))
  }

  lemma InvWrite<Entry(!new)>(lib: Library<Entry>, machineId: Option<Bytes>, s: State<Entry>, n: nat)
    requires Inv(lib, machineId, s)
    ensures Inv(lib, machineId, WriteNext(lib, machineId, s, n))
  {
    match s.pc
    case WritingSecret(_, _, random, done) => assert random[..|random|] == random;
    case WritingTmp(e, nonce, done) =>
      var sealed := Sealed(lib, SecretOf(machineId, s.disk), nonce, e);
      assert sealed[..|sealed|] == sealed;
    case _ =>
  }

  /** The entry of the last completed save. */
  function Expected<Entry>(s: State<Entry>): Loaded<Entry> {
    if s.current.Some? then Loaded.Entry(s.current.value.0) else Missing
  }

  /** A load of a sealed file never touches the secret it was sealed under. */
  lemma LoadKeeps<Entry(!new)>(lib: Library<Entry>, machineId: Option<Bytes>, s: State<Entry>, random: Bytes)
    requires Lawful(lib) && InPlace(lib, machineId, s)
    ensures Load(lib, machineId, s.disk, random) == (Expected(s), s.disk)
  {
    if s.current.Some? {
      UnsealSealed(lib, SecretOf(machineId, s.disk), s.current.value.1, s.current.value.0);
    }
  }

  lemma {:induction false} InvRun<Entry(!new)>(lib: Library<Entry>, machineId: Option<Bytes>, steps: seq<Step<Entry>>)
    requires Lawful(lib)
    ensures Inv(lib, machineId, Run(lib, machineId, steps))
  {
    if steps != [] {
      var s, step := Run(lib, machineId, steps[..|steps| - 1]), steps[|steps| - 1];
      InvRun(lib, machineId, steps[..|steps| - 1]);
      match step
      case Save(_, _, _) =>
      case WriteMore(n) => InvWrite(lib, machineId, s, n);
      case Rename =>
      case Crash =>
      case LoadAgain(random) => if s.pc.Idle? { LoadKeeps(lib, machineId, s, random); }
    }
  }

  /**
   * Crash safety: at every point of every sequence of saves, crashes and loads, a load returns in
   * full the entry of the last rename, and leaves the disk as it is.
   */
  lemma CrashSafe<Entry(!new)>(lib: Library<Entry>, machineId: Option<Bytes>, steps: seq<Step<Entry>>, random: Bytes)
    requires Lawful(lib)
    ensures var s := Run(lib, machineId, steps);
            Load(lib, machineId, s.disk, random) == (Expected(s), s.disk)
  {
    InvRun(lib, machineId, steps);
    LoadKeeps(lib, machineId, Run(lib, machineId, steps), random);
  }

  /**
   * Only the rename is one step: were its file's bytes not all on disk when the power fails, nothing
   * would load, not even the previous entry.
   */
  lemma TornRenameUnreadable<Entry(!new)>(
    lib: Library<Entry>, machineId: Option<Bytes>, d: Disk, sealed: Bytes, n: nat, random: Bytes)
    requires n < 1 + NONCE_LEN && n <= |sealed|
    ensures Load(lib, machineId, d.(lkg := Some(sealed[..n])), random) == (Unreadable, d.(lkg := Some(sealed[..n])))
  {
  }

  lemma RunSnoc<Entry(!new)>(lib: Library<Entry>, machineId: Option<Bytes>, pre: seq<Step<Entry>>, step: Step<Entry>)
    ensures Run(lib, machineId, pre + [step]) == Next(lib, machineId, Run(lib, machineId, pre), step)
  {
    assert (pre + [step])[..|pre|] == pre;
  }

  /** A crash stops a save where it is. */
  lemma CrashStops<Entry(!new)>(lib: Library<Entry>, machineId: Option<Bytes>, pre: seq<Step<Entry>>)
    ensures Run(lib, machineId, pre + [Crash]) == Run(lib, machineId, pre).(pc := Idle)
  {
    RunSnoc(lib, machineId, pre, Crash);
  }

  /** Once the secret is there, the sealed file is written whole and renamed. */
  lemma FileCompletes<Entry(!new)>(
    lib: Library<Entry>, machineId: Option<Bytes>, pre: seq<Step<Entry>>, e: Entry, nonce: Bytes)
    returns (all: seq<Step<Entry>>)
    requires Run(lib, machineId, pre).pc == WritingTmp(e, nonce, 0)
    ensures Run(lib, machineId, all).pc.Idle? && Run(lib, machineId, all).current == Some((e, nonce))
  {
    var n := |Sealed(lib, SecretOf(machineId, Run(lib, machineId, pre).disk), nonce, e)|;
    RunSnoc(lib, machineId, pre, WriteMore(n));
    RunSnoc(lib, machineId, pre + [WriteMore(n)], WriteMore(n));
    RunSnoc(lib, machineId, pre + [WriteMore(n)] + [WriteMore(n)], Rename);
    all := pre + [WriteMore(n)] + [WriteMore(n)] + [Rename];
  }

  /** A save that nothing interrupts completes, and its entry loads. */
  lemma SaveCompletes<Entry(!new)>(
    lib: Library<Entry>, machineId: Option<Bytes>, pre: seq<Step<Entry>>, e: Entry, nonce: Bytes, random: Bytes)
    returns (all: seq<Step<Entry>>)
    requires Lawful(lib) && Run(lib, machineId, pre).pc.Idle? && |nonce| == 12 && |random| == 32
    ensures forall r :: Load(lib, machineId, Run(lib, machineId, all).disk, r).0 == Loaded.Entry(e)
  {
    var save := Save(e, nonce, random);
    RunSnoc(lib, machineId, pre, save);
    all := pre + [save];
    if KnownSecret(machineId, Run(lib, machineId, pre).disk).None? {
      RunSnoc(lib, machineId, all, WriteMore(32));
      RunSnoc(lib, machineId, all + [WriteMore(32)], WriteMore(32));
      all := all + [WriteMore(32)] + [WriteMore(32)];
    }
    all := FileCompletes(lib, machineId, all, e, nonce);
    forall r ensures Load(lib, machineId, Run(lib, machineId, all).disk, r).0 == Loaded.Entry(e) {
      CrashSafe(lib, machineId, all, r);
    }
  }

  /** And a step changes what is loaded only by completing a save: from the previous entry to the new one. */
  lemma OldOrNew<Entry(!new)>(lib: Library<Entry>, machineId: Option<Bytes>, steps: seq<Step<Entry>>, random: Bytes)
    requires Lawful(lib) && steps != []
    ensures var s, n := Run(lib, machineId, steps[..|steps| - 1]), Run(lib, machineId, steps);
            || Load(lib, machineId, n.disk, random).0 == Load(lib, machineId, s.disk, random).0
            || (s.pc.Renaming? && steps[|steps| - 1].Rename?
                && Load(lib, machineId, n.disk, random).0 == Loaded.Entry(s.pc.entry))
  {
    CrashSafe(lib, machineId, steps[..|steps| - 1], random);
    CrashSafe(lib, machineId, steps, random);
    var s := Run(lib, machineId, steps[..|steps| - 1]);
    CurrentMoves(lib, machineId, s, steps[|steps| - 1]);
  }

  lemma CurrentMoves<Entry(!new)>(lib: Library<Entry>, machineId: Option<Bytes>, s: State<Entry>, step: Step<Entry>)
    ensures var n := Next(lib, machineId, s, step);
            n.current == s.current || (step.Rename? && s.pc.Renaming? && n.current == Some((s.pc.entry, s.pc.nonce)))
  {
  }
}
