/** The four files of a configuration transaction and the atomic steps on them
    (crates/sigil-host/src/config_management.rs over secure_state.rs). */
module ConfigFiles {
  import opened Prelude

  const JOURNAL_VERSION: nat := 1

  datatype ErrorCode =
    | UnsupportedSchema
    | InvalidRequest
    | ValidationFailed
    | RevisionConflict
    | LifecycleBusy
    | TransactionBusy
    | TransactionPending
    | TransactionNotFound
    | TransactionConflict
    | HealthNotProven
    | UnsafeStorage

  /** The SHA-256 revision of a document, taken as an injective function of its bytes. */
  datatype ConfigRevision = Sha256(preimage: Bytes)

  datatype TransactionState = Prepared | PendingValidation | Committing | RollingBack

  datatype Journal = Journal(
    version: nat,
    transaction: string,
    state: TransactionState,
    configPath: string,
    base: ConfigRevision,
    candidate: ConfigRevision,
    baseline: Option<string>,
    runtimeDirectory: Option<string>)

  /** The journal file: absent, present but not a journal, or holding one. */
  datatype JournalFile = NoJournal | Unreadable | Stored(journal: Journal)

  datatype Disk = Disk(
    live: Bytes,
    base: Option<Bytes>,
    candidate: Option<Bytes>,
    journal: JournalFile)

  /** One durable step: an atomic replace or an atomic remove of one file. */
  datatype FileOp =
    | ReplaceLive(bytes: Bytes)
    | WriteBase(bytes: Bytes)
    | WriteCandidate(bytes: Bytes)
    | WriteJournal(journal: Journal)
    | RemoveBase
    | RemoveCandidate
    | RemoveJournal

  function Do(d: Disk, op: FileOp): Disk {
    match op
    case ReplaceLive(bytes) => d.(live := bytes)
    case WriteBase(bytes) => d.(base := Some(bytes))
    case WriteCandidate(bytes) => d.(candidate := Some(bytes))
    case WriteJournal(journal) => d.(journal := Stored(journal))
    case RemoveBase => d.(base := None)
    case RemoveCandidate => d.(candidate := None)
    case RemoveJournal => d.(journal := NoJournal)
  }

  /** Every step is one file's, and the file it names. */
  lemma StepsAreSingle(d: Disk, op: FileOp)
    ensures var after := Do(d, op);
            && after.live == (if op.ReplaceLive? then op.bytes else d.live)
            && after.base == (if op.WriteBase? then Some(op.bytes) else if op.RemoveBase? then None else d.base)
            && after.candidate ==
                 (if op.WriteCandidate? then Some(op.bytes) else if op.RemoveCandidate? then None else d.candidate)
            && after.journal ==
                 (if op.WriteJournal? then Stored(op.journal) else if op.RemoveJournal? then NoJournal else d.journal)
  {
  }

  function DoAll(d: Disk, ops: seq<FileOp>): Disk
    decreases |ops|
  {
    if ops == [] then d else DoAll(Do(d, ops[0]), ops[1..])
  }

  /** The durable steps that happen when only `fuel` of them can. */
  function Cut(ops: seq<FileOp>, fuel: nat): seq<FileOp> {
    if fuel < |ops| then ops[..fuel] else ops
  }

  lemma {:induction false} DoAllConcat(d: Disk, a: seq<FileOp>, b: seq<FileOp>)
    ensures DoAll(d, a + b) == DoAll(DoAll(d, a), b)
    decreases |a|
  {
    if a == [] {
      assert a + b == b;
    } else {
      assert (a + b)[0] == a[0] && (a + b)[1..] == a[1..] + b;
      DoAllConcat(Do(d, a[0]), a[1..], b);
    }
  }

  /** The paths a document names: its state directory and its identity file. */
  datatype Home = Home(state: string, identity: string)

  /** What a call knows about its surroundings: the canonical path of the
      configuration file, the state directory it works in, which documents the TOML
      loader accepts, and the paths each of those names. */
  datatype Site = Site(path: string, directory: string, parses: Bytes -> bool, home: Bytes -> Home)

  /** `load_config` accepts exactly these documents. An empty document lacks the
      required paths, so it never parses. */
  predicate Loads(site: Site, bytes: Bytes) {
    0 < |bytes| <= MAX_CONFIG_BYTES && site.parses(bytes)
  }

  /** A call that loads this document works in the site's own directory. */
  predicate Names(site: Site, bytes: Bytes) {
    Loads(site, bytes) && site.home(bytes).state == site.directory
  }

  /** Transaction and instance identifiers: 32 lower-case hexadecimal digits. */
  predicate ValidId(id: string) {
    |id| == 32 && forall i :: 0 <= i < |id| ==> '0' <= id[i] <= '9' || 'a' <= id[i] <= 'f'
  }

  function ValidateJournal(site: Site, j: Journal): Result<(), ErrorCode> {
    if j.version != JOURNAL_VERSION then Err(UnsupportedSchema)
    else if !ValidId(j.transaction) then Err(UnsafeStorage)
    else if j.configPath != site.path then Err(TransactionConflict)
    else if j.base == j.candidate then Err(UnsafeStorage)
    else if j.baseline.Some? && !ValidId(j.baseline.value) then Err(UnsafeStorage)
    else Ok(())
  }

  /** A stored copy is usable only when it is present and hashes to the revision
      the journal names. */
  function ReadArtifact(file: Option<Bytes>, expected: ConfigRevision): Result<Bytes, ErrorCode> {
    if file.None? then Err(TransactionConflict)
    else if !(0 < |file.value| <= MAX_CONFIG_BYTES) then Err(UnsafeStorage)
    else if Sha256(file.value) != expected then Err(TransactionConflict)
    else Ok(file.value)
  }

  const CLEANUP: seq<FileOp> := [RemoveBase, RemoveCandidate, RemoveJournal]
}
