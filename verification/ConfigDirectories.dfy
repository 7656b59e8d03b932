/** Many state directories, one live file. A call works in the directory that the
    live document names when it loads it; no other directory is consulted, so an edit
    that names another one leads every call away from an open transaction. */
module ConfigDirectories {
  import opened Prelude
  import opened ConfigFiles
  import opened ConfigPlans
  import opened ConfigLedger
  import opened ConfigEdits
  import opened ConfigAnswers
  import opened RuntimeStatus

  /** What stays the same whichever directory a call works in. */
  datatype Program = Program(path: string, parses: Bytes -> bool, home: Bytes -> Home)

  function SiteAt(g: Program, directory: string): Site {
    Site(g.path, directory, g.parses, g.home)
  }

  /** The transaction files of one state directory. */
  datatype Shelf = Shelf(base: Option<Bytes>, candidate: Option<Bytes>, journal: JournalFile)

  const EMPTY_SHELF: Shelf := Shelf(None, None, NoJournal)

  datatype Storage = Storage(live: Bytes, shelves: map<string, Shelf>)

  function ShelfAt(s: Storage, directory: string): Shelf {
    if directory in s.shelves then s.shelves[directory] else EMPTY_SHELF
  }

  /** The four files that a call working in `directory` sees. */
  function View(s: Storage, directory: string): Disk {
    var shelf := ShelfAt(s, directory);
    Disk(s.live, shelf.base, shelf.candidate, shelf.journal)
  }

  function Put(s: Storage, directory: string, d: Disk): Storage {
    Storage(d.live, s.shelves[directory := Shelf(d.base, d.candidate, d.journal)])
  }

  /** One durable step of a call working in `directory`. */
  function DoIn(s: Storage, directory: string, op: FileOp): Storage {
    Put(s, directory, Do(View(s, directory), op))
  }

  function DoAllIn(s: Storage, directory: string, ops: seq<FileOp>): Storage {
    if ops == [] then s else Put(s, directory, DoAll(View(s, directory), ops))
  }

  /** Steps taken in one directory show there as they are, and in every other one at
      most as an edit of the live file. */
  lemma StepsStayInDirectory(s: Storage, directory: string, ops: seq<FileOp>, other: string)
    ensures var after := DoAllIn(s, directory, ops);
            && View(after, directory) == DoAll(View(s, directory), ops)
            && (other != directory ==> View(after, other) == View(s, other).(live := after.live))
  {
    hide DoAll;
    NothingDone(View(s, directory));
  }

  /** The directory the next call works in. */
  function Where(g: Program, s: Storage): string {
    g.home(s.live).state
  }

  /** A directory that does not exist is made by `set` and by service start; the other
      two calls cannot lock it. */
  predicate Missing(g: Program, s: Storage) {
    Loads(SiteAt(g, Where(g, s)), s.live) && Where(g, s) !in s.shelves
  }

  function SetCall(g: Program, s: Storage, r: SetRequest, latest: Result<Option<string>, ()>): Plan<SetAnswer> {
    SetPlan(SiteAt(g, Where(g, s)), View(s, Where(g, s)), r, latest)
  }

  function CommitCall(g: Program, s: Storage, r: CommitRequest, status: StatusFile): Plan<CommitAnswer> {
    if ValidId(r.transaction) && ValidId(r.instance) && Missing(g, s) then Plan([], Err(UnsafeStorage))
    else CommitPlan(SiteAt(g, Where(g, s)), View(s, Where(g, s)), r, status)
  }

  function RollbackCall(g: Program, s: Storage, transaction: string): Plan<RollbackAnswer> {
    if ValidId(transaction) && Missing(g, s) then Plan([], Err(UnsafeStorage))
    else RollbackPlan(SiteAt(g, Where(g, s)), View(s, Where(g, s)), transaction)
  }

  function ServiceCall(g: Program, s: Storage): Plan<Bytes> {
    ServicePlan(SiteAt(g, Where(g, s)), View(s, Where(g, s)))
  }

  /** In a directory that does not exist nothing can be committed or rolled back, whatever
      the request; service start makes it and runs the document. */
  lemma NothingThereYet(g: Program, s: Storage)
    requires Loads(SiteAt(g, Where(g, s)), s.live) && Where(g, s) !in s.shelves
    ensures forall r: CommitRequest, status ::
              CommitCall(g, s, r, status) ==
              Plan([], Err(if ValidId(r.transaction) && ValidId(r.instance) then UnsafeStorage else InvalidRequest))
    ensures forall t: string ::
              RollbackCall(g, s, t) == Plan([], Err(if ValidId(t) then UnsafeStorage else InvalidRequest))
    ensures ServiceCall(g, s).result == Ok(s.live)
  {
    hide ValidId;
    assert DoAll(View(s, Where(g, s)), [RemoveBase, RemoveCandidate]).live == s.live by {
      assert [RemoveBase, RemoveCandidate][1..] == [RemoveCandidate] && [RemoveCandidate][1..] == [];
    }
  }

  // ------------------------------------------------------- failing closed

  /** The files of one directory fit some history, but for edits of the live file. */
  ghost predicate KeptAt(g: Program, s: Storage, directory: string) {
    exists l: Ledger :: Sound(SiteAt(g, directory), l, View(s, directory))
  }

  ghost predicate Kept(g: Program, s: Storage) {
    forall directory :: KeptAt(g, s, directory)
  }

  /** No call takes a step or succeeds. */
  ghost predicate AllRefuse(g: Program, s: Storage) {
    && Refuses(ServiceCall(g, s))
    && (forall r: SetRequest, latest :: Refuses(SetCall(g, s, r, latest)))
    && (forall r: CommitRequest, status :: Refuses(CommitCall(g, s, r, status)))
    && (forall t :: Refuses(RollbackCall(g, s, t)))
  }

  /** Every call refuses, without a step, exactly when the directory that the live
      document names has a journal that cannot accept it. */
  lemma RefusesIffUnaccepted(g: Program, s: Storage)
    requires Kept(g, s) && Loads(SiteAt(g, Where(g, s)), s.live)
    ensures AllRefuse(g, s) <==> !Accepted(View(s, Where(g, s)))
    ensures Refuses(ServiceCall(g, s)) <==> !Accepted(View(s, Where(g, s)))
  {
    hide Sound, Accepted, SetPlan, CommitPlan, RollbackPlan, ServicePlan, Recover;
    var a := Where(g, s);
    var site, d := SiteAt(g, a), View(s, a);
    assert KeptAt(g, s, a);
    var l: Ledger :| Sound(site, l, d);
    if Accepted(d) {
      AcceptedIsConsistent(site, l, d);
      ServiceSucceedsIff(site, l, d);
    } else {
      RecoversIffAccepted(site, l, d);
      RefusedRecoveryRefusesService(site, d);
      forall r: SetRequest, latest ensures Refuses(SetCall(g, s, r, latest)) {
        RefusedRecoveryRefusesSet(site, d, r, latest);
      }
      forall r: CommitRequest, status ensures Refuses(CommitCall(g, s, r, status)) {
        RefusedRecoveryRefusesCommit(site, d, r, status);
      }
      forall t ensures Refuses(RollbackCall(g, s, t)) {
        RefusedRecoveryRefusesRollback(site, d, t);
      }
    }
  }

  /** An open transaction in `a` whose journal cannot accept the live document, and no
      other open anywhere: every call refuses if and only if the document names `a`. */
  lemma FailsClosedIffNamed(g: Program, s: Storage, a: string)
    requires Kept(g, s) && Loads(SiteAt(g, Where(g, s)), s.live)
    requires !Accepted(View(s, a))
    requires forall other :: other != a ==> ShelfAt(s, other).journal.NoJournal?
    ensures AllRefuse(g, s) <==> Where(g, s) == a
    ensures Where(g, s) != a ==> ServiceCall(g, s).result == Ok(s.live)
  {
    hide Kept, AllRefuse, Recover;
    RefusesIffUnaccepted(g, s);
    if Where(g, s) != a { IdleServiceRuns(SiteAt(g, Where(g, s)), View(s, Where(g, s))); }
  }

  lemma IdleServiceRuns(site: Site, d: Disk)
    requires d.journal.NoJournal? && Loads(site, d.live)
    ensures ServicePlan(site, d).result == Ok(d.live)
  {
    assert [RemoveBase, RemoveCandidate][1..] == [RemoveCandidate];
  }

  // ------------------------------------------------------ the failing input

  /** An open transaction in `a`, and an edit of the live file into any document that
      loads and names a directory without one. The journal in `a` cannot accept it, yet
      service start runs it, and `set` replaces it and opens a second transaction;
      nothing in `a` is changed. */
  lemma EditEscapes(g: Program, l: Ledger, s: Storage, a: string, edited: Bytes, r: SetRequest,
                    baseline: Option<string>)
    requires Consistent(SiteAt(g, a), l, View(s, a)) && ShelfAt(s, a).journal.Stored?
    requires Loads(SiteAt(g, a), edited) && g.home(edited).state != a
    requires ShelfAt(s, g.home(edited).state).journal.NoJournal?
    ensures var b, now := g.home(edited).state, s.(live := edited);
            && !Accepted(View(now, a))
            && ServiceCall(g, now).result == Ok(edited)
            && var candidate := BuildCandidate(SiteAt(g, b), r.edit, edited);
               var p := SetCall(g, now, r, Ok(baseline));
               var after := DoAllIn(now, b, p.ops);
               candidate.Some? && candidate.value != edited && r.expected == Sha256(edited) ==>
                 && p.result.Ok?
                 && after.live == candidate.value
                 && Undecided(View(after, b), r.transaction)
                 && ShelfAt(after, a) == ShelfAt(s, a)
  {
    hide DoAll, Recover, SetPlan, ServicePlan, BuildCandidate;
    var b, now := g.home(edited).state, s.(live := edited);
    UnnamedIsUnaccepted(SiteAt(g, a), l, View(s, a), edited);
    assert View(now, a) == View(s, a).(live := edited);
    var site, d, none := SiteAt(g, b), View(now, b), Ledger(map[], map[], map[]);
    IdleServiceRuns(site, d);
    SetSucceedsIff(site, none, d, r, Ok(baseline));
    var p := SetCall(g, now, r, Ok(baseline));
    StepsStayInDirectory(now, b, p.ops, a);
  }

  lemma UnnamedIsUnaccepted(site: Site, l: Ledger, d: Disk, edited: Bytes)
    requires Consistent(site, l, d) && d.journal.Stored? && site.home(edited).state != site.directory
    ensures !Accepted(d.(live := edited))
  {
  }

  const BASE_TEXT: Bytes := [1]
  const CANDIDATE_TEXT: Bytes := [2]
  const EDITED_TEXT: Bytes := [3]

  /** Such a storage exists: two directories, a transaction pending in the first, and a
      document that names the second. */
  lemma EscapeExists(id: string) returns (g: Program, l: Ledger, s: Storage)
    requires ValidId(id)
    ensures s.shelves.Keys == {"a", "b"}
    ensures Consistent(SiteAt(g, "a"), l, View(s, "a")) && Undecided(View(s, "a"), id)
    ensures ShelfAt(s, "b").journal.NoJournal?
    ensures Loads(SiteAt(g, "a"), EDITED_TEXT) && g.home(EDITED_TEXT).state == "b"
    ensures ServiceCall(g, s.(live := EDITED_TEXT)).result == Ok(EDITED_TEXT)
  {
    g := Program("host.toml", bytes => true, bytes => Home(if bytes == EDITED_TEXT then "b" else "a", "key"));
    var j := Journal(JOURNAL_VERSION, id, PendingValidation, "host.toml", Sha256(BASE_TEXT), Sha256(CANDIDATE_TEXT),
                     None, Some("run"));
    l := Ledger(map[id := TxRecord(BASE_TEXT, CANDIDATE_TEXT, Some("run"), None)], map[], map[]);
    s := Storage(CANDIDATE_TEXT,
                 map["a" := Shelf(Some(BASE_TEXT), Some(CANDIDATE_TEXT), Stored(j)), "b" := EMPTY_SHELF]);
    DifferentNames();
    DifferentTexts();
    IdleServiceRuns(SiteAt(g, "b"), View(s.(live := EDITED_TEXT), "b"));
  }

  lemma DifferentNames()
    ensures "a" != "b"
  {
    assert "a"[0] != "b"[0];
  }

  lemma DifferentTexts()
    ensures BASE_TEXT != CANDIDATE_TEXT && BASE_TEXT != EDITED_TEXT && CANDIDATE_TEXT != EDITED_TEXT
  {
    assert BASE_TEXT[0] == 1 && CANDIDATE_TEXT[0] == 2 && EDITED_TEXT[0] == 3;
  }
}
