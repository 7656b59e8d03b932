/** `set` with managed settings: the bytes that the configuration transaction moves
    are the documents that the settings edit
    (crates/sigil-host/src/config_management.rs:265-344, 704-777). */
module ManagedTransaction {
  import opened Prelude
  import opened ConfigFiles
  import opened ConfigPlans
  import opened ConfigLedger
  import opened ConfigSafety
  import opened ConfigAnswers
  import opened ManagedSettings

  /** TOML text: `read` gives the document of a text, None for bytes that are not
      TOML; `render` writes a document over the text it was read from. */
  datatype Codec = Codec(read: Bytes -> Option<Document>, render: (Bytes, Document) -> Bytes)

  /** What is written reads back, and the empty text is the empty document. */
  ghost predicate LawfulCodec(codec: Codec) {
    && (forall bytes: Bytes, d: Document :: codec.read(codec.render(bytes, d)) == Some(d))
    && codec.read([]) == Some(map[])
  }

  /** `HostConfig::parse` but for its bound on the size. */
  function ConfigOf(codec: Codec, b: Build, bytes: Bytes): Option<HostConfig> {
    match codec.read(bytes)
    case None => None
    case Some(d) => Parse(b, d)
  }

  /** The paths a text names; nothing is named by a text that does not parse. */
  function HomeOf(codec: Codec, b: Build, bytes: Bytes): Home {
    match ConfigOf(codec, b, bytes)
    case None => Home("", "")
    case Some(c) => Home(c.statePath, c.identityPath)
  }

  /** The site whose loader is the schema of `b` over `codec`. */
  function SiteOf(codec: Codec, b: Build, path: string, directory: string): Site {
    Site(path, directory, bytes => ConfigOf(codec, b, bytes).Some?, bytes => HomeOf(codec, b, bytes))
  }

  /** The build as seen while `bytes` is edited: a document's size is that of its text. */
  function Sized(codec: Codec, b: Build, bytes: Bytes): Build {
    b.(size := d => |codec.render(bytes, d)|)
  }

  function LoadedFrom(codec: Codec, b: Build, bytes: Bytes): (loaded: Loaded)
    requires ConfigOf(codec, b, bytes).Some?
  {
    Loaded(codec.read(bytes).value, ConfigOf(codec, b, bytes).value)
  }

  /** The edit of a text that a request for these settings makes. */
  function EditBytes(codec: Codec, b: Build, s: Settings, bytes: Bytes): Option<Bytes> {
    if ConfigOf(codec, b, bytes).None? then None
    else
      var loaded := LoadedFrom(codec, b, bytes);
      match Edited(loaded.document, loaded.config.source, s)
      case None => None
      case Some(d) => Some(codec.render(bytes, d))
  }

  function EditOf(codec: Codec, b: Build, s: Settings): Bytes -> Option<Bytes> {
    bytes => EditBytes(codec, b, s, bytes)
  }

  /** Sizes have no part in what a document means. */
  lemma SizedParses(codec: Codec, b: Build, bytes: Bytes, d: Document)
    ensures Parse(Sized(codec, b, bytes), d) == Parse(b, d)
  {
  }

  lemma EmptyDoesNotParse(codec: Codec, b: Build)
    requires LawfulCodec(codec)
    ensures ConfigOf(codec, b, []).None?
  {
  }

  lemma RenderedParses(codec: Codec, b: Build, bytes: Bytes, d: Document)
    requires LawfulCodec(codec)
    ensures ConfigOf(codec, b, codec.render(bytes, d)) == Parse(b, d)
    ensures Parse(b, d).Some? ==> codec.render(bytes, d) != []
  {
    hide Parse;
    EmptyDoesNotParse(codec, b);
  }

  /** The transaction's candidate bytes are exactly the text of the settings'
      candidate document: one exists if and only if the other does. */
  lemma CandidatesAgree(codec: Codec, b: Build, path: string, directory: string, s: Settings, bytes: Bytes)
    requires LawfulCodec(codec) && ConfigOf(codec, b, bytes).Some?
    ensures var candidate := Candidate(Sized(codec, b, bytes), LoadedFrom(codec, b, bytes), s);
            ConfigPlans.BuildCandidate(SiteOf(codec, b, path, directory), EditOf(codec, b, s), bytes) ==
            if candidate.Some? then Some(codec.render(bytes, candidate.value.document)) else None
  {
    hide Parse, Edited, LawfulCodec;
    var loaded, sized := LoadedFrom(codec, b, bytes), Sized(codec, b, bytes);
    SizedParses(codec, b, bytes, loaded.document);
    CandidateIff(sized, loaded, s);
    WithSettingsKeeps(loaded.config, s);
    var edited := Edited(loaded.document, loaded.config.source, s);
    if edited.Some? {
      RenderedParses(codec, b, bytes, edited.value);
      SizedParses(codec, b, bytes, edited.value);
      EditedParses(sized, loaded, s);
    }
  }

  /** Whatever an edit makes of a loaded document, its paths stay. */
  lemma EditedParses(b: Build, loaded: Loaded, s: Settings)
    requires WellLoaded(b, loaded) && Edited(loaded.document, loaded.config.source, s).Some?
    ensures var c := Parse(b, Edited(loaded.document, loaded.config.source, s).value);
            c.Some? ==>
              c.value.identityPath == loaded.config.identityPath && c.value.statePath == loaded.config.statePath
  {
    hide Decode, Edited, HostValid;
    EditCommutesWithDecode(b, loaded.document, s);
    WithSettingsKeeps(loaded.config, s);
  }

  lemma CandidateReads(codec: Codec, b: Build, path: string, directory: string, s: Settings, bytes: Bytes)
    requires LawfulCodec(codec) && ConfigOf(codec, b, bytes).Some?
    ensures var site, edit := SiteOf(codec, b, path, directory), EditOf(codec, b, s);
            var candidate := ConfigPlans.BuildCandidate(site, edit, bytes);
            var before := ConfigOf(codec, b, bytes).value;
            && (candidate.Some? <==> Acceptable(Sized(codec, b, bytes), LoadedFrom(codec, b, bytes), s))
            && (candidate.Some? ==>
                  && EditBytes(codec, b, s, bytes) == candidate
                  && ConfigOf(codec, b, candidate.value) == Some(WithSettings(before, s))
                  && ProjectSettings(WithSettings(before, s)) == Some(s))
  {
    hide Parse, Edited, LawfulCodec, ConfigPlans.BuildCandidate, Acceptable, WithSettings, ProjectSettings;
    var loaded, sized := LoadedFrom(codec, b, bytes), Sized(codec, b, bytes);
    SizedParses(codec, b, bytes, loaded.document);
    CandidatesAgree(codec, b, path, directory, s, bytes);
    CandidateIff(sized, loaded, s);
    if Candidate(sized, loaded, s).Some? {
      var document := Candidate(sized, loaded, s).value.document;
      PutGet(sized, loaded, s);
      RenderedParses(codec, b, bytes, document);
      SizedParses(codec, b, bytes, document);
    }
  }

  /** `set` on consistent files succeeds exactly for the expected revision and
      settings that the live configuration accepts. Then the live document is the
      configuration from before with the managed fields replaced, and projects to the
      settings asked for; if a byte changed, the copy to roll back to is the text from
      before. */
  lemma SetInstallsSettings(codec: Codec, b: Build, path: string, directory: string, l: Ledger, d: Disk,
                            r: SetRequest, s: Settings, latest: Result<Option<string>, ()>)
    requires LawfulCodec(codec) && Consistent(SiteOf(codec, b, path, directory), l, d)
    requires r.edit == EditOf(codec, b, s)
    ensures var site, live := SiteOf(codec, b, path, directory), Target(l, d).live;
            var p := SetPlan(site, d, r, latest);
            var after := DoAll(d, p.ops);
            && (p.result.Ok? <==>
                  && (d.journal.Stored? ==> !Undecided(d, d.journal.journal.transaction))
                  && Loads(site, live) && r.expected == Sha256(live)
                  && Acceptable(Sized(codec, b, live), LoadedFrom(codec, b, live), s)
                  && (EditBytes(codec, b, s, live) == Some(live) || latest.Ok?))
            && (p.result.Ok? ==>
                  && EditBytes(codec, b, s, live) == Some(after.live)
                  && ConfigOf(codec, b, after.live) == Some(WithSettings(ConfigOf(codec, b, live).value, s))
                  && ProjectSettings(ConfigOf(codec, b, after.live).value) == Some(s)
                  && (after.live != live ==> Undecided(after, r.transaction) && after.base == Some(live)))
  {
    hide Consistent, SetPlan, DoAll, ConfigPlans.BuildCandidate, EditBytes, Acceptable, LawfulCodec, Target, Sized,
      LoadedFrom, ProjectSettings, WithSettings;
    var site, live := SiteOf(codec, b, path, directory), Target(l, d).live;
    SetSucceedsIff(site, l, d, r, latest);
    if Loads(site, live) { CandidateReads(codec, b, path, directory, s, live); }
  }
}
