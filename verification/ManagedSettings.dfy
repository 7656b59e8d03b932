/** Managed settings edited into the configuration document and projected back
    (crates/sigil-host/src/config_management.rs over config.rs). A TOML document is
    its keys and values; its text counts only by its size. */
module ManagedSettings {
  import opened Prelude

  datatype Key =
    | IdentityPath | StatePath | SourceKind | Width | Height | Framerate | GamescopePipewire | Audio
    | EncoderBackend | RateControl | BitrateKbps | Quantizer
    | Named(name: string)

  /** A TOML value; a table written inline is not a table to the editor. */
  datatype Value =
    | Integer(number: int)
    | Text(text: string)
    | Table(inline: bool, entries: map<Key, Value>)
    | Other(literal: string)

  type Document = map<Key, Value>

  datatype Source = TestPattern | Gamescope
  datatype Control = Cbr | Cqp
  datatype Backend = ExternalGstLaunch | InProcessGstreamer

  /** `rest` holds the entries that settings never touch. */
  datatype GamescopeConfig = GamescopeConfig(
    backend: Backend,
    control: Control,
    bitrate: Option<u32>,
    quantizer: Option<byte>,
    rest: Document)

  datatype HostConfig = HostConfig(
    identityPath: string,
    statePath: string,
    source: Source,
    width: Option<u32>,
    height: Option<u32>,
    framerate: u32,
    gamescope: Option<GamescopeConfig>,
    rest: Document)

  /** What the build and the rest of the schema decide: whether the in-process
      backend is compiled in, the size of the text an edited document is written to,
      and whether the entries outside the settings decode and validate. */
  datatype Build = Build(
    inProcess: bool,
    size: Document -> nat,
    restValid: Document -> bool,
    gamescopeRestValid: Document -> bool)

  // ------------------------------------------------------------------ decoding

  /** An optional integer field: absent, present, or (None) not an integer in range. */
  function OptionalInteger(d: Document, k: Key, max: int): Option<Option<int>> {
    if k !in d then Some(None)
    else if d[k].Integer? && 0 <= d[k].number <= max then Some(Some(d[k].number))
    else None
  }

  function SourceOf(d: Document): Option<Source> {
    if SourceKind !in d then Some(TestPattern)
    else if d[SourceKind] == Text("test-pattern") then Some(TestPattern)
    else if d[SourceKind] == Text("gamescope-pipewire") then Some(Gamescope)
    else None
  }

  const CBR_TEXT: string := "cbr"
  const CQP_TEXT: string := "cqp"

  function ControlOf(d: Document): Option<Control> {
    if RateControl !in d then None
    else if d[RateControl] == Text(CBR_TEXT) then Some(Cbr)
    else if d[RateControl] == Text(CQP_TEXT) then Some(Cqp)
    else None
  }

  function BackendOf(b: Build, d: Document): Option<Backend> {
    if EncoderBackend !in d then Some(if b.inProcess then InProcessGstreamer else ExternalGstLaunch)
    else if d[EncoderBackend] == Text("external-gst-launch") then Some(ExternalGstLaunch)
    else if d[EncoderBackend] == Text("in-process-gstreamer") then Some(InProcessGstreamer)
    else None
  }

  function GamescopeRest(d: Document): Document {
    d - {EncoderBackend, RateControl, BitrateKbps, Quantizer}
  }

  function DecodeGamescope(b: Build, d: Document): Option<GamescopeConfig> {
    var backend, control := BackendOf(b, d), ControlOf(d);
    var bitrate, quantizer := OptionalInteger(d, BitrateKbps, U32_MAX), OptionalInteger(d, Quantizer, 255);
    if backend.None? || control.None? || bitrate.None? || quantizer.None? then None
    else Some(GamescopeConfig(backend.value, control.value, bitrate.value, quantizer.value, GamescopeRest(d)))
  }

  /** An absent table, a table of either spelling that decodes, or (None) neither. */
  function OptionalGamescope(b: Build, d: Document): Option<Option<GamescopeConfig>> {
    if GamescopePipewire !in d then Some(None)
    else if !d[GamescopePipewire].Table? then None
    else
      match DecodeGamescope(b, d[GamescopePipewire].entries)
      case None => None
      case Some(g) => Some(Some(g))
  }

  function HostRest(d: Document): Document {
    d - {IdentityPath, StatePath, SourceKind, Width, Height, Framerate, GamescopePipewire}
  }

  function Decode(b: Build, d: Document): Option<HostConfig> {
    var source, gamescope := SourceOf(d), OptionalGamescope(b, d);
    var width, height := OptionalInteger(d, Width, U32_MAX), OptionalInteger(d, Height, U32_MAX);
    var framerate := OptionalInteger(d, Framerate, U32_MAX);
    if source.None? || gamescope.None? || width.None? || height.None? || framerate.None? then None
    else if IdentityPath !in d || !d[IdentityPath].Text? || StatePath !in d || !d[StatePath].Text? then None
    else
      Some(HostConfig(d[IdentityPath].text, d[StatePath].text, source.value, width.value, height.value,
                      if framerate.value.Some? then framerate.value.value else 60,
                      gamescope.value, HostRest(d)))
  }

  // ---------------------------------------------------------------- validation

  predicate GamescopeValid(b: Build, g: GamescopeConfig) {
    && b.gamescopeRestValid(g.rest)
    && (g.backend.InProcessGstreamer? ==> b.inProcess && g.control.Cbr?)
    && match g.control
       case Cbr => g.bitrate.Some? && 1_000 <= g.bitrate.value <= 100_000 && g.quantizer.None?
       case Cqp => g.quantizer.Some? && 1 <= g.quantizer.value <= 51 && g.bitrate.None?
  }

  predicate DimensionsValid(width: u32, height: u32) {
    64 <= width <= 7_680 && 64 <= height <= 4_320 && width % 2 == 0 && height % 2 == 0
  }

  predicate HostValid(b: Build, c: HostConfig) {
    && c.identityPath != "" && c.statePath != "" && b.restValid(c.rest)
    && (c.width.Some? <==> c.height.Some?)
    && (c.width.Some? && c.height.Some? ==> DimensionsValid(c.width.value, c.height.value))
    && 1 <= c.framerate <= 240
    && (c.source.Gamescope? <==> c.gamescope.Some?)
    && (c.gamescope.Some? ==> GamescopeValid(b, c.gamescope.value))
    && (Audio in c.rest ==> c.source.Gamescope?)
  }

  function Parse(b: Build, d: Document): Option<HostConfig> {
    match Decode(b, d)
    case None => None
    case Some(c) => if HostValid(b, c) then Some(c) else None
  }

  // ------------------------------------------------------------------ settings

  datatype Resolution = Native | Fixed(width: u32, height: u32)

  datatype Rate = CbrRate(bitrate: u32) | CqpRate(quantizer: byte)

  datatype Settings = Settings(resolution: Resolution, framerate: u32, rate: Option<Rate>)

  /** `project_settings`; None is its validation error or a failed `expect`. */
  function ProjectSettings(c: HostConfig): Option<Settings> {
    var resolution := if c.width.Some? && c.height.Some? then Fixed(c.width.value, c.height.value) else Native;
    match (c.source, c.gamescope)
    case (TestPattern, None) => Some(Settings(resolution, c.framerate, None))
    case (Gamescope, Some(g)) =>
      if g.control.Cbr? then
        if g.bitrate.None? then None else Some(Settings(resolution, c.framerate, Some(CbrRate(g.bitrate.value))))
      else
        if g.quantizer.None? then None else Some(Settings(resolution, c.framerate, Some(CqpRate(g.quantizer.value))))
    case _ => None
  }

  function EditedRates(d: Document, rate: Rate): Document {
    match rate
    case CbrRate(bitrate) => d[RateControl := Text(CBR_TEXT)][BitrateKbps := Integer(bitrate)] - {Quantizer}
    case CqpRate(quantizer) => d[RateControl := Text(CQP_TEXT)][Quantizer := Integer(quantizer)] - {BitrateKbps}
  }

  function EditedSize(d: Document, s: Settings): Document {
    match s.resolution
    case Native => d[Framerate := Integer(s.framerate)] - {Width, Height}
    case Fixed(width, height) =>
      d[Framerate := Integer(s.framerate)][Width := Integer(width)][Height := Integer(height)]
  }

  /** The document with the settings in place, if they suit the source and the
      editor finds its table. */
  function Edited(d: Document, source: Source, s: Settings): Option<Document> {
    var sized := EditedSize(d, s);
    match (source, s.rate)
    case (TestPattern, None) => Some(sized)
    case (Gamescope, Some(rate)) =>
      if GamescopePipewire in sized && sized[GamescopePipewire].Table? && !sized[GamescopePipewire].inline then
        Some(sized[GamescopePipewire := Table(false, EditedRates(sized[GamescopePipewire].entries, rate))])
      else None
    case _ => None
  }

  datatype Loaded = Loaded(document: Document, config: HostConfig)

  function Candidate(b: Build, loaded: Loaded, s: Settings): Option<Loaded> {
    match Edited(loaded.document, loaded.config.source, s)
    case None => None
    case Some(d) =>
      if b.size(d) > MAX_CONFIG_BYTES then None
      else
        match Parse(b, d)
        case None => None
        case Some(c) =>
          if c.identityPath == loaded.config.identityPath && c.statePath == loaded.config.statePath
          then Some(Loaded(d, c)) else None
  }

  /** `build_candidate`, editing its copy of the document entry by entry; every
      refusal is the same validation error. */
  method BuildCandidate(b: Build, loaded: Loaded, s: Settings) returns (candidate: Option<Loaded>)
    ensures candidate == Candidate(b, loaded, s)
  {
    hide Parse;
    var document := loaded.document;
    document := document[Framerate := Integer(s.framerate)];
    match s.resolution {
      case Native =>
        document := document - {Width};
        document := document - {Height};
      case Fixed(width, height) =>
        document := document[Width := Integer(width)];
        document := document[Height := Integer(height)];
    }
    assert document == EditedSize(loaded.document, s);
    match (loaded.config.source, s.rate) {
      case (TestPattern, None) =>
      case (Gamescope, Some(rate)) =>
        if GamescopePipewire !in document || !document[GamescopePipewire].Table? || document[GamescopePipewire].inline {
          return None;
        }
        var table := document[GamescopePipewire].entries;
        match rate {
          case CbrRate(bitrate) =>
            table := table[RateControl := Text(CBR_TEXT)];
            table := table[BitrateKbps := Integer(bitrate)];
            table := table - {Quantizer};
          case CqpRate(quantizer) =>
            table := table[RateControl := Text(CQP_TEXT)];
            table := table[Quantizer := Integer(quantizer)];
            table := table - {BitrateKbps};
        }
        document := document[GamescopePipewire := Table(false, table)];
      case _ => return None;
    }
    assert Edited(loaded.document, loaded.config.source, s) == Some(document);
    if b.size(document) > MAX_CONFIG_BYTES { return None; }
    var config := Parse(b, document);
    if config.None? { return None; }
    if config.value.identityPath != loaded.config.identityPath || config.value.statePath != loaded.config.statePath {
      return None;
    }
    candidate := Some(Loaded(document, config.value));
  }

  // ------------------------------------------- editing text is updating the record

  function WithRate(g: GamescopeConfig, rate: Rate): GamescopeConfig {
    match rate
    case CbrRate(bitrate) => g.(control := Cbr, bitrate := Some(bitrate), quantizer := None)
    case CqpRate(quantizer) => g.(control := Cqp, quantizer := Some(quantizer), bitrate := None)
  }

  /** The configuration with the six managed fields replaced and every other kept. */
  function WithSettings(c: HostConfig, s: Settings): HostConfig {
    var sized := match s.resolution
                 case Native => c.(width := None, height := None, framerate := s.framerate)
                 case Fixed(width, height) =>
                   c.(width := Some(width), height := Some(height), framerate := s.framerate);
    if s.rate.Some? && c.gamescope.Some?
    then sized.(gamescope := Some(WithRate(c.gamescope.value, s.rate.value))) else sized
  }

  lemma EditedRatesDecode(b: Build, d: Document, rate: Rate)
    requires DecodeGamescope(b, d).Some?
    ensures DecodeGamescope(b, EditedRates(d, rate)) == Some(WithRate(DecodeGamescope(b, d).value, rate))
  {
    assert CBR_TEXT != CQP_TEXT by { assert CBR_TEXT[1] != CQP_TEXT[1]; }
    assert GamescopeRest(EditedRates(d, rate)) == GamescopeRest(d);
  }

  lemma EditedSizeDecodes(b: Build, d: Document, s: Settings)
    requires Decode(b, d).Some?
    ensures Decode(b, EditedSize(d, s)) == Some(WithSettings(Decode(b, d).value, s.(rate := None)))
  {
    hide OptionalGamescope, SourceOf;
    var e := EditedSize(d, s);
    assert HostRest(e) == HostRest(d);
    GamescopeDependsOnTable(b, d, e);
    SourceDependsOnKind(d, e);
  }

  lemma GamescopeDependsOnTable(b: Build, d: Document, e: Document)
    requires GamescopePipewire in d <==> GamescopePipewire in e
    requires GamescopePipewire in d ==> d[GamescopePipewire] == e[GamescopePipewire]
    ensures OptionalGamescope(b, d) == OptionalGamescope(b, e)
  {
  }

  lemma SourceDependsOnKind(d: Document, e: Document)
    requires SourceKind in d <==> SourceKind in e
    requires SourceKind in d ==> d[SourceKind] == e[SourceKind]
    ensures SourceOf(d) == SourceOf(e)
  {
  }

  lemma TableReplaced(b: Build, d: Document, g: Document)
    requires Decode(b, d).Some? && GamescopePipewire in d && DecodeGamescope(b, g).Some?
    ensures Decode(b, d[GamescopePipewire := Table(false, g)]) ==
            Some(Decode(b, d).value.(gamescope := Some(DecodeGamescope(b, g).value)))
  {
    hide DecodeGamescope, SourceOf;
    var e := d[GamescopePipewire := Table(false, g)];
    assert HostRest(e) == HostRest(d);
    SourceDependsOnKind(d, e);
  }

  /** Editing the document and then decoding it is decoding it and then updating
      the managed fields. */
  lemma EditCommutesWithDecode(b: Build, d: Document, s: Settings)
    requires Decode(b, d).Some?
    ensures var c := Decode(b, d).value;
            var e := Edited(d, c.source, s);
            e.Some? ==> Decode(b, e.value) == Some(WithSettings(c, s))
  {
    hide DecodeGamescope, EditedRates, SourceOf, EditedSize;
    var c := Decode(b, d).value;
    EditedSizeDecodes(b, d, s);
    if Edited(d, c.source, s).Some? && s.rate.Some? {
      var sized := EditedSize(d, s);
      EditedSizeKeepsTable(d, s);
      var g := sized[GamescopePipewire].entries;
      EditedRatesDecode(b, g, s.rate.value);
      TableReplaced(b, sized, EditedRates(g, s.rate.value));
    }
  }

  lemma EditedSizeKeepsTable(d: Document, s: Settings)
    ensures GamescopePipewire in EditedSize(d, s) <==> GamescopePipewire in d
    ensures GamescopePipewire in d ==> EditedSize(d, s)[GamescopePipewire] == d[GamescopePipewire]
  {
  }

  // ------------------------------------------------------- what a document says

  /** An entry holds the integer, or is missing when there is none. */
  predicate SaysInteger(d: Document, k: Key, v: Option<int>) {
    if v.Some? then k in d && d[k] == Integer(v.value) else k !in d
  }

  predicate SaysText(d: Document, k: Key, text: string) {
    k in d && d[k] == Text(text)
  }

  /** The rate of a table: one mode, with its own bound on its own number alone. */
  predicate SaysRate(d: Document, g: GamescopeConfig) {
    && (match g.control
        case Cbr =>
          && SaysText(d, RateControl, "cbr") && g.quantizer.None?
          && g.bitrate.Some? && 1_000 <= g.bitrate.value <= 100_000
        case Cqp =>
          && SaysText(d, RateControl, "cqp") && g.bitrate.None?
          && g.quantizer.Some? && 1 <= g.quantizer.value <= 51)
    && SaysInteger(d, BitrateKbps, g.bitrate) && SaysInteger(d, Quantizer, g.quantizer)
  }

  /** The backend of a table: by default the one that was compiled in; the in-process one
      needs to be compiled in and runs at a constant rate. */
  predicate SaysBackend(b: Build, d: Document, g: GamescopeConfig) {
    match g.backend
    case ExternalGstLaunch =>
      SaysText(d, EncoderBackend, "external-gst-launch") || (EncoderBackend !in d && !b.inProcess)
    case InProcessGstreamer =>
      && b.inProcess && g.control.Cbr?
      && (SaysText(d, EncoderBackend, "in-process-gstreamer") || EncoderBackend !in d)
  }

  predicate SaysGamescope(b: Build, d: Document, g: GamescopeConfig) {
    && SaysRate(d, g) && SaysBackend(b, d, g)
    && g.rest == d - {EncoderBackend, RateControl, BitrateKbps, Quantizer} && b.gamescopeRestValid(g.rest)
  }

  /** Which documents hold a configuration, entry by entry. */
  predicate Says(b: Build, d: Document, c: HostConfig) {
    && SaysText(d, IdentityPath, c.identityPath) && c.identityPath != ""
    && SaysText(d, StatePath, c.statePath) && c.statePath != ""
    && SaysInteger(d, Width, c.width) && SaysInteger(d, Height, c.height)
    && (match (c.width, c.height)
        case (None, None) => true
        case (Some(width), Some(height)) =>
          64 <= width <= 7_680 && 64 <= height <= 4_320 && width % 2 == 0 == height % 2
        case _ => false)
    && (SaysInteger(d, Framerate, Some(c.framerate)) || (Framerate !in d && c.framerate == 60))
    && 1 <= c.framerate <= 240
    && (match c.source
        case TestPattern =>
          && (SaysText(d, SourceKind, "test-pattern") || SourceKind !in d)
          && c.gamescope == None && GamescopePipewire !in d && Audio !in d
        case Gamescope =>
          && SaysText(d, SourceKind, "gamescope-pipewire")
          && GamescopePipewire in d && d[GamescopePipewire].Table?
          && c.gamescope.Some? && SaysGamescope(b, d[GamescopePipewire].entries, c.gamescope.value))
    && c.rest == d - {IdentityPath, StatePath, SourceKind, Width, Height, Framerate, GamescopePipewire}
    && b.restValid(c.rest)
  }

  lemma KeywordsDiffer()
    ensures "cbr" != "cqp" && "test-pattern" != "gamescope-pipewire"
    ensures "external-gst-launch" != "in-process-gstreamer"
  {
    assert "cbr"[1] != "cqp"[1];
    assert "test-pattern"[0] != "gamescope-pipewire"[0];
    assert "external-gst-launch"[0] != "in-process-gstreamer"[0];
  }

  lemma TableLoadsIff(b: Build, d: Document, g: GamescopeConfig)
    ensures DecodeGamescope(b, d) == Some(g) && GamescopeValid(b, g) <==> SaysGamescope(b, d, g)
  {
    KeywordsDiffer();
  }

  /** A document loads exactly as the configuration it says. */
  lemma LoadsIff(b: Build, d: Document, c: HostConfig)
    ensures Parse(b, d) == Some(c) <==> Says(b, d, c)
  {
    hide DecodeGamescope, GamescopeValid, SaysGamescope;
    KeywordsDiffer();
    if GamescopePipewire in d && d[GamescopePipewire].Table? {
      var entries := d[GamescopePipewire].entries;
      if DecodeGamescope(b, entries).Some? { TableLoadsIff(b, entries, DecodeGamescope(b, entries).value); }
      if c.gamescope.Some? { TableLoadsIff(b, entries, c.gamescope.value); }
    }
  }

  /** What the candidate's document holds under the managed keys. */
  lemma ManagedEntriesAre(b: Build, loaded: Loaded, s: Settings)
    requires Candidate(b, loaded, s).Some?
    ensures var d := Candidate(b, loaded, s).value.document;
            && SaysInteger(d, Framerate, Some(s.framerate))
            && SaysInteger(d, Width, if s.resolution.Fixed? then Some(s.resolution.width) else None)
            && SaysInteger(d, Height, if s.resolution.Fixed? then Some(s.resolution.height) else None)
            && (s.rate.Some? ==>
                  && GamescopePipewire in d && d[GamescopePipewire].Table? && !d[GamescopePipewire].inline
                  && var t := d[GamescopePipewire].entries;
                     match s.rate.value
                     case CbrRate(bitrate) =>
                       SaysText(t, RateControl, "cbr") && SaysInteger(t, BitrateKbps, Some(bitrate)) && Quantizer !in t
                     case CqpRate(quantizer) =>
                       SaysText(t, RateControl, "cqp") && SaysInteger(t, Quantizer, Some(quantizer))
                       && BitrateKbps !in t)
  {
    hide Parse;
  }

  // ----------------------------------------------------------------- lens laws

  predicate WellLoaded(b: Build, loaded: Loaded) {
    Parse(b, loaded.document) == Some(loaded.config)
  }

  /** Exactly which settings a configuration accepts: in range, of the kind its
      source has, in a mode its backend can run, with a table the editor can open
      and a text that still fits. */
  predicate Acceptable(b: Build, loaded: Loaded, s: Settings) {
    && 1 <= s.framerate <= 240
    && (match s.resolution
        case Native => true
        case Fixed(width, height) => 64 <= width <= 7_680 && 64 <= height <= 4_320 && width % 2 == 0 == height % 2)
    && (s.rate.Some? <==> loaded.config.source.Gamescope?)
    && (s.rate.Some? ==>
          && GamescopePipewire in loaded.document && loaded.document[GamescopePipewire].Table?
          && !loaded.document[GamescopePipewire].inline
          && loaded.config.gamescope.Some?
          && (match s.rate.value
              case CbrRate(bitrate) => 1_000 <= bitrate <= 100_000
              case CqpRate(quantizer) =>
                1 <= quantizer <= 51 && loaded.config.gamescope.value.backend.ExternalGstLaunch?))
    && (var e := Edited(loaded.document, loaded.config.source, s); e.Some? ==> b.size(e.value) <= MAX_CONFIG_BYTES)
  }

  lemma UpdatedIsValidIff(b: Build, c: HostConfig, s: Settings)
    requires HostValid(b, c) && (s.rate.Some? <==> c.source.Gamescope?)
    ensures HostValid(b, WithSettings(c, s)) <==>
            && 1 <= s.framerate <= 240
            && (match s.resolution
                case Native => true
                case Fixed(width, height) =>
                  64 <= width <= 7_680 && 64 <= height <= 4_320 && width % 2 == 0 == height % 2)
            && (s.rate.Some? ==> match s.rate.value
                                 case CbrRate(bitrate) => 1_000 <= bitrate <= 100_000
                                 case CqpRate(quantizer) =>
                                   1 <= quantizer <= 51 && c.gamescope.value.backend.ExternalGstLaunch?)
  {
  }

  lemma EditedIff(d: Document, source: Source, s: Settings)
    ensures Edited(d, source, s).Some? <==>
            && (s.rate.Some? <==> source.Gamescope?)
            && (s.rate.Some? ==> GamescopePipewire in d && d[GamescopePipewire].Table? && !d[GamescopePipewire].inline)
  {
    hide EditedSize, EditedRates;
    EditedSizeKeepsTable(d, s);
  }

  /** A candidate exists exactly for acceptable settings, and it is the loaded
      configuration with the managed fields replaced and every other field kept. */
  lemma CandidateIff(b: Build, loaded: Loaded, s: Settings)
    requires WellLoaded(b, loaded)
    ensures Candidate(b, loaded, s).Some? <==> Acceptable(b, loaded, s)
    ensures Candidate(b, loaded, s).Some? ==>
              && Candidate(b, loaded, s).value.config == WithSettings(loaded.config, s)
              && WellLoaded(b, Candidate(b, loaded, s).value)
  {
    hide Decode, Edited, HostValid, DimensionsValid;
    var d, c := loaded.document, loaded.config;
    EditedIff(d, c.source, s);
    ValidHasGamescope(b, c);
    if Edited(d, c.source, s).Some? {
      EditCommutesWithDecode(b, d, s);
      UpdatedIsValidIff(b, c, s);
      WithSettingsKeeps(c, s);
    }
  }

  lemma ValidHasGamescope(b: Build, c: HostConfig)
    requires HostValid(b, c)
    ensures c.source.Gamescope? <==> c.gamescope.Some?
  {
  }

  /** Unmanaged fields are out of reach, in the record and in the document. */
  lemma WithSettingsKeeps(c: HostConfig, s: Settings)
    ensures var u := WithSettings(c, s);
            && u.identityPath == c.identityPath && u.statePath == c.statePath && u.source == c.source
            && u.rest == c.rest
            && (u.gamescope.Some? <==> c.gamescope.Some?)
            && (c.gamescope.Some? ==> u.gamescope.value.backend == c.gamescope.value.backend
                                      && u.gamescope.value.rest == c.gamescope.value.rest)
  {
  }

  lemma UnmanagedEntriesKept(b: Build, loaded: Loaded, s: Settings)
    requires Candidate(b, loaded, s).Some?
    ensures var d, e := loaded.document, Candidate(b, loaded, s).value.document;
            && d - {Width, Height, Framerate, GamescopePipewire} == e - {Width, Height, Framerate, GamescopePipewire}
            && (GamescopePipewire in d <==> GamescopePipewire in e)
            && (GamescopePipewire in d ==>
                  || d[GamescopePipewire] == e[GamescopePipewire]
                  || (&& d[GamescopePipewire].Table? && e[GamescopePipewire].Table?
                      && d[GamescopePipewire].entries - {RateControl, BitrateKbps, Quantizer}
                         == e[GamescopePipewire].entries - {RateControl, BitrateKbps, Quantizer}))
  {
    hide Parse;
  }

  /** The projection of a valid configuration never meets a missing value. */
  lemma ValidProjects(b: Build, c: HostConfig)
    requires HostValid(b, c)
    ensures ProjectSettings(c).Some? && WithSettings(c, ProjectSettings(c).value) == c
    ensures ProjectSettings(c).value.rate.Some? <==> c.source.Gamescope?
  {
  }

  /** Put, then get: the candidate projects to exactly the settings asked for. */
  lemma PutGet(b: Build, loaded: Loaded, s: Settings)
    requires WellLoaded(b, loaded) && Candidate(b, loaded, s).Some?
    ensures ProjectSettings(Candidate(b, loaded, s).value.config) == Some(s)
  {
    hide Decode, Edited, DimensionsValid;
    CandidateIff(b, loaded, s);
  }

  /** Get, then put: a configuration's own settings change nothing in it, and are
      refused only for an inline table or a text grown past the bound. */
  lemma GetPut(b: Build, loaded: Loaded)
    requires WellLoaded(b, loaded)
    ensures ProjectSettings(loaded.config).Some?
    ensures var s := ProjectSettings(loaded.config).value;
            var e := Edited(loaded.document, loaded.config.source, s);
            && (Candidate(b, loaded, s).Some? <==> e.Some? && b.size(e.value) <= MAX_CONFIG_BYTES)
            && (Candidate(b, loaded, s).Some? ==> Candidate(b, loaded, s).value.config == loaded.config)
  {
    hide Decode, Edited, HostValid, ProjectSettings, WithSettings;
    var d, c := loaded.document, loaded.config;
    ValidProjects(b, c);
    var s := ProjectSettings(c).value;
    if Edited(d, c.source, s).Some? { EditCommutesWithDecode(b, d, s); }
  }

  lemma RatesTwice(d: Document, r: Rate, q: Rate)
    ensures EditedRates(EditedRates(d, r), q) == EditedRates(d, q)
  {
  }

  lemma SizeTwice(d: Document, s: Settings, t: Settings)
    ensures EditedSize(EditedSize(d, s), t) == EditedSize(d, t)
  {
  }

  lemma SizeThenTable(d: Document, table: Value, last: Value, t: Settings)
    ensures EditedSize(d[GamescopePipewire := table], t)[GamescopePipewire := last] ==
            EditedSize(d, t)[GamescopePipewire := last]
  {
  }

  lemma EditedTwice(d: Document, source: Source, s: Settings, t: Settings)
    requires Edited(d, source, s).Some?
    ensures Edited(Edited(d, source, s).value, source, t) == Edited(d, source, t)
  {
    hide EditedSize, EditedRates;
    var sized, e := EditedSize(d, s), Edited(d, source, s).value;
    SizeTwice(d, s, t);
    EditedSizeKeepsTable(d, s);
    EditedSizeKeepsTable(d, t);
    EditedSizeKeepsTable(e, t);
    if t.rate.Some? && s.rate.Some? {
      var entries := d[GamescopePipewire].entries;
      RatesTwice(entries, s.rate.value, t.rate.value);
      SizeThenTable(sized, e[GamescopePipewire], Table(false, EditedRates(entries, t.rate.value)), t);
    }
  }

  /** Put, then put: the second settings alone decide. */
  lemma PutPut(b: Build, loaded: Loaded, s: Settings, t: Settings)
    requires WellLoaded(b, loaded) && Candidate(b, loaded, s).Some?
    ensures Candidate(b, Candidate(b, loaded, s).value, t) == Candidate(b, loaded, t)
  {
    hide Decode, Edited, HostValid, WithSettings;
    CandidateIff(b, loaded, s);
    WithSettingsKeeps(loaded.config, s);
    EditedTwice(loaded.document, loaded.config.source, s, t);
  }
}
