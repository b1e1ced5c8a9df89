/**
 * The runner's failure taxonomy: every error type a fallible stage returns,
 * the text each one shows the user (`Display`) and the underlying error each
 * one keeps as its cause (`std::error::Error::source`).
 */
module Errors {
  import opened Options
  import opened Text
  import opened Ordering
  import opened Foreign
  import opened Unrecognized

  /** What `source()` hands back: the underlying error, tagged by its type. */
  datatype Cause =
    | Io(io: IoError)
    | Config(config: ConfigError)
    | Guppy(guppy: GuppyError)
    | Json(json: JsonError)
    | QuickJunit(quickJunit: QuickJunitError)
    | Toml(toml: TomlError)
    | TargetSpec(targetSpec: TargetSpecError)
    | TripleParse(tripleParse: TripleParseError)
    | Junit(junit: JunitError)

  /** The cause's own `Display` text. */
  function CauseText(c: Cause): string {
    match c
    case Io(e) => e.text
    case Config(e) => e.text
    case Guppy(e) => e.text
    case Json(e) => e.text
    case QuickJunit(e) => e.text
    case Toml(e) => e.text
    case TargetSpec(e) => e.text
    case TripleParse(e) => e.text
    case Junit(e) => e.Message()
  }

  // ---------------------------------------------------------------------
  // Configuration errors
  // ---------------------------------------------------------------------

  const ConfigParseLead := "failed to parse nextest config at `"

  /** The nextest config file could not be parsed. */
  datatype ConfigParseError = ConfigParseError(configFile: string, err: ConfigError) {

    /** Names the config file; the file can be read back from the text. */
    function Message(): (r: string)
      ensures StartsWith(r, ConfigParseLead)
      ensures ReadConfigParseMessage(r) == Some(configFile)
    {
      var r := ConfigParseLead + configFile + "`";
      MiddleOccurs(ConfigParseLead, configFile, "`");
      r
    }

    /** The config library's error is always kept as the cause. */
    function Source(): (r: Option<Cause>)
      ensures r.Some? && CauseText(r.value) == err.text
      ensures r == Some(Config(err))
    {
      Some(Config(err))
    }
  }

  /** Recovers the file named by a `ConfigParseError` message. */
  function ReadConfigParseMessage(m: string): Option<string> {
    if StartsWith(m, ConfigParseLead) && |m| > |ConfigParseLead| && m[|m| - 1] == '`'
    then Some(m[|ConfigParseLead|..|m| - 1])
    else None
  }

  /** Whatever `ReadConfigParseMessage` accepts is exactly the message for the file it returns. */
  lemma ReadConfigParseMessageExact(m: string, file: string, err: ConfigError)
    requires ReadConfigParseMessage(m) == Some(file)
    ensures ConfigParseError(file, err).Message() == m
  {
    assert m == m[..|ConfigParseLead|] + m[|ConfigParseLead|..|m| - 1] + [m[|m| - 1]];
  }

  const ProfileLead := "profile '"
  const ProfileMid := "' not found (known profiles: "

  /** A profile was requested that the configuration does not define. */
  datatype ProfileNotFound = ProfileNotFound(profile: string, allProfiles: seq<string>) {

    /** Values built by `New` list the known profiles in ascending order. */
    ghost predicate Valid() {
      Sorted(allProfiles)
    }

    /** `ProfileNotFound::new`: keeps the requested name and sorts the known names. */
    static function New(profile: string, allProfiles: seq<string>): (r: ProfileNotFound)
      ensures r.Valid()
      ensures r.profile == profile
      ensures multiset(r.allProfiles) == multiset(allProfiles)
      ensures |r.allProfiles| == |allProfiles|
    {
      var sorted := Sort(allProfiles);
      assert |sorted| == |multiset(sorted)| == |allProfiles|;
      ProfileNotFound(profile, sorted)
    }

    /** Where the joined list of known profiles starts in the message. */
    function KnownProfilesAt(): nat {
      |ProfileLead| + |profile| + |ProfileMid|
    }

    /**
     * Names the requested profile and every known one, in the stored order,
     * with `, ` between neighbours and nothing after the list but `)`.
     */
    function Message(): (r: string)
      ensures StartsWith(r, ProfileLead) && EndsWith(r, ")")
      ensures OccursAt(profile, r, |ProfileLead|)
      ensures OccursAt(ProfileMid, r, |ProfileLead| + |profile|)
      ensures ListedFrom(allProfiles, ", ", r, KnownProfilesAt())
      ensures SeparatedFrom(allProfiles, ", ", r, KnownProfilesAt())
      ensures |r| == KnownProfilesAt() + JoinedLength(allProfiles, ", ") + 1
    {
      var head := ProfileLead + profile + ProfileMid;
      var list := Join(allProfiles, ", ");
      MiddleOccurs(ProfileLead, profile, ProfileMid);
      AfterPrefix(ProfileLead + profile, ProfileMid);
      OccursExtend(profile, head, |ProfileLead|, list + ")");
      OccursExtend(ProfileMid, head, |ProfileLead| + |profile|, list + ")");
      StartsWithExtend(head, ProfileLead, list + ")");
      assert head + list + ")" == head + (list + ")");
      MiddleOccurs(head, list, ")");
      var r := head + list + ")";
      JoinedListFramed(allProfiles, ", ", head, ")", KnownProfilesAt(), r);
      JoinedSeparatedFramed(allProfiles, ", ", head, ")", KnownProfilesAt(), r);
      JoinLength(allProfiles, ", ");
      r
    }

    /** `ProfileNotFound` has no underlying cause. */
    function Source(): (r: Option<Cause>)
      ensures r.None?
    {
      None
    }
  }

  /** The clauses of `ProfileNotFound.Message` leave no freedom: a text meeting them is the message. */
  lemma ProfileNotFoundMessageExact(e: ProfileNotFound, r: string)
    requires StartsWith(r, ProfileLead) && EndsWith(r, ")")
    requires OccursAt(e.profile, r, |ProfileLead|)
    requires OccursAt(ProfileMid, r, |ProfileLead| + |e.profile|)
    requires ListedFrom(e.allProfiles, ", ", r, e.KnownProfilesAt())
    requires SeparatedFrom(e.allProfiles, ", ", r, e.KnownProfilesAt())
    requires |r| == e.KnownProfilesAt() + JoinedLength(e.allProfiles, ", ") + 1
    ensures r == e.Message()
  {
    FramedListExact(ProfileLead, e.profile, ProfileMid, e.allProfiles, ", ", ")", r);
  }

  /** Every name handed to `ProfileNotFound::new` is shown in its message. */
  lemma NewNamesEveryKnownProfile(profile: string, allProfiles: seq<string>, name: string)
    requires name in allProfiles
    ensures Contains(ProfileNotFound.New(profile, allProfiles).Message(), profile)
    ensures Contains(ProfileNotFound.New(profile, allProfiles).Message(), name)
  {
    var e := ProfileNotFound.New(profile, allProfiles);
    var m := e.Message();
    ContainsAt(m, profile, |ProfileLead|);
    assert name in multiset(e.allProfiles);
    var i :| 0 <= i < |e.allProfiles| && e.allProfiles[i] == name;
    ListedContains(e.allProfiles, ", ", m, e.KnownProfilesAt(), i);
  }

  /** A message built by `ProfileNotFound::new` lists the known profiles in ascending order. */
  lemma NewListsProfilesAscending(profile: string, allProfiles: seq<string>, i: nat, j: nat)
    requires i < j < |allProfiles|
    ensures var e := ProfileNotFound.New(profile, allProfiles);
      && Le(e.allProfiles[i], e.allProfiles[j])
      && e.KnownProfilesAt() + JoinOffset(e.allProfiles, ", ", i) + |e.allProfiles[i]|
         < e.KnownProfilesAt() + JoinOffset(e.allProfiles, ", ", j)
  {
    var e := ProfileNotFound.New(profile, allProfiles);
    JoinOffsetIncreasing(e.allProfiles, ", ", i, j);
  }

  /**
   * The order in which the known profiles are handed in does not matter:
   * equal names are indistinguishable, so an unstable sort is as good as a
   * stable one.
   */
  lemma NewIgnoresInputOrder(profile: string, a: seq<string>, b: seq<string>)
    requires multiset(a) == multiset(b)
    ensures ProfileNotFound.New(profile, a) == ProfileNotFound.New(profile, b)
  {
    SortedUnique(ProfileNotFound.New(profile, a).allProfiles, ProfileNotFound.New(profile, b).allProfiles);
  }

  const TestOutputDisplayLead := "unrecognized value for test output display: "

  /**
   * A `TestOutputDisplay` value could not be parsed. `knownValues` stands for
   * `TestOutputDisplay::variants()`, which is not part of this model.
   */
  datatype TestOutputDisplayParseError = TestOutputDisplayParseError(input: string) {

    /** Names the input, then lists exactly the known values, in order. */
    function Message(knownValues: seq<string>): (r: string)
      ensures StartsWith(r, TestOutputDisplayLead)
      ensures OccursAt(input, r, |TestOutputDisplayLead|)
      ensures OccursAt(KnownValuesMid, r, |TestOutputDisplayLead| + |input|)
      ensures EndsWith(r, ")")
      ensures ListedFrom(knownValues, ", ", r, KnownValuesAt(TestOutputDisplayLead, input))
      ensures SeparatedFrom(knownValues, ", ", r, KnownValuesAt(TestOutputDisplayLead, input))
      ensures |r| == KnownValuesAt(TestOutputDisplayLead, input) + JoinedLength(knownValues, ", ") + 1
    {
      UnrecognizedValueNamesInput(TestOutputDisplayLead, input, knownValues);
      UnrecognizedValueListsKnown(TestOutputDisplayLead, input, knownValues);
      UnrecognizedValue(TestOutputDisplayLead, input, knownValues)
    }

    /** There is no underlying cause. */
    function Source(): (r: Option<Cause>)
      ensures r.None?
    {
      None
    }
  }

  const StatusLevelLead := "unrecognized value for status-level: "

  /**
   * A `StatusLevel` value could not be parsed. `knownValues` stands for
   * `StatusLevel::variants()`, which is not part of this model.
   */
  datatype StatusLevelParseError = StatusLevelParseError(input: string) {

    /** Names the input, then lists exactly the known values, in order. */
    function Message(knownValues: seq<string>): (r: string)
      ensures StartsWith(r, StatusLevelLead)
      ensures OccursAt(input, r, |StatusLevelLead|)
      ensures OccursAt(KnownValuesMid, r, |StatusLevelLead| + |input|)
      ensures EndsWith(r, ")")
      ensures ListedFrom(knownValues, ", ", r, KnownValuesAt(StatusLevelLead, input))
      ensures SeparatedFrom(knownValues, ", ", r, KnownValuesAt(StatusLevelLead, input))
      ensures |r| == KnownValuesAt(StatusLevelLead, input) + JoinedLength(knownValues, ", ") + 1
    {
      UnrecognizedValueNamesInput(StatusLevelLead, input, knownValues);
      UnrecognizedValueListsKnown(StatusLevelLead, input, knownValues);
      UnrecognizedValue(StatusLevelLead, input, knownValues)
    }

    /** There is no underlying cause. */
    function Source(): (r: Option<Cause>)
      ensures r.None?
    {
      None
    }
  }

  const RunIgnoredLead := "unrecognized value for run-ignored: "

  /**
   * A `RunIgnored` value could not be parsed. `knownValues` stands for
   * `RunIgnored::variants()`, which is not part of this model.
   */
  datatype RunIgnoredParseError = RunIgnoredParseError(input: string) {

    /** Names the input, then lists exactly the known values, in order. */
    function Message(knownValues: seq<string>): (r: string)
      ensures StartsWith(r, RunIgnoredLead)
      ensures OccursAt(input, r, |RunIgnoredLead|)
      ensures OccursAt(KnownValuesMid, r, |RunIgnoredLead| + |input|)
      ensures EndsWith(r, ")")
      ensures ListedFrom(knownValues, ", ", r, KnownValuesAt(RunIgnoredLead, input))
      ensures SeparatedFrom(knownValues, ", ", r, KnownValuesAt(RunIgnoredLead, input))
      ensures |r| == KnownValuesAt(RunIgnoredLead, input) + JoinedLength(knownValues, ", ") + 1
    {
      UnrecognizedValueNamesInput(RunIgnoredLead, input, knownValues);
      UnrecognizedValueListsKnown(RunIgnoredLead, input, knownValues);
      UnrecognizedValue(RunIgnoredLead, input, knownValues)
    }

    /** There is no underlying cause. */
    function Source(): (r: Option<Cause>)
      ensures r.None?
    {
      None
    }
  }

  const PartitionFormatLead := "partition must be in the format \""

  /** A partition specification could not be parsed. */
  datatype PartitionerBuilderParseError = PartitionerBuilderParseError(expectedFormat: Option<string>, message: string) {

    /**
     * Ends with the parser's own message; without an expected format that
     * message is the whole text, with one the format is named first.
     */
    function Message(): (r: string)
      ensures EndsWith(r, message)
      ensures expectedFormat.None? ==> r == message
      ensures expectedFormat.Some? ==>
        && StartsWith(r, PartitionFormatLead)
        && OccursAt(expectedFormat.value, r, |PartitionFormatLead|)
        && OccursAt("\":\n", r, |PartitionFormatLead| + |expectedFormat.value|)
        && |r| == |PartitionFormatLead| + |expectedFormat.value| + |"\":\n"| + |message|
    {
      match expectedFormat
      case Some(format) =>
        var head := PartitionFormatLead + format + "\":\n";
        MiddleOccurs(PartitionFormatLead, format, "\":\n");
        AfterPrefix(PartitionFormatLead + format, "\":\n");
        OccursExtend(format, head, |PartitionFormatLead|, message);
        OccursExtend("\":\n", head, |PartitionFormatLead| + |format|, message);
        assert (head + message)[..|PartitionFormatLead|] == head[..|PartitionFormatLead|];
        assert (head + message)[|head|..] == message;
        head + message
      case None =>
        assert message[|message| - |message|..] == message;
        message
    }

    /** There is no underlying cause. */
    function Source(): (r: Option<Cause>)
      ensures r.None?
    {
      None
    }
  }

  // ---------------------------------------------------------------------
  // Discovery errors
  // ---------------------------------------------------------------------

  /** Reading the build's JSON messages into test artifacts failed. */
  datatype FromMessagesError =
    | ReadMessages(ioError: IoError)
    | PackageGraph(graphError: GuppyError)
  {

    /** A fixed text per variant; the two texts differ. */
    function Message(): (r: string)
      ensures r == "error reading Cargo JSON messages" <==> ReadMessages?
      ensures r == "error querying package graph" <==> PackageGraph?
    {
      match this
      case ReadMessages(_) => "error reading Cargo JSON messages"
      case PackageGraph(_) => "error querying package graph"
    }

    /** Both variants keep their underlying error as the cause. */
    function Source(): (r: Option<Cause>)
      ensures r.Some?
      ensures ReadMessages? ==> r.value == Io(ioError)
      ensures PackageGraph? ==> r.value == Guppy(graphError)
    {
      match this
      case ReadMessages(e) => Some(Io(e))
      case PackageGraph(e) => Some(Guppy(e))
    }
  }

  const CommandLead := "running '"
  const CommandTail := "' failed"
  const FullOutputMid := "\nfull output:\n"

  /** Listing the tests of one binary failed. */
  datatype ParseTestListError =
    | Command(command: string, ioError: IoError)
    | ParseLine(message: string, fullOutput: string)
  {

    /**
     * A failed command is named; a parse failure shows its message followed
     * by the full captured output.
     */
    function Message(): (r: string)
      ensures Command? ==> Spells3(r, CommandLead, command, CommandTail)
      ensures ParseLine? ==> Spells3(r, message, FullOutputMid, fullOutput)
    {
      match this
      case Command(command, _) =>
        SpellsConcat3(CommandLead, command, CommandTail);
        CommandLead + command + CommandTail
      case ParseLine(message, fullOutput) =>
        SpellsConcat3(message, FullOutputMid, fullOutput);
        message + FullOutputMid + fullOutput
    }

    /** Only a failed command keeps a cause: the I/O error of running it. */
    function Source(): (r: Option<Cause>)
      ensures r.None? <==> ParseLine?
      ensures Command? ==> r == Some(Io(ioError))
    {
      match this
      case Command(_, e) => Some(Io(e))
      case ParseLine(_, _) => None
    }
  }

  // ---------------------------------------------------------------------
  // Reporting errors
  // ---------------------------------------------------------------------

  /** Writing the test list out failed. */
  datatype WriteTestListError =
    | WriteIo(ioError: IoError)
    | WriteJson(jsonError: JsonError)
  {

    /** A fixed text per variant; the two texts differ. */
    function Message(): (r: string)
      ensures r == "error writing to output" <==> WriteIo?
      ensures r == "error serializing to JSON" <==> WriteJson?
    {
      match this
      case WriteIo(_) => "error writing to output"
      case WriteJson(_) => "error serializing to JSON"
    }

    /** Both variants keep their underlying error as the cause. */
    function Source(): (r: Option<Cause>)
      ensures r.Some?
      ensures WriteIo? ==> r.value == Io(ioError)
      ensures WriteJson? ==> r.value == Json(jsonError)
    {
      match this
      case WriteIo(e) => Some(Io(e))
      case WriteJson(e) => Some(Json(e))
    }
  }

  /** What a `WriteEventError` message tells: the variant and, where there is one, the file. */
  datatype WriteEventSummary = ToOutput | OnPath(file: string) | ToJunitFile(file: string)

  const EventIoText := "error writing to output"
  const EventFsLead := "error operating on path "
  const EventJunitLead := "error writing JUnit output to "

  /** Writing a run event, or a report built from the events, failed. */
  datatype WriteEventError =
    | EventIo(ioError: IoError)
    | Fs(file: string, fsError: IoError)
    | JunitWrite(file: string, junitError: JunitError)
  {

    function Summary(): WriteEventSummary {
      match this
      case EventIo(_) => ToOutput
      case Fs(file, _) => OnPath(file)
      case JunitWrite(file, _) => ToJunitFile(file)
    }

    /** The variant, and the file for `Fs` and `Junit`, can be read back from the text. */
    function Message(): (r: string)
      ensures ReadWriteEventMessage(r) == Some(Summary())
      ensures Fs? || JunitWrite? ==> EndsWith(r, file)
    {
      match this
      case EventIo(_) => EventIoText
      case Fs(file, _) =>
        ReadsFsMessage(file);
        EventFsLead + file
      case JunitWrite(file, _) =>
        ReadsJunitMessage(file);
        EventJunitLead + file
    }

    /** Every variant keeps its underlying error as the cause. */
    function Source(): (r: Option<Cause>)
      ensures r.Some?
      ensures EventIo? ==> r.value == Io(ioError)
      ensures Fs? ==> r.value == Io(fsError)
      ensures JunitWrite? ==> r.value == Junit(junitError)
    {
      match this
      case EventIo(e) => Some(Io(e))
      case Fs(_, e) => Some(Io(e))
      case JunitWrite(_, e) => Some(Junit(e))
    }
  }

  /** Recovers the variant and file named by a `WriteEventError` message. */
  function ReadWriteEventMessage(m: string): Option<WriteEventSummary> {
    if m == EventIoText then Some(ToOutput)
    else if StartsWith(m, EventFsLead) then Some(OnPath(m[|EventFsLead|..]))
    else if StartsWith(m, EventJunitLead) then Some(ToJunitFile(m[|EventJunitLead|..]))
    else None
  }

  /** The `Fs` text is read back as the file it names. */
  lemma ReadsFsMessage(file: string)
    ensures ReadWriteEventMessage(EventFsLead + file) == Some(OnPath(file))
    ensures EndsWith(EventFsLead + file, file)
  {
    LeadThenRest(EventFsLead, file);
    assert |EventFsLead + file| != |EventIoText|;
  }

  /** The `Junit` text does not start like the `Fs` text, and is read back as the file it names. */
  lemma ReadsJunitMessage(file: string)
    ensures ReadWriteEventMessage(EventJunitLead + file) == Some(ToJunitFile(file))
    ensures EndsWith(EventJunitLead + file, file)
  {
    LeadThenRest(EventJunitLead, file);
    assert |EventJunitLead + file| != |EventIoText|;
    assert (EventJunitLead + file)[6] != EventFsLead[6];
  }

  /** Whatever `ReadWriteEventMessage` accepts is exactly the message of every error it summarises. */
  lemma ReadWriteEventMessageExact(m: string, e: WriteEventError)
    requires ReadWriteEventMessage(m) == Some(e.Summary())
    ensures e.Message() == m
  {
    match e
    case EventIo(_) =>
    case Fs(file, _) =>
      assert m == m[..|EventFsLead|] + m[|EventFsLead|..];
    case JunitWrite(file, _) =>
      assert m == m[..|EventJunitLead|] + m[|EventJunitLead|..];
  }

  /** Producing JUnit XML failed. */
  datatype JunitError = JunitError(err: QuickJunitError) {

    /** Renders nothing: the detail lives entirely in the cause. */
    function Message(): (r: string)
      ensures r == ""
    {
      ""
    }

    /** The JUnit library's error is always kept as the cause. */
    function Source(): (r: Option<Cause>)
      ensures r.Some? && CauseText(r.value) == err.text
      ensures r == Some(QuickJunit(err))
    {
      Some(QuickJunit(err))
    }
  }

  /** A JUnit write failure leads, two causes down, to the JUnit library's own error. */
  lemma JunitWriteCauseChain(e: WriteEventError)
    requires e.JunitWrite?
    ensures e.Source().Some? && e.Source().value.Junit?
    ensures e.Source().value.junit.Source() == Some(QuickJunit(e.junitError.err))
    ensures CauseText(e.Source().value) == ""
  {
  }

  // ---------------------------------------------------------------------
  // Resolution errors
  // ---------------------------------------------------------------------

  const HostTripleLead := "unable to determine host triple: "
  const EnvVarLead := "environment variable '"
  const EnvVarTail := "' contained non-utf8 data"
  const RunnerLead := "runner '"
  const RunnerMid := "' = '"
  const RunnerTail := "' did not contain a runner binary"
  const ReadDirLead := "unable to read directory: "
  const CanonicalizeLead := "failed to canonicalize path '"
  const PathLead := "path '"
  const PathTail := "' is non-utf8"
  const ReadConfigLead := "failed to read '"
  const ParseConfigLead := "failed to parse config '"
  const ParseTripleLead := "failed to parse triple '"
  const NamedMid := "': "

  /** The target runner could not be determined. */
  datatype TargetRunnerError =
    | UnknownHostPlatform(platformError: TargetSpecError)
    | InvalidEnvironmentVar(variable: string)
    | BinaryNotSpecified(key: string, value: string)
    | UnableToReadDir(dirError: IoError)
    | FailedPathCanonicalization(path: string, canonicalizeError: IoError)
    | NonUtf8Path(shownPath: string)
    | FailedToReadConfig(path: string, readError: IoError)
    | FailedToParseConfig(path: string, tomlError: TomlError)
    | FailedToParseTargetTriple(triple: string, tripleError: TripleParseError)
  {

    /**
     * Names the value at fault (variable, key and value, path or triple) and
     * ends with the text of the cause wherever there is one.
     */
    function Message(): (r: string)
      ensures UnknownHostPlatform? ==> Spells2(r, HostTripleLead, platformError.text)
      ensures InvalidEnvironmentVar? ==> Spells3(r, EnvVarLead, variable, EnvVarTail)
      ensures BinaryNotSpecified? ==> Spells5(r, RunnerLead, key, RunnerMid, value, RunnerTail)
      ensures UnableToReadDir? ==> Spells2(r, ReadDirLead, dirError.text)
      ensures FailedPathCanonicalization? ==>
        Spells4(r, CanonicalizeLead, path, NamedMid, canonicalizeError.text)
      ensures NonUtf8Path? ==> Spells3(r, PathLead, shownPath, PathTail)
      ensures FailedToReadConfig? ==> Spells4(r, ReadConfigLead, path, NamedMid, readError.text)
      ensures FailedToParseConfig? ==> Spells4(r, ParseConfigLead, path, NamedMid, tomlError.text)
      ensures FailedToParseTargetTriple? ==>
        Spells4(r, ParseTripleLead, triple, NamedMid, tripleError.text)
    {
      match this
      case UnknownHostPlatform(error) =>
        SpellsConcat2(HostTripleLead, error.text);
        HostTripleLead + error.text
      case InvalidEnvironmentVar(key) =>
        SpellsConcat3(EnvVarLead, key, EnvVarTail);
        EnvVarLead + key + EnvVarTail
      case BinaryNotSpecified(key, value) =>
        SpellsConcat5(RunnerLead, key, RunnerMid, value, RunnerTail);
        RunnerLead + key + RunnerMid + value + RunnerTail
      case UnableToReadDir(io) =>
        SpellsConcat2(ReadDirLead, io.text);
        ReadDirLead + io.text
      case FailedPathCanonicalization(path, error) =>
        SpellsConcat4(CanonicalizeLead, path, NamedMid, error.text);
        CanonicalizeLead + path + NamedMid + error.text
      case NonUtf8Path(path) =>
        SpellsConcat3(PathLead, path, PathTail);
        PathLead + path + PathTail
      case FailedToReadConfig(path, error) =>
        SpellsConcat4(ReadConfigLead, path, NamedMid, error.text);
        ReadConfigLead + path + NamedMid + error.text
      case FailedToParseConfig(path, error) =>
        SpellsConcat4(ParseConfigLead, path, NamedMid, error.text);
        ParseConfigLead + path + NamedMid + error.text
      case FailedToParseTargetTriple(triple, error) =>
        SpellsConcat4(ParseTripleLead, triple, NamedMid, error.text);
        ParseTripleLead + triple + NamedMid + error.text
    }

    /** Exactly the variants that wrap another error keep it as the cause. */
    function Source(): (r: Option<Cause>)
      ensures r.None? <==> InvalidEnvironmentVar? || BinaryNotSpecified? || NonUtf8Path?
      ensures UnknownHostPlatform? ==> r == Some(TargetSpec(platformError))
      ensures UnableToReadDir? ==> r == Some(Io(dirError))
      ensures FailedPathCanonicalization? ==> r == Some(Io(canonicalizeError))
      ensures FailedToReadConfig? ==> r == Some(Io(readError))
      ensures FailedToParseConfig? ==> r == Some(Toml(tomlError))
      ensures FailedToParseTargetTriple? ==> r == Some(TripleParse(tripleError))
    {
      match this
      case UnknownHostPlatform(error) => Some(TargetSpec(error))
      case UnableToReadDir(io) => Some(Io(io))
      case FailedPathCanonicalization(_, error) => Some(Io(error))
      case FailedToReadConfig(_, error) => Some(Io(error))
      case FailedToParseConfig(_, error) => Some(Toml(error))
      case FailedToParseTargetTriple(_, error) => Some(TripleParse(error))
      case _ => None
    }
  }

  /** Wherever a target-runner error has a cause, its message ends with the cause's text. */
  lemma TargetRunnerMessageEndsWithCause(e: TargetRunnerError)
    ensures e.Source().Some? ==> EndsWith(e.Message(), CauseText(e.Source().value))
  {
    match e
    case UnknownHostPlatform(error) =>
      assert Spells2(e.Message(), HostTripleLead, error.text);
    case UnableToReadDir(io) =>
      assert Spells2(e.Message(), ReadDirLead, io.text);
    case FailedPathCanonicalization(path, error) =>
      assert Spells4(e.Message(), CanonicalizeLead, path, NamedMid, error.text);
    case FailedToReadConfig(path, error) =>
      assert Spells4(e.Message(), ReadConfigLead, path, NamedMid, error.text);
    case FailedToParseConfig(path, error) =>
      assert Spells4(e.Message(), ParseConfigLead, path, NamedMid, error.text);
    case FailedToParseTargetTriple(triple, error) =>
      assert Spells4(e.Message(), ParseTripleLead, triple, NamedMid, error.text);
    case _ =>
  }
}
