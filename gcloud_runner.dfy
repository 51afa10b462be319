/** The runner that launches gcloud: it prefixes the caller's arguments with the path of the
    gcloud binary, appends the runner-wide flags, builds the environment overlay and hands
    the process to a handler.

    What the runner learns from the outside world is a `Host` parameter: the operating
    system's name, the outcome of validating the Cloud SDK, and how the launched process
    ended. Nothing is spawned: `Run` returns the launch request it would hand to the
    process builder. */
module Runner {
  import opened Wrappers
  import opened Flags

  /** Why validating the Cloud SDK installation failed: it is not installed where expected,
      it is too old, or its version file cannot be read. */
  datatype SdkError = SdkNotFound | SdkOutOfDate | SdkVersionFileBad

  /** The outcome of validating the Cloud SDK installation before anything is built. */
  datatype SdkStatus = SdkValid | SdkInvalid(error: SdkError)

  /** How the launched process ended: the handler returned, starting the process failed
      with an I/O error, or the handler failed. */
  datatype ProcessOutcome = Completed | StartFailed | HandlerFailed

  /** The host's answers: its OS name, the SDK validation, the process outcome. */
  datatype Host = Host(osName: string, sdk: SdkStatus, process: ProcessOutcome)

  /** The failures `run` lets escape. */
  datatype RunError = SdkFailure(error: SdkError) | ProcessHandlerFailure | IoFailure

  /** What is handed to the process builder: the command, the working directory (absent:
      inherit the current one) and the environment overlay. */
  datatype Launch = Launch(command: seq<string>, directory: Option<string>,
                           environment: map<string, string>)

  // The names of the runner-wide flags.
  const FORMAT := "format"
  const VERBOSITY := "verbosity"
  const CREDENTIAL_FILE_OVERRIDE := "credential-file-override"
  const FLAGS_FILE := "flags-file"

  // The environment variables the runner may set.
  const USE_GSUTIL := "CLOUDSDK_APP_USE_GSUTIL"
  const METRICS_ENVIRONMENT := "CLOUDSDK_METRICS_ENVIRONMENT"
  const METRICS_ENVIRONMENT_VERSION := "CLOUDSDK_METRICS_ENVIRONMENT_VERSION"
  const SHOW_STRUCTURED_LOGS := "CLOUDSDK_CORE_SHOW_STRUCTURED_LOGS"
  const NUM_FILE_UPLOAD_PROCESSES := "CLOUDSDK_APP_NUM_FILE_UPLOAD_PROCESSES"
  const DISABLE_PROMPTS := "CLOUDSDK_CORE_DISABLE_PROMPTS"

  const EnvironmentKeys: set<string> :=
    {USE_GSUTIL, METRICS_ENVIRONMENT, METRICS_ENVIRONMENT_VERSION, SHOW_STRUCTURED_LOGS,
     NUM_FILE_UPLOAD_PROCESSES, DISABLE_PROMPTS}

  /** Java's `String.contains`: `sub` occurs somewhere in `s`. */
  predicate Contains(s: string, sub: string)
    decreases |s|
  {
    |sub| <= |s| && (s[..|sub|] == sub || Contains(s[1..], sub))
  }

  ghost predicate OccursAt(s: string, sub: string, i: int)
  {
    0 <= i && i + |sub| <= |s| && s[i..i + |sub|] == sub
  }

  /** `Contains` is the substring relation: some position of `s` starts a copy of `sub`. */
  lemma {:induction false} ContainsIff(s: string, sub: string)
    ensures Contains(s, sub) <==> exists i :: OccursAt(s, sub, i)
    decreases |s|
  {
    if Contains(s, sub) {
      if s[..|sub|] == sub {
        assert OccursAt(s, sub, 0);
      } else {
        ContainsIff(s[1..], sub);
        var i :| OccursAt(s[1..], sub, i);
        assert s[1..][i..i + |sub|] == s[i + 1..i + 1 + |sub|];
        assert OccursAt(s, sub, i + 1);
      }
    }
    if exists i :: OccursAt(s, sub, i) {
      var i :| OccursAt(s, sub, i);
      if i == 0 {
        assert s[..|sub|] == s[0..|sub|];
      } else {
        assert s[1..][i - 1..i - 1 + |sub|] == s[i..i + |sub|];
        assert OccursAt(s[1..], sub, i - 1);
        ContainsIff(s[1..], sub);
      }
    }
  }

  /** The flag groups for a list of flags files: one per file, in list order. */
  function FileFlags(files: seq<string>): seq<Flag>
  {
    seq(|files|, i requires 0 <= i < |files| => Flag(FLAGS_FILE, FilePath(files[i])))
  }

  /** The path values of a list of flags files, in list order. */
  function FilePaths(files: seq<string>): seq<ArgValue>
  {
    seq(|files|, i requires 0 <= i < |files| => FilePath(files[i]))
  }

  /** One loop step over the flags files: the next file appends its group's tokens. */
  lemma FileFlagsStep(command: seq<string>, render: FlagRenderer, files: seq<string>, i: nat)
    requires i < |files|
    ensures AppendFlags(command, render, FileFlags(files[..i + 1]))
            == AppendFlags(command, render, FileFlags(files[..i]))
               + render(FLAGS_FILE, Some(FilePath(files[i])))
  {
    assert FileFlags(files[..i + 1]) == FileFlags(files[..i]) + [Flag(FLAGS_FILE, FilePath(files[i]))];
    AppendFlagsSnoc(command, render, FileFlags(files[..i]), Flag(FLAGS_FILE, FilePath(files[i])));
  }

  /** Looking up the flags-file groups gives back every file, in list order; no other name
      occurs among them. */
  lemma {:induction false} FileFlagsValues(files: seq<string>, query: string)
    ensures ValuesOf(FileFlags(files), query) == if query == FLAGS_FILE then FilePaths(files) else []
  {
    if files != [] {
      assert FileFlags(files)[1..] == FileFlags(files[1..]);
      FileFlagsValues(files[1..], query);
      if query == FLAGS_FILE {
        assert FilePaths(files) == [FilePath(files[0])] + FilePaths(files[1..]);
      }
    }
  }

  /** The position of each runner-wide flag in the fixed order; 4 for any other name. */
  function Rank(name: string): nat
  {
    if name == FORMAT then 0
    else if name == VERBOSITY then 1
    else if name == CREDENTIAL_FILE_OVERRIDE then 2
    else if name == FLAGS_FILE then 3
    else 4
  }

  /** `a` may stand before `b`: a lower rank, or both are flags-file groups. */
  predicate Precedes(a: Flag, b: Flag)
  {
    Rank(a.name) < Rank(b.name) || (a.name == FLAGS_FILE && b.name == FLAGS_FILE)
  }

  ghost predicate InFixedOrder(flags: seq<Flag>)
  {
    forall i, j | 0 <= i < j < |flags| :: Precedes(flags[i], flags[j])
  }

  /** Two lists in the fixed order, every group of the first ranked below `r` and every
      group of the second at or above it, concatenate to a list in the fixed order. */
  lemma InFixedOrderAppend(a: seq<Flag>, b: seq<Flag>, r: nat)
    requires InFixedOrder(a) && InFixedOrder(b)
    requires forall x | x in a :: Rank(x.name) < r
    requires forall y | y in b :: r <= Rank(y.name)
    ensures InFixedOrder(a + b)
  {
    var ab := a + b;
    forall i, j | 0 <= i < j < |ab| ensures Precedes(ab[i], ab[j]) {
      if j < |a| {
        assert ab[i] == a[i] && ab[j] == a[j];
      } else if i >= |a| {
        assert ab[i] == b[i - |a|] && ab[j] == b[j - |a|];
      } else {
        assert ab[i] in a && ab[j] in b;
      }
    }
  }

  /** An optional group is in the fixed order, ranked as its name. */
  lemma OptionalFlagRanked(name: string, v: Option<ArgValue>)
    ensures InFixedOrder(OptionalFlag(name, v))
    ensures forall f | f in OptionalFlag(name, v) :: Rank(f.name) == Rank(name)
  {
  }

  /** The flags-file groups are in the fixed order and ranked last. */
  lemma FileFlagsRanked(files: seq<string>)
    ensures InFixedOrder(FileFlags(files))
    ensures forall f | f in FileFlags(files) :: Rank(f.name) == 3
  {
  }

  /** The failure `run` lets escape on a host: the SDK validation's, else the process's. */
  function RunOutcome(host: Host): Outcome<RunError>
  {
    if host.sdk.SdkInvalid? then Fail(SdkFailure(host.sdk.error))
    else match host.process
      case Completed => Pass
      case StartFailed => Fail(IoFailure)
      case HandlerFailed => Fail(ProcessHandlerFailure)
  }

  /** The overlay binds `key` exactly as `expected` says: to its value, or not at all. */
  predicate Binds(environment: map<string, string>, key: string, expected: Option<string>)
  {
    match expected
    case None => key !in environment
    case Some(v) => key in environment && environment[key] == v
  }

  class GcloudRunner {
    /** The absolute path of the gcloud binary, as resolved by the Cloud SDK. */
    const gcloudPath: string
    const metricsEnvironment: Option<string>
    const metricsEnvironmentVersion: Option<string>
    const credentialFile: Option<string>
    const flagsFiles: Option<seq<string>>
    const outputFormat: Option<string>
    const showStructuredLogs: Option<string>
    const verbosity: Option<string>

    constructor (gcloudPath: string, metricsEnvironment: Option<string>,
                 metricsEnvironmentVersion: Option<string>, credentialFile: Option<string>,
                 flagsFiles: Option<seq<string>>, outputFormat: Option<string>,
                 showStructuredLogs: Option<string>, verbosity: Option<string>)
      ensures this.gcloudPath == gcloudPath
      ensures this.metricsEnvironment == metricsEnvironment
      ensures this.metricsEnvironmentVersion == metricsEnvironmentVersion
      ensures this.credentialFile == credentialFile
      ensures this.flagsFiles == flagsFiles
      ensures this.outputFormat == outputFormat
      ensures this.showStructuredLogs == showStructuredLogs
      ensures this.verbosity == verbosity
    {
      this.gcloudPath := gcloudPath;
      this.metricsEnvironment := metricsEnvironment;
      this.metricsEnvironmentVersion := metricsEnvironmentVersion;
      this.credentialFile := credentialFile;
      this.flagsFiles := flagsFiles;
      this.outputFormat := outputFormat;
      this.showStructuredLogs := showStructuredLogs;
      this.verbosity := verbosity;
    }

    /** The flags files, an absent list standing for none. */
    function Files(): seq<string>
    {
      if flagsFiles.Some? then flagsFiles.value else []
    }

    /** The groups of the single-valued runner-wide flags, in order. */
    function OptionalFlags(): seq<Flag>
    {
      OptionalFlag(FORMAT, TextArg(outputFormat))
      + OptionalFlag(VERBOSITY, TextArg(verbosity))
      + OptionalFlag(CREDENTIAL_FILE_OVERRIDE, PathArg(credentialFile))
    }

    /** All runner-wide flag groups appended after the caller's arguments. */
    function GlobalFlags(): seq<Flag>
    {
      OptionalFlags() + FileFlags(Files())
    }

    /** The command line launched for `arguments`. */
    function Command(arguments: seq<string>, render: FlagRenderer): seq<string>
    {
      AppendFlags([gcloudPath] + arguments, render, GlobalFlags())
    }

    /** The environment overlay: each key present exactly when its setting is, with the
        value it prescribes; no other key. */
    ghost predicate IsCommandEnvironment(environment: map<string, string>, osName: string)
    {
      && environment.Keys <= EnvironmentKeys
      && Binds(environment, USE_GSUTIL, if credentialFile.Some? then Some("0") else None)
      && Binds(environment, METRICS_ENVIRONMENT, metricsEnvironment)
      && Binds(environment, METRICS_ENVIRONMENT_VERSION, metricsEnvironmentVersion)
      && Binds(environment, SHOW_STRUCTURED_LOGS, showStructuredLogs)
      && Binds(environment, NUM_FILE_UPLOAD_PROCESSES,
               if Contains(osName, "Windows") then Some("1") else None)
      && Binds(environment, DISABLE_PROMPTS, Some("1"))
    }

    /** The request `run` hands to the process builder for `arguments`. */
    ghost predicate Launched(request: Launch, arguments: seq<string>, directory: Option<string>,
                             osName: string, render: FlagRenderer)
    {
      && request.command == Command(arguments, render)
      && request.directory == directory
      && IsCommandEnvironment(request.environment, osName)
    }

    /** Runs gcloud with `arguments`. SDK validation comes first; when it fails nothing is
        built or launched. */
    method Run(arguments: seq<string>, workingDirectory: Option<string>, host: Host,
               render: FlagRenderer)
      returns (request: Option<Launch>, outcome: Outcome<RunError>)
      ensures request.Some? <==> host.sdk == SdkValid
      ensures request.Some? ==>
                Launched(request.value, arguments, workingDirectory, host.osName, render)
      ensures outcome == RunOutcome(host)
    {
      if host.sdk.SdkInvalid? {
        return None, Fail(SdkFailure(host.sdk.error));
      }
      var command := [gcloudPath];
      command := command + arguments;
      ghost var start := command;
      command := AppendOptionalFlags(command, render);
      command := AppendFileFlags(command, render);
      AppendFlagsConcat(start, render, OptionalFlags(), FileFlags(Files()));
      var environment := CommandEnvironment(host.osName);
      request := Some(Launch(command, workingDirectory, environment));
      match host.process
      case Completed => outcome := Pass;
      case StartFailed => outcome := Fail(IoFailure);
      case HandlerFailed => outcome := Fail(ProcessHandlerFailure);
    }

    /** Appends format, verbosity and credential-file-override, each only when set. */
    method AppendOptionalFlags(start: seq<string>, render: FlagRenderer) returns (command: seq<string>)
      ensures command == AppendFlags(start, render, OptionalFlags())
    {
      command := start;
      if outputFormat.Some? {
        command := command + render(FORMAT, Some(Text(outputFormat.value)));
      }
      AppendOptionalFlag(start, render, FORMAT, TextArg(outputFormat));
      ghost var afterFormat := command;
      if verbosity.Some? {
        command := command + render(VERBOSITY, Some(Text(verbosity.value)));
      }
      AppendOptionalFlag(afterFormat, render, VERBOSITY, TextArg(verbosity));
      ghost var afterVerbosity := command;
      if credentialFile.Some? {
        command := command + render(CREDENTIAL_FILE_OVERRIDE, Some(FilePath(credentialFile.value)));
      }
      AppendOptionalFlag(afterVerbosity, render, CREDENTIAL_FILE_OVERRIDE, PathArg(credentialFile));
      OptionalFlagsAppended(start, render);
    }

    /** Appends one flags-file group per configured file, in list order. */
    method AppendFileFlags(start: seq<string>, render: FlagRenderer) returns (command: seq<string>)
      ensures command == AppendFlags(start, render, FileFlags(Files()))
    {
      command := start;
      var files := Files();
      for i := 0 to |files|
        invariant command == AppendFlags(start, render, FileFlags(files[..i]))
      {
        command := command + render(FLAGS_FILE, Some(FilePath(files[i])));
        FileFlagsStep(start, render, files, i);
      }
      assert files[..|files|] == files;
    }

    /** Builds the environment overlay of a gcloud process on a host called `osName`. */
    method CommandEnvironment(osName: string) returns (environment: map<string, string>)
      ensures IsCommandEnvironment(environment, osName)
      ensures DISABLE_PROMPTS in environment && environment[DISABLE_PROMPTS] == "1"
    {
      environment := map[];
      if credentialFile.Some? {
        environment := environment[USE_GSUTIL := "0"];
      }
      if metricsEnvironment.Some? {
        environment := environment[METRICS_ENVIRONMENT := metricsEnvironment.value];
      }
      if metricsEnvironmentVersion.Some? {
        environment := environment[METRICS_ENVIRONMENT_VERSION := metricsEnvironmentVersion.value];
      }
      if showStructuredLogs.Some? {
        environment := environment[SHOW_STRUCTURED_LOGS := showStructuredLogs.value];
      }
      if Contains(osName, "Windows") {
        environment := environment[NUM_FILE_UPLOAD_PROCESSES := "1"];
      }
      environment := environment[DISABLE_PROMPTS := "1"];
    }

    /** Appending the single-valued groups is appending each in turn. */
    lemma OptionalFlagsAppended(command: seq<string>, render: FlagRenderer)
      ensures AppendFlags(command, render, OptionalFlags()) ==
                AppendFlags(AppendFlags(AppendFlags(command, render,
                  OptionalFlag(FORMAT, TextArg(outputFormat))), render,
                  OptionalFlag(VERBOSITY, TextArg(verbosity))), render,
                  OptionalFlag(CREDENTIAL_FILE_OVERRIDE, PathArg(credentialFile)))
    {
      var a := OptionalFlag(FORMAT, TextArg(outputFormat));
      var b := OptionalFlag(VERBOSITY, TextArg(verbosity));
      var c := OptionalFlag(CREDENTIAL_FILE_OVERRIDE, PathArg(credentialFile));
      AppendFlagsConcat(command, render, a + b, c);
      AppendFlagsConcat(command, render, a, b);
    }

    /** The launched command is the gcloud path, then the caller's arguments unchanged and
        in order, then the runner-wide flag tokens and nothing else. */
    lemma CommandStartsWithArguments(arguments: seq<string>, render: FlagRenderer)
      ensures |Command(arguments, render)| > |arguments|
      ensures Command(arguments, render)[0] == gcloudPath
      ensures Command(arguments, render)[1..|arguments| + 1] == arguments
      ensures Command(arguments, render)[|arguments| + 1..] == Tokens(render, GlobalFlags())
    {
      AppendFlagsSplit([gcloudPath] + arguments, render, GlobalFlags());
    }

    /** The runner-wide groups stand in the fixed order format, verbosity,
        credential-file-override, flags-file, and carry no other flag. */
    lemma GlobalFlagsInFixedOrder()
      ensures InFixedOrder(GlobalFlags())
      ensures forall f | f in GlobalFlags() :: Rank(f.name) <= 3
    {
      var a := OptionalFlag(FORMAT, TextArg(outputFormat));
      var b := OptionalFlag(VERBOSITY, TextArg(verbosity));
      var c := OptionalFlag(CREDENTIAL_FILE_OVERRIDE, PathArg(credentialFile));
      var d := FileFlags(Files());
      OptionalFlagRanked(FORMAT, TextArg(outputFormat));
      OptionalFlagRanked(VERBOSITY, TextArg(verbosity));
      OptionalFlagRanked(CREDENTIAL_FILE_OVERRIDE, PathArg(credentialFile));
      FileFlagsRanked(Files());
      InFixedOrderAppend(a, b, 1);
      InFixedOrderAppend(a + b, c, 2);
      InFixedOrderAppend(a + b + c, d, 3);
    }

    /** Looking a name up among the runner-wide groups, part by part. */
    lemma GlobalFlagsLookup(query: string)
      ensures ValuesOf(GlobalFlags(), query) ==
                (if outputFormat.Some? && query == FORMAT then [Text(outputFormat.value)] else [])
                + (if verbosity.Some? && query == VERBOSITY then [Text(verbosity.value)] else [])
                + (if credentialFile.Some? && query == CREDENTIAL_FILE_OVERRIDE
                   then [FilePath(credentialFile.value)] else [])
                + (if query == FLAGS_FILE then FilePaths(Files()) else [])
    {
      var a := OptionalFlag(FORMAT, TextArg(outputFormat));
      var b := OptionalFlag(VERBOSITY, TextArg(verbosity));
      var c := OptionalFlag(CREDENTIAL_FILE_OVERRIDE, PathArg(credentialFile));
      var d := FileFlags(Files());
      ValuesOfAppend(a + b + c, d, query);
      ValuesOfAppend(a + b, c, query);
      ValuesOfAppend(a, b, query);
      OptionalFlagValues(FORMAT, TextArg(outputFormat), query);
      OptionalFlagValues(VERBOSITY, TextArg(verbosity), query);
      OptionalFlagValues(CREDENTIAL_FILE_OVERRIDE, PathArg(credentialFile), query);
      FileFlagsValues(Files(), query);
    }

    /** Each runner-wide flag carries exactly its setting: format, verbosity and
        credential-file-override once when set and never otherwise, and one flags-file
        group per configured file, in list order. */
    lemma GlobalFlagValues()
      ensures ValuesOf(GlobalFlags(), FORMAT) ==
                if outputFormat.Some? then [Text(outputFormat.value)] else []
      ensures ValuesOf(GlobalFlags(), VERBOSITY) ==
                if verbosity.Some? then [Text(verbosity.value)] else []
      ensures ValuesOf(GlobalFlags(), CREDENTIAL_FILE_OVERRIDE) ==
                if credentialFile.Some? then [FilePath(credentialFile.value)] else []
      ensures ValuesOf(GlobalFlags(), FLAGS_FILE) ==
                if flagsFiles.Some? then FilePaths(flagsFiles.value) else []
    {
      GlobalFlagsLookup(FORMAT);
      GlobalFlagsLookup(VERBOSITY);
      GlobalFlagsLookup(CREDENTIAL_FILE_OVERRIDE);
      GlobalFlagsLookup(FLAGS_FILE);
      assert FilePaths([]) == [];
    }

    /** With two flags files and no other runner-wide flag, the command ends with one
        flags-file group per file, in list order. */
    lemma TwoFlagsFilesExample(arguments: seq<string>, render: FlagRenderer)
      requires outputFormat.None? && verbosity.None? && credentialFile.None?
      requires flagsFiles == Some(["/a.yaml", "/b.yaml"])
      ensures Command(arguments, render) ==
                [gcloudPath] + arguments
                + render(FLAGS_FILE, Some(FilePath("/a.yaml")))
                + render(FLAGS_FILE, Some(FilePath("/b.yaml")))
    {
      assert GlobalFlags() == [Flag(FLAGS_FILE, FilePath("/a.yaml"))] + [Flag(FLAGS_FILE, FilePath("/b.yaml"))];
      AppendFlagsSnoc([gcloudPath] + arguments, render, [Flag(FLAGS_FILE, FilePath("/a.yaml"))],
                      Flag(FLAGS_FILE, FilePath("/b.yaml")));
      AppendFlagsSnoc([gcloudPath] + arguments, render, [], Flag(FLAGS_FILE, FilePath("/a.yaml")));
    }

    /** The environment overlay is fully determined by the runner's settings and the OS name. */
    lemma EnvironmentDetermined(e1: map<string, string>, e2: map<string, string>, osName: string)
      requires IsCommandEnvironment(e1, osName) && IsCommandEnvironment(e2, osName)
      ensures e1 == e2
    {
      forall key | key in EnvironmentKeys
        ensures (key in e1 <==> key in e2) && (key in e1 ==> e1[key] == e2[key])
      {
      }
      assert e1.Keys == e2.Keys;
    }
  }
}
