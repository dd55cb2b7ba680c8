/** The command-line options of the `hurl` binary, their validation, and
    their mapping to runner options (`cli/options/mod.rs`). */
module CliOptions {
  import opened Wrappers
  import opened Primitives
  import Runtime
  import opened Collaborators
  import RC = RunnerConfig

  datatype ErrorFormat = Short | Long

  datatype HttpVersion = V10 | V11 | V2 | V3

  datatype IpResolve = IpV4 | IpV6

  datatype OutputType = ResponseBody | Json | NoOutput

  /** Everything the command line can set. */
  datatype Options = Options(
    awsSigv4: Option<string>,
    cacertFile: Option<string>,
    clientCertFile: Option<string>,
    clientKeyFile: Option<string>,
    color: bool,
    compressed: bool,
    connectTimeout: RC.Duration,
    connectsTo: seq<string>,
    continueOnError: bool,
    cookieInputFile: Option<string>,
    cookieOutputFile: Option<string>,
    delay: RC.Duration,
    errorFormat: ErrorFormat,
    fileRoot: Option<string>,
    followLocation: bool,
    htmlDir: Option<Path>,
    httpVersion: Option<HttpVersion>,
    ignoreAsserts: bool,
    includeHeaders: bool,
    inputFiles: seq<string>,
    insecure: bool,
    interactive: bool,
    ipResolve: Option<IpResolve>,
    junitFile: Option<string>,
    maxRedirect: Option<nat>,
    noProxy: Option<string>,
    output: Option<string>,
    outputType: OutputType,
    pathAsIs: bool,
    progressBar: bool,
    proxy: Option<string>,
    resolves: seq<string>,
    retry: RC.Retry,
    retryInterval: RC.Duration,
    sslNoRevoke: bool,
    tapFile: Option<string>,
    test: bool,
    timeout: RC.Duration,
    toEntry: Option<nat>,
    user: Option<string>,
    userAgent: Option<string>,
    variables: Runtime.Variables,
    verbose: bool,
    veryVerbose: bool)

  /** Why option parsing stopped: information to print (help or version), no
      input to run (the help text), or a real error. */
  datatype OptionsError = Info(message: string) | NoInput(message: string) | Error(message: string)

  /** The kinds of error the argument parser (clap 4) reports. */
  datatype ClapErrorKind =
    | InvalidValue | UnknownArgument | InvalidSubcommand | NoEquals | ValueValidation
    | TooManyValues | TooFewValues | WrongNumberOfValues | ArgumentConflict
    | MissingRequiredArgument | MissingSubcommand | InvalidUtf8 | DisplayHelp
    | DisplayHelpOnMissingArgumentOrSubcommand | DisplayVersion | Io | Format

  /** An argument-parser error: its kind and its rendered text. */
  datatype ClapError = ClapError(kind: ClapErrorKind, rendered: string)

  /** Converts an argument-parser error: an explicit help or version request
      is information, anything else an error; the rendered text is kept. */
  function OptionsErrorFromClap(error: ClapError): (r: OptionsError)
    ensures r.Info? <==> error.kind == DisplayVersion || error.kind == DisplayHelp
    ensures r.Error? <==> !(error.kind == DisplayVersion || error.kind == DisplayHelp)
    ensures r.message == error.rendered
  {
    match error.kind
    case DisplayVersion => Info(error.rendered)
    case DisplayHelp => Info(error.rendered)
    case _ => Error(error.rendered)
  }

  /** The conversion's image is exactly the `Info` and `Error` values: every
      such value, with any message, comes from some argument-parser error,
      and none is ever `NoInput`. */
  lemma OptionsErrorFromClapImage(e: OptionsError)
    ensures !e.NoInput? <==> exists error: ClapError :: OptionsErrorFromClap(error) == e
  {
    if e.Info? {
      assert OptionsErrorFromClap(ClapError(DisplayHelp, e.message)) == e;
    } else if e.Error? {
      assert OptionsErrorFromClap(ClapError(InvalidValue, e.message)) == e;
    }
  }

  /** Each CLI HTTP version maps to its namesake, never to the default. */
  function ToRequestedHttpVersion(v: HttpVersion): (r: RC.RequestedHttpVersion)
    ensures r != RC.RequestedHttpVersion.Default
    ensures v == V10 <==> r == RC.Http10
    ensures v == V11 <==> r == RC.Http11
    ensures v == V2 <==> r == RC.Http2
    ensures v == V3 <==> r == RC.Http3
  {
    match v
    case V10 => RC.Http10
    case V11 => RC.Http11
    case V2 => RC.Http2
    case V3 => RC.Http3
  }

  /** The CLI HTTP version a requested version comes from, if any. */
  function HttpVersionOf(r: RC.RequestedHttpVersion): Option<HttpVersion> {
    match r
    case Default => None
    case Http10 => Some(V10)
    case Http11 => Some(V11)
    case Http2 => Some(V2)
    case Http3 => Some(V3)
  }

  /** The conversion is a bijection onto the non-default versions. */
  lemma HttpVersionRoundTrip(v: HttpVersion, r: RC.RequestedHttpVersion)
    ensures HttpVersionOf(ToRequestedHttpVersion(v)) == Some(v)
    ensures r != RC.RequestedHttpVersion.Default ==> ToRequestedHttpVersion(HttpVersionOf(r).value) == r
  {
  }

  /** Each CLI IP family maps to its namesake, never to the default. */
  function ToHttpIpResolve(v: IpResolve): (r: RC.IpResolve)
    ensures r != RC.IpResolve.Default
    ensures v == IpV4 <==> r == RC.IpResolve.IpV4
    ensures v == IpV6 <==> r == RC.IpResolve.IpV6
  {
    match v
    case IpV4 => RC.IpResolve.IpV4
    case IpV6 => RC.IpResolve.IpV6
  }

  /** The CLI IP family a resolver setting comes from, if any. */
  function IpResolveOf(r: RC.IpResolve): Option<IpResolve> {
    match r
    case Default => None
    case IpV4 => Some(IpV4)
    case IpV6 => Some(IpV6)
  }

  /** The conversion is a bijection onto the non-default settings. */
  lemma IpResolveRoundTrip(v: IpResolve, r: RC.IpResolve)
    ensures IpResolveOf(ToHttpIpResolve(v)) == Some(v)
    ensures r != RC.IpResolve.Default ==> ToHttpIpResolve(IpResolveOf(r).value) == r
  {
  }

  /** Each CLI error format maps to its namesake. */
  function ToLoggerErrorFormat(f: ErrorFormat): (r: RC.LoggerErrorFormat)
    ensures f == Short <==> r == RC.Short
    ensures f == Long <==> r == RC.Long
  {
    match f
    case Short => RC.Short
    case Long => RC.Long
  }

  /** The CLI error format a logger format comes from. */
  function ErrorFormatOf(r: RC.LoggerErrorFormat): ErrorFormat {
    match r
    case Short => Short
    case Long => Long
  }

  /** The conversion is a bijection. */
  lemma ErrorFormatRoundTrip(f: ErrorFormat, r: RC.LoggerErrorFormat)
    ensures ErrorFormatOf(ToLoggerErrorFormat(f)) == f
    ensures ToLoggerErrorFormat(ErrorFormatOf(r)) == r
  {
  }

  /** The message rejecting a cookie output file for several inputs. */
  const UniqueSessionMessage := "Only save cookies for a unique session"

  /** Options that can be run: at least one input, and a single one when
      cookies are to be saved. */
  predicate Validated(opts: Options) {
    |opts.inputFiles| > 0 && (opts.cookieOutputFile.Some? ==> |opts.inputFiles| == 1)
  }

  /** The checks made once the arguments are parsed; `help` is the rendered
      help text shown when there is nothing to run. */
  function Validate(opts: Options, help: string): (r: Result<Options, OptionsError>)
    ensures r.Ok? <==> Validated(opts)
    ensures r.Ok? ==> r.value == opts
    ensures |opts.inputFiles| == 0 ==> r == Err(NoInput(help))
    ensures |opts.inputFiles| > 0 && !Validated(opts) ==> r == Err(Error(UniqueSessionMessage))
  {
    if |opts.inputFiles| == 0 then
      Err(NoInput(help))
    else if opts.cookieOutputFile.Some? && |opts.inputFiles| > 1 then
      Err(Error(UniqueSessionMessage))
    else
      Ok(opts)
  }

  /** Validation changes nothing about options it accepts, so it is idempotent. */
  lemma ValidateIdempotent(opts: Options, help: string)
    requires Validate(opts, help).Ok?
    ensures Validate(Validate(opts, help).value, help) == Validate(opts, help)
  {
  }

  /** The argument parser's result: each matched argument's values. Only
      `parseMatches` reads them. */
  datatype ArgMatches = ArgMatches(values: map<string, seq<string>>)

  /** Parses the command line: `matched` is the argument parser's outcome,
      `parseMatches` reads the options out of a successful match, and `help`
      is the rendered help text. */
  function Parse(matched: Result<ArgMatches, ClapError>, parseMatches: ArgMatches -> Result<Options, OptionsError>, help: string): (r: Result<Options, OptionsError>)
    ensures matched.Err? ==> r == Err(OptionsErrorFromClap(matched.error))
    ensures matched.Ok? && parseMatches(matched.value).Err? ==> r == Err(parseMatches(matched.value).error)
    ensures matched.Ok? && parseMatches(matched.value).Ok? ==> r == Validate(parseMatches(matched.value).value, help)
    ensures r.Ok? ==> Validated(r.value)
  {
    var argMatches :- matched.MapErr(OptionsErrorFromClap);
    var opts :- parseMatches(argMatches);
    Validate(opts, help)
  }

  /** The sandbox root for running `filename`: the explicit root when one is
      given; otherwise the current directory for standard input (`-`), and
      the directory holding the file for anything else. `parent` is
      `Path::parent`; the Rust code unwraps it, so a file name without a
      parent is a caller error. */
  function FileRoot(explicit: Option<string>, filename: string, currentDir: Path, parent: Path -> Option<Path>): (r: Path)
    requires explicit.None? && filename != "-" ==> parent(Path(filename)).Some?
    ensures explicit.Some? ==> r == Path(explicit.value)
    ensures explicit.None? && filename == "-" ==> r == currentDir
    ensures explicit.None? && filename != "-" ==> r == parent(Path(filename)).value
  {
    match explicit
    case Some(root) => Path(root)
    case None =>
      if filename == "-" then currentDir else parent(Path(filename)).value
  }

  /** The HTTP version the runner requests: the one asked for on the command
      line, or the transport's default. */
  function RequestedHttpVersion(v: Option<HttpVersion>): (r: RC.RequestedHttpVersion)
    ensures r == RC.RequestedHttpVersion.Default <==> v.None?
    ensures v.Some? ==> r == ToRequestedHttpVersion(v.value)
  {
    match v
    case Some(version) => ToRequestedHttpVersion(version)
    case None => RC.RequestedHttpVersion.Default
  }

  /** The IP family the runner resolves to: the one asked for on the command
      line, or the resolver's default. */
  function HttpIpResolve(v: Option<IpResolve>): (r: RC.IpResolve)
    ensures r == RC.IpResolve.Default <==> v.None?
    ensures v.Some? ==> r == ToHttpIpResolve(v.value)
  {
    match v
    case Some(ip) => ToHttpIpResolve(ip)
    case None => RC.IpResolve.Default
  }

  /** The runner options for running `filename` from `currentDir`. */
  function ToRunnerOptions(opts: Options, filename: string, currentDir: Path, parent: Path -> Option<Path>): (r: RC.RunnerOptions)
    requires opts.fileRoot.None? && filename != "-" ==> parent(Path(filename)).Some?
    ensures r.contextDir == ContextDir(currentDir, FileRoot(opts.fileRoot, filename, currentDir, parent))
    ensures r.output.None?
    ensures r.preEntry.Some? <==> opts.interactive
    ensures r.postEntry.Some? <==> opts.interactive
    ensures r.httpVersion == RequestedHttpVersion(opts.httpVersion)
    ensures r.ipResolve == HttpIpResolve(opts.ipResolve)
    ensures && r.retry == opts.retry && r.retryInterval == opts.retryInterval
            && r.delay == opts.delay && r.timeout == opts.timeout && r.toEntry == opts.toEntry
    ensures && r.awsSigv4 == opts.awsSigv4 && r.cacertFile == opts.cacertFile
            && r.clientCertFile == opts.clientCertFile && r.clientKeyFile == opts.clientKeyFile
            && r.compressed == opts.compressed && r.connectTimeout == opts.connectTimeout
            && r.connectsTo == opts.connectsTo && r.continueOnError == opts.continueOnError
            && r.cookieInputFile == opts.cookieInputFile && r.followLocation == opts.followLocation
            && r.ignoreAsserts == opts.ignoreAsserts && r.insecure == opts.insecure
            && r.maxRedirect == opts.maxRedirect && r.noProxy == opts.noProxy
            && r.pathAsIs == opts.pathAsIs && r.proxy == opts.proxy && r.resolves == opts.resolves
            && r.sslNoRevoke == opts.sslNoRevoke && r.user == opts.user && r.userAgent == opts.userAgent
  {
    var contextDir := ContextDir(currentDir, FileRoot(opts.fileRoot, filename, currentDir, parent));
    // The global `--output` is meant for the last entry only, so per-entry
    // output starts unset.
    var output := None;
    var postEntry := if opts.interactive then Some(RC.InteractivePostEntry) else None;
    var preEntry := if opts.interactive then Some(RC.InteractivePreEntry) else None;
    RC.RunnerOptions(
      awsSigv4 := opts.awsSigv4,
      cacertFile := opts.cacertFile,
      clientCertFile := opts.clientCertFile,
      clientKeyFile := opts.clientKeyFile,
      delay := opts.delay,
      compressed := opts.compressed,
      connectTimeout := opts.connectTimeout,
      connectsTo := opts.connectsTo,
      continueOnError := opts.continueOnError,
      contextDir := contextDir,
      cookieInputFile := opts.cookieInputFile,
      followLocation := opts.followLocation,
      httpVersion := RequestedHttpVersion(opts.httpVersion),
      ignoreAsserts := opts.ignoreAsserts,
      insecure := opts.insecure,
      ipResolve := HttpIpResolve(opts.ipResolve),
      maxRedirect := opts.maxRedirect,
      noProxy := opts.noProxy,
      output := output,
      pathAsIs := opts.pathAsIs,
      postEntry := postEntry,
      preEntry := preEntry,
      proxy := opts.proxy,
      resolves := opts.resolves,
      retry := opts.retry,
      retryInterval := opts.retryInterval,
      sslNoRevoke := opts.sslNoRevoke,
      timeout := opts.timeout,
      toEntry := opts.toEntry,
      user := opts.user,
      userAgent := opts.userAgent)
  }

  /** The global `--output` file never reaches the runner options. */
  lemma OutputNotForwarded(opts: Options, output: Option<string>, filename: string, currentDir: Path, parent: Path -> Option<Path>)
    requires opts.fileRoot.None? && filename != "-" ==> parent(Path(filename)).Some?
    ensures ToRunnerOptions(opts.(output := output), filename, currentDir, parent)
            == ToRunnerOptions(opts, filename, currentDir, parent)
  {
  }

  /** With an explicit file root, the input file's name has no influence on
      the runner options. */
  lemma ExplicitRootIgnoresFilename(opts: Options, filename1: string, filename2: string, currentDir: Path, parent: Path -> Option<Path>)
    requires opts.fileRoot.Some?
    ensures ToRunnerOptions(opts, filename1, currentDir, parent) == ToRunnerOptions(opts, filename2, currentDir, parent)
  {
  }

  /** Options the runner options never read do not change them: those that
      only concern reporting and logging (colour, error format, reports,
      verbosity, progress bar, test mode, output type, variables, header
      inclusion), the global `--output`, the cookie output file and the list
      of input files. */
  lemma ReportingOptionsNotForwarded(opts: Options, other: Options, filename: string, currentDir: Path, parent: Path -> Option<Path>)
    requires opts.fileRoot.None? && filename != "-" ==> parent(Path(filename)).Some?
    requires other == opts.(color := other.color, errorFormat := other.errorFormat, htmlDir := other.htmlDir,
                            includeHeaders := other.includeHeaders, junitFile := other.junitFile, outputType := other.outputType,
                            progressBar := other.progressBar, tapFile := other.tapFile, test := other.test,
                            variables := other.variables, verbose := other.verbose, veryVerbose := other.veryVerbose,
                            output := other.output, cookieOutputFile := other.cookieOutputFile,
                            inputFiles := other.inputFiles)
    ensures ToRunnerOptions(other, filename, currentDir, parent) == ToRunnerOptions(opts, filename, currentDir, parent)
  {
  }
}
