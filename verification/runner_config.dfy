/** The types the CLI options are converted into: the runner's options and
    the HTTP and logger enums they hold. */
module RunnerConfig {
  import opened Wrappers
  import opened Collaborators

  /** `std::time::Duration`, in nanoseconds. */
  datatype Duration = Duration(nanos: nat)

  /** How often an entry is retried: never, a bounded number of times, or
      without bound. */
  datatype Retry = NoRetry | Finite(count: nat) | Infinite

  /** `http::RequestedHttpVersion`; `Default` lets the transport choose. */
  datatype RequestedHttpVersion = Default | Http10 | Http11 | Http2 | Http3

  /** `http::IpResolve`; `Default` lets the resolver choose. */
  datatype IpResolve = Default | IpV4 | IpV6

  /** `util::logger::ErrorFormat`. */
  datatype LoggerErrorFormat = Short | Long

  /** The interactive-mode callbacks run around each entry. */
  datatype PreEntryHook = InteractivePreEntry
  datatype PostEntryHook = InteractivePostEntry

  /** The options the runner executes a file with (the fields the CLI sets). */
  datatype RunnerOptions = RunnerOptions(
    awsSigv4: Option<string>,
    cacertFile: Option<string>,
    clientCertFile: Option<string>,
    clientKeyFile: Option<string>,
    delay: Duration,
    compressed: bool,
    connectTimeout: Duration,
    connectsTo: seq<string>,
    continueOnError: bool,
    contextDir: ContextDir,
    cookieInputFile: Option<string>,
    followLocation: bool,
    httpVersion: RequestedHttpVersion,
    ignoreAsserts: bool,
    insecure: bool,
    ipResolve: IpResolve,
    maxRedirect: Option<nat>,
    noProxy: Option<string>,
    output: Option<string>,
    pathAsIs: bool,
    postEntry: Option<PostEntryHook>,
    preEntry: Option<PreEntryHook>,
    proxy: Option<string>,
    resolves: seq<string>,
    retry: Retry,
    retryInterval: Duration,
    sslNoRevoke: bool,
    timeout: Duration,
    toEntry: Option<nat>,
    user: Option<string>,
    userAgent: Option<string>)
}
