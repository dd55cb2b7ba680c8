# Hurl runner literal evaluation and CLI option mapping, in Dafny

This project models three pieces of the Hurl HTTP test runner:

- **The body evaluator.** `runner/body.rs` turns a request-body literal into the payload given to the transport.
  - One-line, multiline and JSON literals are evaluated to `Text`.
  - XML is passed through as `Text`.
  - Base64 and hex literals become `Binary`.
  - A file literal is read inside the sandbox and becomes `File(bytes, filename)`.
- **The predicate-operand evaluator.** `runner/predicate_value.rs` turns the expected-value side of an assertion into a typed runtime `Value`. It also has a second entry point for operands that must be textual.
- **The CLI option logic.** `cli/options/mod.rs` covers:
  - the post-parse checks;
  - the argument-parser error conversion;
  - the enum conversions;
  - the mapping of the command-line `Options` to the runner's options, including the choice of the sandbox file root.

Some collaborators' code is not part of this model. They are fields of the `Collaborators` record, so they are arbitrary total functions passed in explicitly:

- the template, multiline, JSON and expression evaluators;
- the sandbox's `is_access_allowed` and `get_path`.

`Path::parent` is a parameter of the option mapping. The file system is a `map<Path, seq<u8>>`, and a read fails exactly when the resolved path is absent from it. Errors are `Result` values, as with Rust's `?`. The one panic in the evaluator becomes a precondition: the textual entry point called on a non-textual operand.

Files:

| file | module | contents |
|---|---|---|
| wrappers.dfy | `Wrappers` | `Option`, `Result` (usable with `:-`) |
| primitives.dfy | `Primitives` | `u8`, `i64`, opaque `F64`, `CompiledRegex`, `Path` |
| ast.dfy | `Ast` | the syntax tree of body literals and predicate operands |
| runtime.dfy | `Runtime` | `Value`, `ValueNumber`, `HttpBody`, `RunnerError`, `Error` |
| collaborators.dfy | `Collaborators` | `ContextDir`, the uninterpreted collaborators, the file system, `Read` |
| body.dfy | `RunnerBody` | `EvalBody`, `EvalBytes`, `EvalFile` and their properties |
| predicate_value.dfy | `RunnerPredicateValue` | `EvalPredicateValue`, `EvalPredicateValueTemplate`, `EvalNumber` and their properties |
| runner_config.dfy | `RunnerConfig` | the runner options, the HTTP enums they hold, and the logger's error format |
| options.dfy | `CliOptions` | `Options`, validation, conversions, `ToRunnerOptions` |

## Model

| member | source | states |
|---|---|---|
| RunnerBody.EvalFile | packages/hurl/src/runner/body.rs:67-83 | A denied file gives `UnauthorizedFileAccess` with the path the user wrote. An allowed file gives the contents at its resolved path. If that read fails, the result is `FileReadAccess` with the user's filename, not the resolved path. Both errors sit at the filename's position with the assertion flag `false`. |
| RunnerBody.EvalBytes | packages/hurl/src/runner/body.rs:39-65 | The result is `Text` exactly for textual literals, `Binary` exactly for base64/hex, and `File` exactly for file literals. XML is passed through unchanged. Base64/hex give the stored decoded bytes, not the encoded text. JSON is evaluated with escaping `true`. Collaborator and file errors come back unchanged. A file body carries the literal filename. |
| RunnerBody.EvalBody | packages/hurl/src/runner/body.rs:31-37 | A body evaluates to what its literal evaluates to, with the same variables, sandbox and file system. |
| RunnerBody.EvalBodyIgnoresLayout | packages/hurl/src/runner/body.rs:31-37 | Two bodies with the same literal evaluate identically, whatever their whitespace and line terminators. |
| RunnerBody.ConstantLiteralsIgnoreEnvironment | packages/hurl/src/runner/body.rs:53-59 | XML, base64 and hex bodies always succeed. Their result is the same under any variables, sandbox, collaborators and file system. |
| RunnerBody.DeniedFileNeverRead | packages/hurl/src/runner/body.rs:67-76 | When access is denied, the outcome is the same failure for every path resolver and every file system. So the check comes before any resolution or read. |
| RunnerBody.AllowedFileReadsOnlyResolvedPath | packages/hurl/src/runner/body.rs:77-82 | When access is allowed, only the resolved path is consulted. File systems that agree there give the same outcome. |
| RunnerBody.FileErrorKinds | packages/hurl/src/runner/body.rs:70-82 | Each file error is at the filename's position and has the flag `false`. It is `UnauthorizedFileAccess` if and only if access is denied. It is `FileReadAccess` if and only if access is allowed and the resolved path is unreadable. |
| RunnerBody.FileBodyCarriesContents | packages/hurl/src/runner/body.rs:60-62 | For an allowed file, every file system that holds some bytes at the resolved path makes the body exactly `File(those bytes, filename as written)`. The bytes are not transformed. |
| RunnerBody.FileBodyExample | packages/hurl/src/runner/body.rs:93-118 | `file, tests/data.bin;` holding `Hello World!` gives `File([72,…,33], "tests/data.bin")`. |
| RunnerBody.FileBodyMissingExample | packages/hurl/src/runner/body.rs:120-153 | `file, data.bin;` under a root without the file gives `FileReadAccess{file: "data.bin"}` at line 1, columns 7 to 15. |
| RunnerPredicateValue.EvalNumber | packages/hurl/src/runner/predicate_value.rs:73-79 | The number keeps its kind: integer, double or big integer. It also keeps its payload: the same integer, the same double bits, or the same decimal text. |
| RunnerPredicateValue.EvalNumberOfLiteral | packages/hurl/src/runner/predicate_value.rs:73-79 | Every runtime number is produced by a literal that writes it. |
| RunnerPredicateValue.LiteralOfEvalNumber | packages/hurl/src/runner/predicate_value.rs:73-79 | The literal can be rebuilt from its evaluated number, except for the spelling of a double. |
| RunnerPredicateValue.EvalPredicateValue | packages/hurl/src/runner/predicate_value.rs:30-59 | String and multiline operands give `String` of the evaluated text, or the evaluator's error. Bool, null and number operands map directly. File operands give `Bytes` of what `EvalFile` reads, or its error unchanged. Hex and base64 operands give `Bytes` of the stored bytes. An expression gives exactly what the expression evaluator returns. A regex operand gives `Regex`. |
| RunnerPredicateValue.EvalPredicateValueTemplate | packages/hurl/src/runner/predicate_value.rs:61-71 | It is defined only for string or regex operands. A string gives the template evaluator's result, and a regex gives its pattern text. |
| RunnerPredicateValue.TemplateAgreesWithValue | packages/hurl/src/runner/predicate_value.rs:36-71 | On string and regex operands, the textual entry point and the general one succeed or fail together. Their errors are equal, and the text is the text inside the `String` value or the source of the `Regex` value. |
| RunnerPredicateValue.EvalPredicateValueKind | packages/hurl/src/runner/predicate_value.rs:35-58 | A successful non-expression operand has the value kind its syntax announces. Only string, multiline, file and expression operands can fail. |
| RunnerPredicateValue.ConstantOperandsIgnoreEnvironment | packages/hurl/src/runner/predicate_value.rs:44-57 | Bool, null, number, hex, base64 and regex operands always succeed. Their value is the same under any variables, sandbox, collaborators and file system. |
| RunnerPredicateValue.PredicateValueAgreesWithBody | packages/hurl/src/runner/predicate_value.rs:36-52 | Some operands are spelled like body literals: string, multiline, file, hex and base64. Such an operand agrees with the body evaluator. Both succeed together, and the payloads match: text as `String`, bytes as `Bytes`. The errors are equal. |
| CliOptions.OptionsErrorFromClap | packages/hurl/src/cli/options/mod.rs:92-100 | `Info` is chosen if and only if the kind is `DisplayVersion` or `DisplayHelp`. Every other kind gives `Error` and never `NoInput`. The rendered message is kept. |
| CliOptions.OptionsErrorFromClapImage | packages/hurl/src/cli/options/mod.rs:92-100 | The conversion's image is exactly the `Info` and `Error` values. Each of them, with any message, comes from some parser error, and `NoInput` never does. |
| CliOptions.ToRequestedHttpVersion | packages/hurl/src/cli/options/mod.rs:116-125 | Each version maps to its namesake and never to the default. |
| CliOptions.HttpVersionRoundTrip | packages/hurl/src/cli/options/mod.rs:116-125 | The version conversion is a bijection onto the non-default requested versions. |
| CliOptions.ToHttpIpResolve | packages/hurl/src/cli/options/mod.rs:133-140 | IPv4 maps to IPv4 and IPv6 to IPv6, and neither maps to the default. |
| CliOptions.IpResolveRoundTrip | packages/hurl/src/cli/options/mod.rs:133-140 | The IP family conversion is a bijection onto the non-default settings. |
| CliOptions.ToLoggerErrorFormat | packages/hurl/src/cli/options/mod.rs:142-149 | Short maps to Short and Long to Long. |
| CliOptions.ErrorFormatRoundTrip | packages/hurl/src/cli/options/mod.rs:142-149 | The error-format conversion is a bijection. |
| CliOptions.Validate | packages/hurl/src/cli/options/mod.rs:223-235 | It accepts exactly the options with at least one input file and, when cookies are saved, exactly one. Accepted options are returned unchanged. No input gives `NoInput(help)`. A cookie file with several inputs gives `Error("Only save cookies for a unique session")`. |
| CliOptions.ValidateIdempotent | packages/hurl/src/cli/options/mod.rs:225-235 | Validating accepted options again accepts them unchanged. |
| CliOptions.Parse | packages/hurl/src/cli/options/mod.rs:220-236 | An argument-parser error is converted by `OptionsErrorFromClap`. An error from reading the matches is passed through. Otherwise the options are validated. Every options value returned passes validation. |
| CliOptions.FileRoot | packages/hurl/src/cli/options/mod.rs:347-357 | The root is the explicit root when given. Otherwise it is the current directory for `-`, and otherwise the parent of the input file. A file without a parent is a caller error, because the source unwraps. |
| CliOptions.RequestedHttpVersion | packages/hurl/src/cli/options/mod.rs:363-366 | The requested version is the default exactly when none was given, and otherwise the converted one. |
| CliOptions.HttpIpResolve | packages/hurl/src/cli/options/mod.rs:369-372 | The IP setting is the default exactly when none was given, and otherwise the converted one. |
| CliOptions.ToRunnerOptions | packages/hurl/src/cli/options/mod.rs:339-460 | The context directory is (current directory, `FileRoot`), and `output` is always unset. Hooks are present exactly in interactive mode. The HTTP version and IP setting go through their conversions. `retry`, `retry_interval`, `delay`, `timeout`, `to_entry` and every other forwarded field are copied unchanged. |
| CliOptions.OutputNotForwarded | packages/hurl/src/cli/options/mod.rs:375-405 | Changing the global `--output` never changes the runner options. |
| CliOptions.ExplicitRootIgnoresFilename | packages/hurl/src/cli/options/mod.rs:347-358 | With an explicit file root, the input filename has no influence on the runner options. |
| CliOptions.ReportingOptionsNotForwarded | packages/hurl/src/cli/options/mod.rs:427-459 | Changing any of these options leaves the runner options the same: colour, error format, reports, verbosity, progress bar, test mode, output type, header inclusion, variables, `--output`, cookie output file, input files. |

## Left out

- The construction of the argument parser and the argument matching (`parse` lines 163-220, `parse_matches`) wrap the clap library. The `commands` and `matches` modules are not part of this model. `Parse` takes the parser's outcome, the matches reader and the rendered help as parameters.
- `get_version` calls into libcurl, and `to_logger_options` only configures logging. Neither is modelled; the `ErrorFormat` conversion it uses is.
- `std::fs::read` is modelled as a lookup in a map from path to bytes. A missing or unreadable file is an absent key, and the operating system's error detail is not modelled.
- `ContextDir::is_access_allowed` and `ContextDir::get_path` are uninterpreted, as is the path normalisation behind them. `Path::parent` is a parameter. So the sandbox's descendant-of-root guarantee is not proved here.
- The template, multiline, JSON and expression evaluators are arbitrary `Result`-returning functions. Their internals (interpolation, escaping, indentation) are not part of this model.
- Doubles are opaque bit patterns, and regular expressions are opaque apart from their source text.
- Only the `Value` variants this evaluator constructs are modelled: string, number, bool, null, bytes, regex. The runner's other variants are not part of this model. So the expression evaluator's range is narrowed to these six variants too, and so is the value of an expression operand (`packages/hurl/src/runner/predicate_value.rs:53-56`).
- Only four of the runner's error kinds are modelled: `TemplateVariableNotDefined`, `TemplateVariableInvalidType`, `UnauthorizedFileAccess` and `FileReadAccess`. So the errors the template, multiline, JSON and expression evaluators can return are narrowed to these kinds too. No property depends on which kind a collaborator's error has.
- `RequestedHttpVersion` and `http::IpResolve` are declared outside the shown files, including what their defaults are. Each is modelled with a distinct `Default` variant.
- The runner-option fields the CLI does not set are not modelled, and neither are the builder's defaults.
- The `ClapErrorKind` constructors are clap 4's error kinds. Clap's real enum is non-exhaustive, and the conversion treats every kind other than help or version alike.
- `usize` fields (`max_redirect`, `to_entry`, retry counts) are `nat`. They are only copied, so width does not matter.
- `cli/mod.rs` only declares modules and re-exports names.
- The retry loop and the HTTP transport are not in the modelled files.
- Whitespace and comment nodes of the syntax tree are reduced to their text.
