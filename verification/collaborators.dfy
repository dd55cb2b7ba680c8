/** The evaluator's collaborators whose code is not part of this model, and
    the file system, as explicit parameters. */
module Collaborators {
  import opened Wrappers
  import opened Primitives
  import opened Ast
  import opened Runtime

  /** `util::path::ContextDir`: the current directory and the sandbox root. */
  datatype ContextDir = ContextDir(currentDir: Path, fileRoot: Path)

  /** Uninterpreted functions: the template, multiline, JSON and expression
      evaluators, and the two `ContextDir` path methods. Any total function of
      these shapes is admitted. */
  datatype Collaborators = Collaborators(
    evalTemplate: (Template, Variables) -> Result<string, Error>,
    evalMultiline: (Ast.MultilineString, Variables) -> Result<string, Error>,
    evalJsonValue: (JsonValue, Variables, bool) -> Result<string, Error>,
    evalExpr: (Expr, Variables) -> Result<Value, Error>,
    isAccessAllowed: (ContextDir, string) -> bool,
    getPath: (ContextDir, string) -> Path)

  /** The readable files and their contents. A path that is missing, or that
      the process may not read, is absent. */
  type FileSystem = map<Path, seq<u8>>

  datatype IoError = Unreadable(path: Path)

  /** `std::fs::read`. */
  function Read(fs: FileSystem, p: Path): Result<seq<u8>, IoError>
  {
    if p in fs then Ok(fs[p]) else Err(Unreadable(p))
  }
}
