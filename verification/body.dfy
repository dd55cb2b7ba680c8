/** Evaluation of request-body literals into transport bodies
    (`runner/body.rs`). */
module RunnerBody {
  import opened Wrappers
  import opened Primitives
  import opened Ast
  import opened Runtime
  import opened Collaborators

  /** The literals whose evaluation yields text. */
  predicate IsTextual(bytes: Bytes) {
    bytes.OnelineString? || bytes.MultilineString? || bytes.Xml? || bytes.Json?
  }

  /** `r` is the text body of `s`: it succeeds exactly when `s` does, with the
      same text, and otherwise fails with the same error. */
  ghost predicate CarriesText(r: Result<HttpBody, Error>, s: Result<string, Error>) {
    && (r.Ok? <==> s.Ok?)
    && (s.Ok? ==> r.value == HttpBody.Text(s.value))
    && (s.Err? ==> r.error == s.error)
  }

  /** The error `eval_file` reports for `filename`. */
  function FileError(filename: Filename, inner: RunnerError): Error {
    Error(filename.sourceInfo, inner, false)
  }

  /** Reads a user-supplied file inside the sandbox. The access check comes
      first: a denied file is reported as unauthorized and nothing is resolved
      or read. A read failure is reported with the name the user wrote, not the
      resolved path, and without the operating system's reason. */
  function EvalFile(filename: Filename, contextDir: ContextDir, c: Collaborators, fs: FileSystem): (r: Result<seq<u8>, Error>)
    ensures !c.isAccessAllowed(contextDir, filename.value) ==>
              r == Err(FileError(filename, UnauthorizedFileAccess(Path(filename.value))))
    ensures c.isAccessAllowed(contextDir, filename.value) ==>
              && (r.Ok? <==> c.getPath(contextDir, filename.value) in fs)
              && (r.Ok? ==> r.value == fs[c.getPath(contextDir, filename.value)])
              && (r.Err? ==> r.error == FileError(filename, FileReadAccess(filename.value)))
  {
    var file := filename.value;
    if !c.isAccessAllowed(contextDir, file) then
      Err(FileError(filename, UnauthorizedFileAccess(Path(file))))
    else
      var resolvedFile := c.getPath(contextDir, file);
      var inner := FileReadAccess(file);
      match Read(fs, resolvedFile)
      case Ok(value) => Ok(value)
      case Err(_) => Err(FileError(filename, inner))
  }

  /** Maps a body literal to the payload the transport sends. */
  function EvalBytes(bytes: Bytes, variables: Variables, contextDir: ContextDir, c: Collaborators, fs: FileSystem): (r: Result<HttpBody, Error>)
    ensures r.Ok? ==> (r.value.Text? <==> IsTextual(bytes))
    ensures r.Ok? ==> (r.value.Binary? <==> bytes.Base64? || bytes.Hex?)
    ensures r.Ok? ==> (r.value.File? <==> bytes.File?)
    ensures bytes.OnelineString? ==> CarriesText(r, c.evalTemplate(bytes.template, variables))
    ensures bytes.MultilineString? ==> CarriesText(r, c.evalMultiline(bytes.multiline, variables))
    ensures bytes.Json? ==> CarriesText(r, c.evalJsonValue(bytes.json, variables, true))
    ensures bytes.Xml? ==> r == Ok(HttpBody.Text(bytes.xml))
    ensures bytes.Base64? ==> r == Ok(Binary(bytes.base64.value))
    ensures bytes.Hex? ==> r == Ok(Binary(bytes.hex.value))
    ensures bytes.File? ==>
              var f := EvalFile(bytes.file.filename, contextDir, c, fs);
              && (r.Ok? <==> f.Ok?)
              && (r.Ok? ==> r.value == HttpBody.File(f.value, bytes.file.filename.value))
              && (r.Err? ==> r.error == f.error)
  {
    match bytes
    case OnelineString(template) =>
      var value :- c.evalTemplate(template, variables);
      Ok(HttpBody.Text(value))
    case MultilineString(multiline) =>
      var value :- c.evalMultiline(multiline, variables);
      Ok(HttpBody.Text(value))
    case Xml(value) => Ok(HttpBody.Text(value))
    case Json(json) =>
      var value :- c.evalJsonValue(json, variables, true);
      Ok(HttpBody.Text(value))
    case Base64(base64) => Ok(Binary(base64.value))
    case Hex(hex) => Ok(Binary(hex.value))
    case File(file) =>
      var value :- EvalFile(file.filename, contextDir, c, fs);
      Ok(HttpBody.File(value, file.filename.value))
  }

  /** Evaluates the literal of a body section. */
  function EvalBody(body: Body, variables: Variables, contextDir: ContextDir, c: Collaborators, fs: FileSystem): (r: Result<HttpBody, Error>)
    ensures r == EvalBytes(body.value, variables, contextDir, c, fs)
  {
    EvalBytes(body.value, variables, contextDir, c, fs)
  }

  /** The layout around a body literal never changes what is sent. */
  lemma EvalBodyIgnoresLayout(b1: Body, b2: Body, variables: Variables, contextDir: ContextDir, c: Collaborators, fs: FileSystem)
    requires b1.value == b2.value
    ensures EvalBody(b1, variables, contextDir, c, fs) == EvalBody(b2, variables, contextDir, c, fs)
  {
  }

  /** XML, base64 and hex literals are constants: the variables, the sandbox,
      the collaborators and the file system have no influence on them. */
  lemma ConstantLiteralsIgnoreEnvironment(
    bytes: Bytes,
    v1: Variables, d1: ContextDir, c1: Collaborators, fs1: FileSystem,
    v2: Variables, d2: ContextDir, c2: Collaborators, fs2: FileSystem)
    requires bytes.Xml? || bytes.Base64? || bytes.Hex?
    ensures EvalBytes(bytes, v1, d1, c1, fs1) == EvalBytes(bytes, v2, d2, c2, fs2)
    ensures EvalBytes(bytes, v1, d1, c1, fs1).Ok?
  {
  }

  /** A denied file is never resolved or read: the outcome is the same
      whatever the path resolver and the file system are. */
  lemma DeniedFileNeverRead(filename: Filename, contextDir: ContextDir, c1: Collaborators, fs1: FileSystem, c2: Collaborators, fs2: FileSystem)
    requires !c1.isAccessAllowed(contextDir, filename.value)
    requires !c2.isAccessAllowed(contextDir, filename.value)
    ensures EvalFile(filename, contextDir, c1, fs1) == EvalFile(filename, contextDir, c2, fs2)
    ensures EvalFile(filename, contextDir, c1, fs1).Err?
  {
  }

  /** An allowed file is read at its resolved path and nowhere else: file
      systems that agree on that path give the same outcome. */
  lemma AllowedFileReadsOnlyResolvedPath(filename: Filename, contextDir: ContextDir, c: Collaborators, fs1: FileSystem, fs2: FileSystem)
    requires c.isAccessAllowed(contextDir, filename.value)
    requires var p := c.getPath(contextDir, filename.value);
             (p in fs1 <==> p in fs2) && (p in fs1 ==> fs1[p] == fs2[p])
    ensures EvalFile(filename, contextDir, c, fs1) == EvalFile(filename, contextDir, c, fs2)
  {
  }

  /** Every file error is one of the two sandbox errors, located at the
      filename and never flagged as an assertion error; which one it is
      depends only on the access check. */
  lemma FileErrorKinds(filename: Filename, contextDir: ContextDir, c: Collaborators, fs: FileSystem)
    ensures var r := EvalFile(filename, contextDir, c, fs);
            && (r.Err? ==> r.error.sourceInfo == filename.sourceInfo && !r.error.isAssert)
            && (r.Err? && r.error.inner.UnauthorizedFileAccess? <==> !c.isAccessAllowed(contextDir, filename.value))
            && (r.Err? && r.error.inner.FileReadAccess? <==>
                  c.isAccessAllowed(contextDir, filename.value) && c.getPath(contextDir, filename.value) !in fs)
  {
  }

  /** A file body carries exactly the bytes stored at the resolved path,
      untransformed, under the name the user wrote. */
  lemma FileBodyCarriesContents(file: Ast.File, variables: Variables, contextDir: ContextDir, c: Collaborators, fs: FileSystem, data: seq<u8>)
    requires c.isAccessAllowed(contextDir, file.filename.value)
    requires c.getPath(contextDir, file.filename.value) in fs
    requires fs[c.getPath(contextDir, file.filename.value)] == data
    ensures EvalBytes(Bytes.File(file), variables, contextDir, c, fs) == Ok(HttpBody.File(data, file.filename.value))
  {
  }

  /** A filename written at line 1, columns 7 to 15. */
  function DataBinFilename(name: string): Filename {
    Filename(name, SourceInfo(Pos(1, 7), Pos(1, 15)))
  }

  /** `file, tests/data.bin;` with the file holding `Hello World!`. */
  lemma FileBodyExample(variables: Variables, contextDir: ContextDir, c: Collaborators, fs: FileSystem)
    requires c.isAccessAllowed(contextDir, "tests/data.bin")
    requires c.getPath(contextDir, "tests/data.bin") in fs
    requires fs[c.getPath(contextDir, "tests/data.bin")] == [72, 101, 108, 108, 111, 32, 87, 111, 114, 108, 100, 33]
    ensures EvalBytes(Bytes.File(File.File(" ", DataBinFilename("tests/data.bin"), " ")), variables, contextDir, c, fs)
            == Ok(HttpBody.File([72, 101, 108, 108, 111, 32, 87, 111, 114, 108, 100, 33], "tests/data.bin"))
  {
  }

  /** `file, data.bin;` under a file root that does not hold it. */
  lemma FileBodyMissingExample(variables: Variables, contextDir: ContextDir, c: Collaborators, fs: FileSystem)
    requires c.isAccessAllowed(contextDir, "data.bin")
    requires c.getPath(contextDir, "data.bin") !in fs
    ensures var r := EvalBytes(Bytes.File(File.File(" ", DataBinFilename("data.bin"), " ")), variables, contextDir, c, fs);
            && r.Err?
            && r.error.inner == FileReadAccess("data.bin")
            && r.error.sourceInfo == SourceInfo(Pos(1, 7), Pos(1, 15))
  {
  }
}
