/** Runtime values, transport bodies and runner errors. */
module Runtime {
  import opened Primitives
  import opened Ast

  /** `runner::Number`: the three numeric representations stay distinct. */
  datatype ValueNumber =
    | Float(f: F64)
    | Integer(i: i64)
    | BigInteger(digits: string)

  /** `runner::Value`, restricted to the variants the evaluator produces. */
  datatype Value =
    | String(s: string)
    | Number(n: ValueNumber)
    | Bool(b: bool)
    | Null
    | Bytes(bytes: seq<u8>)
    | Regex(regex: CompiledRegex)

  /** The variable environment: name to value. */
  type Variables = map<string, Value>

  /** `http::Body`, the payload handed to the transport. */
  datatype HttpBody =
    | Text(text: string)
    | Binary(data: seq<u8>)
    | File(data: seq<u8>, filename: string)

  /** `runner::RunnerError`, restricted to the kinds this evaluator builds or
      that the template evaluators are documented to report. */
  datatype RunnerError =
    | TemplateVariableNotDefined(name: string)
    | TemplateVariableInvalidType(name: string, value: string, expecting: string)
    | UnauthorizedFileAccess(path: Path)
    | FileReadAccess(file: string)

  /** `runner::Error`: where it happened, what happened, and whether it is an
      assertion error. */
  datatype Error = Error(sourceInfo: SourceInfo, inner: RunnerError, isAssert: bool)
}
