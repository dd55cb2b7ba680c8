/** The parts of the Hurl file syntax tree that request bodies and predicate
    operands are built from. Whitespace and comment nodes that the evaluator
    never looks at are reduced to their text. */
module Ast {
  import opened Wrappers
  import opened Primitives

  datatype Pos = Pos(line: nat, column: nat)

  datatype SourceInfo = SourceInfo(start: Pos, end: Pos)

  datatype Variable = Variable(name: string, sourceInfo: SourceInfo)

  /** A `{{ ... }}` placeholder. */
  datatype Expr = Expr(space0: string, variable: Variable, space1: string)

  datatype TemplateElement =
    | Text(value: string, encoded: string)
    | Placeholder(expr: Expr)

  /** Literal text interleaved with placeholders, evaluated left to right. */
  datatype Template = Template(delimiter: Option<char>, elements: seq<TemplateElement>, sourceInfo: SourceInfo)

  /** A ``` block: an optional language tag and its templated content. */
  datatype MultilineString = MultilineString(language: Option<string>, content: Template)

  /** An inline JSON body, with templates at string positions and
      placeholders at value positions. */
  datatype JsonValue =
    | JsonNull
    | JsonNumber(text: string)
    | JsonString(template: Template)
    | JsonBoolean(b: bool)
    | JsonList(elements: seq<JsonValue>)
    | JsonObject(members: seq<JsonMember>)
    | JsonExpression(expr: Expr)

  datatype JsonMember = JsonMember(key: Template, value: JsonValue)

  /** A base64 literal: the decoded bytes (validated by the parser) and the text as written. */
  datatype Base64 = Base64(space0: string, value: seq<u8>, encoded: string, space1: string)

  /** A hex literal: the decoded bytes and the text as written. */
  datatype Hex = Hex(space0: string, value: seq<u8>, encoded: string, space1: string)

  /** The user-supplied name of a file, as written in the Hurl file. */
  datatype Filename = Filename(value: string, sourceInfo: SourceInfo)

  /** `file,<filename>;` */
  datatype File = File(space0: string, filename: Filename, space1: string)

  /** A request-body literal. */
  datatype Bytes =
    | OnelineString(template: Template)
    | MultilineString(multiline: MultilineString)
    | Xml(xml: string)
    | Json(json: JsonValue)
    | Base64(base64: Base64)
    | Hex(hex: Hex)
    | File(file: File)

  /** A request or response body section: layout around one literal. */
  datatype Body = Body(lineTerminators: seq<string>, space0: string, value: Bytes, lineTerminator0: string)

  datatype FloatLiteral = FloatLiteral(value: F64, encoded: string)

  /** A number as written: 64-bit integer, double, or an integer too large for
      64 bits kept as its decimal text. */
  datatype Number =
    | Float(float: FloatLiteral)
    | Integer(integer: i64)
    | BigInteger(digits: string)

  datatype Regex = Regex(inner: CompiledRegex)

  /** The expected-value side of an assertion. */
  datatype PredicateValue =
    | String(template: Template)
    | MultilineString(multiline: MultilineString)
    | Bool(b: bool)
    | Null
    | Number(number: Number)
    | File(file: File)
    | Hex(hex: Hex)
    | Base64(base64: Base64)
    | Expression(expr: Expr)
    | Regex(regex: Regex)
}
