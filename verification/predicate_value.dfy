/** Evaluation of assertion operands into runtime values
    (`runner/predicate_value.rs`). */
module RunnerPredicateValue {
  import opened Wrappers
  import opened Ast
  import opened Runtime
  import opened Collaborators
  import RunnerBody

  /** `r` is the string value of `s`: it succeeds exactly when `s` does, with
      the same text, and otherwise fails with the same error. */
  ghost predicate CarriesString(r: Result<Value, Error>, s: Result<string, Error>) {
    && (r.Ok? <==> s.Ok?)
    && (s.Ok? ==> r.value == Value.String(s.value))
    && (s.Err? ==> r.error == s.error)
  }

  /** Maps a number literal to a runtime number of the same kind and payload;
      a big integer keeps its decimal text exactly. */
  function EvalNumber(number: Ast.Number): (r: ValueNumber)
    ensures number.Integer? <==> r.Integer?
    ensures number.Float? <==> r.Float?
    ensures number.BigInteger? <==> r.BigInteger?
    ensures number.Integer? ==> r.i == number.integer
    ensures number.Float? ==> r.f == number.float.value
    ensures number.BigInteger? ==> r.digits == number.digits
  {
    match number
    case Float(value) => ValueNumber.Float(value.value)
    case Integer(value) => ValueNumber.Integer(value)
    case BigInteger(value) => ValueNumber.BigInteger(value)
  }

  /** The literal that writes `n`; a double is written as `encoded`. */
  function NumberLiteral(n: ValueNumber, encoded: string): Ast.Number {
    match n
    case Float(f) => Ast.Number.Float(FloatLiteral(f, encoded))
    case Integer(i) => Ast.Number.Integer(i)
    case BigInteger(digits) => Ast.Number.BigInteger(digits)
  }

  /** The text a literal was written with, for doubles; empty otherwise. */
  function FloatEncoding(number: Ast.Number): string {
    if number.Float? then number.float.encoded else ""
  }

  /** Every runtime number is written by some literal, and evaluating that
      literal gives the number back. */
  lemma EvalNumberOfLiteral(n: ValueNumber, encoded: string)
    ensures EvalNumber(NumberLiteral(n, encoded)) == n
  {
  }

  /** Evaluating a literal loses nothing but the spelling of a double. */
  lemma LiteralOfEvalNumber(number: Ast.Number)
    ensures NumberLiteral(EvalNumber(number), FloatEncoding(number)) == number
  {
  }

  /** Maps an assertion operand to the value it is compared with. */
  function EvalPredicateValue(predicateValue: PredicateValue, variables: Variables, contextDir: ContextDir, c: Collaborators, fs: FileSystem): (r: Result<Value, Error>)
    ensures predicateValue.String? ==> CarriesString(r, c.evalTemplate(predicateValue.template, variables))
    ensures predicateValue.MultilineString? ==> CarriesString(r, c.evalMultiline(predicateValue.multiline, variables))
    ensures predicateValue.Bool? ==> r == Ok(Value.Bool(predicateValue.b))
    ensures predicateValue.Null? ==> r == Ok(Value.Null)
    ensures predicateValue.Number? ==> r == Ok(Value.Number(EvalNumber(predicateValue.number)))
    ensures predicateValue.File? ==>
              var f := RunnerBody.EvalFile(predicateValue.file.filename, contextDir, c, fs);
              && (r.Ok? <==> f.Ok?)
              && (r.Ok? ==> r.value == Value.Bytes(f.value))
              && (r.Err? ==> r.error == f.error)
    ensures predicateValue.Hex? ==> r == Ok(Value.Bytes(predicateValue.hex.value))
    ensures predicateValue.Base64? ==> r == Ok(Value.Bytes(predicateValue.base64.value))
    ensures predicateValue.Expression? ==> r == c.evalExpr(predicateValue.expr, variables)
    ensures predicateValue.Regex? ==> r == Ok(Value.Regex(predicateValue.regex.inner))
  {
    match predicateValue
    case String(template) =>
      var s :- c.evalTemplate(template, variables);
      Ok(Value.String(s))
    case MultilineString(value) =>
      var s :- c.evalMultiline(value, variables);
      Ok(Value.String(s))
    case Bool(value) => Ok(Value.Bool(value))
    case Null => Ok(Value.Null)
    case Number(value) => Ok(Value.Number(EvalNumber(value)))
    case File(value) =>
      var bytes :- RunnerBody.EvalFile(value.filename, contextDir, c, fs);
      Ok(Value.Bytes(bytes))
    case Hex(value) => Ok(Value.Bytes(value.value))
    case Base64(value) => Ok(Value.Bytes(value.value))
    case Expression(expr) =>
      var value :- c.evalExpr(expr, variables);
      Ok(value)
    case Regex(regex) => Ok(Value.Regex(regex.inner))
  }

  /** Evaluates an operand the grammar guarantees to be textual: a string
      template, or a regex given as its pattern text. Any other operand is a
      caller error (the Rust code panics). */
  function EvalPredicateValueTemplate(predicateValue: PredicateValue, variables: Variables, c: Collaborators): (r: Result<string, Error>)
    requires predicateValue.String? || predicateValue.Regex?
    ensures predicateValue.String? ==> r == c.evalTemplate(predicateValue.template, variables)
    ensures predicateValue.Regex? ==> r == Ok(predicateValue.regex.inner.source)
  {
    match predicateValue
    case String(template) => c.evalTemplate(template, variables)
    case Regex(regex) => Ok(regex.inner.source)
  }

  /** The variant of `Value` a runtime value has. */
  datatype ValueKind = StringKind | NumberKind | BoolKind | NullKind | BytesKind | RegexKind

  function KindOf(v: Value): ValueKind {
    match v
    case String(_) => StringKind
    case Number(_) => NumberKind
    case Bool(_) => BoolKind
    case Null => NullKind
    case Bytes(_) => BytesKind
    case Regex(_) => RegexKind
  }

  /** The kind of value an operand stands for, read off its syntax alone;
      none for an expression, whose value is only known once evaluated. */
  function OperandKind(predicateValue: PredicateValue): Option<ValueKind> {
    match predicateValue
    case String(_) => Some(StringKind)
    case MultilineString(_) => Some(StringKind)
    case Bool(_) => Some(BoolKind)
    case Null => Some(NullKind)
    case Number(_) => Some(NumberKind)
    case File(_) => Some(BytesKind)
    case Hex(_) => Some(BytesKind)
    case Base64(_) => Some(BytesKind)
    case Expression(_) => None
    case Regex(_) => Some(RegexKind)
  }

  /** The evaluator never confuses types: a successfully evaluated operand has
      the kind its syntax announces, and only operands that consult a template,
      the file system or an expression can fail. */
  lemma EvalPredicateValueKind(predicateValue: PredicateValue, variables: Variables, contextDir: ContextDir, c: Collaborators, fs: FileSystem)
    ensures var r := EvalPredicateValue(predicateValue, variables, contextDir, c, fs);
            && (r.Ok? && OperandKind(predicateValue).Some? ==> KindOf(r.value) == OperandKind(predicateValue).value)
            && (r.Err? ==> predicateValue.String? || predicateValue.MultilineString? || predicateValue.File? || predicateValue.Expression?)
  {
  }

  /** Bool, null, number, hex, base64 and regex operands are constants: the
      variables, the sandbox, the collaborators and the file system have no
      influence on them. */
  lemma ConstantOperandsIgnoreEnvironment(
    predicateValue: PredicateValue,
    v1: Variables, d1: ContextDir, c1: Collaborators, fs1: FileSystem,
    v2: Variables, d2: ContextDir, c2: Collaborators, fs2: FileSystem)
    requires predicateValue.Bool? || predicateValue.Null? || predicateValue.Number?
          || predicateValue.Hex? || predicateValue.Base64? || predicateValue.Regex?
    ensures EvalPredicateValue(predicateValue, v1, d1, c1, fs1) == EvalPredicateValue(predicateValue, v2, d2, c2, fs2)
    ensures EvalPredicateValue(predicateValue, v1, d1, c1, fs1).Ok?
  {
  }

  /** The body literal an operand is spelled like, when there is one. */
  function BodyLiteralOf(predicateValue: PredicateValue): Option<Bytes> {
    match predicateValue
    case String(template) => Some(Bytes.OnelineString(template))
    case MultilineString(multiline) => Some(Bytes.MultilineString(multiline))
    case File(file) => Some(Bytes.File(file))
    case Hex(hex) => Some(Bytes.Hex(hex))
    case Base64(base64) => Some(Bytes.Base64(base64))
    case _ => None
  }

  /** The runtime value a transport body holds: text as a string, anything
      else as its bytes. */
  function ValueOfBody(body: HttpBody): Value {
    match body
    case Text(text) => Value.String(text)
    case Binary(data) => Value.Bytes(data)
    case File(data, _) => Value.Bytes(data)
  }

  /** An operand spelled like a body literal evaluates to what the body
      evaluator produces for it: same success, same payload, same error. */
  lemma PredicateValueAgreesWithBody(predicateValue: PredicateValue, variables: Variables, contextDir: ContextDir, c: Collaborators, fs: FileSystem)
    requires BodyLiteralOf(predicateValue).Some?
    ensures var r := EvalPredicateValue(predicateValue, variables, contextDir, c, fs);
            var b := RunnerBody.EvalBytes(BodyLiteralOf(predicateValue).value, variables, contextDir, c, fs);
            && (r.Ok? <==> b.Ok?)
            && (r.Ok? ==> r.value == ValueOfBody(b.value))
            && (r.Err? ==> r.error == b.error)
  {
  }

  /** The textual entry point agrees with the general one: a string operand
      gives the text of the string value, a regex operand the source of the
      regex value, and both fail together with the same error. */
  lemma TemplateAgreesWithValue(predicateValue: PredicateValue, variables: Variables, contextDir: ContextDir, c: Collaborators, fs: FileSystem)
    requires predicateValue.String? || predicateValue.Regex?
    ensures var t := EvalPredicateValueTemplate(predicateValue, variables, c);
            var r := EvalPredicateValue(predicateValue, variables, contextDir, c, fs);
            && (t.Ok? <==> r.Ok?)
            && (t.Ok? && predicateValue.String? ==> r.value == Value.String(t.value))
            && (t.Ok? && predicateValue.Regex? ==> r.value.Regex? && r.value.regex.source == t.value)
            && (t.Err? ==> r.error == t.error)
  {
  }
}
