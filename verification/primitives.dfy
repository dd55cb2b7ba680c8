/** Machine-level types shared by the syntax tree and the runtime. */
module Primitives {

  /** Rust's `u8`. */
  newtype u8 = x: int | 0 <= x < 0x100

  /** Rust's `i64`. */
  newtype i64 = x: int | -0x8000_0000_0000_0000 <= x < 0x8000_0000_0000_0000

  /** An IEEE 754 double, kept as its bit pattern: no floating-point arithmetic
      is performed anywhere in the evaluator, so the payload is opaque. */
  datatype F64 = F64(bits: bv64)

  /** A compiled regular expression (`regex::Regex`). Only its source text is
      observable here; `to_string` returns it. */
  datatype CompiledRegex = CompiledRegex(source: string)

  /** A file-system path (`PathBuf`), as its textual form. */
  datatype Path = Path(text: string)
}
