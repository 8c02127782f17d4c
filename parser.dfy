/** The shape every argument parser returns, and the default result a parser falls back on. */
module Parsers {
  import opened Wrappers

  /** A parsed value and how many characters of the input it consumed. */
  datatype ParseResult<+V> = ParseResult(value: V, length: nat)

  /** `ParseOptions`: the optional value to use when nothing parses. */
  datatype ParseOptions<+V> = ParseOptions(default: Option<V>)

  /** A parser over the remaining message text; `None` when nothing parses. Its options are bound in. */
  type Parser<V> = string -> Option<ParseResult<V>>

  /**
    `generateDefaultOrNothing`: nothing without a default; with one, that exact
    value, consuming no input.
  */
  function GenerateDefaultOrNothing<V>(options: ParseOptions<V>): (r: Option<ParseResult<V>>)
    ensures r.None? <==> options.default.None?
    ensures r.Some? ==> r.value.value == options.default.value && r.value.length == 0
  {
    match options.default
    case None => None
    case Some(v) => Some(ParseResult(v, 0))
  }
}
