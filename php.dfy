/** The few PHP value conversions the modelled code relies on. */
module Php {
  import opened Wrappers

  /** `(string) $v` for a value that is a string or null: null becomes the empty string. */
  function StringCast(v: Option<string>): string
  {
    match v
    case None => ""
    case Some(x) => x
  }

  /** PHP truthiness of a string: exactly "" and "0" are falsy. */
  predicate TruthyString(s: string)
  {
    s != "" && s != "0"
  }

  /** PHP truthiness of a string that may be null. */
  predicate Truthy(v: Option<string>)
  {
    v.Some? && TruthyString(v.value)
  }
}
