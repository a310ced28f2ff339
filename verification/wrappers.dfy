/** Option and Result values, with the JavaScript truthiness helpers the
    dashboard relies on: `x || y` skips `null`, `undefined` and `0` (or `''`
    for strings), while `sum + null` adds nothing. */
module Wrappers {

  /** A nullable database column or an optional argument. */
  datatype Option<+T> = None | Some(value: T) {

    /** The wrapped value, or `default` when absent. */
    function GetOr(default: T): T {
      match this
      case Some(v) => v
      case None => default
    }
  }

  /** The outcome of an operation that can fail. */
  datatype Result<+R, +E> = Success(value: R) | Failure(error: E)

  /** JavaScript truthiness of a nullable number: `null` and `0` are falsy. */
  predicate Truthy(o: Option<real>) {
    o.Some? && o.value != 0.0
  }

  /** JavaScript `o || fallback` on a nullable number. */
  function OrElse(o: Option<real>, fallback: real): (r: real)
    ensures Truthy(o) ==> r == o.value
    ensures !Truthy(o) ==> r == fallback
  {
    if o.Some? && o.value != 0.0 then o.value else fallback
  }

  /** JavaScript `sum + o` coerces a `null` column to 0. */
  function Num(o: Option<real>): real {
    o.GetOr(0.0)
  }

  /** `o || 0` and `sum + o` agree on every nullable number: a stored 0 and
      a missing value both contribute nothing. */
  lemma OrZeroIsNum(o: Option<real>)
    ensures OrElse(o, 0.0) == Num(o)
  {
  }

  /** JavaScript truthiness of a nullable string: `null` and `''` are falsy. */
  predicate TruthyText(o: Option<string>) {
    o.Some? && o.value != ""
  }

  /** JavaScript `o || fallback` on a nullable string. */
  function OrElseText(o: Option<string>, fallback: string): (r: string)
    ensures TruthyText(o) ==> r == o.value
    ensures !TruthyText(o) ==> r == fallback
  {
    if o.Some? && o.value != "" then o.value else fallback
  }
}
