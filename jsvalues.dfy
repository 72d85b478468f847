/** Values as the script sees them: a property that may be missing (`undefined`/`null`),
    and JavaScript's `||`, which yields its left operand when that operand is truthy. */
module JsValues {

  /** A value that may be absent: `undefined`, `null` or a missing property. */
  datatype Option<T> = None | Some(value: T)

  /** `a || fallback` on a possibly missing string: `undefined`, `null` and `""` are falsy. */
  function OrString(a: Option<string>, fallback: string): (r: string)
    ensures a.Some? && a.value != "" ==> r == a.value
    ensures a.None? || a.value == "" ==> r == fallback
  {
    match a
    case Some(s) => if s != "" then s else fallback
    case None => fallback
  }

  /** `a || fallback` on a possibly missing boolean: only `true` is truthy. */
  function OrBool(a: Option<bool>, fallback: bool): (r: bool)
    ensures r <==> (a == Some(true) || fallback)
  {
    match a
    case Some(b) => if b then b else fallback
    case None => fallback
  }
}
