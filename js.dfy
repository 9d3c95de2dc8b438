/**
 * JavaScript values that the front end reads from JSON, props and the environment:
 * a property can be missing (`undefined`), `null`, or a string.
 */
module Js {

  datatype Field = Undefined | Null | Str(s: string)

  /** JavaScript truthiness of a string-or-nothing value: only the non-empty string is truthy. */
  predicate Truthy(f: Field)
  {
    f.Str? && f.s != ""
  }

  /** `a || b` */
  function Or(a: Field, b: Field): (r: Field)
    ensures Truthy(a) ==> r == a
    ensures !Truthy(a) ==> r == b
    ensures Truthy(r) <==> Truthy(a) || Truthy(b)
  {
    if Truthy(a) then a else b
  }

  /** The text a template literal `${f}` interpolates. */
  function Show(f: Field): (r: string)
    ensures f.Str? ==> r == f.s
    ensures f.Undefined? ==> r == "undefined"
    ensures f.Null? ==> r == "null"
  {
    match f
    case Undefined => "undefined"
    case Null => "null"
    case Str(s) => s
  }

  /** The string of a field that is known to be truthy, or "" (`f || ''`). */
  function TextOr(f: Field): (r: string)
    ensures Truthy(f) ==> r == f.s
    ensures !Truthy(f) ==> r == ""
  {
    if Truthy(f) then f.s else ""
  }
}
