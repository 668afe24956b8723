/** The JavaScript values that flow through the option handling, with the
    truthiness rule that `||` and `if (!x)` use and the string conversion that
    `'./' + x` and template literals apply. */
module Js {
  import Strings

  /** `undefined`, `null`, a boolean, a string, or an array of strings (the only
      arrays the options ever hold). */
  datatype JsValue =
    | Undefined
    | Null
    | Bool(b: bool)
    | Str(s: string)
    | Arr(items: seq<string>)

  /** `null`, `undefined`, `false` and `""` are falsy; every array, even `[]`, is truthy. */
  predicate Truthy(v: JsValue)
  {
    match v
    case Undefined => false
    case Null => false
    case Bool(b) => b
    case Str(s) => s != ""
    case Arr(_) => true
  }

  /** The falsy values are exactly `undefined`, `null`, `false` and `""`. */
  lemma FalsyValues(v: JsValue)
    ensures !Truthy(v) <==> v == Undefined || v == Null || v == Bool(false) || v == Str("")
  {
  }

  /** `a || b`: the left operand when it is truthy, otherwise the right one. */
  function Or(a: JsValue, b: JsValue): (r: JsValue)
    ensures Truthy(r) <==> Truthy(a) || Truthy(b)
    ensures Truthy(a) ==> r == a
    ensures !Truthy(a) ==> r == b
  {
    if Truthy(a) then a else b
  }

  /** `String(v)`: an array joins its elements with commas. */
  function ToStr(v: JsValue): string
  {
    match v
    case Undefined => "undefined"
    case Null => "null"
    case Bool(b) => if b then "true" else "false"
    case Str(s) => s
    case Arr(items) => Strings.Join(items, ',')
  }

  /** A value that may be absent. */
  datatype Option<T> = None | Some(value: T)

  /** A thrown exception or a returned value. */
  datatype Result<T, E> = Ok(value: T) | Err(error: E)
}
