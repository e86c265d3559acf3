/** Small value wrappers shared by the modules of this project. */
module Wrappers {

  /** A value that may be absent (JavaScript `null`/`undefined`, Python's missing key). */
  datatype Option<+T> = None | Some(value: T)

  /** Either a value or an error. */
  datatype Result<+T, +E> = Success(value: T) | Failure(error: E)
}

/**
 * JavaScript string values as the components and API handlers see them:
 * a possibly absent string, and the `||` operator on it.
 */
module JsStrings {
  import opened Wrappers

  /** A string-valued slot that may be `null` or `undefined` (`None`). */
  type JsString = Option<string>

  /** JavaScript truthiness of a string slot: absent and `""` are falsy. */
  predicate Truthy(x: JsString) {
    x.Some? && x.value != ""
  }

  /**
   * `c0 || c1 || ... || fallback`, where `fallback` is a string literal:
   * the first truthy candidate, otherwise the fallback.
   */
  function FirstTruthy(candidates: seq<JsString>, fallback: string): (r: string)
    ensures forall i | 0 <= i < |candidates| && Truthy(candidates[i]) ::
              (forall j | 0 <= j < i :: !Truthy(candidates[j])) ==> r == candidates[i].value
    ensures (forall i | 0 <= i < |candidates| :: !Truthy(candidates[i])) ==> r == fallback
    ensures r == fallback || (r != "" && Some(r) in candidates)
  {
    if candidates == [] then fallback
    else if Truthy(candidates[0]) then candidates[0].value
    else FirstTruthy(candidates[1..], fallback)
  }

  /** A one-operand chain `x || fallback`. */
  lemma FirstTruthySingle(x: JsString, fallback: string)
    ensures FirstTruthy([x], fallback) == (if Truthy(x) then x.value else fallback)
  {
    assert [x][1..] == [];
  }

  /** A two-operand chain `x || y || fallback`. */
  lemma FirstTruthyPair(x: JsString, y: JsString, fallback: string)
    ensures FirstTruthy([x, y], fallback) ==
            (if Truthy(x) then x.value else if Truthy(y) then y.value else fallback)
  {
    assert [x, y][1..] == [y];
    FirstTruthySingle(y, fallback);
  }

  /**
   * The `email` field of a JSON request body, as the API handlers test it:
   * `Missing` is any falsy non-string (`undefined`, `null`, `false`, `0`);
   * `NonText` is a truthy value with no `includes` method (a number, a plain
   * object), on which `email.includes('@')` throws a `TypeError`.
   */
  datatype EmailValue = Missing | Text(value: string) | NonText

  /** How `!email || !email.includes('@')` comes out. */
  datatype EmailCheck = Passes | Rejected | Throws

  function CheckEmailField(email: EmailValue): (c: EmailCheck)
    ensures c == Passes <==> email.Text? && '@' in email.value
    ensures c == Throws <==> email == NonText
  {
    match email
    case Missing => Rejected
    case NonText => Throws
    case Text(s) => if s == "" || '@' !in s then Rejected else Passes
  }
}
