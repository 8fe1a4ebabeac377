/** Values that stand for the JavaScript runtime at the boundaries of the program:
    optional values, completions of calls that may throw, JSON string fields that
    may be missing, and the effects the server performs on the outside world. */
module Runtime {

  datatype Option<+T> = None | Some(value: T)

  /** The completion of a call into code outside the model: it either returns a
      value or throws (ECMA-262's normal and throw completions). */
  datatype Completion<+T> = Return(value: T) | Throw

  /** A JSON string property as JavaScript reads it: absent (`undefined` or
      `null`) or a string. */
  datatype Field = Missing | Value(s: string) {
    /** JavaScript truthiness: `undefined`, `null` and `""` are falsy. */
    predicate Truthy() {
      Value? && s != ""
    }
  }

  /** The JSON body of `POST /analyze_seo`: `{ url, target_keyword }`, as the
      form sends it and as the handler destructures it. */
  datatype RequestBody = RequestBody(url: Field, targetKeyword: Field)

  /** Calls the server makes on the headless browser and on the generation API,
      in the order it makes them. */
  datatype Effect =
    | Launch
    | NewPage
    | Goto(url: string)
    | Evaluate
    | Close
    | Post(prompt: string)

  /** Number of occurrences of `x` in `s`. */
  function Count<T(==)>(s: seq<T>, x: T): (n: nat)
    ensures n <= |s|
    ensures n == 0 <==> x !in s
  {
    if s == [] then 0 else (if s[0] == x then 1 else 0) + Count(s[1..], x)
  }
}
