/**
 * The JavaScript values a request body or a session payload can carry, with
 * JavaScript's truthiness and its `Number()` coercion, and the HTTP errors
 * the handlers raise through `createError`.
 */
module Web {
  import opened Wrappers

  /** A JSON value as the handlers see it. Numbers are integers here. */
  datatype Value = Undefined | Null | Bool(b: bool) | Num(n: int) | Str(s: string)

  /** A decoded session payload (`Record<string, any>`). */
  type Claims = map<string, Value>

  /** `obj.key`: an absent property reads as `undefined`. */
  function Field(obj: Claims, key: string): Value {
    if key in obj then obj[key] else Undefined
  }

  /** JavaScript truthiness: `!v` is true exactly when this is false. */
  predicate Truthy(v: Value) {
    match v
    case Undefined => false
    case Null => false
    case Bool(b) => b
    case Num(n) => n != 0
    case Str(s) => s != ""
  }

  /**
   * JavaScript's `s.length`: the number of UTF-16 code units, so a
   * character outside the Basic Multilingual Plane (a surrogate pair in
   * JavaScript) counts twice.
   */
  function JsLength(s: string): (n: nat)
    ensures |s| <= n <= 2 * |s|
    ensures n == 0 <==> s == ""
  {
    if s == [] then 0
    else JsLength(s[..|s| - 1]) + (if s[|s| - 1] as int >= 0x1_0000 then 2 else 1)
  }

  /** On text inside the Basic Multilingual Plane, `.length` counts characters. */
  lemma {:induction false} JsLengthOfBmp(s: string)
    requires forall i :: 0 <= i < |s| ==> (s[i] as int) < 0x1_0000
    ensures JsLength(s) == |s|
  {
    if s != [] {
      JsLengthOfBmp(s[..|s| - 1]);
    }
  }

  /** Appending one character adds one or two code units, depending on its plane. */
  lemma JsLengthAppend(s: string, c: char)
    ensures JsLength(s + [c]) == JsLength(s) + (if c as int >= 0x1_0000 then 2 else 1)
  {
    assert (s + [c])[..|s|] == s;
  }

  predicate IsDigit(c: char) { '0' <= c <= '9' }

  /** The value of a string of decimal digits. */
  function DecimalValue(s: string): (n: nat)
    requires forall i :: 0 <= i < |s| ==> IsDigit(s[i])
  {
    if s == [] then 0
    else
      assert IsDigit(s[|s| - 1]);
      10 * DecimalValue(s[..|s| - 1]) + (s[|s| - 1] as int - '0' as int)
  }

  /**
   * `Number(v)`, with `None` standing for NaN. A string converts only when it
   * is a non-empty run of decimal digits; the empty string converts to 0.
   */
  function ToNumber(v: Value): (r: Option<int>)
    ensures v.Num? ==> r == Some(v.n)
    ensures v.Undefined? ==> r.None?
    ensures v.Str? && r.Some? ==> r.value >= 0
  {
    match v
    case Undefined => None
    case Null => Some(0)
    case Bool(b) => Some(if b then 1 else 0)
    case Num(n) => Some(n)
    case Str(s) =>
      if s == "" then Some(0)
      else if forall i :: 0 <= i < |s| ==> IsDigit(s[i]) then Some(DecimalValue(s))
      else None
  }

  /** The errors the handlers throw, one per status code and message kind. */
  datatype Failure =
    | BadRequest        // 400, invalid or missing input
    | Unauthorized      // 401, no session, or no student in it
    | InvalidSession    // 401, a token that does not verify
    | NotFound          // 404
    | Conflict          // 409, the student already holds a turn for the event
    | Internal          // 500, integrity error or failed transaction

  function StatusCode(f: Failure): (code: int)
    ensures 400 <= code < 600
    ensures code == 401 <==> f.Unauthorized? || f.InvalidSession?
  {
    match f
    case BadRequest => 400
    case Unauthorized => 401
    case InvalidSession => 401
    case NotFound => 404
    case Conflict => 409
    case Internal => 500
  }
}
