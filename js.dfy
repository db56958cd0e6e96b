/** The JavaScript values the application moves around: JSON documents, numbers
    that may be NaN, truthiness, the conversions `Number(...)`, `parseInt(..., 10)`
    and `String(...)`, and HTTP answers as the browser or the server sees them. */
module Js {
  import opened Strings

  datatype Option<T> = None | Some(value: T)

  /** An integer-valued JavaScript number, or NaN. */
  datatype JsNum = Finite(n: int) | NaN

  /** A JSON document; `JNull` is `null`. */
  datatype Json =
    | JNull
    | JBool(b: bool)
    | JNum(n: int)
    | JStr(s: string)
    | JObj(fields: map<string, Json>)

  /** JavaScript truthiness of a JSON value. */
  predicate Truthy(v: Json) {
    match v
    case JNull => false
    case JBool(b) => b
    case JNum(n) => n != 0
    case JStr(s) => s != ""
    case JObj(_) => true
  }

  /** Truthiness of a number: neither 0 nor NaN. */
  predicate NumTruthy(x: JsNum) {
    x.Finite? && x.n != 0
  }

  /** `a === b` on numbers: NaN equals nothing, not even itself. */
  predicate StrictEq(a: JsNum, b: JsNum) {
    a.Finite? && b.Finite? && a.n == b.n
  }

  /** `v.key`: `None` stands for `undefined`. */
  function Get(v: Json, key: string): (r: Option<Json>)
    ensures r.Some? <==> v.JObj? && key in v.fields
  {
    if v.JObj? && key in v.fields then Some(v.fields[key]) else None
  }

  /** Truthiness of `v.key` (undefined is falsy). */
  predicate FieldTruthy(v: Json, key: string) {
    Get(v, key).Some? && Truthy(Get(v, key).value)
  }

  /** `String(n)` for an integer. */
  function NumberToString(n: int): (r: string)
    ensures |r| >= 1 && forall i :: 0 <= i < |r| ==> !IsSpace(r[i])
  {
    if n < 0 then "-" + NatToString(-n) else NatToString(n)
  }

  /** `String(v)`, which is also what `localStorage.setItem` stores. */
  function ToJsString(v: Json): string {
    match v
    case JNull => "null"
    case JBool(b) => if b then "true" else "false"
    case JNum(n) => NumberToString(n)
    case JStr(s) => s
    case JObj(_) => "[object Object]"
  }

  /** `${v}` in a template literal, where `None` is `undefined`. */
  function Template(v: Option<Json>): string {
    match v
    case None => "undefined"
    case Some(j) => ToJsString(j)
  }

  /** `data.error || fallback`. */
  function ErrorOr(data: Json, fallback: string): (r: string)
    ensures !FieldTruthy(data, "error") ==> r == fallback
    ensures FieldTruthy(data, "error") && Get(data, "error").value.JStr? ==> r == Get(data, "error").value.s
  {
    if FieldTruthy(data, "error") then ToJsString(Get(data, "error").value) else fallback
  }

  /** `Number(s)` for a string: surrounding white space is ignored, the empty
      string is 0, an optionally signed run of decimal digits is its value, and
      anything else is NaN. */
  function NumberOf(s: string): JsNum {
    var t := Trim(s);
    if t == "" then Finite(0)
    else if IsDigits(t) then Finite(DigitsValue(t))
    else if |t| >= 2 && (t[0] == '-' || t[0] == '+') && IsDigits(t[1..]) then
      Finite(if t[0] == '-' then -(DigitsValue(t[1..]) as int) else DigitsValue(t[1..]))
    else NaN
  }

  /** `Number(localStorage.getItem(key))`: a missing item is `null`, and `Number(null)` is 0. */
  function NumberOfItem(item: Option<string>): (r: JsNum)
    ensures item.None? ==> r == Finite(0)
  {
    match item
    case None => Finite(0)
    case Some(s) => NumberOf(s)
  }

  /** `Number(String(n))` is n: a number stored as text reads back unchanged. */
  lemma NumberOfToString(n: int)
    ensures NumberOf(NumberToString(n)) == Finite(n)
  {
    var s := NumberToString(n);
    TrimNoSpace(s);
    if n < 0 {
      assert s[1..] == NatToString(-n);
      DigitsValueOfNatToString(-n);
    } else {
      DigitsValueOfNatToString(n);
    }
  }

  /** `parseInt(s, 10)`: leading white space is skipped, then an optional sign and
      the longest run of decimal digits is read; with no digit the result is NaN. */
  function ParseInt(s: string): (r: JsNum)
    ensures r.Finite? ==> exists k :: 0 <= k < |s| && IsDigit(s[k])
  {
    var t := TrimStart(s);
    var signed := |t| > 0 && (t[0] == '-' || t[0] == '+');
    var body := if signed then t[1..] else t;
    var d := DigitPrefix(body);
    if d == "" then NaN
    else
      assert IsDigit(s[|s| - |body|]);
      Finite(if signed && t[0] == '-' then -(DigitsValue(d) as int) else DigitsValue(d))
  }

  /** `parseInt(String(n), 10)` is n. */
  lemma ParseIntOfToString(n: int)
    ensures ParseInt(NumberToString(n)) == Finite(n)
  {
    var s := NumberToString(n);
    TrimNoSpace(s);
    if n < 0 {
      assert s[1..] == NatToString(-n);
      DigitPrefixOfDigits(s[1..]);
      DigitsValueOfNatToString(-n);
    } else {
      DigitPrefixOfDigits(s);
      DigitsValueOfNatToString(n);
    }
  }

  /** An HTTP answer: status code and JSON body. */
  datatype Response = Response(status: int, body: Json)

  predicate IsOk(status: int) { 200 <= status <= 299 }

  /** What a request yields on the client: no answer at all (network failure), or a response. */
  datatype Outcome = NoResponse | Answered(response: Response)

  /** `err.response?.data?.error || fallback` for a failed axios request: with no
      response the fallback, else the body's error text if it has one. */
  function AxiosErrorText(answer: Outcome, fallback: string): (r: string)
    ensures answer.NoResponse? ==> r == fallback
    ensures answer.Answered? ==> r == ErrorOr(answer.response.body, fallback)
  {
    match answer
    case NoResponse => fallback
    case Answered(resp) => ErrorOr(resp.body, fallback)
  }

  /** A one-field JSON answer such as `{ error: text }` or `{ message: text }`. */
  function Body(key: string, text: string): (j: Json)
    ensures j.JObj? && j.fields.Keys == {key}
    ensures Get(j, key) == Some(JStr(text))
  {
    JObj(map[key := JStr(text)])
  }
}
