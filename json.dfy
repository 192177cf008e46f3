/**
 * JSON values as request bodies and upstream replies carry them, with the
 * JavaScript coercions the route handlers apply to them: `String(v)`,
 * `Number(v)` (on integers), `typeof` tests and property reads.
 */
module Json {
  import opened Wrappers
  import opened JsString

  datatype Json =
    | JNull
    | JBool(b: bool)
    | JNum(n: int)
    | JStr(s: String)
    | JArr(elems: seq<Json>)
    | JObj(fields: map<String, Json>)

  /** The error a property read on `null` throws. */
  datatype TypeError = TypeError

  /** `String(v)`: arrays join their elements with ',' (null elements as ''), objects print as "[object Object]". */
  function ToJsString(j: Json): String
  {
    match j
    case JNull => "null"
    case JBool(b) => if b then "true" else "false"
    case JNum(n) => IntToString(n, 10)
    case JStr(s) => s
    case JArr(xs) => Join(seq(|xs|, i requires 0 <= i < |xs| => if xs[i].JNull? then "" else ToJsString(xs[i])), ",")
    case JObj(_) => "[object Object]"
  }

  /**
   * `Number(s)` for a string: surrounding whitespace is ignored, the empty string is 0,
   * and an optionally signed decimal integer is read; anything else is NaN (None).
   */
  function ParseNumber(s: String): (r: Option<int>)
    ensures Trim(s) == [] ==> r == Some(0)
  {
    var t := Trim(s);
    if t == [] then Some(0)
    else if t[0] == '+' then
      match ParseNat(t[1..], 10)
      case None => None
      case Some(n) => Some(n)
    else ParseInt(t, 10)
  }

  /** `Number(v)` for a value that may be undefined (None in, NaN = None out). */
  function ToNumber(v: Option<Json>): Option<int>
  {
    match v
    case None => None
    case Some(JNull) => Some(0)
    case Some(JBool(b)) => Some(if b then 1 else 0)
    case Some(JNum(n)) => Some(n)
    case Some(JStr(s)) => ParseNumber(s)
    case Some(j) => ParseNumber(ToJsString(j))
  }

  /** A rendered integer, handed to `Number`, reads back as itself. */
  lemma NumberOfRenderedInteger(n: int)
    ensures ToNumber(Some(JStr(IntToString(n, 10)))) == Some(n)
  {
    var s := IntToString(n, 10);
    assert IsTrimmed(s) by {
      assert IsNumeral(s[0]) && IsNumeral(s[|s| - 1]);
    }
    TrimOfTrimmed(s);
    IntToStringRoundTrip(n, 10);
    assert s[0] != '+' by { assert IsNumeral(s[0]); }
  }

  /** `body.key`: undefined (None) for a missing key or a non-object, TypeError on null. */
  function Member(body: Json, key: String): (r: Result<Option<Json>, TypeError>)
    ensures r.Err? <==> body.JNull?
    ensures r.Ok? && r.value.Some? ==> body.JObj? && key in body.fields && r.value.value == body.fields[key]
  {
    match body
    case JNull => Err(TypeError)
    case JObj(m) => Ok(if key in m then Some(m[key]) else None)
    case _ => Ok(None)
  }

  /** `typeof v === 'string'`. */
  predicate IsString(v: Option<Json>) {
    v.Some? && v.value.JStr?
  }

  /** An object with one field `key`. */
  function Single(key: String, value: Json): Json {
    JObj(map[key := value])
  }
}
