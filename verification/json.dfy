/** An abstract JSON value, as both the frontend service and the backend see
    a decoded response body, the HTTP reply that carries it, and the two
    languages' ways of turning a value into text and Python's truthiness. */
module JsonModel {
  import opened Wrappers
  import opened Strings

  /** A decoded JSON value. Numbers are kept exact; objects are maps, as a
      decoder keeps only the last of repeated keys. */
  datatype Json =
    | JNull
    | JBool(b: bool)
    | JNum(n: real)
    | JStr(s: string)
    | JArr(items: seq<Json>)
    | JObj(fields: map<string, Json>)

  /** `"key" in value` for an object; no other JSON value has named keys. */
  predicate HasKey(j: Json, key: string)
  {
    j.JObj? && key in j.fields
  }

  /** The value both text-generation services look for `generated_text`
      in: the first element of a non-empty array, the body itself when it is
      not an array, and nothing for an empty array. */
  function TextSource(data: Json): Option<Json>
  {
    if data.JArr? then (if |data.items| == 0 then None else Some(data.items[0]))
    else Some(data)
  }

  /** Whether JavaScript's `String(value)` throws. An object carrying its
      own `toString` key shadows the inherited method with a value JSON
      cannot make callable, so the conversion falls to the inherited
      `valueOf`, gets the object itself back and throws a TypeError. An
      array converts its elements, so it throws when one of them does. */
  predicate StringThrows(j: Json)
    decreases j
  {
    match j
    case JObj(fields) => "toString" in fields
    case JArr(items) => exists i :: 0 <= i < |items| && StringThrows(items[i])
    case _ => false
  }

  /** JavaScript's `String(value)`, or None where it throws. Numbers go
      through `numberText`, the engine's number-to-string conversion, which
      the model does not spell out. An array prints as its elements joined
      by commas, with null elements printing as nothing; an object prints
      as "[object Object]". */
  function JsString(j: Json, numberText: real -> string): (r: Option<string>)
    ensures r.None? <==> StringThrows(j)
    ensures j.JStr? ==> r == Some(j.s)
    ensures j.JObj? && "toString" !in j.fields ==> r == Some("[object Object]")
    ensures j.JArr? && |j.items| == 0 ==> r == Some("")
    decreases j
  {
    match j
    case JNull => Some("null")
    case JBool(b) => Some(if b then "true" else "false")
    case JNum(n) => Some(numberText(n))
    case JStr(s) => Some(s)
    case JArr(items) =>
      var texts := seq(|items|, i requires 0 <= i < |items| =>
                     if items[i].JNull? then Some("") else JsString(items[i], numberText));
      assert forall i :: 0 <= i < |items| ==> (texts[i].None? <==> StringThrows(items[i]));
      if exists i :: 0 <= i < |texts| && texts[i].None? then None
      else Some(Join(seq(|texts|, i requires 0 <= i < |texts| => texts[i].GetOr("")), ","))
    case JObj(fields) => if "toString" in fields then None else Some("[object Object]")
  }

  /** Python's `str(value)`: a string is itself; anything else is its
      `repr`, which is given as `repr` and not spelled out here. */
  function PyStr(j: Json, repr: Json -> string): (r: string)
    ensures j.JStr? ==> r == j.s
    ensures !j.JStr? ==> r == repr(j)
  {
    if j.JStr? then j.s else repr(j)
  }

  /** Python's truth value of a decoded value: `None`, `False`, zero and
      empty strings, lists and dicts are false. */
  predicate PyTruthy(j: Json)
  {
    match j
    case JNull => false
    case JBool(b) => b
    case JNum(n) => n != 0.0
    case JStr(s) => s != ""
    case JArr(items) => |items| > 0
    case JObj(fields) => |fields| > 0
  }

  /** Python's `a or b`: `a` when it is truthy, otherwise `b`. */
  function PyOr(a: Json, b: Json): (r: Json)
    ensures PyTruthy(a) ==> r == a
    ensures !PyTruthy(a) ==> r == b
  {
    if PyTruthy(a) then a else b
  }

  /** What an inference request comes back with: nothing (the request itself
      failed), or a status, the body text and the body decoded as JSON when
      it is valid JSON. */
  datatype Reply =
    | NoReply
    | Reply(status: int, text: string, body: Option<Json>)
}
