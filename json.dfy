/** JSON values as the client sees them after `json.loads`, with Python's truthiness
    and Python's `str()` rendering. */
module Json {
  import opened Text
  import opened OrderedDict

  /** A decoded JSON value. Objects keep their key order, as Python dicts do. A
      non-integral number is carried as the text Python's `repr` gives it and is never
      computed with. */
  datatype Json =
    | JNull
    | JBool(b: bool)
    | JNum(n: int)
    | JFloat(literal: string)
    | JStr(s: string)
    | JArr(items: seq<Json>)
    | JObj(fields: Dict<Json>)

  /** Python's truth value of the decoded value: `None`, `False`, zero and empty
      containers are false. */
  predicate Truthy(j: Json) {
    match j
    case JNull => false
    case JBool(b) => b
    case JNum(n) => n != 0
    case JFloat(lit) => lit != "0.0" && lit != "-0.0"
    case JStr(s) => s != ""
    case JArr(items) => items != []
    case JObj(fields) => fields != []
  }

  /** The empty object is falsy. */
  lemma EmptyObjectFalsy()
    ensures !Truthy(JObj([]))
  {
  }

  /** An optional dict argument as the JSON value it stands for (`None` is null). */
  function FromOptionalDict(d: Common.Option<Dict<Json>>): Json {
    match d
    case None => JNull
    case Some(fields) => JObj(fields)
  }

  /** Python's `repr()` of the decoded value (strings quoted with `'`). */
  function Repr(j: Json): string
    decreases j
  {
    match j
    case JNull => "None"
    case JBool(b) => if b then "True" else "False"
    case JNum(n) => IntToString(n)
    case JFloat(lit) => lit
    case JStr(s) => "'" + s + "'"
    case JArr(items) =>
      "[" + Join(seq(|items|, i requires 0 <= i < |items| => Repr(items[i])), ", ") + "]"
    case JObj(fields) =>
      "{" + Join(seq(|fields|, i requires 0 <= i < |fields| =>
                       "'" + fields[i].key + "': " + Repr(fields[i].value)), ", ") + "}"
  }

  /** Python's `str()` of the decoded value, as an f-string interpolates it: a string
      is itself, everything else is its `repr`. */
  function Str(j: Json): string {
    if j.JStr? then j.s else Repr(j)
  }
}
