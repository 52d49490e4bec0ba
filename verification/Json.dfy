// JSON documents as JSON.parse hands them back, and the lines of a JSONL file.
// Printing and parsing a document is taken to be the identity (section 7 of RFC 8259 keeps raw line
// breaks out of a printed document, so one document is one line).
module Json {
  import opened Common

  datatype Json =
    | Null
    | Bool(b: bool)
    | Num(n: real)
    | Str(s: string)
    | Arr(items: seq<Json>)
    | Obj(fields: map<string, Json>)

  /** One line of a file: empty, not JSON at all, or one document. */
  datatype Line = EmptyLine | NotJson | Document(json: Json)

  /** `source[name]`: undefined when the object has no such field. */
  function Field(json: Json, name: string): Option<Json> {
    if json.Obj? && name in json.fields then Some(json.fields[name]) else None
  }

  function StringField(json: Json, name: string): Option<string> {
    match Field(json, name)
    case Some(Str(s)) => Some(s)
    case _ => None
  }

  const MAX_SAFE_INTEGER: int := 0x1F_FFFF_FFFF_FFFF

  predicate IsSafeInteger(n: real) {
    n.Floor as real == n && -MAX_SAFE_INTEGER <= n.Floor <= MAX_SAFE_INTEGER
  }

  function IntegerField(json: Json, name: string): Option<int> {
    match Field(json, name)
    case Some(Num(n)) => if IsSafeInteger(n) then Some(n.Floor) else None
    case _ => None
  }

  lemma IntegerPrints(i: int)
    ensures (i as real).Floor == i
    ensures IsSafeInteger(i as real) <==> -MAX_SAFE_INTEGER <= i <= MAX_SAFE_INTEGER
  {
  }
}
