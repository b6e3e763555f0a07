/** JSON documents as far as the services look into them: a configuration or a
    payload is decoded into a Go `map[string]any`, and only string members are ever
    inspected. */
module Json {
  import opened Wrappers

  /** A member value of a decoded object: a JSON string, or any other JSON value. */
  datatype Value = Str(s: string) | NonString

  type Object = map<string, Value>

  /** A stored json/jsonb column. `json.Unmarshal` into a map accepts an object,
      maps `null` to a nil map, and rejects every other document. */
  datatype Doc = ObjectDoc(fields: Object) | NullDoc | OtherDoc

  /** `json.Unmarshal(bytes, &m)` with `m map[string]any`; None is a nil map. */
  function DecodeObject(d: Doc): Result<Option<Object>, string> {
    match d
    case ObjectDoc(fields) => Success(Some(fields))
    case NullDoc => Success(None)
    case OtherDoc => Failure("json: cannot unmarshal into Go value of type map[string]interface {}")
  }

  /** `json.Marshal` of a `map[string]any`; a nil map marshals as `null`. */
  function EncodeObject(m: Option<Object>): (d: Doc)
    ensures DecodeObject(d) == Success(m)
  {
    match m
    case Some(fields) => ObjectDoc(fields)
    case None => NullDoc
  }

  /** A string member read with a failed type assertion giving "", as in
      `v, _ := cfg[key].(string)`. */
  function StringField(cfg: Object, key: string): (r: string)
    ensures r != "" ==> key in cfg && cfg[key] == Str(r)
    ensures key in cfg && cfg[key].Str? ==> r == cfg[key].s
  {
    if key in cfg && cfg[key].Str? then cfg[key].s else ""
  }
}
