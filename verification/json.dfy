/** The statistics payload as the collector sees it after `json.Unmarshal`:
    an untyped tree of maps, lists and scalars, read with Go's map lookups
    and type assertions. */
module Json {
  import opened Options

  /** A decoded JSON value. `Number` is the float64 Go decodes every JSON
      number to; the collector never does arithmetic on it. */
  datatype Json =
    | Null
    | Bool(b: bool)
    | Number(n: real)
    | String(s: string)
    | Array(items: seq<Json>)
    | Object(fields: map<string, Json>)

  /** Go's `m[k]` on a `map[string]interface{}`, compared against nil: an
      absent key and a JSON null both read as nil, here `None`. */
  function Field(m: map<string, Json>, k: string): Option<Json> {
    if k in m && m[k] != Null then Some(m[k]) else None
  }

  /** A node's response body: either bytes `json.Unmarshal` rejects, or the
      document it decodes to. */
  datatype Body = Undecodable | Decoded(doc: Json)

  /** The `map[string]interface{}` the collector holds after unmarshalling:
      the top-level object, or Go's nil map (no keys at all) when the body
      was undecodable, `null`, or not an object. */
  function RootFields(b: Body): map<string, Json> {
    if b.Decoded? && b.doc.Object? then b.doc.fields else map[]
  }
}
