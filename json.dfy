/** The values `json.loads` and `yaml.safe_load` produce. Objects are Python dicts: one value
    per key, the last duplicate winning. */
module Json {
  import opened Wrappers
  import opened Text

  datatype Json =
    | JNull
    | JBool(b: bool)
    | JInt(n: int)
    | JFloat(x: real)   // never computed with, only passed along
    | JString(s: PyStr)
    | JArray(items: seq<Json>)
    | JObject(fields: map<PyStr, Json>)

  /** `json.loads`, a library call outside the model: it either yields a
      value or fails with a diagnostic text. */
  type Parser = PyStr -> Result<Json, PyStr>

  /** `d.get(key, default)`. */
  function Get(fields: map<PyStr, Json>, key: PyStr, default: Json): (v: Json)
    ensures key in fields ==> v == fields[key]
    ensures key !in fields ==> v == default
  {
    if key in fields then fields[key] else default
  }
}
