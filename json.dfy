/**
 * The JSON scalars that flow through the module: values decoded from the
 * NuageX API and the values reported back to Ansible.
 */
module Json {
  /** A decoded JSON scalar; `Null` is Python's `None`. */
  datatype Value = Null | Bool(b: bool) | Int(i: int) | Str(s: string)

  /** A decoded JSON object, or a Python dict with string keys. */
  type Object = map<string, Value>

  /** `d.get(key)`: the value under `key`, or `None` when the key is missing. */
  function Get(d: Object, key: string): (v: Value)
  {
    if key in d then d[key] else Null
  }
}
