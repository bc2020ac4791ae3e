/**
 * JSON objects as the handlers see them: a map from field name to string value.
 * A field that is absent stands for `undefined`. JavaScript truthiness of such a
 * field is "present and not the empty string".
 */
module JsObjects {
  import opened Wrappers

  type Object = map<string, string>

  /** `obj.key` is truthy. */
  predicate Truthy(obj: Object, key: string) {
    key in obj && obj[key] != ""
  }

  /** `obj.key || fallback`. */
  function OrElse(obj: Object, key: string, fallback: string): string {
    if Truthy(obj, key) then obj[key] else fallback
  }

  /** `obj.key`, undefined when absent. */
  function Field(obj: Object, key: string): Option<string> {
    if key in obj then Some(obj[key]) else None
  }
}
