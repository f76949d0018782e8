/**
  JavaScript values as the two scripts see them when they read a form field:
  a string, or nothing at all (`undefined` from a missing object key, `null`
  from `FormData.get` or `getAttribute`). JavaScript's `||` treats the empty
  string like a missing value; `Truthy` and `Or` capture exactly that.
 */
module JsValues {

  datatype Option<+T> = None | Some(value: T)

  /** A string-valued lookup: `None` is `undefined` or `null`. */
  type JsString = Option<string>

  /** JavaScript truthiness of a string-or-nothing: present and non-empty. */
  predicate Truthy(v: JsString) {
    v.Some? && v.value != ""
  }

  /** `a || b` on strings-or-nothing: `a` when it is truthy, `b` as it is otherwise. */
  function Or(a: JsString, b: JsString): JsString {
    if Truthy(a) then a else b
  }

  /** `v || ''`: the string itself when truthy, the empty string otherwise. */
  function OrEmpty(v: JsString): string {
    if Truthy(v) then v.value else ""
  }
}
