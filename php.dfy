/** The few pieces of PHP semantics the free-shipping engine relies on:
    truthiness of a configuration value, the short ternary `?:` and the
    `(float)` cast. */
module Php {
  import opened Wrappers

  /** PHP truthiness of a string-or-null value: `null`, `""` and `"0"` are
      falsy, every other string (including `"0.0"` and `" "`) is truthy.
      This is also what the `(bool)` cast and the `!` operator compute. */
  predicate Truthy(v: Option<string>) {
    v.Some? && v.value != "" && v.value != "0"
  }

  /** `v ?: fallback`: the value itself when it is truthy, the fallback
      otherwise. */
  function Elvis(v: Option<string>, fallback: string): (r: string)
    ensures Truthy(v) ==> r == v.value
    ensures !Truthy(v) ==> r == fallback
    ensures Truthy(Some(fallback)) ==> Truthy(Some(r))
  {
    if Truthy(v) then v.value else fallback
  }

  /** `(float)` of a numeric configuration value; an absent value casts to
      0.0. */
  function FloatCast(v: Option<real>): (r: real)
    ensures v.None? ==> r == 0.0
    ensures v.Some? ==> r == v.value
  {
    match v
    case None => 0.0
    case Some(x) => x
  }
}
