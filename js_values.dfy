/** The JavaScript value rules the pipeline leans on: truthiness of text,
    `a || b` on text, and `parseFloat(x) || 0` / `parseInt(x) || 0` on a
    numeric field whose text has already been read as a number (or found
    missing or unparsable). */
module JsValues {
  import opened Wrappers

  /** A text value is truthy when it is present and not the empty string. */
  predicate Truthy(s: Option<string>) {
    s.Some? && s.value != ""
  }

  /** JavaScript `a || b` on two text values: `a` when it is truthy, else `b`. */
  function Or(a: Option<string>, b: Option<string>): (r: Option<string>)
    ensures Truthy(a) ==> r == a
    ensures !Truthy(a) ==> r == b
  {
    if Truthy(a) then a else b
  }

  /** JavaScript `a || ""`: the text, or the empty string when it is falsy. */
  function TextOrEmpty(a: Option<string>): (r: string)
    ensures Truthy(a) <==> r != ""
    ensures r != "" ==> a == Some(r)
  {
    if Truthy(a) then a.value else ""
  }

  /** `parseFloat(x) || 0`: a missing or unparsable number reads as 0. */
  function FloatOr0(x: Option<real>): real {
    x.GetOr(0.0)
  }

  /** Truncation toward zero, which is what `parseInt` does to the digits it reads. */
  function Trunc(x: real): (n: int)
    ensures x >= 0.0 ==> 0.0 <= n as real <= x < n as real + 1.0
    ensures x < 0.0 ==> n as real - 1.0 < x <= n as real <= 0.0
  {
    if x >= 0.0 then x.Floor else -((-x).Floor)
  }

  /** `parseInt(x) || 0`: the truncated number, 0 when missing or unparsable. */
  function IntOr0(x: Option<real>): real {
    match x
    case None => 0.0
    case Some(v) => Trunc(v) as real
  }
}
