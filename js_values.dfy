/** The few JavaScript value rules the user controller leans on: a request
    field is either absent (`undefined`) or a string, a value is "truthy" when
    it is present and non-empty, `a || b` picks the first truthy operand, and
    `toLowerCase` folds upper-case letters (ASCII only in this model). */
module JsValues {

  datatype Option<+T> = None | Some(value: T)

  /** `undefined` and `""` are the falsy values a body field can take. */
  predicate Truthy(v: Option<string>) {
    v.Some? && v.value != ""
  }

  /** JavaScript's `a || b`: `a` when it is truthy, otherwise `b` as it is
      (so a falsy `b` comes back unchanged). */
  function Or(a: Option<string>, b: Option<string>): (r: Option<string>)
    ensures Truthy(r) <==> Truthy(a) || Truthy(b)
    ensures r == a || r == b
    ensures Truthy(a) ==> r == a
    ensures !Truthy(a) ==> r == b
  {
    if Truthy(a) then a else b
  }

  /** `toLowerCase` restricted to ASCII: 'A'..'Z' become 'a'..'z'. */
  function LowerChar(c: char): (d: char)
    ensures 'A' <= c <= 'Z' ==> 'a' <= d <= 'z' && d as int - c as int == 32
    ensures !('A' <= c <= 'Z') ==> d == c
  {
    if 'A' <= c <= 'Z' then (c as int + 32) as char else c
  }

  function Lower(s: string): (r: string)
    ensures |r| == |s|
    ensures forall i :: 0 <= i < |s| ==> r[i] == LowerChar(s[i])
  {
    if s == [] then [] else [LowerChar(s[0])] + Lower(s[1..])
  }

  /** `s` equals the all-lower-case string `lower` once folded to lower case. */
  predicate EqualsIgnoringCase(s: string, lower: string) {
    |s| == |lower| && forall i :: 0 <= i < |s| ==> LowerChar(s[i]) == lower[i]
  }
}
