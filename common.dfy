// Shared value types: the optional values and error results that the
// Python code expresses with None and with raised exceptions.
module Common {

  datatype Option<T> = None | Some(value: T)

  datatype Result<T, E> = Ok(value: T) | Err(error: E)

  /** An HTTP response: the status code and the text of its 'status', 'message' or 'error' key. */
  datatype Reply = Reply(code: int, text: string)

  function Min(a: int, b: int): (r: int)
    ensures r <= a && r <= b && (r == a || r == b)
  {
    if a <= b then a else b
  }

  function Max(a: int, b: int): (r: int)
    ensures r >= a && r >= b && (r == a || r == b)
  {
    if a >= b then a else b
  }

  /** A slice `s[:n]`: the first `n` elements, or all of them when there are fewer. */
  function Take<T>(s: seq<T>, n: nat): (r: seq<T>)
    ensures |r| == Min(|s|, n) && r == s[..|r|]
  {
    if |s| <= n then s else s[..n]
  }

  /**
   * `a // b` on Decimal values with a positive divisor: the quotient is
   * truncated toward zero, so the remainder takes the sign of `a`.
   */
  function DecimalFloorDiv(a: int, b: int): (q: int)
    requires b > 0
    ensures a >= 0 ==> 0 <= a - q * b < b
    ensures a < 0 ==> 0 <= q * b - a < b
  {
    if a >= 0 then a / b else -((-a) / b)
  }

  /** Python's truthiness of an optional string: None and "" are false. */
  predicate Truthy(s: Option<string>)
  {
    s.Some? && s.value != ""
  }

  /** Every element of `s` occurs once. */
  predicate Distinct<T(==)>(s: seq<T>)
  {
    forall i, j :: 0 <= i < j < |s| ==> s[i] != s[j]
  }
}
