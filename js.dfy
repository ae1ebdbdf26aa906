/** JavaScript value semantics that the diet tracker's code relies on:
    falsy fall-through of `||`, `Math.round`, truncation by `parseInt`
    on a number, and the `Option` / `Result` shapes used for `null`
    results and error responses. */
module Js {

  datatype Option<T> = None | Some(value: T)

  /** A successful value, or the error message the source sends back. */
  datatype Result<T> = Ok(value: T) | Err(error: string)

  /** A JavaScript number read from a record or a request body.
      `Absent` stands for `undefined`, `null` and `NaN`: all three are
      falsy, so `x || d` yields `d` for each of them. */
  datatype JsNum = Absent | Value(v: real)

  /** A value of a JSON request body field that may hold text or a number. */
  datatype Field = Missing | Null | Text(s: string) | Number(x: real)

  /** JavaScript truthiness of a number: defined and not zero. */
  predicate Truthy(x: JsNum)
  {
    x.Value? && x.v != 0.0
  }

  /** `x || d` for a number `x` and a numeric default `d`. */
  function Or(x: JsNum, d: real): (r: real)
    ensures Truthy(x) ==> r == x.v
    ensures !Truthy(x) ==> r == d
  {
    if Truthy(x) then x.v else d
  }

  /** `x || 0`: the only difference from the number itself is that
      `undefined`, `null` and `NaN` read as 0. */
  lemma OrZero(x: JsNum)
    ensures Or(x, 0.0) == if x.Value? then x.v else 0.0
  {
  }

  /** JavaScript truthiness of a string that may be `undefined` or `null`. */
  predicate TruthyStr(s: Option<string>)
  {
    s.Some? && s.value != ""
  }

  /** `s || d` for a possibly missing string. */
  function OrStr(s: Option<string>, d: string): (r: string)
    ensures TruthyStr(s) ==> r == s.value
    ensures !TruthyStr(s) ==> r == d
  {
    if TruthyStr(s) then s.value else d
  }

  /** `x || d` for an integer read from the database (0 is falsy). */
  function OrInt(x: int, d: int): (r: int)
    ensures x != 0 ==> r == x
    ensures x == 0 ==> r == d
  {
    if x != 0 then x else d
  }

  /** `Math.round`: the nearest integer, halves rounded up. */
  function Round(x: real): (r: int)
    ensures r as real - 0.5 <= x < r as real + 0.5
  {
    (x + 0.5).Floor
  }

  /** Rounding commutes with adding a whole number. */
  lemma RoundShift(x: real, n: int)
    ensures Round(x + n as real) == Round(x) + n
  {
    var a, b := Round(x + n as real), Round(x);
    assert (a - n) as real - 0.5 <= x < (a - n) as real + 0.5;
  }

  /** `Math.round` is monotone. */
  lemma RoundMonotone(x: real, y: real)
    requires x <= y
    ensures Round(x) <= Round(y)
  {
  }

  /** Rounding a whole number gives it back. */
  lemma RoundWhole(n: int)
    ensures Round(n as real) == n
  {
  }

  /** `Math.trunc`, which is what `parseInt` does to a number argument. */
  function Trunc(x: real): (r: int)
    ensures 0.0 <= x ==> r as real <= x < r as real + 1.0
    ensures x < 0.0 ==> r as real - 1.0 < x <= r as real
  {
    if x >= 0.0 then x.Floor else -((-x).Floor)
  }

  /** `Math.max` and `Math.min` on integers. */
  function Max(a: int, b: int): (r: int)
    ensures r >= a && r >= b && (r == a || r == b)
  {
    if a >= b then a else b
  }

  function Min(a: int, b: int): (r: int)
    ensures r <= a && r <= b && (r == a || r == b)
  {
    if a <= b then a else b
  }

  function MinReal(a: real, b: real): (r: real)
    ensures r <= a && r <= b && (r == a || r == b)
  {
    if a <= b then a else b
  }

  /** An average of values that all lie between `lo` and `hi` lies there too. */
  lemma MeanBounds(total: real, n: nat, lo: real, hi: real)
    requires n > 0 && n as real * lo <= total <= n as real * hi
    ensures lo <= total / n as real <= hi
  {
    var d := n as real;
    var q := total / d;
    assert q * d == total;
    assert (q - lo) * d == total - d * lo;
    assert (hi - q) * d == d * hi - total;
    PositiveFactor(q - lo, d);
    PositiveFactor(hi - q, d);
  }

  lemma PositiveFactor(x: real, d: real)
    requires d > 0.0 && x * d >= 0.0
    ensures x >= 0.0
  {
  }

  lemma DivMonotone(a: real, b: real, d: real)
    requires a <= b && d > 0.0
    ensures a / d <= b / d
  {
  }
}
