/** JavaScript's number operations the core relies on, over exact reals. */
module JsNumber {

  /** Math.round: the nearest integer, halves rounded towards +infinity. */
  function Round(x: real): (r: int)
    ensures x - 0.5 < r as real <= x + 0.5
  {
    (x + 0.5).Floor
  }

  function Abs(x: real): (r: real)
    ensures r >= 0.0 && (r == x || r == -x)
  {
    if x < 0.0 then -x else x
  }

  lemma RoundOfInteger(n: int)
    ensures Round(n as real) == n
  {
  }
}
