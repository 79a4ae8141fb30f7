/** Clamping of the two user-tunable window knobs read at the top of retrieve. */
module RetrievalConfig {

  function Min(a: int, b: int): int { if a <= b then a else b }
  function Max(a: int, b: int): int { if a >= b then a else b }

  /** The chunk window, kept in [0,10]. Out-of-range values are clamped, never rejected. */
  function ClampWindow(w: int): (r: int)
    ensures 0 <= r <= 10
    ensures 0 <= w <= 10 ==> r == w
    ensures w < 0 ==> r == 0
    ensures w > 10 ==> r == 10
  {
    Max(0, Min(10, w))
  }

  /** The threshold percentage, kept in [0,100] and then scaled to [0,1]. */
  function ClampThreshold(t: int): (r: real)
    ensures 0.0 <= r <= 1.0
    ensures 0 <= t <= 100 ==> r * 100.0 == t as real
    ensures t < 0 ==> r == 0.0
    ensures t > 100 ==> r == 1.0
  {
    Max(0, Min(100, t)) as real / 100.0
  }
}
