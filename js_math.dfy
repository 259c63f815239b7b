// The two Math functions the app relies on, over exact reals.
module JsMath {

  /** `Math.floor(r * n)` for `r = Math.random()`, the index every random pick
      in the app uses; `Math.random()` is the parameter `rand` in [0, 1). */
  function PickIndex(rand: real, n: nat): (i: nat)
    requires 0.0 <= rand < 1.0 && n > 0
    ensures i < n
    ensures i as real <= rand * n as real < i as real + 1.0
  {
    RandBelow(rand, n);
    (rand * n as real).Floor
  }

  lemma RandBelow(rand: real, n: nat)
    requires 0.0 <= rand < 1.0 && n > 0
    ensures 0.0 <= rand * n as real < n as real
  {
    assert rand * n as real <= rand * n as real;
  }

  /** `Math.round`: the nearest integer, halves rounded towards +infinity. */
  function Round(x: real): (r: int)
    ensures r as real - 0.5 <= x < r as real + 0.5
  {
    (x + 0.5).Floor
  }

  lemma {:induction false} RoundMonotone(x: real, y: real)
    requires x <= y
    ensures Round(x) <= Round(y)
  {
    assert (x + 0.5).Floor as real <= x + 0.5 <= y + 0.5 < (y + 0.5).Floor as real + 1.0;
  }

  function Min(a: real, b: real): (m: real)
    ensures m <= a && m <= b && (m == a || m == b)
  {
    if a <= b then a else b
  }
}
