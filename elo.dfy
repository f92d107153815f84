/** Rating rules of server/src/services/elo.js: the logistic Elo expectation,
    the rounded rating update and the K-factor threshold.

    `Math.pow(10, (rb - ra) / 400)` is a floating-point library call; the
    model receives it as an oracle `pow10` over the integer rating difference
    `rb - ra`, and `ValidPow10` states the laws of the real function
    d |-> 10^(d/400) that the rating properties rest on. */
module Elo {

  type PosReal = r: real | r > 0.0 witness 1.0

  /** Games at or above this count use the small K-factor. */
  const ProvisionalGames := 25
  const ProvisionalK := 32
  const EstablishedK := 16

  /** The laws of 10^(d/400) used below: it is 1 at 0, the value at -d is the
      reciprocal of the value at d, and it grows strictly with d. */
  ghost predicate ValidPow10(pow10: int -> PosReal) {
    && pow10(0) == 1.0
    && (forall d :: pow10(d) * pow10(-d) == 1.0)
    && (forall d, e :: d < e ==> pow10(d) < pow10(e))
  }

  /** Dividing 1 by a larger positive number gives a smaller result. */
  lemma DivMonotone(x: real, y: real)
    requires 0.0 < x < y
    ensures 1.0 / y < 1.0 / x
  {
    var a, b := 1.0 / x, 1.0 / y;
    assert a * x == 1.0 && b * y == 1.0;
    assert a > 0.0 && b > 0.0;
    assert b * x < b * y by { assert b * (y - x) > 0.0; }
    calc {
      b;
    ==
      b * (a * x);
    ==
      (b * x) * a;
    <  { var c := 1.0 - b * x; assert c > 0.0; assert a * c > 0.0; assert a * c == a - (b * x) * a; }
      a;
    }
  }

  /** `expectedScore(ratingA, ratingB)`: A's expected score against B. */
  function ExpectedScore(pow10: int -> PosReal, ratingA: int, ratingB: int): (e: real)
    ensures 0.0 < e < 1.0
  {
    var p := pow10(ratingB - ratingA);
    assert 1.0 / (1.0 + p) < 1.0 by { DivMonotone(1.0, 1.0 + p); }
    1.0 / (1.0 + p)
  }

  /** Both sides' expectations add up to exactly 1. */
  lemma ExpectedScoresSumToOne(pow10: int -> PosReal, a: int, b: int)
    requires ValidPow10(pow10)
    ensures ExpectedScore(pow10, a, b) + ExpectedScore(pow10, b, a) == 1.0
  {
    var p, q := pow10(b - a), pow10(a - b);
    assert p * q == 1.0 by { assert a - b == -(b - a); }
    assert 1.0 / (1.0 + q) == p / (p + 1.0) by {
      assert (1.0 + q) * p == p + 1.0;
    }
    assert 1.0 / (1.0 + p) + p / (p + 1.0) == (1.0 + p) / (1.0 + p);
  }

  /** At equal ratings each side is expected to score exactly one half. */
  lemma ExpectedScoreEqualRatings(pow10: int -> PosReal, a: int)
    requires ValidPow10(pow10)
    ensures ExpectedScore(pow10, a, a) == 0.5
  {
    assert pow10(a - a) == 1.0;
  }

  /** The expectation grows strictly with one's own rating. */
  lemma ExpectedScoreIncreasing(pow10: int -> PosReal, a1: int, a2: int, b: int)
    requires ValidPow10(pow10)
    requires a1 < a2
    ensures ExpectedScore(pow10, a1, b) < ExpectedScore(pow10, a2, b)
  {
    assert b - a2 < b - a1;
    var p1, p2 := pow10(b - a1), pow10(b - a2);
    assert p2 < p1;
    DivMonotone(1.0 + p2, 1.0 + p1);
  }

  /** JavaScript `Math.round`: the nearest integer, halves rounded up. */
  function Round(x: real): (n: int)
    ensures n as real - 0.5 <= x < n as real + 0.5
  {
    (x + 0.5).Floor
  }

  /** `Math.round` is determined by its contract: no other integer is within
      the half-open half-unit window around x. */
  lemma RoundUnique(x: real, n: int)
    requires n as real - 0.5 <= x < n as real + 0.5
    ensures Round(x) == n
  {
    var m := Round(x);
    assert m as real - 0.5 <= x < m as real + 0.5;
    assert n as real - m as real < 1.0 && m as real - n as real < 1.0;
  }

  /** `newRating(old, score, expected, k) = round(old + k * (score - expected))`. */
  function NewRating(oldRating: int, score: real, expected: real, kFactor: int): (r: int)
    ensures var x := oldRating as real + kFactor as real * (score - expected);
      r as real - 0.5 <= x < r as real + 0.5
  {
    Round(oldRating as real + kFactor as real * (score - expected))
  }

  /** A result that matches the expectation leaves an integer rating unchanged. */
  lemma NewRatingAtExpectation(oldRating: int, score: real, kFactor: int)
    ensures NewRating(oldRating, score, score, kFactor) == oldRating
  {
    RoundUnique(oldRating as real + kFactor as real * (score - score), oldRating);
  }

  /** Between equal ratings with K = 32 a win is worth +16 and a loss -16. */
  lemma EqualRatingsExample(pow10: int -> PosReal)
    requires ValidPow10(pow10)
    ensures NewRating(1200, 1.0, ExpectedScore(pow10, 1200, 1200), 32) == 1216
    ensures NewRating(1200, 0.0, ExpectedScore(pow10, 1200, 1200), 32) == 1184
  {
    ExpectedScoreEqualRatings(pow10, 1200);
    RoundUnique(1200.0 + 32.0 * (1.0 - 0.5), 1216);
    RoundUnique(1200.0 + 32.0 * (0.0 - 0.5), 1184);
  }

  /** `kFactorForGames`: provisional players (fewer than 25 games) move faster. */
  function KFactorForGames(gamesPlayed: int): (k: int)
    ensures k == ProvisionalK || k == EstablishedK
    ensures k == ProvisionalK <==> gamesPlayed < ProvisionalGames
  {
    if gamesPlayed < ProvisionalGames then ProvisionalK else EstablishedK
  }

  /** The threshold sits between 24 and 25 games. */
  lemma KFactorThreshold()
    ensures KFactorForGames(24) == 32 && KFactorForGames(25) == 16
  {
  }
}
