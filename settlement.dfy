/** The settlement rules of `completeBattle` in server/src/index.js: accuracy,
    the winner precedence chain, the knowledge-point (kp) reward, the Elo
    score of an outcome and the streak and per-topic tally updates.

    Accuracy is `correct / total` in exact rational arithmetic; the
    thresholds 0.75 and 0.6 are the rationals 3/4 and 3/5. */
module Settlement {
  import opened Wrappers
  import opened Models

  datatype Side = One | Two {
    function Other(): Side {
      if this == One then Two else One
    }
  }

  /** `winner`: `'one'`, `'two'` or `'draw'`. */
  datatype Outcome = Won(side: Side) | Draw {
    function Swapped(): Outcome {
      match this
      case Won(s) => Won(s.Other())
      case Draw => Draw
    }
  }

  /** What settlement reads of one side: `correctAnswers`, `totalAnswers` and
      `lastCorrectAt` (milliseconds after the start, none when never correct). */
  datatype Tally = Tally(correct: nat, total: nat, lastCorrectAt: Option<int>)

  function SwapForfeit(f: Option<Side>): Option<Side> {
    match f
    case None => None
    case Some(s) => Some(s.Other())
  }

  /** `accuracy(player)`: 0 when nothing was answered. */
  function Accuracy(correct: nat, total: nat): (a: real)
    ensures total == 0 ==> a == 0.0
    ensures total > 0 ==> a * total as real == correct as real
    ensures correct <= total ==> 0.0 <= a <= 1.0
  {
    if total > 0 then correct as real / total as real else 0.0
  }

  function AccuracyOf(t: Tally): real {
    Accuracy(t.correct, t.total)
  }

  /** `(lastCorrectAt ?? Infinity)` of `a` is below that of `b`. */
  predicate EarlierCorrect(a: Option<int>, b: Option<int>) {
    a.Some? && (b.None? || a.value < b.value)
  }

  /** The winner: a forfeiting side loses; otherwise more correct answers,
      then higher accuracy, then the earlier last correct answer wins;
      otherwise the battle is a draw. */
  function DecideWinner(one: Tally, two: Tally, forfeitLoser: Option<Side>): (w: Outcome)
    ensures forfeitLoser.Some? ==> w == Won(forfeitLoser.value.Other())
    ensures forfeitLoser.None? && one.correct != two.correct ==>
      w == Won(if one.correct > two.correct then One else Two)
    ensures forfeitLoser.None? && one.correct == two.correct && AccuracyOf(one) != AccuracyOf(two) ==>
      w == Won(if AccuracyOf(one) > AccuracyOf(two) then One else Two)
    ensures forfeitLoser.None? && one.correct == two.correct && AccuracyOf(one) == AccuracyOf(two) ==>
      && (w == Won(One) <==> EarlierCorrect(one.lastCorrectAt, two.lastCorrectAt))
      && (w == Won(Two) <==> EarlierCorrect(two.lastCorrectAt, one.lastCorrectAt))
  {
    if forfeitLoser == Some(One) then Won(Two)
    else if forfeitLoser == Some(Two) then Won(One)
    else if one.correct > two.correct then Won(One)
    else if two.correct > one.correct then Won(Two)
    else if AccuracyOf(one) > AccuracyOf(two) then Won(One)
    else if AccuracyOf(two) > AccuracyOf(one) then Won(Two)
    else if EarlierCorrect(one.lastCorrectAt, two.lastCorrectAt) then Won(One)
    else if EarlierCorrect(two.lastCorrectAt, one.lastCorrectAt) then Won(Two)
    else Draw
  }

  /** Exchanging the two sides' tallies (and the forfeiting side) exchanges
      the winner: the rules favour neither seat. */
  lemma DecideWinnerSymmetric(one: Tally, two: Tally, forfeitLoser: Option<Side>)
    ensures DecideWinner(two, one, SwapForfeit(forfeitLoser)) == DecideWinner(one, two, forfeitLoser).Swapped()
  {
  }

  /** A draw happens exactly when nobody forfeited and the sides tie on
      correct answers, on accuracy and on the time of the last correct answer. */
  lemma DrawExactlyOnFullTie(one: Tally, two: Tally, forfeitLoser: Option<Side>)
    ensures DecideWinner(one, two, forfeitLoser) == Draw <==>
      forfeitLoser.None? && one.correct == two.correct
      && AccuracyOf(one) == AccuracyOf(two) && one.lastCorrectAt == two.lastCorrectAt
  {
  }

  /** On equal correct counts, the side with fewer (non-zero) answers wins
      by accuracy. */
  lemma FewerAnswersWinTie(one: Tally, two: Tally)
    requires one.correct == two.correct > 0 && 0 < one.total < two.total
    ensures DecideWinner(one, two, None) == Won(One)
  {
    var c, t1, t2 := one.correct as real, one.total as real, two.total as real;
    FewerAnswersHigherAccuracy(AccuracyOf(one), AccuracyOf(two), c, t1, t2);
  }

  lemma FewerAnswersHigherAccuracy(a1: real, a2: real, c: real, t1: real, t2: real)
    requires 0.0 < c && 0.0 < t1 < t2 && a1 * t1 == c && a2 * t2 == c
    ensures a1 > a2
  {
    if a2 <= 0.0 {
      MulPosMonotone(0.0, a2, t2);
    } else if a1 <= a2 {
      MulPosMonotone(a2, a1, t1);
      MulPosMonotoneLeft(t1, t2, a2);
    }
  }

  /** `+50` above 75% accuracy, else `+25` above 60%. */
  function AccuracyBonus(correct: nat, total: nat): (b: nat)
    ensures b == 50 <==> total > 0 && 4 * correct > 3 * total
    ensures b == 25 <==> total > 0 && 4 * correct <= 3 * total && 5 * correct > 3 * total
    ensures b == 0 || b == 25 || b == 50
  {
    AccuracyThresholds(correct, total);
    if Accuracy(correct, total) > 0.75 then 50
    else if Accuracy(correct, total) > 0.6 then 25
    else 0
  }

  lemma AccuracyThresholds(correct: nat, total: nat)
    ensures Accuracy(correct, total) > 0.75 <==> total > 0 && 4 * correct > 3 * total
    ensures Accuracy(correct, total) > 0.6 <==> total > 0 && 5 * correct > 3 * total
  {
    if total > 0 {
      var a, t := Accuracy(correct, total), total as real;
      ScaledThreshold(a, t, correct as real, 0.75);
      ScaledThreshold(a, t, correct as real, 0.6);
    }
  }

  /** With `a * t == c`, `a` exceeds a threshold exactly when `c` exceeds
      the threshold scaled by `t`. */
  lemma ScaledThreshold(a: real, t: real, c: real, x: real)
    requires t > 0.0 && a * t == c
    ensures x < a <==> x * t < c
  {
    MulPosMonotone(x, a, t);
  }

  /** Multiplying by a positive number keeps the order. */
  lemma MulPosMonotone(x: real, y: real, t: real)
    requires t > 0.0
    ensures x < y <==> x * t < y * t
  {
    if x < y {
      assert (y - x) * t > 0.0;
    } else {
      assert (x - y) * t >= 0.0;
    }
  }

  lemma MulPosMonotoneLeft(x: real, y: real, t: real)
    requires t > 0.0
    ensures x < y <==> t * x < t * y
  {
    MulPosMonotone(x, y, t);
  }

  const WinnerBonus := 100

  /** The kp a side earns in a rated battle: 10 per correct answer, the
      accuracy bonus, and 100 more for the winner only. So the reward lies
      between 10 per correct answer and that plus 150, a side gets 100 or
      more above its base exactly when it won, and a draw pays the winner
      bonus to neither side. */
  function KpReward(t: Tally, outcome: Outcome, side: Side): (r: nat)
    ensures 10 * t.correct <= r <= 10 * t.correct + 150
    ensures r >= 10 * t.correct + WinnerBonus <==> outcome == Won(side)
    ensures outcome == Draw ==> r <= 10 * t.correct + 50
  {
    10 * t.correct + AccuracyBonus(t.correct, t.total) + (if outcome == Won(side) then WinnerBonus else 0)
  }

  /** Winning 8 of 10 earns 80 + 50 + 100 = 230. */
  lemma KpRewardExample(last: Option<int>)
    ensures KpReward(Tally(8, 10, last), Won(One), One) == 230
  {
  }

  /** The Elo score of the outcome for a side: 1 for a win, 0.5 for a draw, 0 for a loss. */
  function EloScore(outcome: Outcome, side: Side): (s: real)
    ensures s == 1.0 <==> outcome == Won(side)
    ensures s == 0.0 <==> outcome == Won(side.Other())
    ensures outcome == Draw <==> s == 0.5
  {
    match outcome
    case Draw => 0.5
    case Won(w) => if w == side then 1.0 else 0.0
  }

  /** `stats[topic]` after the battle: correct answers are added to `correct`
      and the rest of the answers to `incorrect`; other topics are untouched. */
  function StatsAfter(stats: map<string, TopicStats>, topic: string, t: Tally): (r: map<string, TopicStats>)
    ensures topic in r && r.Keys == stats.Keys + {topic}
    ensures var before := if topic in stats then stats[topic] else TopicStats(0, 0);
      r[topic] == TopicStats(before.correct + t.correct, before.incorrect + (t.total - t.correct))
    ensures forall k :: k in stats && k != topic ==> r[k] == stats[k]
  {
    var before := if topic in stats then stats[topic] else TopicStats(0, 0);
    stats[topic := TopicStats(before.correct + t.correct, before.incorrect + (t.total - t.correct))]
  }
}
