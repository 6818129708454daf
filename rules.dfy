/**
 * The numeric rules of the game scene: the random-draw range, the spawn and
 * clean-up heights, the points awarded, Swift's remainder operator, and the
 * score bookkeeping abstracted over any sequence of scene events.
 */
module Rules {

  /** Bounds of every `GKRandomDistribution` the scene creates (inclusive). */
  const DrawLow := -250
  const DrawHigh := 350
  /** Height at which enemies and bonuses are placed. */
  const SpawnY := 300
  /** A child whose y lies strictly below this is removed on the next frame. */
  const OffscreenY := -300
  /** Points for surviving one spawn tick, and for catching a bonus. */
  const SurvivalPoints := 1
  const BonusPoints := 5

  predicate InDrawRange(r: int) {
    DrawLow <= r <= DrawHigh
  }

  /**
   * Swift's `%` on integers: the remainder of division truncated toward zero,
   * so it takes the sign of the dividend (Dafny's `%` never goes negative).
   */
  function SwiftRem(a: int, b: int): (r: int)
    requires b > 0
    ensures a >= 0 ==> 0 <= r < b
    ensures a < 0 ==> -b < r <= 0
    ensures a == b * (if a >= 0 then a / b else -((-a) / b)) + r
  {
    if a >= 0 then a % b else -((-a) % b)
  }

  /**
   * The bonus-chance test `draw % 2 == 0` as Swift evaluates it; for negative
   * draws it agrees with the Euclidean remainder.
   */
  function IsEvenDraw(draw: int): (even: bool)
    ensures even <==> draw % 2 == 0
  {
    SwiftRem(draw, 2) == 0
  }

  /** What the scene's entry points do to the score, seen from outside. */
  datatype Event =
    | Spawn         // the spawn timer fired (createEnemy)
    | BonusHit      // the player touched a node named "bonus"
    | FatalHit      // the player touched anything else
    | PlayerPruned  // a frame removed the player because it was below OffscreenY
    | Quiet         // any other frame, touch or ignored contact

  /** The score together with whether the player node is still in the scene. */
  datatype Tally = Tally(score: int, playerIn: bool)

  /**
   * The effect of one event: points only while the player is in the scene,
   * never a loss, and nothing brings a removed player back.
   */
  function Step(t: Tally, e: Event): (r: Tally)
    ensures r.score >= t.score
    ensures r.playerIn ==> t.playerIn
    ensures !t.playerIn ==> r == t
    ensures r.score - t.score == (if t.playerIn && e == Spawn then SurvivalPoints
                                  else if t.playerIn && e == BonusHit then BonusPoints else 0)
  {
    match e
    case Spawn => t.(score := t.score + if t.playerIn then SurvivalPoints else 0)
    case BonusHit => t.(score := t.score + if t.playerIn then BonusPoints else 0)
    case FatalHit => t.(playerIn := false)
    case PlayerPruned => t.(playerIn := false)
    case Quiet => t
  }

  /** The tally after the events `es`, applied in order. */
  function Run(t: Tally, es: seq<Event>): Tally
    decreases |es|
  {
    if es == [] then t else Run(Step(t, es[0]), es[1..])
  }

  function Occurrences(es: seq<Event>, e: Event): nat {
    if es == [] then 0 else (if es[0] == e then 1 else 0) + Occurrences(es[1..], e)
  }

  /** No sequence of events ever lowers the score. */
  lemma {:induction false} RunNeverLowersScore(t: Tally, es: seq<Event>)
    ensures Run(t, es).score >= t.score
    decreases |es|
  {
    if es != [] {
      RunNeverLowersScore(Step(t, es[0]), es[1..]);
    }
  }

  /**
   * Once the player has left the scene nothing brings it back, and from then
   * on neither spawn ticks nor bonus contacts change the score.
   */
  lemma {:induction false} RunAfterPlayerGone(t: Tally, es: seq<Event>)
    requires !t.playerIn
    ensures Run(t, es) == t
    decreases |es|
  {
    if es != [] {
      RunAfterPlayerGone(Step(t, es[0]), es[1..]);
    }
  }

  /**
   * While the player stays in the scene, the score grows by exactly one per
   * spawn tick and exactly five per bonus contact.
   */
  lemma {:induction false} RunWhilePlayerIn(t: Tally, es: seq<Event>)
    requires t.playerIn
    requires forall i :: 0 <= i < |es| ==> es[i] in {Spawn, BonusHit, Quiet}
    ensures Run(t, es) == Tally(t.score + SurvivalPoints * Occurrences(es, Spawn)
                                        + BonusPoints * Occurrences(es, BonusHit), true)
    decreases |es|
  {
    if es != [] {
      assert es[0] in {Spawn, BonusHit, Quiet};
      RunWhilePlayerIn(Step(t, es[0]), es[1..]);
    }
  }
}
