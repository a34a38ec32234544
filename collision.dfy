/** The proximity test (`areCollided`) and the landing classification
    (`collideDetect`) of both versions, as functions of the figure transform and
    the active pair of boxes. */
module Collision {
  import opened Geometry
  import opened Trajectory
  import opened Platforms

  /** Threshold of scene-implementation.js. It equals the box half-width 2 plus the
      figure half-width 0.7 (the boxes are scaled by 2, the figure by 0.7). */
  const SCENE_THRESHOLD: real := 2.7

  /** Threshold of assignment2.js. */
  const PROTOTYPE_THRESHOLD: real := 2.0

  /** `areCollided` of scene-implementation.js: on each axis, the absolute values of
      the two coordinates differ by at most `threshold`. */
  predicate AreCollided(figure: Pos, box: Pos, threshold: real)
  {
    && Abs(Abs(figure.x) - Abs(box.x)) <= threshold
    && Abs(Abs(figure.z) - Abs(box.z)) <= threshold
  }

  /** `Math.abs` applied to a boolean: the boolean is first converted to 1 or 0. */
  function AbsOfBool(b: bool): real
  {
    if b then 1.0 else 0.0
  }

  /** `areCollided` of assignment2.js as written: the x test is the absolute one, but
      on z the comparison sits inside `Math.abs`, so the test is truthy exactly when
      `|fz| - |bz| <= 2` (one-sided). */
  predicate AreCollidedAsWritten(figure: Pos, box: Pos)
  {
    && Abs(Abs(figure.x) - Abs(box.x)) <= PROTOTYPE_THRESHOLD
    && AbsOfBool(Abs(figure.z) - Abs(box.z) <= PROTOTYPE_THRESHOLD) != 0.0
  }

  /** The point `collideDetect` tests: the transform's x and y translation, with y
      negated when the next hop is along z. */
  function FigureSpot(m: Vec3, nextDir: bool): (s: Pos)
    ensures s.x == m.x && Abs(s.z) == Abs(m.y)
  {
    if nextDir then Pos(m.x, m.y) else Pos(m.x, -m.y)
  }

  /** The value `collideDetect` returns: 0 when on the first box, else 1 when on the
      second box, else -1. */
  function Outcome(onFirst: bool, onSecond: bool): (r: int)
    ensures r == 0 <==> onFirst
    ensures r == 1 <==> !onFirst && onSecond
    ensures r == -1 <==> !onFirst && !onSecond
  {
    if onFirst then 0 else if onSecond then 1 else -1
  }

  /** `collideDetect` of scene-implementation.js, without its call to `prepare_jump`. */
  function SceneOutcome(m: Vec3, nextDir: bool, first: Pos, second: Pos): int
  {
    var figure := FigureSpot(m, nextDir);
    Outcome(AreCollided(figure, first, SCENE_THRESHOLD), AreCollided(figure, second, SCENE_THRESHOLD))
  }

  /** `collideDetect` of assignment2.js, without its call to `prepare_jump`. */
  function PrototypeOutcome(m: Vec3, nextDir: bool, first: Pos, second: Pos): int
  {
    var figure := FigureSpot(m, nextDir);
    Outcome(AreCollidedAsWritten(figure, first), AreCollidedAsWritten(figure, second))
  }

  /** The test is blind to signs: negating any coordinate of the figure or of the
      box leaves it unchanged. */
  lemma CollidedIgnoresSigns(f: Pos, b: Pos, threshold: real)
    ensures AreCollided(Pos(-f.x, f.z), b, threshold) == AreCollided(f, b, threshold)
    ensures AreCollided(Pos(f.x, -f.z), b, threshold) == AreCollided(f, b, threshold)
    ensures AreCollided(f, Pos(-b.x, b.z), threshold) == AreCollided(f, b, threshold)
    ensures AreCollided(f, Pos(b.x, -b.z), threshold) == AreCollided(f, b, threshold)
  {
  }

  /** Where figure and box lie on the same side of zero on each axis, the test is the
      plain distance test on both axes. */
  lemma CollidedSameSideIsDistance(f: Pos, b: Pos, threshold: real)
    requires SameSide(f.x, b.x) && SameSide(f.z, b.z)
    ensures AreCollided(f, b, threshold) <==>
              Abs(f.x - b.x) <= threshold && Abs(f.z - b.z) <= threshold
  {
  }

  /** The negation in `collideDetect` has no effect on the result in either version,
      because both tests take the absolute value of the figure's coordinates first. */
  lemma NegationIsIrrelevant(m: Vec3, first: Pos, second: Pos)
    ensures SceneOutcome(m, true, first, second) == SceneOutcome(m, false, first, second)
    ensures PrototypeOutcome(m, true, first, second) == PrototypeOutcome(m, false, first, second)
  {
  }

  /** The as-written test of assignment2.js is one-sided on z, and it accepts every
      point the two-sided test with the same threshold accepts. */
  lemma AsWrittenIsOneSided(f: Pos, b: Pos)
    ensures AreCollidedAsWritten(f, b) <==>
              Abs(Abs(f.x) - Abs(b.x)) <= PROTOTYPE_THRESHOLD && Abs(f.z) - Abs(b.z) <= PROTOTYPE_THRESHOLD
    ensures AreCollided(f, b, PROTOTYPE_THRESHOLD) ==> AreCollidedAsWritten(f, b)
  {
  }

  /** The test of scene-implementation.js accepts a band on each axis: the figure's
      absolute coordinate lies within `threshold` of the box's, on both sides. */
  lemma TwoSidedTestIsBand(f: Pos, b: Pos, threshold: real)
    ensures AreCollided(f, b, threshold) <==>
              && Abs(b.x) - threshold <= Abs(f.x) <= Abs(b.x) + threshold
              && Abs(b.z) - threshold <= Abs(f.z) <= Abs(b.z) + threshold
  {
  }

  /** A figure standing exactly at a box's centre is on that box, in both versions. */
  lemma CentreIsOnBox(b: Pos, threshold: real)
    requires threshold >= 0.0
    ensures AreCollided(b, b, threshold)
    ensures AreCollidedAsWritten(b, b)
  {
  }

  /** A figure that has not moved off the first box of the pair is classified 0. */
  lemma StayingPutIsOutcomeZero(m: Vec3, nextDir: bool, first: Pos, second: Pos)
    requires Pos(m.x, m.y) == first
    ensures SceneOutcome(m, nextDir, first, second) == 0
    ensures PrototypeOutcome(m, nextDir, first, second) == 0
  {
  }

  /** A jump from the centre of the first box whose horizontal travel equals the hop
      to the second box lands on the second box (outcome 1) in both versions, as
      long as the boxes lie in the quadrant the generator uses. */
  lemma {:induction false} ExactHopAdvances(anchor: Vec3, xAxis: bool, first: Pos, second: Pos, ty: real)
    requires Pos(anchor.x, anchor.y) == first
    requires first.x >= 0.0 && first.z <= 0.0
    requires if xAxis then XHop(first, second) else ZHop(first, second)
    ensures var tx := if xAxis then second.x - first.x else first.z - second.z;
      var m := Translate(anchor, FlightOffset(xAxis, Translation(tx, ty)));
      && SceneOutcome(m, xAxis, first, second) == 1
      && PrototypeOutcome(m, xAxis, first, second) == 1
  {
    var tx := if xAxis then second.x - first.x else first.z - second.z;
    var m := Translate(anchor, FlightOffset(xAxis, Translation(tx, ty)));
    var figure := FigureSpot(m, xAxis);
    if xAxis {
      assert figure == second;
    } else {
      assert figure == Pos(second.x, -second.z);
    }
    assert !AreCollidedAsWritten(figure, first);
    assert !AreCollided(figure, first, SCENE_THRESHOLD);
  }

  /** The defect of assignment2.js, line 319: with the pair (5, 0), (5, -7) and the
      next hop along z, a figure that came down at z = -3, in the gap between the two
      boxes, is counted as landed on the second box, where the two-sided test with
      the same threshold reports a miss. */
  lemma GapLandingCountsAsSecondBox()
    ensures PrototypeOutcome(Vec3(5.0, -3.0, -3.0), false, Pos(5.0, 0.0), Pos(5.0, -7.0)) == 1
    ensures var figure := FigureSpot(Vec3(5.0, -3.0, -3.0), false);
      Outcome(AreCollided(figure, Pos(5.0, 0.0), PROTOTYPE_THRESHOLD),
              AreCollided(figure, Pos(5.0, -7.0), PROTOTYPE_THRESHOLD)) == -1
  {
  }
}
