/** The jump's projectile arithmetic (`getXYTranslations` in scene-implementation.js
    and the inline copy in `draw_figure` of assignment2.js, which use the same constants). */
module Trajectory {
  import opened Geometry

  const VELOCITY_X_MAX: real := 12.0
  const VELOCITY_Y_MAX: real := 6.0
  const G: real := 12.0
  const CHARGE_TIME_MAX: real := 1.0

  datatype Velocity = Velocity(vx: real, vy: real)

  /** The figure's offset from its take-off point: `tx` along the hop axis, `ty` upwards. */
  datatype Translation = Translation(tx: real, ty: real)

  /** The charge time after the clamp: only an upper bound is applied. */
  function ClampCharge(c: real): (k: real)
    ensures k <= CHARGE_TIME_MAX
    ensures k == c <==> c <= CHARGE_TIME_MAX
    ensures c > CHARGE_TIME_MAX ==> k == CHARGE_TIME_MAX
  {
    if c > CHARGE_TIME_MAX then CHARGE_TIME_MAX else c
  }

  /** Launch velocities, proportional to the clamped charge; both stay 0 for a zero charge. */
  function LaunchVelocity(c: real): (v: Velocity)
    ensures v.vy * VELOCITY_X_MAX == v.vx * VELOCITY_Y_MAX
    ensures v == Velocity(0.0, 0.0) <==> c == 0.0
  {
    var k := ClampCharge(c);
    if k != 0.0 then
      Velocity(VELOCITY_X_MAX * k / CHARGE_TIME_MAX, VELOCITY_Y_MAX * k / CHARGE_TIME_MAX)
    else
      Velocity(0.0, 0.0)
  }

  /** `[translation_x, translation_y]` for charge `c`, `tDelta` seconds after release. */
  function Displacement(c: real, tDelta: real): (r: Translation)
    ensures c == 0.0 ==> r == Translation(0.0, 0.0)
    ensures tDelta == 0.0 ==> r == Translation(0.0, 0.0)
  {
    var k := ClampCharge(c);
    if k != 0.0 then
      var v := LaunchVelocity(c);
      Translation(tDelta * v.vx, tDelta * v.vy + (1.0 / 2.0) * -G * tDelta * tDelta)
    else
      Translation(0.0, 0.0)
  }

  /** `jump_distance`: the horizontal speed times the time of flight `2 vy / g`. */
  function JumpDistance(c: real): real
  {
    var v := LaunchVelocity(c);
    v.vx * (2.0 * v.vy / G)
  }

  /** `jump_distance` is `12 k^2` for the clamped charge k. */
  lemma JumpDistanceIsSquare(c: real)
    ensures var k := ClampCharge(c); JumpDistance(c) == VELOCITY_X_MAX * (k * k)
  {
  }

  /** `jump_distance` is never negative, zero only for a zero charge, and at most
      12 units for any non-negative charge. */
  lemma JumpDistanceRange(c: real)
    ensures c == 0.0 ==> JumpDistance(c) == 0.0
    ensures c != 0.0 ==> JumpDistance(c) > 0.0
    ensures 0.0 <= c ==> JumpDistance(c) <= VELOCITY_X_MAX * CHARGE_TIME_MAX
  {
    var k := ClampCharge(c);
    var sq := k * k;
    JumpDistanceIsSquare(c);
    SquareBounds(k);
    assert JumpDistance(c) == VELOCITY_X_MAX * sq;
    assert c != 0.0 ==> sq > 0.0;
    assert 0.0 <= c ==> sq <= 1.0;
  }

  /** Where the in-flight figure stands relative to its anchor: `dx` along x on an
      x-hop, along negative matrix y (the game's z) on a z-hop, height as `-ty`. */
  function FlightOffset(xAxis: bool, d: Translation): (o: Vec3)
    ensures o.z == -d.ty
    ensures xAxis ==> o.y == 0.0 && o.x == d.tx
    ensures !xAxis ==> o.x == 0.0 && o.y == -d.tx
  {
    if xAxis then Vec3(d.tx, 0.0, -d.ty) else Vec3(0.0, -d.tx, -d.ty)
  }

  /** A charge above the maximum behaves exactly as the maximum charge. */
  lemma OverchargeIsFullCharge(c: real, tDelta: real)
    requires c > CHARGE_TIME_MAX
    ensures Displacement(c, tDelta) == Displacement(CHARGE_TIME_MAX, tDelta)
    ensures JumpDistance(c) == JumpDistance(CHARGE_TIME_MAX) == VELOCITY_X_MAX * CHARGE_TIME_MAX
  {
  }

  /** The factored form of the parabola: for a non-zero charge with clamped value k,
      the height is `6 t (k - t)` and the horizontal travel `12 k t`. */
  lemma ParabolaShape(c: real, tDelta: real)
    requires c != 0.0
    ensures var k := ClampCharge(c);
      && Displacement(c, tDelta).tx == VELOCITY_X_MAX * k * tDelta
      && Displacement(c, tDelta).ty == VELOCITY_Y_MAX * (tDelta * (k - tDelta))
  {
  }

  /** For any non-zero charge the figure leaves from height 0, is back at height 0
      after `k` seconds (the clamped charge), and has then travelled `jump_distance`,
      which is `12 k^2`. */
  lemma TakeoffAndTouchdown(c: real)
    requires c != 0.0
    ensures Displacement(c, 0.0) == Translation(0.0, 0.0)
    ensures var k := ClampCharge(c);
      && Displacement(c, k).ty == 0.0
      && Displacement(c, k).tx == JumpDistance(c) == VELOCITY_X_MAX * k * k
  {
    ParabolaShape(c, ClampCharge(c));
  }

  /** The landing test `-translation_y > 0` holds exactly when the charge is
      non-zero and the elapsed time lies outside the interval between 0 and the
      clamped charge k. For a positive charge that is before release or after the
      flight time; a negative charge passes it at every time after release, so such
      a jump lands at once; a zero charge never passes it. */
  lemma {:induction false} LandingIff(c: real, tDelta: real)
    ensures -Displacement(c, tDelta).ty > 0.0 <==>
              c != 0.0 && ((tDelta < 0.0 && tDelta < ClampCharge(c)) || (tDelta > 0.0 && tDelta > ClampCharge(c)))
  {
    if c != 0.0 {
      var k := ClampCharge(c);
      var p := tDelta * (k - tDelta);
      ParabolaShape(c, tDelta);
      assert Displacement(c, tDelta).ty == VELOCITY_Y_MAX * p;
      ArcSign(k, tDelta, p);
    } else {
      assert Displacement(c, tDelta) == Translation(0.0, 0.0);
    }
  }

  /** `t (k - t)` is negative exactly outside the interval between 0 and k. */
  lemma ArcSign(k: real, t: real, p: real)
    requires p == t * (k - t)
    ensures p < 0.0 <==> (t < 0.0 && t < k) || (t > 0.0 && t > k)
  {
    if t < 0.0 && t < k {
      ProductPositive(-t, k - t);
      assert -t * (k - t) == -p;
    } else if t > 0.0 && t > k {
      ProductPositive(t, t - k);
      assert t * (t - k) == -p;
    } else if t < 0.0 {
      ProductNonNegative(-t, t - k);
      assert -t * (t - k) == p;
    } else if t > 0.0 {
      ProductNonNegative(t, k - t);
    } else {
      assert p == 0.0;
    }
  }

  lemma ProductPositive(a: real, b: real)
    requires a > 0.0 && b > 0.0
    ensures a * b > 0.0
  {
  }

  lemma ProductNonNegative(a: real, b: real)
    requires a >= 0.0 && b >= 0.0
    ensures a * b >= 0.0
  {
  }

  lemma SquareBounds(k: real)
    ensures k * k >= 0.0
    ensures k != 0.0 ==> k * k > 0.0
    ensures 0.0 <= k <= 1.0 ==> k * k <= 1.0
  {
    if k < 0.0 {
      ProductPositive(-k, -k);
      assert -k * -k == k * k;
    } else if k > 0.0 {
      ProductPositive(k, k);
      if k <= 1.0 {
        SquareAtMostOne(k);
      }
    }
  }

  lemma SquareAtMostOne(k: real)
    requires 0.0 <= k <= 1.0
    ensures k * k <= 1.0
  {
    ProductNonNegative(k, 1.0 - k);
    assert k * (1.0 - k) == k - k * k;
  }
}
