/** The game logic of the earlier `Assignment2` scene (assignment2.js, with its base
    scene): the same platform generator and jump arithmetic as `SceneImplementation`,
    but the proximity test of line 319 as written, no game-over state, no camera
    tracking and no falling animation. Drawing and logging are not part of this
    model. */
module Prototype {
  import opened Geometry
  import opened Trajectory
  import opened Platforms
  import opened Collision

  class Assignment2 {
    var boxTranslateQueue: seq<Pos>
    var boxCurX: real
    var boxCurZ: real
    var charging: bool
    var jumpDir: bool
    var chargingBeginTime: real
    var chargingEndTime: real
    var chargeTime: real
    var firstJumpBox: Pos
    var secondJumpBox: Pos
    var figureStartState: Vec3
    var figureRestState: Vec3
    var nextDir: bool
    /** Whether `setFloorColor` has turned the floor red. */
    var floorRed: bool
    /** `this.time`: the animation time of the last frame, in seconds. */
    var time: real

    /** The box queue is one the generator can produce, its last entry is the
        cursor, and the active pair is its last two entries, one hop apart along x
        exactly when `nextDir`. */
    ghost predicate PlatformsValid()
      reads this
    {
      && GeneratorState(boxTranslateQueue, Pos(boxCurX, boxCurZ), firstJumpBox, secondJumpBox, nextDir)
      && jumpDir == nextDir
    }

    /** What `collideDetect(figure_rest_state_transform)` returns in this state. */
    ghost function LandingOutcome(): int
      reads this
    {
      PrototypeOutcome(figureRestState, nextDir, firstJumpBox, secondJumpBox)
    }

    /** The fields of the platform generator. */
    function Generator(): (seq<Pos>, real, real, bool, bool, Pos, Pos)
      reads this
    {
      (boxTranslateQueue, boxCurX, boxCurZ, nextDir, jumpDir, firstJumpBox, secondJumpBox)
    }

    /** The generator state is as before. */
    twostate predicate PlatformsUnchanged()
      reads this
    {
      Generator() == old(Generator())
    }

    /** `prepare_jump` ran on a queue of two or more boxes with draws `u` and `coin`:
        the old second box became the first, and one new box was appended. */
    twostate predicate AdvancedBy(u: real, coin: bool)
      requires 0.0 <= u < 1.0
      reads this
    {
      && nextDir == coin
      && firstJumpBox == old(secondJumpBox)
      && secondJumpBox == NextPlatform(old(secondJumpBox), GetRandomInt(MIN_INTERVAL, MAX_INTERVAL, u), coin)
      && boxTranslateQueue == old(boxTranslateQueue) + [secondJumpBox]
    }

    /** The scene as built: the queue holds the origin, then `prepare_jump` adds the
        first box, always along x. The rest transform, undefined in the source until
        the first frame, starts equal to the start transform. */
    constructor (u: real, coin: bool)
      requires 0.0 <= u < 1.0
      ensures PlatformsValid()
      ensures boxTranslateQueue == [ORIGIN, Pos(GetRandomInt(MIN_INTERVAL, MAX_INTERVAL, u), 0.0)]
      ensures nextDir && firstJumpBox == ORIGIN
      ensures figureStartState == figureRestState == Vec3(0.0, 0.0, -3.0)
      ensures !charging && !floorRed
      ensures chargeTime == 0.0 && chargingBeginTime == 0.0 && chargingEndTime == 0.0
    {
      boxTranslateQueue := [ORIGIN];
      boxCurX, boxCurZ := 0.0, 0.0;
      charging := false;
      jumpDir := true;
      chargingBeginTime, chargingEndTime, chargeTime := 0.0, 0.0, 0.0;
      firstJumpBox, secondJumpBox := ORIGIN, ORIGIN;
      figureStartState := Vec3(0.0, 0.0, -3.0);
      figureRestState := Vec3(0.0, 0.0, -3.0);
      nextDir := true;
      floorRed := false;
      time := 0.0;
      new;
      PrepareJump(u, coin);
    }

    /** The "Charge for jump" key going down. */
    method Press()
      modifies this`charging, this`chargingBeginTime
      ensures charging && chargingBeginTime == time
    {
      charging := true;
      chargingBeginTime := time;
    }

    /** The "Charge for jump" key coming up. */
    method Release()
      modifies this`chargingEndTime, this`charging
      ensures !charging && chargingEndTime == time
    {
      chargingEndTime := time;
      charging := false;
    }

    /** `prepare_jump`: append one new box one random interval after the cursor,
        along x for the very first hop and along the coin's axis afterwards. */
    method PrepareJump(u: real, coin: bool)
      requires 0.0 <= u < 1.0
      requires WellFormed(boxTranslateQueue)
      requires boxTranslateQueue[|boxTranslateQueue| - 1] == Pos(boxCurX, boxCurZ)
      modifies this`boxTranslateQueue, this`boxCurX, this`boxCurZ, this`nextDir, this`jumpDir,
               this`firstJumpBox, this`secondJumpBox
      ensures PlatformsValid()
      ensures nextDir == (|old(boxTranslateQueue)| == 1 || coin)
      ensures Pos(boxCurX, boxCurZ) ==
                NextPlatform(Pos(old(boxCurX), old(boxCurZ)), GetRandomInt(MIN_INTERVAL, MAX_INTERVAL, u), nextDir)
      ensures boxTranslateQueue == old(boxTranslateQueue) + [Pos(boxCurX, boxCurZ)]
    {
      var nextTranslation := GetRandomInt(MIN_INTERVAL, MAX_INTERVAL, u);
      if |boxTranslateQueue| == 1 {
        nextDir := true;
      } else {
        nextDir := coin;
      }
      ghost var cur := Pos(boxCurX, boxCurZ);
      if nextDir {
        boxCurX := boxCurX + nextTranslation;
        boxTranslateQueue := boxTranslateQueue + [Pos(boxCurX, boxCurZ)];
        jumpDir := true;
      } else {
        boxCurZ := boxCurZ - nextTranslation;
        boxTranslateQueue := boxTranslateQueue + [Pos(boxCurX, boxCurZ)];
        jumpDir := false;
      }
      firstJumpBox := boxTranslateQueue[|boxTranslateQueue| - 2];
      secondJumpBox := boxTranslateQueue[|boxTranslateQueue| - 1];
      GetRandomIntInRange(u);
      NextPlatformHops(cur, nextTranslation, nextDir);
      AppendKeepsWellFormed(old(boxTranslateQueue), Pos(boxCurX, boxCurZ));
    }

    /** `collideDetect(m)`: classify the figure against the active pair with the
        as-written test; on the second box, advance the generator. */
    method CollideDetect(m: Vec3, u: real, coin: bool) returns (r: int)
      requires PlatformsValid()
      requires 0.0 <= u < 1.0
      modifies this`boxTranslateQueue, this`boxCurX, this`boxCurZ, this`nextDir, this`jumpDir,
               this`firstJumpBox, this`secondJumpBox
      ensures PlatformsValid()
      ensures r == old(PrototypeOutcome(m, nextDir, firstJumpBox, secondJumpBox))
      ensures r == 1 ==> AdvancedBy(u, coin)
      ensures r != 1 ==> PlatformsUnchanged()
    {
      var figure := FigureSpot(m, nextDir);
      if AreCollidedAsWritten(figure, firstJumpBox) {
        return 0;
      } else if AreCollidedAsWritten(figure, secondJumpBox) {
        PrepareJump(u, coin);
        return 1;
      } else {
        return -1;
      }
    }

    /** The effect of the landing branch of `draw_figure`, relative to the state
        before it, where `charge` is the charge time the frame began with: on a miss
        the floor turns red, the charge time stays `charge` and the figure is
        anchored where it stands, with no game over; otherwise the charge time is
        cleared and the
        figure is anchored where it landed; on the second box the generator also
        advances. */
    twostate predicate Landed(u: real, coin: bool, charge: real)
      requires 0.0 <= u < 1.0
      reads this
    {
      && figureStartState == figureRestState == old(figureRestState)
      && (old(LandingOutcome()) == -1 ==> floorRed && chargeTime == charge)
      && (old(LandingOutcome()) != -1 ==> floorRed == old(floorRed) && chargeTime == 0.0)
      && (old(LandingOutcome()) != 1 ==> PlatformsUnchanged())
      && (old(LandingOutcome()) == 1 ==> AdvancedBy(u, coin))
    }

    /** The effect of the in-flight branch of `draw_figure` for offsets `d`: the
        figure stands at its anchor plus the flight offset, the charge time stays
        `charge`, and nothing else moves. */
    twostate predicate Flew(d: Translation, charge: real)
      reads this
    {
      && figureRestState == Translate(old(figureStartState), FlightOffset(old(nextDir), d))
      && PlatformsUnchanged()
      && (figureStartState, floorRed) == old((figureStartState, floorRed))
      && chargeTime == charge
    }

    /** `draw_figure(t0, chargeTime)` at animation time `now`: the flight offsets of
        the parabola, then either the landing classification (once the figure is
        below its take-off height) or the in-flight placement. */
    method DrawFigure(t0: real, chargeTime: real, now: real, u: real, coin: bool)
      requires PlatformsValid()
      requires 0.0 <= u < 1.0
      modifies this`boxTranslateQueue, this`boxCurX, this`boxCurZ, this`nextDir, this`jumpDir,
               this`firstJumpBox, this`secondJumpBox, this`floorRed, this`figureStartState,
               this`figureRestState, this`chargeTime
      ensures PlatformsValid()
      ensures var d := Displacement(chargeTime, now - t0);
        && (-d.ty > 0.0 ==> Landed(u, coin, old(this.chargeTime)))
        && (!(-d.ty > 0.0) ==> Flew(d, old(this.chargeTime)))
    {
      var localChargeTime := chargeTime;
      if localChargeTime > CHARGE_TIME_MAX {
        localChargeTime := CHARGE_TIME_MAX;
      }
      assert localChargeTime == ClampCharge(chargeTime);
      var translationX, translationY := 0.0, 0.0;
      if localChargeTime != 0.0 {
        var velocityX := (VELOCITY_X_MAX * localChargeTime) / CHARGE_TIME_MAX;
        var velocityY := (VELOCITY_Y_MAX * localChargeTime) / CHARGE_TIME_MAX;
        assert Velocity(velocityX, velocityY) == LaunchVelocity(chargeTime);
        var tDelta := now - t0;
        translationX := tDelta * velocityX;
        translationY := tDelta * velocityY + (1.0 / 2.0) * -G * tDelta * tDelta;
      }
      assert Translation(translationX, translationY) == Displacement(chargeTime, now - t0);
      if -translationY > 0.0 {
        var r := CollideDetect(figureRestState, u, coin);
        if r == -1 {
          floorRed := true;
          figureStartState := figureRestState;
          return;
        }
        this.chargeTime := 0.0;
        figureStartState := figureRestState;
      } else {
        figureRestState := Translate(figureStartState,
          if nextDir then Vec3(translationX, 0.0, -translationY) else Vec3(0.0, -translationX, -translationY));
      }
    }

    /** One animation frame at `now` seconds (`display`, without drawing): record the
        time, settle the charge time, then move the figure. `u` and `coin` are the
        random draws `prepare_jump` uses if this frame lands on the second box. */
    method Display(now: real, u: real, coin: bool)
      requires PlatformsValid()
      requires 0.0 <= u < 1.0
      modifies this
      ensures PlatformsValid()
      ensures time == now
      ensures unchanged(this`charging, this`chargingBeginTime, this`chargingEndTime)
      ensures var c := if charging then 0.0 else chargingEndTime - chargingBeginTime;
        var d := Displacement(c, now - chargingEndTime);
        && (-d.ty > 0.0 ==> Landed(u, coin, c))
        && (!(-d.ty > 0.0) ==> Flew(d, c))
    {
      time := now;
      chargeTime := 0.0;
      if !charging {
        chargeTime := chargingEndTime - chargingBeginTime;
      }
      DrawFigure(chargingEndTime, chargeTime, now, u, coin);
    }
  }
}
