/** The game logic of `SceneImplementation` (scene-implementation.js): the platform
    generator, the landing classification, the per-frame jump/landing update with the
    game-over flag and the falling animation, and the camera offsets that follow the
    figure. Drawing, audio, the rotation used for drawing and the fixed `look_at`
    matrix are not part of this model. */
module Scene {
  import opened Geometry
  import opened Trajectory
  import opened Platforms
  import opened Collision

  /** How far the figure sinks per falling frame, and how far it may sink in all. */
  const FALL_STEP: real := 0.1
  const FALL_DISTANCE: real := 2.0

  /** The part of the scene the falling branch of `drawFigure` changes. */
  datatype Fall = Fall(rest: Vec3, fallDis: real)

  /** One falling frame: while `fall_dis > 0` the figure moves 0.1 along z and
      `fall_dis` shrinks by 0.1; afterwards nothing changes. */
  function FallStep(f: Fall): (g: Fall)
    ensures g.rest.x == f.rest.x && g.rest.y == f.rest.y
    ensures g.rest.z >= f.rest.z && g.fallDis <= f.fallDis
    ensures g.rest.z - f.rest.z == f.fallDis - g.fallDis
  {
    if f.fallDis > 0.0 then
      Fall(Translate(f.rest, Vec3(0.0, 0.0, FALL_STEP)), f.fallDis - FALL_STEP)
    else
      f
  }

  /** `n` consecutive falling frames. */
  function Falling(f: Fall, n: nat): Fall
    decreases n
  {
    if n == 0 then f else Falling(FallStep(f), n - 1)
  }

  /** Starting with `fall_dis` equal to k tenths, the figure sinks one tenth per
      frame for exactly k frames, and then stays where it is. */
  lemma {:induction false} FallLasts(f: Fall, k: nat, n: nat)
    requires f.fallDis == (k as real) / 10.0
    ensures n <= k ==>
      Falling(f, n) == Fall(Translate(f.rest, Vec3(0.0, 0.0, (n as real) / 10.0)), ((k - n) as real) / 10.0)
    ensures k <= n ==>
      Falling(f, n) == Fall(Translate(f.rest, Vec3(0.0, 0.0, (k as real) / 10.0)), 0.0)
    decreases n
  {
    if n > 0 {
      if k > 0 {
        var g := FallStep(f);
        assert g == Fall(Translate(f.rest, Vec3(0.0, 0.0, 1.0 / 10.0)), ((k - 1) as real) / 10.0);
        FallLasts(g, k - 1, n - 1);
      } else {
        assert FallStep(f) == f;
        FallLasts(f, k, n - 1);
      }
    }
  }

  /** From `fall_dis = 2` the figure sinks exactly 2 units, over 20 frames. */
  lemma FullFall(rest: Vec3, n: nat)
    requires n >= 20
    ensures Falling(Fall(rest, FALL_DISTANCE), 20) == Falling(Fall(rest, FALL_DISTANCE), n)
    ensures Falling(Fall(rest, FALL_DISTANCE), n) == Fall(Translate(rest, Vec3(0.0, 0.0, 2.0)), 0.0)
  {
    FallLasts(Fall(rest, FALL_DISTANCE), 20, 20);
    FallLasts(Fall(rest, FALL_DISTANCE), 20, n);
  }

  class SceneImplementation {
    var boxTranslateQueue: seq<Pos>
    var boxCurX: real
    var boxCurZ: real
    var charging: bool
    var jumpDir: bool
    var chargingBeginTime: real
    var chargingEndTime: real
    var chargeTime: real
    var firstJumpBox: Pos
    var secondJumpBox: Pos
    var figureStartState: Vec3
    var figureRestState: Vec3
    var nextDir: bool
    var lastDir: bool
    var gameOver: bool
    /** Whether `setFloorColor` has turned the floor red. */
    var floorRed: bool
    var cameraHorizontalTranslation: real
    var cameraDepthTranslation: real
    /** The translation composed after the fixed `look_at` of `initial_camera_location`. */
    var initialCameraLocation: Vec3
    var fallDis: real
    var jumpDistance: real
    var mXTrans: real
    var mYTrans: real
    /** `this.time`: the animation time of the last frame, in seconds. */
    var time: real

    /** The box queue is one the generator can produce, its last entry is the
        cursor, and the active pair is its last two entries, one hop apart along x
        exactly when `nextDir`. */
    ghost predicate PlatformsValid()
      reads this`boxTranslateQueue, this`boxCurX, this`boxCurZ, this`nextDir, this`jumpDir,
               this`firstJumpBox, this`secondJumpBox
    {
      && GeneratorState(boxTranslateQueue, Pos(boxCurX, boxCurZ), firstJumpBox, secondJumpBox, nextDir)
      && jumpDir == nextDir
    }

    /** Only the camera accumulator of the current hop axis is ever non-zero. */
    ghost predicate CameraValid()
      reads this`nextDir, this`cameraDepthTranslation, this`cameraHorizontalTranslation
    {
      && (nextDir ==> cameraDepthTranslation == 0.0)
      && (!nextDir ==> cameraHorizontalTranslation == 0.0)
    }

    ghost predicate Valid()
      reads this`boxTranslateQueue, this`boxCurX, this`boxCurZ, this`nextDir, this`jumpDir,
               this`firstJumpBox, this`secondJumpBox, this`cameraDepthTranslation,
               this`cameraHorizontalTranslation
    {
      PlatformsValid() && CameraValid()
    }

    /** The camera translation `setUpCameraLoc` installs each frame. */
    function CameraLocation(): Vec3
      reads this`initialCameraLocation, this`cameraHorizontalTranslation, this`cameraDepthTranslation
    {
      Translate(initialCameraLocation, Vec3(-cameraHorizontalTranslation, -cameraDepthTranslation, 0.0))
    }

    /** What `collideDetect(figure_rest_state_transform)` returns in this state. */
    ghost function LandingOutcome(): int
      reads this`figureRestState, this`nextDir, this`firstJumpBox, this`secondJumpBox
    {
      SceneOutcome(figureRestState, nextDir, firstJumpBox, secondJumpBox)
    }

    /** The fields of the platform generator. */
    function Generator(): (seq<Pos>, real, real, bool, bool, Pos, Pos)
      reads this
    {
      (boxTranslateQueue, boxCurX, boxCurZ, nextDir, jumpDir, firstJumpBox, secondJumpBox)
    }

    /** `charging_begin_time`, `charging_end_time` and `charge_time`. */
    function Timers(): (real, real, real)
      reads this
    {
      (chargingBeginTime, chargingEndTime, chargeTime)
    }

    /** The fields `setUpCameraLoc` reads. */
    function CameraState(): (Vec3, real, real)
      reads this
    {
      (initialCameraLocation, cameraHorizontalTranslation, cameraDepthTranslation)
    }

    /** The generator state is as before. */
    twostate predicate PlatformsUnchanged()
      reads this
    {
      Generator() == old(Generator())
    }

    /** `prepare_jump` ran on a queue of two or more boxes with draws `u` and `coin`:
        the old second box became the first, and one new box was appended. */
    twostate predicate AdvancedBy(u: real, coin: bool)
      requires 0.0 <= u < 1.0
      reads this
    {
      && nextDir == coin
      && firstJumpBox == old(secondJumpBox)
      && secondJumpBox == NextPlatform(old(secondJumpBox), GetRandomInt(MIN_INTERVAL, MAX_INTERVAL, u), coin)
      && boxTranslateQueue == old(boxTranslateQueue) + [secondJumpBox]
    }

    /** The scene as built: the queue holds the origin, then `prepare_jump` adds the
        first box, always along x. `u` and `coin` are the random draws it uses. */
    constructor (u: real, coin: bool)
      requires 0.0 <= u < 1.0
      ensures Valid()
      ensures boxTranslateQueue == [ORIGIN, Pos(GetRandomInt(MIN_INTERVAL, MAX_INTERVAL, u), 0.0)]
      ensures nextDir && firstJumpBox == ORIGIN
      ensures figureStartState == Vec3(0.0, 0.0, -3.0) && figureRestState == Vec3(0.0, 0.0, 0.0)
      ensures !charging && !gameOver && !floorRed
      ensures chargeTime == 0.0 && chargingBeginTime == 0.0 && chargingEndTime == 0.0
      ensures cameraHorizontalTranslation == 0.0 && cameraDepthTranslation == 0.0
      ensures initialCameraLocation == Vec3(-5.0, 0.0, 0.0)
      ensures fallDis == FALL_DISTANCE && jumpDistance == 0.0
    {
      boxTranslateQueue := [ORIGIN];
      boxCurX, boxCurZ := 0.0, 0.0;
      charging := false;
      jumpDir := true;
      chargingBeginTime, chargingEndTime, chargeTime := 0.0, 0.0, 0.0;
      firstJumpBox, secondJumpBox := ORIGIN, ORIGIN;
      figureStartState := Vec3(0.0, 0.0, -3.0);
      figureRestState := Vec3(0.0, 0.0, 0.0);
      nextDir, lastDir := true, true;
      gameOver, floorRed := false, false;
      cameraHorizontalTranslation, cameraDepthTranslation := 0.0, 0.0;
      initialCameraLocation := Vec3(-5.0, 0.0, 0.0);
      fallDis := FALL_DISTANCE;
      jumpDistance := 0.0;
      mXTrans, mYTrans := 0.0, 0.0;
      time := 0.0;
      new;
      PrepareJump(u, coin);
    }

    /** The "Charge for jump" key going down. */
    method Press()
      modifies this`charging, this`chargingBeginTime
      ensures charging && chargingBeginTime == time
    {
      charging := true;
      chargingBeginTime := time;
    }

    /** The "Charge for jump" key coming up: once the game is over, charging stays on. */
    method Release()
      modifies this`chargingEndTime, this`charging
      ensures chargingEndTime == time
      ensures charging == (old(charging) && gameOver)
    {
      chargingEndTime := time;
      if !gameOver {
        charging := false;
      }
    }

    /** `prepare_jump`: append one new box one random interval after the cursor,
        along x for the very first hop and along the coin's axis afterwards. */
    method PrepareJump(u: real, coin: bool)
      requires 0.0 <= u < 1.0
      requires WellFormed(boxTranslateQueue)
      requires boxTranslateQueue[|boxTranslateQueue| - 1] == Pos(boxCurX, boxCurZ)
      modifies this`boxTranslateQueue, this`boxCurX, this`boxCurZ, this`nextDir, this`jumpDir,
               this`firstJumpBox, this`secondJumpBox
      ensures PlatformsValid()
      ensures nextDir == (|old(boxTranslateQueue)| == 1 || coin)
      ensures Pos(boxCurX, boxCurZ) ==
                NextPlatform(Pos(old(boxCurX), old(boxCurZ)), GetRandomInt(MIN_INTERVAL, MAX_INTERVAL, u), nextDir)
      ensures boxTranslateQueue == old(boxTranslateQueue) + [Pos(boxCurX, boxCurZ)]
    {
      var nextTranslation := GetRandomInt(MIN_INTERVAL, MAX_INTERVAL, u);
      if |boxTranslateQueue| == 1 {
        nextDir := true;
      } else {
        nextDir := coin;
      }
      ghost var cur := Pos(boxCurX, boxCurZ);
      if nextDir {
        boxCurX := boxCurX + nextTranslation;
        boxTranslateQueue := boxTranslateQueue + [Pos(boxCurX, boxCurZ)];
        jumpDir := true;
      } else {
        boxCurZ := boxCurZ - nextTranslation;
        boxTranslateQueue := boxTranslateQueue + [Pos(boxCurX, boxCurZ)];
        jumpDir := false;
      }
      firstJumpBox := boxTranslateQueue[|boxTranslateQueue| - 2];
      secondJumpBox := boxTranslateQueue[|boxTranslateQueue| - 1];
      GetRandomIntInRange(u);
      NextPlatformHops(cur, nextTranslation, nextDir);
      AppendKeepsWellFormed(old(boxTranslateQueue), Pos(boxCurX, boxCurZ));
    }

    /** `collideDetect(m)`: classify the figure against the active pair; on the
        second box, advance the generator. */
    method CollideDetect(m: Vec3, u: real, coin: bool) returns (r: int)
      requires PlatformsValid()
      requires 0.0 <= u < 1.0
      modifies this`boxTranslateQueue, this`boxCurX, this`boxCurZ, this`nextDir, this`jumpDir,
               this`firstJumpBox, this`secondJumpBox
      ensures PlatformsValid()
      ensures r == old(SceneOutcome(m, nextDir, firstJumpBox, secondJumpBox))
      ensures r == 1 ==> AdvancedBy(u, coin)
      ensures r != 1 ==> PlatformsUnchanged()
    {
      var figure := FigureSpot(m, nextDir);
      if AreCollided(figure, firstJumpBox, SCENE_THRESHOLD) {
        return 0;
      } else if AreCollided(figure, secondJumpBox, SCENE_THRESHOLD) {
        PrepareJump(u, coin);
        return 1;
      } else {
        return -1;
      }
    }

    /** `getXYTranslations`: the flight offsets for `chargeTime`, `now - t0` seconds
        after release, also recording `jump_distance`. */
    method GetXYTranslations(t0: real, chargeTime: real, now: real) returns (tx: real, ty: real)
      modifies this`jumpDistance
      ensures Translation(tx, ty) == Displacement(chargeTime, now - t0)
      ensures jumpDistance == JumpDistance(chargeTime)
    {
      var localChargeTime := chargeTime;
      if localChargeTime > CHARGE_TIME_MAX {
        localChargeTime := CHARGE_TIME_MAX;
      }
      assert localChargeTime == ClampCharge(chargeTime);
      var velocityX, velocityY := 0.0, 0.0;
      tx, ty := 0.0, 0.0;
      if localChargeTime != 0.0 {
        velocityX := (VELOCITY_X_MAX * localChargeTime) / CHARGE_TIME_MAX;
        velocityY := (VELOCITY_Y_MAX * localChargeTime) / CHARGE_TIME_MAX;
        assert Velocity(velocityX, velocityY) == LaunchVelocity(chargeTime);
        var tDelta := now - t0;
        tx := tDelta * velocityX;
        ty := tDelta * velocityY + (1.0 / 2.0) * -G * tDelta * tDelta;
      }
      jumpDistance := velocityX * (2.0 * velocityY / G);
    }

    /** `checkGameOver`: on a miss, end the game, turn the floor red and make the
        rest position the new start. */
    method CheckGameOver(u: real, coin: bool) returns (over: bool)
      requires PlatformsValid()
      requires 0.0 <= u < 1.0
      modifies this`boxTranslateQueue, this`boxCurX, this`boxCurZ, this`nextDir, this`jumpDir,
               this`firstJumpBox, this`secondJumpBox, this`gameOver, this`floorRed, this`figureStartState
      ensures PlatformsValid()
      ensures over <==> old(LandingOutcome()) == -1
      ensures old(LandingOutcome()) == 1 ==> AdvancedBy(u, coin)
      ensures old(LandingOutcome()) != 1 ==> PlatformsUnchanged()
      ensures over ==> gameOver && floorRed && figureStartState == figureRestState
      ensures !over ==> unchanged(this`gameOver, this`floorRed, this`figureStartState)
    {
      var r := CollideDetect(figureRestState, u, coin);
      if r == -1 {
        gameOver := true;
        floorRed := true;
        figureStartState := figureRestState;
        return true;
      }
      return false;
    }

    /** `resetTimers`. */
    method ResetTimers()
      modifies this`chargeTime, this`chargingEndTime, this`chargingBeginTime
      ensures chargeTime == 0.0 && chargingEndTime == 0.0 && chargingBeginTime == 0.0
    {
      chargeTime := 0.0;
      chargingEndTime := 0.0;
      chargingBeginTime := 0.0;
    }

    /** `resetCameraTranslations`. */
    method ResetCameraTranslations()
      modifies this`cameraHorizontalTranslation, this`cameraDepthTranslation
      ensures cameraHorizontalTranslation == 0.0 && cameraDepthTranslation == 0.0
    {
      cameraHorizontalTranslation := 0.0;
      cameraDepthTranslation := 0.0;
    }

    /** `changeInitCameraLoc`: fold the accumulator of the last hop's axis into the
        initial camera location. */
    method ChangeInitCameraLoc()
      modifies this`initialCameraLocation
      ensures initialCameraLocation == Translate(old(initialCameraLocation),
        if lastDir then Vec3(-cameraHorizontalTranslation, 0.0, 0.0)
        else Vec3(0.0, -cameraDepthTranslation, 0.0))
    {
      var xCamHorTran, yCamHorTran :=
        if lastDir then -cameraHorizontalTranslation else 0.0,
        if lastDir then 0.0 else -cameraDepthTranslation;
      initialCameraLocation := Translate(initialCameraLocation, Vec3(xCamHorTran, yCamHorTran, 0.0));
    }

    /** `cameraChangeAndRestStateChange`: place the figure at its start plus the
        flight offset, and let the camera accumulator of the hop axis follow it. */
    method CameraChangeAndRestStateChange(tx: real, ty: real)
      requires CameraValid()
      modifies this`figureRestState, this`cameraHorizontalTranslation, this`cameraDepthTranslation,
               this`mXTrans, this`mYTrans
      ensures CameraValid()
      ensures figureRestState == Translate(figureStartState, FlightOffset(nextDir, Translation(tx, ty)))
      ensures chargeTime != 0.0 ==>
        CameraLocation() == Translate(initialCameraLocation,
          Vec3(figureStartState.x - figureRestState.x, figureStartState.y - figureRestState.y, 0.0))
      ensures chargeTime == 0.0 ==> unchanged(this`cameraHorizontalTranslation, this`cameraDepthTranslation)
      ensures mXTrans == figureRestState.x - figureStartState.x
      ensures mYTrans == figureRestState.y - figureStartState.y
    {
      figureRestState := figureStartState;
      var xTrans, yTrans := if nextDir then tx else 0.0, if nextDir then 0.0 else -tx;
      if nextDir {
        if chargeTime != 0.0 {
          cameraHorizontalTranslation := tx;
        }
      } else {
        if chargeTime != 0.0 {
          cameraDepthTranslation := -tx;
        }
      }
      figureRestState := Translate(figureRestState, Vec3(xTrans, yTrans, -ty));
      mXTrans := xTrans;
      mYTrans := yTrans;
    }

    /** The state change of `drawFigure`: a falling frame when `isFalling`, otherwise
        nothing (the rotation it draws with is not kept). */
    method DrawFigure(isFalling: bool)
      modifies this`figureRestState, this`fallDis
      ensures isFalling ==> Fall(figureRestState, fallDis) == FallStep(old(Fall(figureRestState, fallDis)))
      ensures !isFalling ==> unchanged(this`figureRestState, this`fallDis)
    {
      if isFalling && fallDis > 0.0 {
        figureRestState := Translate(figureRestState, Vec3(0.0, 0.0, FALL_STEP));
        fallDis := fallDis - FALL_STEP;
      }
    }

    /** The effect of the landing branch of `checkAndJump`, relative to the state
        before it, where `charge` is the charge time the frame began with: a miss
        ends the game, turns the floor red, anchors the figure and runs one falling
        frame, leaving the timers and the camera alone; a landing on either box
        resets the timers and the camera accumulators (folding them into the camera
        so it does not move) and anchors the figure where it landed; a landing on
        the second box also advances the generator. */
    twostate predicate Landed(u: real, coin: bool, charge: real)
      requires 0.0 <= u < 1.0
      reads this
    {
      && lastDir == old(nextDir)
      && (mXTrans, mYTrans) == old((mXTrans, mYTrans))
      && (old(LandingOutcome()) == -1 ==>
            && (gameOver, floorRed, figureStartState) == (true, true, old(figureRestState))
            && Fall(figureRestState, fallDis) == FallStep(Fall(old(figureRestState), old(fallDis)))
            && PlatformsUnchanged()
            && Timers() == (old(chargingBeginTime), old(chargingEndTime), charge)
            && CameraState() == old(CameraState()))
      && (old(LandingOutcome()) != -1 ==>
            && (gameOver, floorRed, fallDis) == old((gameOver, floorRed, fallDis))
            && (figureStartState, figureRestState) == (old(figureRestState), old(figureRestState))
            && (Timers(), cameraHorizontalTranslation, cameraDepthTranslation) == ((0.0, 0.0, 0.0), 0.0, 0.0)
            && CameraLocation() == old(CameraLocation()))
      && (old(LandingOutcome()) == 0 ==> PlatformsUnchanged())
      && (old(LandingOutcome()) == 1 ==> AdvancedBy(u, coin))
    }

    /** The effect of the in-flight branch of `checkAndJump` for offsets `(tx, ty)`,
        where `charge` is the charge time the frame began with: the figure stands at
        its anchor plus the flight offset, the generator, the game state and the
        timers are as before, and the camera has moved with the figure for a
        non-zero charge and not at all otherwise. */
    twostate predicate Flew(tx: real, ty: real, charge: real)
      reads this
    {
      && figureRestState == Translate(old(figureStartState), FlightOffset(old(nextDir), Translation(tx, ty)))
      && PlatformsUnchanged()
      && (gameOver, floorRed, figureStartState, fallDis, lastDir)
           == old((gameOver, floorRed, figureStartState, fallDis, lastDir))
      && Timers() == (old(chargingBeginTime), old(chargingEndTime), charge)
      && initialCameraLocation == old(initialCameraLocation)
      && (charge != 0.0 ==>
            CameraLocation() == Translate(initialCameraLocation,
              Vec3(figureStartState.x - figureRestState.x, figureStartState.y - figureRestState.y, 0.0)))
      && (charge == 0.0 ==> CameraState() == old(CameraState()))
      && (mXTrans, mYTrans) == (figureRestState.x - figureStartState.x, figureRestState.y - figureStartState.y)
    }

    /** The rest of the landing branch of `checkAndJump` once the landing was not a
        miss: reset the timers, fold the camera accumulators into the initial camera
        location (so the camera stays put), and anchor the figure where it stands. */
    method Settle()
      requires lastDir ==> cameraDepthTranslation == 0.0
      requires !lastDir ==> cameraHorizontalTranslation == 0.0
      requires PlatformsValid()
      modifies this`chargeTime, this`chargingEndTime, this`chargingBeginTime, this`initialCameraLocation,
               this`cameraHorizontalTranslation, this`cameraDepthTranslation, this`figureStartState,
               this`figureRestState, this`fallDis
      ensures Valid()
      ensures chargeTime == 0.0 && chargingEndTime == 0.0 && chargingBeginTime == 0.0
      ensures cameraHorizontalTranslation == 0.0 && cameraDepthTranslation == 0.0
      ensures CameraLocation() == old(CameraLocation())
      ensures figureStartState == figureRestState == old(figureRestState)
      ensures fallDis == old(fallDis)
    {
      DrawFigure(false);
      ResetTimers();
      ChangeInitCameraLoc();
      ResetCameraTranslations();
      figureStartState := figureRestState;
    }

    /** The start of the landing branch of `checkAndJump`: remember the axis of the
        hop just made, then classify the landing with `checkGameOver`. */
    method Judge(u: real, coin: bool) returns (over: bool)
      requires PlatformsValid()
      requires 0.0 <= u < 1.0
      modifies this`lastDir, this`boxTranslateQueue, this`boxCurX, this`boxCurZ, this`nextDir, this`jumpDir,
               this`firstJumpBox, this`secondJumpBox, this`gameOver, this`floorRed, this`figureStartState
      ensures PlatformsValid()
      ensures lastDir == old(nextDir)
      ensures over <==> old(LandingOutcome()) == -1
      ensures old(LandingOutcome()) == 1 ==> AdvancedBy(u, coin)
      ensures old(LandingOutcome()) != 1 ==> PlatformsUnchanged()
      ensures over ==> (gameOver, floorRed, figureStartState) == (true, true, figureRestState)
      ensures !over ==> (gameOver, floorRed, figureStartState) == old((gameOver, floorRed, figureStartState))
    {
      lastDir := nextDir;
      over := CheckGameOver(u, coin);
    }

    /** The landing branch of `checkAndJump` after `checkGameOver` has answered
        `over`: one falling frame on a miss, otherwise settling on the box. */
    method Conclude(over: bool)
      requires PlatformsValid()
      requires lastDir ==> cameraDepthTranslation == 0.0
      requires !lastDir ==> cameraHorizontalTranslation == 0.0
      requires over ==> CameraValid()
      modifies this`chargeTime, this`chargingEndTime, this`chargingBeginTime, this`initialCameraLocation,
               this`cameraHorizontalTranslation, this`cameraDepthTranslation, this`figureStartState,
               this`figureRestState, this`fallDis
      ensures Valid()
      ensures over ==>
        && Fall(figureRestState, fallDis) == FallStep(old(Fall(figureRestState, fallDis)))
        && Timers() == old(Timers())
        && CameraState() == old(CameraState())
        && figureStartState == old(figureStartState)
      ensures !over ==>
        && Timers() == (0.0, 0.0, 0.0)
        && (cameraHorizontalTranslation, cameraDepthTranslation) == (0.0, 0.0)
        && CameraLocation() == old(CameraLocation())
        && (figureStartState, figureRestState) == (old(figureRestState), old(figureRestState))
        && fallDis == old(fallDis)
    {
      if over {
        DrawFigure(true);
      } else {
        Settle();
      }
    }

    /** The landing branch of `checkAndJump` (entered once `-translation_y > 0`). */
    method Land(u: real, coin: bool)
      requires Valid()
      requires 0.0 <= u < 1.0
      modifies this`lastDir, this`boxTranslateQueue, this`boxCurX, this`boxCurZ, this`nextDir, this`jumpDir,
               this`firstJumpBox, this`secondJumpBox, this`gameOver, this`floorRed, this`figureStartState,
               this`figureRestState, this`fallDis, this`chargeTime, this`chargingEndTime, this`chargingBeginTime,
               this`initialCameraLocation, this`cameraHorizontalTranslation, this`cameraDepthTranslation
      ensures Valid()
      ensures Landed(u, coin, old(chargeTime))
    {
      var over := Judge(u, coin);
      Conclude(over);
    }

    /** `checkAndJump`: land once the figure is below its take-off height, otherwise
        keep it in flight. */
    method CheckAndJump(tx: real, ty: real, u: real, coin: bool)
      requires Valid()
      requires 0.0 <= u < 1.0
      modifies this`lastDir, this`boxTranslateQueue, this`boxCurX, this`boxCurZ, this`nextDir, this`jumpDir,
               this`firstJumpBox, this`secondJumpBox, this`gameOver, this`floorRed, this`figureStartState,
               this`figureRestState, this`fallDis, this`chargeTime, this`chargingEndTime, this`chargingBeginTime,
               this`initialCameraLocation, this`cameraHorizontalTranslation, this`cameraDepthTranslation,
               this`mXTrans, this`mYTrans
      ensures Valid()
      ensures -ty > 0.0 ==> Landed(u, coin, old(chargeTime))
      ensures !(-ty > 0.0) ==> Flew(tx, ty, old(chargeTime))
    {
      if -ty > 0.0 {
        Land(u, coin);
      } else {
        CameraChangeAndRestStateChange(tx, ty);
        DrawFigure(false);
      }
    }

    /** `setUpChargingTime`: the charge counts only once the key is released. */
    method SetUpChargingTime()
      modifies this`chargeTime
      ensures chargeTime == if charging then 0.0 else chargingEndTime - chargingBeginTime
    {
      chargeTime := 0.0;
      if !charging {
        chargeTime := chargingEndTime - chargingBeginTime;
      }
    }

    /** `draw_figure`: compute the flight offsets, then fly or land. */
    method DrawFigureFrame(t0: real, chargeTime: real, now: real, u: real, coin: bool)
      requires Valid()
      requires 0.0 <= u < 1.0
      modifies this`lastDir, this`boxTranslateQueue, this`boxCurX, this`boxCurZ, this`nextDir, this`jumpDir,
               this`firstJumpBox, this`secondJumpBox, this`gameOver, this`floorRed, this`figureStartState,
               this`figureRestState, this`fallDis, this`chargeTime, this`chargingEndTime, this`chargingBeginTime,
               this`initialCameraLocation, this`cameraHorizontalTranslation, this`cameraDepthTranslation,
               this`mXTrans, this`mYTrans, this`jumpDistance
      ensures Valid()
      ensures jumpDistance == JumpDistance(chargeTime)
      ensures var d := Displacement(chargeTime, now - t0);
        && (-d.ty > 0.0 ==> Landed(u, coin, old(this.chargeTime)))
        && (!(-d.ty > 0.0) ==> Flew(d.tx, d.ty, old(this.chargeTime)))
    {
      var tx, ty := GetXYTranslations(t0, chargeTime, now);
      CheckAndJump(tx, ty, u, coin);
    }

    /** One animation frame at `now` seconds (`display`, without drawing): record the
        time, settle the charge time, then move the figure. `u` and `coin` are the
        random draws `prepare_jump` uses if this frame lands on the second box. */
    method Display(now: real, u: real, coin: bool)
      requires Valid()
      requires 0.0 <= u < 1.0
      modifies this
      ensures Valid()
      ensures time == now
      ensures old(gameOver) ==> gameOver
      ensures unchanged(this`charging)
      ensures var c := if old(charging) then 0.0 else old(chargingEndTime) - old(chargingBeginTime);
        var d := Displacement(c, now - old(chargingEndTime));
        && jumpDistance == JumpDistance(c)
        && (-d.ty > 0.0 ==> Landed(u, coin, c))
        && (!(-d.ty > 0.0) ==> Flew(d.tx, d.ty, c))
    {
      time := now;
      SetUpChargingTime();
      DrawFigureFrame(chargingEndTime, chargeTime, now, u, coin);
    }
  }
}
