# Jump-one-jump game logic in Dafny

This project models the game logic of a small WebGL "jump one jump" game. In the
game a figure charges while a key is held. When the key is released the figure
jumps along a parabola from its box towards the next box, which lies a random
distance away along +x or -z.

There are two versions of the scene:

- `SceneImplementation` (scene-implementation.js) is the finished scene. It has a
  game-over state, a falling animation when the figure misses, and a camera that
  follows the figure.
- `Assignment2` (assignment2.js) is the earlier prototype. It has the same
  generator and jump arithmetic but a different proximity test. It has no
  game-over state, no camera tracking and no fall.

The model is split into these modules:

- `Geometry`: box positions `Pos(x, z)` and figure translations `Vec3`. The
  4x4 matrices of the source are only ever composed with translations. So a
  figure matrix is modelled by its translation column, and composing with
  `Mat4.translation` is `Translate`.
- `Trajectory`: the jump arithmetic. It covers the charge clamp, the launch
  velocities, the `[translation_x, translation_y]` of a frame and
  `jump_distance`. It also covers how the translation is applied along the hop
  axis.
- `Platforms`: `getRandomInt` and one step of `prepare_jump` as functions. It
  also defines the shape of every box queue the generator can produce: the
  queue starts at the origin, the first hop is along x, and every hop is
  5 to 10 units along +x or -z.
- `Collision`: `areCollided` in both versions and the three-way classification
  of `collideDetect`.
- `Scene`: the class `SceneImplementation`, with one method per game-logic
  method of the source. It also has the falling animation as functions over
  frames.
- `Prototype`: the class `Assignment2`.

The game's inputs become parameters:

- The animation clock is the `now` argument of `Display`.
- The key events are `Press` and `Release`.
- The two random draws of `prepare_jump` are `u`, the value of `Math.random()`
  in [0, 1), and `coin`, the rounded second draw.

The camera matrix is `look_at(...)` followed by one translation. It is modelled
by that translation: `initialCameraLocation` and `CameraLocation()`.

`ClampCharge` clamps the charge time only from above, as
scene-implementation.js:396-398 and assignment2.js:358-360 do. A negative charge
time therefore gives a parabola that is below the take-off height at every time
after release, so the landing test passes on the first frame and the figure
never flies (`Trajectory.LandingIff`).

## Model

| member | source | states |
|---|---|---|
| Platforms.GetRandomInt | scene-implementation.js:19-21 | the draw `u` scaled onto [min, max), without rounding; its range is the content of `GetRandomIntInRange` |
| Platforms.NextPlatform | scene-implementation.js:324-332 | the next box keeps the other coordinate and lies exactly `interval` further along +x when the axis is x, along -z otherwise |
| Platforms.GetRandomIntInRange | scene-implementation.js:19-21 | with bounds 5 and 10 and a draw in [0, 1), the interval lies in [5, 10) |
| Platforms.NextPlatformHops | scene-implementation.js:324-333 | the new box is one hop from the cursor along the chosen axis, and it is an x-hop exactly when the axis is x |
| Platforms.AppendKeepsWellFormed | scene-implementation.js:324-333 | pushing a box one hop after the last one keeps the queue a generator queue, provided the first hop is along x |
| Platforms.PlatformsMoveAway | scene-implementation.js:316-337 | in a generator queue, later boxes have x no smaller and z no larger, and each hop adds at least 5 to x - z |
| Platforms.PlatformsDistinct | scene-implementation.js:316-337 | no two boxes of a generator queue coincide |
| Platforms.PlatformsInQuadrant | scene-implementation.js:316-337 | every box lies in x >= 0, z <= 0 |
| Trajectory.ClampCharge | scene-implementation.js:396-398 | the charge is capped at 1 and kept as is at or below 1; it is not bounded below |
| Trajectory.LaunchVelocity | scene-implementation.js:404-406 | the velocities are in the ratio 12 : 6 and are both zero exactly when the charge is zero |
| Trajectory.Displacement | scene-implementation.js:404-410 | zero charge or zero elapsed time gives no displacement |
| Trajectory.JumpDistance | scene-implementation.js:411 | the horizontal speed times the time of flight `2 vy / g`; its value is the content of `JumpDistanceIsSquare`, `JumpDistanceRange` and `TakeoffAndTouchdown` |
| Trajectory.FlightOffset | scene-implementation.js:450-452 | the height offset is `-translation_y` on either axis; the horizontal travel `translation_x` goes to matrix x on an x-hop and to matrix -y on a z-hop, and the other coordinate stays 0 |
| Trajectory.JumpDistanceIsSquare | scene-implementation.js:411 | `jump_distance` equals 12 k^2 for the clamped charge k |
| Trajectory.JumpDistanceRange | scene-implementation.js:411 | `jump_distance` is positive exactly for a non-zero charge, zero for zero, and at most 12 for a non-negative charge |
| Trajectory.OverchargeIsFullCharge | scene-implementation.js:396-398 | a charge over 1 s behaves exactly like a 1 s charge |
| Trajectory.ParabolaShape | scene-implementation.js:404-410 | the height is 6 t (k - t) and the horizontal travel is 12 k t |
| Trajectory.TakeoffAndTouchdown | scene-implementation.js:404-411 | the figure is at height 0 at release and again after k seconds, having travelled `jump_distance` |
| Trajectory.LandingIff | scene-implementation.js:505 | `-translation_y > 0` holds exactly when the charge is non-zero and the elapsed time lies outside the interval between 0 and the clamped charge: for a positive charge before release or after the flight time, for a negative charge at every time after release |
| Collision.AreCollided | scene-implementation.js:363-371 | the two-sided proximity test on absolute coordinates; its meaning is the content of `CollidedIgnoresSigns`, `CollidedSameSideIsDistance` and `TwoSidedTestIsBand` |
| Collision.AreCollidedAsWritten | assignment2.js:314-322 | the prototype test as written, with the z comparison inside `Math.abs`; `AsWrittenIsOneSided` and `GapLandingCountsAsSecondBox` state what it accepts |
| Collision.FigureSpot | scene-implementation.js:374-378 | the tested point has the transform's x, and its z has the magnitude of the transform's y, negated only for a z-hop |
| Collision.Outcome | scene-implementation.js:379-386 | the result is 0 exactly on the first box, 1 exactly when off the first box and on the second, and -1 exactly when on neither |
| Collision.SceneOutcome | scene-implementation.js:374-386 | the classification of the finished scene with threshold 2.7, without the call to `prepare_jump`; its cases are the content of `Outcome`, `StayingPutIsOutcomeZero` and `ExactHopAdvances` |
| Collision.PrototypeOutcome | assignment2.js:325-344 | the same classification with the prototype test; `NegationIsIrrelevant` and `ExactHopAdvances` state its cases |
| Collision.CollidedIgnoresSigns | scene-implementation.js:363-371 | the proximity test does not change when any coordinate of figure or box is negated |
| Collision.CollidedSameSideIsDistance | scene-implementation.js:363-371 | for points on the same side on each axis, the test is the distance test with threshold 2.7 on x and on z |
| Collision.TwoSidedTestIsBand | scene-implementation.js:363-371 | the test accepts exactly the figures whose absolute coordinate lies within the threshold of the box's, above and below |
| Collision.NegationIsIrrelevant | scene-implementation.js:373-378 | the y negation for a z-hop does not change the outcome, in either version |
| Collision.AsWrittenIsOneSided | assignment2.js:314-322 | the prototype test is one-sided on z and accepts everything the two-sided test accepts |
| Collision.CentreIsOnBox | scene-implementation.js:363-371 | a figure at a box's centre is on that box in both versions |
| Collision.StayingPutIsOutcomeZero | scene-implementation.js:373-387 | a figure still at the first box's centre is classified 0 |
| Collision.ExactHopAdvances | scene-implementation.js:373-387 | a jump whose travel equals the hop lands on the second box (outcome 1) in both versions |
| Collision.GapLandingCountsAsSecondBox | assignment2.js:319 | the prototype counts a figure in the gap before a z-hop box as landed on it, where the two-sided test reports a miss |
| Scene.FallStep | scene-implementation.js:471-481 | one falling frame: x and y stay, and the figure sinks by exactly what `fall_dis` loses, never rising and never gaining `fall_dis` |
| Scene.FallLasts | scene-implementation.js:470-482 | with `fall_dis` at k tenths, the figure sinks 0.1 per falling frame for k frames, then stays put |
| Scene.FullFall | scene-implementation.js:470-482 | from `fall_dis = 2`, the figure sinks exactly 2 units over 20 frames and no further |
| Scene.SceneImplementation.constructor | scene-implementation.js:258-266 | the initial fields, then `prepare_jump`: the queue is the origin followed by one box along x, and the object invariant holds |
| Scene.SceneImplementation.CameraLocation | scene-implementation.js:556-565 | the camera's translation is its base moved back by both camera offsets; `CameraChangeAndRestStateChange` and `Settle` state how it follows the figure |
| Scene.SceneImplementation.Press | scene-implementation.js:298-305 | key down starts charging and records the time |
| Scene.SceneImplementation.Release | scene-implementation.js:307-312 | key up records the time, and ends charging only while the game is not over |
| Scene.SceneImplementation.PrepareJump | scene-implementation.js:316-337 | one box is appended one drawn interval after the cursor. The hop is along x for the first hop and along the coin's axis after that. The active pair becomes the last two boxes, and the queue stays a generator queue |
| Scene.SceneImplementation.CollideDetect | scene-implementation.js:373-387 | the result is the three-way classification of the old state; on 1 the generator advanced with the given draws, otherwise it is untouched |
| Scene.SceneImplementation.GetXYTranslations | scene-implementation.js:389-413 | the result is the displacement of the clamped charge after `now - t0` seconds, and `jump_distance` is set to the flight length |
| Scene.SceneImplementation.CheckGameOver | scene-implementation.js:415-426 | the game is lost exactly when the resting figure is on neither box; then the game is over, the floor is red and the start is the rest state |
| Scene.SceneImplementation.ResetTimers | scene-implementation.js:428-432 | the three timers become 0 |
| Scene.SceneImplementation.ResetCameraTranslations | scene-implementation.js:434-437 | both camera offsets become 0 |
| Scene.SceneImplementation.ChangeInitCameraLoc | scene-implementation.js:439-446 | the offset along the last hop axis is folded into the camera's base translation |
| Scene.SceneImplementation.CameraChangeAndRestStateChange | scene-implementation.js:448-468 | the rest state is the start state moved along the hop axis. For a non-zero charge the camera follows the figure's horizontal movement exactly |
| Scene.SceneImplementation.DrawFigure | scene-implementation.js:470-502 | a falling frame sinks the figure by one step while `fall_dis > 0`; any other call changes nothing |
| Scene.SceneImplementation.Settle | scene-implementation.js:512-519 | after a safe landing the timers and offsets are 0. The start is the rest state, and the camera does not move |
| Scene.SceneImplementation.Judge | scene-implementation.js:507-508 | `last_dir` takes the old hop axis, then `checkGameOver` answers true exactly on a miss, with its effects on the generator and the game state |
| Scene.SceneImplementation.Conclude | scene-implementation.js:508-519 | after a miss one falling frame with timers, camera and start untouched; otherwise the settling of `Settle` |
| Scene.SceneImplementation.Land | scene-implementation.js:505-519 | the landing branch. On a miss: game over, red floor, start := rest and one falling frame, with the generator, timers and camera untouched. Otherwise: timers and offsets 0, the camera held still, start := rest, and game, floor and fall state kept. The generator advances exactly on outcome 1 |
| Scene.SceneImplementation.CheckAndJump | scene-implementation.js:504-524 | the landing effects of `Land` when `-translation_y > 0`. Otherwise flight from the start state: the camera follows for a non-zero charge and stays for a zero one, and the generator, game, timers and start are untouched. The object invariant is kept |
| Scene.SceneImplementation.SetUpChargingTime | scene-implementation.js:549-554 | the charge time is 0 while charging, otherwise end minus begin |
| Scene.SceneImplementation.DrawFigureFrame | scene-implementation.js:526-535 | one figure frame: exactly the landing or the flight effects of `checkAndJump` for the displacement at this time, with `jump_distance` set |
| Scene.SceneImplementation.Display | scene-implementation.js:567-581 | one frame at time `now` with the charge time from the timers. The frame has exactly the landing or the flight effects for that charge and the time since release. The game-over flag is never cleared and charging is not touched |
| Prototype.Assignment2.constructor | assignment2.js:245-248 | the queue is the origin followed by one box along x, and start and rest are at (0, 0, -3) |
| Prototype.Assignment2.Press | assignment2.js:253-257 | key down starts charging and records the time |
| Prototype.Assignment2.Release | assignment2.js:259-262 | key up records the time and always ends charging |
| Prototype.Assignment2.PrepareJump | assignment2.js:266-288 | the same generator step as the finished scene |
| Prototype.Assignment2.CollideDetect | assignment2.js:324-345 | the three-way classification with the one-sided test; on 1 the generator advanced, otherwise it is untouched |
| Prototype.Assignment2.DrawFigure | assignment2.js:347-458 | landing when `-translation_y > 0`: on a miss the floor turns red and the charge time is kept, otherwise the charge time is reset. In both cases the start becomes the rest state, and the rest state stays. Otherwise the figure flies from the start state |
| Prototype.Assignment2.Display | assignment2.js:460-485 | one frame at time `now` with the charge time from the timers. The frame has exactly the landing or the flight effects of `draw_figure`. The key state and timers are untouched |

## Left out

- Drawing is not modelled: shapes, materials, colours other than the red floor flag, lights, the projection, `draw_floor`, `draw_box`, `drawBoxes` and the box colour list.
- The rotation applied to the figure only when drawing (scene-implementation.js:483-501) is not modelled. It never changes the stored transforms. `m_x_trans` and `m_y_trans` are kept as fields.
- `drawFigure(false)` only draws, so it is a no-op on the modelled state.
- The fixed `Mat4.look_at(...)` part of the camera is not modelled. The camera is its translation.
- `setUpCameraLoc` only hands the matrix to the renderer. It is the function `CameraLocation`.
- Audio (`setUpAudio`, `updateAudio`, `play_music_list`, `audio_play_start`) and the pause on game over are left out. They are browser I/O.
- `console.log` calls are left out.
- page.js is not part of this model.
- `is_figure_in_next_box` has an empty body and is not modelled.
- Numbers are exact reals rather than IEEE doubles, so rounding in the parabola and in the camera sums is not captured.
- `Math.random()` and the clock are parameters. The model does not capture that the clock only moves forward.
- The source leaves some fields undefined until they are first assigned. These are `last_dir`, `m_x_trans` and `m_y_trans`, the assignment2 rest transform, and `time` before the first frame. The model starts them as `true`, 0, 0, the start transform and 0. `last_dir` is always assigned before it is read, and `m_x_trans` and `m_y_trans` are only read by the drawing rotation.
- The landing branch of `checkAndJump` is split into the methods `Land`, `Judge`, `Conclude` and `Settle` so that each proof stays small. The source has it inline.
- `initial_camera_location` in assignment2.js (translation -15) is never changed and has no effect on the modelled state, so the `Assignment2` class does not carry it.

## Findings

| source | as written | input that shows it | evidently intended | confidence | as-written member | corrected member |
|---|---|---|---|---|---|---|
| assignment2.js:319 | `Math.abs(Math.abs(figure[1]) - Math.abs(box[1]) <= 2.0)` takes the absolute value of the comparison, so the z test only bounds the figure from above | boxes (5, 0) then (5, -7), next hop along z, figure rest translation (5, -3, -3): the prototype returns 1 (landed on the second box) although the figure is 4 units short of it | `Math.abs(Math.abs(figure[1]) - Math.abs(box[1])) <= 2.0`, the two-sided test that scene-implementation.js:365-366 uses, which returns -1 here | not executed | Collision.GapLandingCountsAsSecondBox | Collision.TwoSidedTestIsBand |
