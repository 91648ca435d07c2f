# Motion and circle geometry of the "walk_module" OpenGL demo

The demo opens an 800×600 window. It draws a crown-shaped polygon and a circle that
travel together along a half-circle arc and spin about their own centre. An overlay
exposes sliders and buttons. Two pieces of `main()` carry behaviour that can be stated
exactly, and this project models and proves them:

- **The per-frame motion update** (`main.cpp` lines 284-306). This is a state machine
  over the loop's locals. A moving shape that leaves the arc's angle range `[0, PI)`
  reverses both its travel and its spin direction. It then pauses for
  `frequency / 16 * 1000` frames, with the float truncated to an int. Otherwise it
  advances its angle along the arc and its rotation by one fixed step, and recomputes
  its centre. The overlay's buttons are further transitions on the same locals.
  - `Motion` holds the state as a value (`State`), the frame as a function `Next`
    built from the source's three blocks (`Bounce`, `Countdown`, `Advance`), the
    buttons and sliders as functions, runs of frames (`Run`), event sequences
    (`Replay`) and the lemmas.
  - `Demo.Animation` is a class whose fields are the loop's locals. Its `Step` method
    and button methods update those fields in place, as the source does. Each method
    is proved to produce exactly the state the matching `Motion` function gives.
- **The circle vertex fill** (`main.cpp` lines 184-189). A loop fills a 300-float array,
  three floats per vertex. `Circle.FillCircle` keeps the array and the stride-3 loop.
  It is proved to write exactly the layout of `CircleVertices`, read back through the
  vertex array's stride-3 layout (`Flatten`/`Unflatten`). The angle of each vertex is
  computed from the flat array index `i = 3k`, not from the vertex number `k`. The
  model keeps this rule as written, so vertex k sits at `3k` steps of `2·PI/100` and
  the 100 vertices wind round three times.

Conventions:

- `PI` is the source's macro `3.14` (`Defs.Pi`), not π.
- Floats are modelled as `real`.
- `sin` and `cos` are a parameter (`Defs.Trig`). Every result holds for any pair of
  functions.
- The float-to-int conversion at line 288 is truncation toward zero (`Motion.Trunc`).

Observations the proofs make precise:

- **The reversal frame counts toward the pause.** The reversal and the countdown run in
  the same frame, so the pause counter holds `CooldownFrames - 1` after the reversal
  frame. The shape stands still for exactly `CooldownFrames` frames, that frame
  included (`ReversalPause`).
- **Motion starts without the button.** The loop starts with `isMoving` false and
  `cooldown` 0, so the first frame already moves the shape. No press of
  "begin movement" is needed (`FirstFrameMoves`). With the default speed the angle
  reaches `3.14` at frame 314. Frame 315 reverses. The 62-frame pause for frequency 1
  runs through frame 376, and frame 377 moves back to `3.13` (`FirstReversal`).
- **"reset Position" usually has no visible effect.** The next frame recomputes the
  centre from the unchanged angle unless a pause is under way
  (`ResetPositionOutsidePause`, `ResetPositionDuringPause`).
- **"begin movement" during a pause at an end of the arc traps the shape.** The next
  frame finds the angle still out of range, so it reverses the directions again and
  starts a new pause (`BeginMovementAtEndOfArc`). After that pause the shape moves one
  step further out. Its next reversal brings it back only to the old angle, which is
  still out of range. From then on it bounces between two angles outside `[0, PI)`
  for ever (`BeginMovementTraps`, `EndlessBounce`).

## Model

| member | source | states |
|---|---|---|
| Motion.Trunc | main.cpp:288 | the implicit float-to-int conversion truncates toward zero: for x ≥ 0 the result is the largest int not above x, for x < 0 the smallest int not below x |
| Motion.CooldownFrames | main.cpp:288 | the pause length `frequency / 16 * 1000` truncated is never negative for a non-negative frequency, lies in 62..1250 over the frequency slider's range 1..20, and is 62 for the initial frequency 1 |
| Motion.StepAtEndOfArc | main.cpp:284-296 | when the shape is moving and its angle is ≥ PI or < 0, the reversal block negates both directions, loads CooldownFrames(frequency) and stops motion, and the whole frame leaves the counter one lower, everything else unchanged and the shape unmoved |
| Motion.StepWhilePaused | main.cpp:293-299 | a stopped shape with cooldown > 0 has its counter decremented by exactly 1 and every other local (angles, centre, directions, parameters) unchanged |
| Motion.StepWhileMoving | main.cpp:293-303 | a shape moving inside [0, PI), or stopped with no pause left, is set moving; its angle along the arc grows by exactly speed·direction, its rotation by rotationSpeed·rotationDirection, and the centre becomes (cos(p)·(1 − shapeSize·600/800), sin(p) − 1) for the new angle p |
| Motion.DirectionsFlipTogether | main.cpp:284-286 | a frame either keeps both directions or negates both, and it changes direction if and only if the shape was moving with its angle out of [0, PI) |
| Motion.FirstFrameMoves | main.cpp:253-300 | from the initial locals (angle 0, cooldown 0, not moving) the first frame already moves the shape by one speed step |
| Motion.InitialInv | main.cpp:253-275 | the initial locals satisfy the invariant: directions equal and ±1, cooldown within 0..1250, parameters within the slider ranges |
| Motion.NextKeepsInv | main.cpp:284-303 | a frame keeps the invariant: directions equal and ±1, cooldown never negative nor above 1250 |
| Motion.ButtonsKeepInv | main.cpp:334-344 | the three buttons keep the invariant |
| Motion.ResetPositionOutsidePause | main.cpp:293-338 | with no pause under way, the frame after "reset Position" is the frame the shape would have had without the button's centre; inside [0, PI) it is exactly the frame without the press |
| Motion.ResetPositionDuringPause | main.cpp:293-338 | during a pause the next frame after "reset Position" is the pressed state with the counter one lower: the reset centre (−1 + shapeSize, −1 + shapeSize) survives and nothing else changes |
| Motion.BeginMovementAtEndOfArc | main.cpp:284-341 | "begin movement" pressed while the shape waits out of range makes the next frame the waiting state with both directions reversed again, a new pause loaded (counter CooldownFrames − 1) and isMoving false; angles and centre are unchanged |
| Motion.PauseLasts | main.cpp:293-296 | for k up to the counter, k frames of a pause leave every local but the counter unchanged and the counter k lower |
| Motion.ReversalPause | main.cpp:284-303 | after a reversal, every frame j from 1 to c = CooldownFrames(frequency) is the old state turned round, stopped, with counter c − j; frame c + 1 moves it one step back along the arc in the new direction |
| Motion.EndlessBounce | main.cpp:284-303 | a moving shape whose angle and whose angle one step back are both outside [0, PI) returns to exactly the same state after 2·(c + 1) frames (two reversals and their pauses), and after c + 1 frames it stands moving at the angle one step back; with ReversalPause covering the frames between, it stays outside [0, PI) for ever |
| Motion.BeginMovementTraps | main.cpp:284-341 | "begin movement" pressed while the shape waits at an end of the arc, turned back toward it, leaves it after the new pause one step further out, moving, and from there in the endless bounce |
| Motion.Sweep | main.cpp:299-303 | while every angle on the way stays in [0, PI), n frames move the angle by n·speed·direction and the rotation by n·rotationSpeed·rotationDirection, and place the centre for the final angle |
| Motion.FirstSweep | main.cpp:253-303 | from the initial locals, after n ≤ 314 frames the shape is moving at angle n·0.01 with rotation n·0.01 |
| Motion.FirstReversal | main.cpp:253-303 | from the initial locals the angle reaches PI at frame 314; frame 315 reverses (directions −1, counter 61, stopped); frame 376 ends the pause; frame 377 moves back to 3.13 |
| Motion.ReplayKeepsInv | main.cpp:277-344 | any sequence of frames, button presses and in-range slider moves keeps the invariant |
| Motion.Reachable | main.cpp:261-344 | in every state the loop reaches from its initial locals, direction equals rotationDirection, both are 1 or −1, and cooldown is never negative |
| Demo.Animation.constructor | main.cpp:253-275 | the fields start with the loop's initial values and satisfy the invariant |
| Demo.Animation.Step | main.cpp:284-306 | the three blocks run in place on the fields leave exactly the state Motion.Next gives, and keep the invariant |
| Demo.Animation.ResetPosition | main.cpp:334-338 | the centre becomes (−1 + shapeSize, −1 + shapeSize) and isMoving false; nothing else changes |
| Demo.Animation.BeginMovement | main.cpp:339-341 | only isMoving changes, to true |
| Demo.Animation.ResetSize | main.cpp:342-344 | only shapeSize changes, to 0.05 |
| Circle.CircleVertices | main.cpp:184-189 | there are exactly CIRCLERESOLUTION = 100 vertices |
| Circle.FlattenAt | main.cpp:185-188 | vertex k occupies exactly the floats 3k (x), 3k + 1 (y) and 3k + 2 (attribute) of the array |
| Circle.UnflattenFlatten | main.cpp:228-231 | reading the written floats back with the vertex array's stride-3 layout (position at offset 0, attribute at offset 2) gives back the vertices |
| Circle.FlattenUnflatten | main.cpp:228-231 | every float array of whole vertices is the layout of the vertices read from it |
| Circle.CircleLayout | main.cpp:184-189 | the array has 300 entries; for every k < 100, entry 3k + 2 is 1.0 and entries 3k, 3k + 1 are 0.3·cos and 0.3·sin of 3k·(2·PI/100), the angle of the flat index rather than of the vertex number |
| Circle.FillCircle | main.cpp:184-189 | the stride-3 loop writes every entry of the 300-float array, and the result is exactly the layout of CircleVertices |

## Left out

- The `Shader` class (main.cpp:23-147) is not part of this model. It reads files and calls the GL shader API, which leaves nothing to state.
- Window and context creation, the GL loader and the viewport (main.cpp:150-160) are not modelled. They are windowing and driver set-up.
- The crown's 18 literal vertices (main.cpp:162-181) are not modelled. They are constant data with no behaviour of their own.
- Vertex array and buffer creation, the uploads and the draw calls (main.cpp:208-232, 316-322) are not modelled. They are GPU commands. Only the stride-3 layout that the vertex arrays read is modelled (`Unflatten`).
- The transform built each frame (main.cpp:308-314) is not modelled. It is float matrix math in the glm library, derived from `centrePosX`, `centrePosY`, `angle` and `shapeSize`.
- The ImGui context, frame set-up and rendering (main.cpp:269-273, 324-353) are not modelled. They are UI plumbing.
- The sliders (main.cpp:330-333) are modelled only as `Motion.MoveSliders`, an event that sets the four parameters.
- Motion.Reachable: assumes every slider event delivers values inside the slider's range. Values that reach a slider some other way are not covered.
- The "wireframe mode" button (main.cpp:345-347) is not modelled. It only changes the GL rasterizer state.
- The window-close exit (main.cpp:280-282) is not modelled.
- Buffer swapping and the 16 ms sleep (main.cpp:355-356) are not modelled. They are frame pacing and OS side effects.
- Floating-point rounding is not modelled; all arithmetic is exact over `real`. The exact frame numbers in `FirstReversal` hold for this exact arithmetic. Accumulated `float` rounding can move the reversal by a frame.
- The actual values of `sin` and `cos` are not modelled. They are a parameter, and nothing is assumed about them.
- Motion.CooldownFrames: does not model the undefined behaviour of a float-to-int conversion whose value does not fit in an `int`. No frequency in the slider's range comes near it.
- The commented-out code (main.cpp:193-206, 238-247) is dead and not modelled.
