/** The per-frame motion of the shape: a state machine over the locals of the render
    loop, the overlay's buttons and sliders as further transitions, and what runs of
    frames do. */
module Motion {
  import opened Defs

  /** Every local of the render loop that the motion step or the overlay touches. */
  datatype State = State(
    centrePosX: real, centrePosY: real,
    angle: real, positionAngle: real,
    speed: real, rotationSpeed: real,
    direction: int, rotationDirection: int,
    frequency: real, shapeSize: real,
    cooldown: int, isMoving: bool)

  /** The values the locals hold when the loop is entered. */
  const Initial := State(
    centrePosX := 0.0, centrePosY := 0.0,
    angle := 0.0, positionAngle := 0.0,
    speed := 0.01, rotationSpeed := 0.01,
    direction := 1, rotationDirection := 1,
    frequency := 1.0, shapeSize := 0.05,
    cooldown := 0, isMoving := false)

  /** Value the "resetSize" button gives the shape size. */
  const DefaultShapeSize: real := 0.05

  /** Longest pause a reversal can load with the frequency slider in its range. */
  const MaxCooldown: int := 1250

  /** The ranges of the four sliders of the overlay. */
  predicate SlidersInRange(speed: real, rotationSpeed: real, frequency: real, shapeSize: real)
  {
    0.0001 <= shapeSize <= 1.0 && 0.00001 <= speed <= 0.5 &&
    1.0 <= frequency <= 20.0 && 0.0 <= rotationSpeed <= 0.1
  }

  /** C++'s implicit conversion of a floating-point value to int: truncation toward zero. */
  function Trunc(x: real): (r: int)
    ensures 0.0 <= x ==> 0 <= r && r as real <= x < r as real + 1.0
    ensures x < 0.0 ==> r <= 0 && r as real - 1.0 < x <= r as real
  {
    if x >= 0.0 then x.Floor else -((-x).Floor)
  }

  /** The number of frames a reversal pauses for, `frequency / 16 * 1000` cut to an int. */
  function CooldownFrames(frequency: real): (r: int)
    ensures 0.0 <= frequency ==> 0 <= r
    ensures 1.0 <= frequency <= 20.0 ==> 62 <= r <= MaxCooldown
    ensures frequency == 1.0 ==> r == 62
  {
    Trunc(frequency / 16.0 * 1000.0)
  }

  /** The angle has left the half-circle [0, Pi) the shape travels on. */
  predicate OutOfRange(positionAngle: real)
  {
    positionAngle >= Pi || positionAngle < 0.0
  }

  /** Centre of the shape for a given angle along the arc. The radius is shrunk by the
      shape's size seen through the aspect ratio, so the shape stays inside the window. */
  function CentreX(positionAngle: real, shapeSize: real, trig: Trig): real
  {
    trig.cos(positionAngle) * (1.0 - shapeSize * ScreenHeight as real / ScreenWidth as real)
  }

  function CentreY(positionAngle: real, trig: Trig): real
  {
    trig.sin(positionAngle) - 1.0
  }

  /** First part of a frame: at either end of the arc a moving shape turns round,
      loads the pause and stops. */
  function Bounce(s: State): State
  {
    if OutOfRange(s.positionAngle) && s.isMoving then
      s.(direction := -s.direction, rotationDirection := -s.rotationDirection,
         cooldown := CooldownFrames(s.frequency), isMoving := false)
    else
      s
  }

  /** Second part: a stopped shape counts its pause down; otherwise it is set moving. */
  function Countdown(s: State): State
  {
    if s.cooldown > 0 && !s.isMoving then s.(cooldown := s.cooldown - 1)
    else s.(isMoving := true)
  }

  /** A speed times an int direction, as in `speed * direction`. */
  function Signed(magnitude: real, sign: int): real
  {
    magnitude * sign as real
  }

  lemma SignedFlip(magnitude: real, sign: int)
    ensures Signed(magnitude, -sign) == -Signed(magnitude, sign)
  {
  }

  /** Third part: a moving shape advances along the arc and turns about its centre. */
  function Advance(s: State, trig: Trig): State
  {
    if s.isMoving then
      var p := s.positionAngle + Signed(s.speed, s.direction);
      s.(positionAngle := p,
         centrePosX := CentreX(p, s.shapeSize, trig),
         centrePosY := CentreY(p, trig),
         angle := s.angle + Signed(s.rotationSpeed, s.rotationDirection))
    else
      s
  }

  /** One frame's motion update. */
  function Next(s: State, trig: Trig): State
  {
    Advance(Countdown(Bounce(s)), trig)
  }

  /** The "reset Position" button. */
  function PressResetPosition(s: State): State
  {
    s.(centrePosX := -1.0 + s.shapeSize, centrePosY := -1.0 + s.shapeSize, isMoving := false)
  }

  /** The "begin movement" button. */
  function PressBeginMovement(s: State): State
  {
    s.(isMoving := true)
  }

  /** The "resetSize" button. */
  function PressResetSize(s: State): State
  {
    s.(shapeSize := DefaultShapeSize)
  }

  /** The four sliders, each set to a new value. */
  function MoveSliders(s: State, speed: real, rotationSpeed: real, frequency: real, shapeSize: real): State
  {
    s.(speed := speed, rotationSpeed := rotationSpeed, frequency := frequency, shapeSize := shapeSize)
  }

  /** What holds of every state the loop reaches: the two directions are equal and a
      unit, the pause counter is within its bounds and the sliders are in range. */
  predicate Inv(s: State)
  {
    (s.direction == 1 || s.direction == -1) && s.rotationDirection == s.direction &&
    0 <= s.cooldown <= MaxCooldown &&
    SlidersInRange(s.speed, s.rotationSpeed, s.frequency, s.shapeSize)
  }

  // ---------------------------------------------------------------------------
  // One frame

  /** A moving shape that has left [0, Pi) turns both directions round, pauses for the
      loaded number of frames, of which this frame is the first, and does not move. */
  lemma StepAtEndOfArc(s: State, trig: Trig)
    requires s.isMoving && OutOfRange(s.positionAngle)
    requires CooldownFrames(s.frequency) > 0
    ensures Bounce(s) == s.(direction := -s.direction, rotationDirection := -s.rotationDirection,
                            cooldown := CooldownFrames(s.frequency), isMoving := false)
    ensures Next(s, trig) == s.(direction := -s.direction, rotationDirection := -s.rotationDirection,
                                cooldown := CooldownFrames(s.frequency) - 1, isMoving := false)
  {
  }

  /** A stopped shape with a pause under way counts it down by one and nothing else changes. */
  lemma StepWhilePaused(s: State, trig: Trig)
    requires !s.isMoving && s.cooldown > 0
    ensures Next(s, trig) == s.(cooldown := s.cooldown - 1)
  {
  }

  /** A shape that is moving inside [0, Pi), or stopped with no pause left, moves: the
      angle along the arc grows by speed times direction, the rotation by rotation speed
      times its direction, and the centre is recomputed from the new angle. */
  lemma StepWhileMoving(s: State, trig: Trig)
    requires (s.isMoving && !OutOfRange(s.positionAngle)) || (!s.isMoving && s.cooldown <= 0)
    ensures Next(s, trig) == s.(isMoving := true,
      positionAngle := s.positionAngle + Signed(s.speed, s.direction),
      angle := s.angle + Signed(s.rotationSpeed, s.rotationDirection),
      centrePosX := CentreX(s.positionAngle + Signed(s.speed, s.direction), s.shapeSize, trig),
      centrePosY := CentreY(s.positionAngle + Signed(s.speed, s.direction), trig))
  {
  }

  /** The directions only change together, and always by a sign flip. */
  lemma DirectionsFlipTogether(s: State, trig: Trig)
    requires s.direction != 0
    ensures var r := Next(s, trig);
      (r.direction == s.direction && r.rotationDirection == s.rotationDirection) ||
      (r.direction == -s.direction && r.rotationDirection == -s.rotationDirection)
    ensures Next(s, trig).direction != s.direction <==> s.isMoving && OutOfRange(s.positionAngle)
  {
  }

  /** The loop starts with the shape stopped, but its first frame already moves it: no
      press of "begin movement" is needed. */
  lemma FirstFrameMoves(trig: Trig)
    ensures Next(Initial, trig).isMoving
    ensures Next(Initial, trig).positionAngle == Initial.speed
  {
  }

  /** Inv holds at the start and every transition keeps it. */
  lemma InitialInv()
    ensures Inv(Initial)
  {
  }

  lemma NextKeepsInv(s: State, trig: Trig)
    requires Inv(s)
    ensures Inv(Next(s, trig))
  {
  }

  lemma ButtonsKeepInv(s: State)
    requires Inv(s)
    ensures Inv(PressResetPosition(s)) && Inv(PressBeginMovement(s)) && Inv(PressResetSize(s))
  {
  }

  // ---------------------------------------------------------------------------
  // Buttons seen through the following frame

  /** "reset Position" puts the centre at the lower-left corner, but unless a pause is
      under way the next frame recomputes the centre from the unchanged angle, so the
      shape carries on along the arc as if the button had not been pressed. */
  lemma ResetPositionOutsidePause(s: State, trig: Trig)
    requires s.cooldown <= 0
    ensures Next(PressResetPosition(s), trig) == Next(s.(isMoving := false), trig)
    ensures !OutOfRange(s.positionAngle) ==> Next(PressResetPosition(s), trig) == Next(s, trig)
  {
    var a := PressResetPosition(s);
    var b := s.(isMoving := false);
    StepWhileMoving(a, trig);
    StepWhileMoving(b, trig);
    assert Next(a, trig).centrePosY == Next(b, trig).centrePosY;
    assert Next(a, trig).positionAngle == Next(b, trig).positionAngle;
    assert Next(a, trig).angle == Next(b, trig).angle;
    assert Next(a, trig).isMoving == Next(b, trig).isMoving;
  }

  /** During a pause the reset centre stays: the next frame only counts the pause down. */
  lemma ResetPositionDuringPause(s: State, trig: Trig)
    requires s.cooldown > 0
    ensures Next(PressResetPosition(s), trig) == PressResetPosition(s).(cooldown := s.cooldown - 1)
  {
  }

  /** "begin movement" pressed while the shape waits at an end of the arc makes the next
      frame reverse again: the directions return to what they were before the pause, a
      new pause starts and the shape does not move. */
  lemma BeginMovementAtEndOfArc(s: State, trig: Trig)
    requires !s.isMoving && OutOfRange(s.positionAngle)
    requires CooldownFrames(s.frequency) > 0
    ensures Next(PressBeginMovement(s), trig) ==
      s.(direction := -s.direction, rotationDirection := -s.rotationDirection,
         cooldown := CooldownFrames(s.frequency) - 1, isMoving := false)
  {
  }

  // ---------------------------------------------------------------------------
  // Runs of frames without widget interaction

  /** The state after n frames in which no widget is touched. */
  function Run(s: State, n: nat, trig: Trig): State
  {
    if n == 0 then s else Next(Run(s, n - 1, trig), trig)
  }

  lemma {:induction false} RunAdd(s: State, m: nat, n: nat, trig: Trig)
    ensures Run(s, m + n, trig) == Run(Run(s, m, trig), n, trig)
  {
    if n > 0 {
      RunAdd(s, m, n - 1, trig);
    }
  }

  /** A pause of c frames holds everything but the counter still for c frames. */
  lemma {:induction false} PauseLasts(s: State, k: nat, trig: Trig)
    requires !s.isMoving && k <= s.cooldown
    ensures Run(s, k, trig) == s.(cooldown := s.cooldown - k)
  {
    if k > 0 {
      PauseLasts(s, k - 1, trig);
      StepWhilePaused(s.(cooldown := s.cooldown - (k - 1)), trig);
    }
  }

  /** After a reversal the shape stands still, turned round, for exactly as many frames
      as CooldownFrames gives (the reversal's own frame included), and the frame after
      that moves it back along the arc. */
  lemma ReversalPause(s: State, trig: Trig)
    requires s.isMoving && OutOfRange(s.positionAngle)
    requires CooldownFrames(s.frequency) > 0
    ensures var c := CooldownFrames(s.frequency);
      var t := s.(direction := -s.direction, rotationDirection := -s.rotationDirection);
      var p := s.positionAngle - Signed(s.speed, s.direction);
      (forall j :: 1 <= j <= c ==> Run(s, j, trig) == t.(cooldown := c - j, isMoving := false)) &&
      Run(s, c + 1, trig) == t.(cooldown := 0, isMoving := true, positionAngle := p,
                                angle := s.angle - Signed(s.rotationSpeed, s.rotationDirection),
                                centrePosX := CentreX(p, s.shapeSize, trig), centrePosY := CentreY(p, trig))
  {
    var c := CooldownFrames(s.frequency);
    var paused := Next(s, trig);
    StepAtEndOfArc(s, trig);
    forall j | 1 <= j <= c
      ensures Run(s, j, trig) == paused.(cooldown := c - j)
    {
      RunAdd(s, 1, j - 1, trig);
      PauseLasts(paused, j - 1, trig);
    }
    var t := Run(s, c, trig);
    SignedFlip(s.speed, s.direction);
    SignedFlip(s.rotationSpeed, s.rotationDirection);
    StepWhileMoving(t, trig);
  }

  /** A shape moving out of [0, Pi) whose previous angle, one step back, is out of range
      too never returns to the arc: two reversals with their pauses bring the whole
      state back to where it was, and this repeats for ever. */
  lemma EndlessBounce(s: State, trig: Trig)
    requires s.isMoving && s.cooldown == 0 && CooldownFrames(s.frequency) > 0
    requires OutOfRange(s.positionAngle)
    requires OutOfRange(s.positionAngle - Signed(s.speed, s.direction))
    requires s.centrePosX == CentreX(s.positionAngle, s.shapeSize, trig)
    requires s.centrePosY == CentreY(s.positionAngle, trig)
    ensures var c := CooldownFrames(s.frequency);
      Run(s, 2 * (c + 1), trig) == s &&
      Run(s, c + 1, trig).positionAngle == s.positionAngle - Signed(s.speed, s.direction)
  {
    var c := CooldownFrames(s.frequency);
    ReversalPause(s, trig);
    var back := Run(s, c + 1, trig);
    ReversalPause(back, trig);
    SignedFlip(s.speed, s.direction);
    SignedFlip(s.rotationSpeed, s.rotationDirection);
    RunAdd(s, c + 1, c + 1, trig);
  }

  /** "begin movement" pressed while the shape waits at an end of the arc, turned back
      toward it, traps the shape: after the second reversal and its pause the shape
      moves one step further out, and from there it bounces between two angles outside
      [0, Pi) for ever. */
  lemma BeginMovementTraps(s: State, trig: Trig)
    requires !s.isMoving && CooldownFrames(s.frequency) > 0 && 0.0 <= s.speed
    requires (s.direction == -1 && s.positionAngle >= Pi) || (s.direction == 1 && s.positionAngle < 0.0)
    ensures var c := CooldownFrames(s.frequency);
      var x := Run(PressBeginMovement(s), c + 1, trig);
      x.isMoving && x.direction == -s.direction &&
      x.positionAngle == s.positionAngle - Signed(s.speed, s.direction) &&
      OutOfRange(x.positionAngle) && Run(x, 2 * (c + 1), trig) == x
  {
    var b := PressBeginMovement(s);
    ReversalPause(b, trig);
    var x := Run(b, CooldownFrames(s.frequency) + 1, trig);
    SignedFlip(s.speed, s.direction);
    EndlessBounce(x, trig);
  }

  /** n repetitions of a per-frame change v. */
  function Times(n: nat, v: real): real
  {
    n as real * v
  }

  lemma TimesSucc(n: nat, v: real)
    ensures Times(n + 1, v) == Times(n, v) + v
  {
  }

  /** The angle one frame short of the end of a sweep lies between its start and end. */
  lemma Between(p: real, v: real, n: nat)
    requires 1 <= n
    requires !OutOfRange(p) && !OutOfRange(p + Times(n, v))
    ensures !OutOfRange(p + Times(n - 1, v))
  {
    TimesSucc(n - 1, v);
    if v >= 0.0 {
      assert Times(n - 1, v) >= 0.0;
    } else {
      assert Times(n - 1, v) <= 0.0;
    }
  }

  /** While every angle on the way stays in [0, Pi), each frame moves the shape by the
      same amount: after n frames the angle along the arc has changed by n times speed
      times direction, the rotation by n times its step. */
  lemma {:induction false} Sweep(s: State, n: nat, trig: Trig)
    requires s.isMoving && 1 <= n
    requires !OutOfRange(s.positionAngle)
    requires !OutOfRange(s.positionAngle + Times(n - 1, Signed(s.speed, s.direction)))
    ensures Run(s, n, trig) == s.(
      positionAngle := s.positionAngle + Times(n, Signed(s.speed, s.direction)),
      angle := s.angle + Times(n, Signed(s.rotationSpeed, s.rotationDirection)),
      centrePosX := CentreX(s.positionAngle + Times(n, Signed(s.speed, s.direction)), s.shapeSize, trig),
      centrePosY := CentreY(s.positionAngle + Times(n, Signed(s.speed, s.direction)), trig))
  {
    var v := Signed(s.speed, s.direction);
    var w := Signed(s.rotationSpeed, s.rotationDirection);
    TimesSucc(n - 1, v);
    TimesSucc(n - 1, w);
    if n == 1 {
      StepWhileMoving(s, trig);
    } else {
      Between(s.positionAngle, v, n - 1);
      Sweep(s, n - 1, trig);
      StepWhileMoving(Run(s, n - 1, trig), trig);
    }
  }

  /** From the initial state the shape climbs the arc by its default speed each frame:
      after n frames, for every n up to 314, its angle is n times 0.01. */
  lemma {:induction false} FirstSweep(n: nat, trig: Trig)
    requires 1 <= n <= 314
    ensures Run(Initial, n, trig) == Initial.(isMoving := true,
      positionAngle := Times(n, Initial.speed), angle := Times(n, Initial.rotationSpeed),
      centrePosX := CentreX(Times(n, Initial.speed), Initial.shapeSize, trig),
      centrePosY := CentreY(Times(n, Initial.speed), trig))
  {
    var first := Next(Initial, trig);
    RunAdd(Initial, 1, n - 1, trig);
    if n > 1 {
      Sweep(first, n - 1, trig);
    }
  }

  /** Frame 314 brings the angle to 3.14 = Pi; frame 315 reverses; the pause of 62
      frames (frequency 1) ends with frame 376, and frame 377 moves back down to 3.13. */
  lemma FirstReversal(trig: Trig)
    ensures Run(Initial, 314, trig).positionAngle == Pi
    ensures var r := Run(Initial, 315, trig);
      r.direction == -1 && r.rotationDirection == -1 && r.cooldown == 61 && !r.isMoving &&
      r.positionAngle == Pi
    ensures var r := Run(Initial, 376, trig);
      r.direction == -1 && r.cooldown == 0 && !r.isMoving && r.positionAngle == Pi
    ensures var r := Run(Initial, 377, trig);
      r.direction == -1 && r.isMoving && r.positionAngle == 3.13
  {
    var top := Run(Initial, 314, trig);
    FirstSweep(314, trig);
    assert top.positionAngle == Pi;
    ReversalPause(top, trig);
    RunAdd(Initial, 314, 1, trig);
    RunAdd(Initial, 314, 62, trig);
    RunAdd(Initial, 314, 63, trig);
  }

  // ---------------------------------------------------------------------------
  // Every run of the loop

  /** What can happen between two reads of the state: a frame's motion update, a button
      press, or the sliders set to new values. */
  datatype Event =
    | Frame
    | ResetPositionPressed
    | BeginMovementPressed
    | ResetSizePressed
    | SlidersMoved(speed: real, rotationSpeed: real, frequency: real, shapeSize: real)

  function Apply(s: State, e: Event, trig: Trig): State
  {
    match e
    case Frame => Next(s, trig)
    case ResetPositionPressed => PressResetPosition(s)
    case BeginMovementPressed => PressBeginMovement(s)
    case ResetSizePressed => PressResetSize(s)
    case SlidersMoved(sp, rs, f, sz) => MoveSliders(s, sp, rs, f, sz)
  }

  function Replay(s: State, es: seq<Event>, trig: Trig): State
  {
    if es == [] then s else Apply(Replay(s, es[..|es| - 1], trig), es[|es| - 1], trig)
  }

  /** The sliders only ever deliver values inside their ranges. */
  predicate SlidersStayInRange(es: seq<Event>)
  {
    forall i :: 0 <= i < |es| && es[i].SlidersMoved? ==>
      SlidersInRange(es[i].speed, es[i].rotationSpeed, es[i].frequency, es[i].shapeSize)
  }

  /** In every state the loop reaches, the two directions are equal and each is 1 or -1,
      and the pause counter is never negative (nor above MaxCooldown). */
  lemma {:induction false} ReplayKeepsInv(s: State, es: seq<Event>, trig: Trig)
    requires Inv(s) && SlidersStayInRange(es)
    ensures Inv(Replay(s, es, trig))
  {
    if es != [] {
      var before := es[..|es| - 1];
      assert SlidersStayInRange(before) by {
        forall i | 0 <= i < |before| ensures before[i] == es[i] { }
      }
      ReplayKeepsInv(s, before, trig);
      var t := Replay(s, before, trig);
      match es[|es| - 1]
      case Frame => NextKeepsInv(t, trig);
      case ResetPositionPressed => ButtonsKeepInv(t);
      case BeginMovementPressed => ButtonsKeepInv(t);
      case ResetSizePressed => ButtonsKeepInv(t);
      case SlidersMoved(sp, rs, f, sz) =>
    }
  }

  lemma Reachable(es: seq<Event>, trig: Trig)
    requires SlidersStayInRange(es)
    ensures var r := Replay(Initial, es, trig);
      r.direction == r.rotationDirection && (r.direction == 1 || r.direction == -1) && 0 <= r.cooldown
  {
    ReplayKeepsInv(Initial, es, trig);
  }
}
