/** The render loop's motion locals as one object, changed in place once per frame by
    the motion update and by the overlay's buttons. */
module Demo {
  import opened Defs
  import opened Motion

  class Animation {
    var centrePosX: real
    var centrePosY: real
    var angle: real
    var positionAngle: real
    var speed: real
    var rotationSpeed: real
    var direction: int
    var rotationDirection: int
    var frequency: real
    var shapeSize: real
    var cooldown: int
    var isMoving: bool

    /** The math library the loop calls. */
    const trig: Trig

    /** The fields as one value of the motion state machine. */
    function Snapshot(): State
      reads this
    {
      State(
        centrePosX := centrePosX, centrePosY := centrePosY,
        angle := angle, positionAngle := positionAngle,
        speed := speed, rotationSpeed := rotationSpeed,
        direction := direction, rotationDirection := rotationDirection,
        frequency := frequency, shapeSize := shapeSize,
        cooldown := cooldown, isMoving := isMoving)
    }

    ghost predicate Valid()
      reads this
    {
      Inv(Snapshot())
    }

    /** The locals as the loop finds them when it starts. */
    constructor (trig: Trig)
      ensures this.trig == trig
      ensures Snapshot() == Initial && Valid()
    {
      this.trig := trig;
      centrePosX, centrePosY := 0.0, 0.0;
      angle, positionAngle := 0.0, 0.0;
      speed, rotationSpeed := 0.01, 0.01;
      direction, rotationDirection := 1, 1;
      frequency, shapeSize := 1.0, 0.05;
      cooldown := 0;
      isMoving := false;
      new;
      InitialInv();
    }

    /** The motion update at the top of every frame. */
    method Step()
      modifies this
      ensures Snapshot() == Next(old(Snapshot()), trig)
      ensures old(Valid()) ==> Valid()
    {
      ghost var before := Snapshot();
      if (positionAngle >= Pi || positionAngle < 0.0) && isMoving {
        direction := -direction;
        rotationDirection := -rotationDirection;
        cooldown := CooldownFrames(frequency);
        isMoving := false;
      }
      assert Snapshot() == Bounce(before);
      if cooldown > 0 && !isMoving {
        cooldown := cooldown - 1;
      } else {
        isMoving := true;
      }
      assert Snapshot() == Countdown(Bounce(before));
      if isMoving {
        positionAngle := positionAngle + Signed(speed, direction);
        centrePosX := CentreX(positionAngle, shapeSize, trig);
        centrePosY := CentreY(positionAngle, trig);
        angle := angle + Signed(rotationSpeed, rotationDirection);
      }
      if Inv(before) {
        NextKeepsInv(before, trig);
      }
    }

    /** The "reset Position" button. */
    method ResetPosition()
      modifies this
      ensures Snapshot() == PressResetPosition(old(Snapshot()))
      ensures old(Valid()) ==> Valid()
    {
      centrePosX := -1.0 + shapeSize;
      centrePosY := -1.0 + shapeSize;
      isMoving := false;
    }

    /** The "begin movement" button. */
    method BeginMovement()
      modifies this
      ensures Snapshot() == PressBeginMovement(old(Snapshot()))
      ensures old(Valid()) ==> Valid()
    {
      isMoving := true;
    }

    /** The "resetSize" button. */
    method ResetSize()
      modifies this
      ensures Snapshot() == PressResetSize(old(Snapshot()))
      ensures old(Valid()) ==> Valid()
    {
      shapeSize := DefaultShapeSize;
    }
  }
}
