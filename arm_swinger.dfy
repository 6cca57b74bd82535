/**
 * Arm-swing locomotion for a VR camera rig: the player's forward movement each
 * frame is derived from how far the two hand controllers moved since the last
 * frame, while both grip buttons are held.
 *
 * The module has three parts, following the C# class it models:
 *  - the static helpers: the horizontal-plane projection, the forward vector
 *    for a distance and a rotation, and the speed-to-movement mapping;
 *  - the class `ArmSwinger`, which keeps the four controller positions and the
 *    arm-swing settings, with the range-checked coefficient property;
 *  - the per-frame movement of the both-buttons-both-controllers mode.
 *
 * `Time.deltaTime` is the parameter `dt`, the button states and controller
 * rotations that the C# code polls from the runtime are parameters, and the
 * response curve is a function `real -> real`.
 */
module ArmSwinging {
  import opened Unity

  /***** Helper functions *****/

  /** `vector3XZOnly`: drops the vertical component of a vector. */
  function XZOnly(v: Vec3): (r: Vec3)
    ensures r.y == 0.0
    ensures r.x == v.x && r.z == v.z
  {
    Vec3(v.x, 0.0, v.z)
  }

  /** Projecting twice is projecting once. */
  lemma XZOnlyIdempotent(v: Vec3)
    ensures XZOnly(XZOnly(v)) == XZOnly(v)
  {
  }

  /** The vectors that the projection leaves alone are exactly the horizontal ones. */
  lemma XZOnlyFixedPoints(v: Vec3)
    ensures XZOnly(v) == v <==> v.y == 0.0
  {
  }

  /**
   * The projection is the orthogonal one onto the horizontal plane: what it
   * removes is purely vertical and perpendicular to what it keeps.
   */
  lemma XZOnlyIsOrthogonalProjection(v: Vec3)
    ensures Sub(v, XZOnly(v)) == Vec3(0.0, v.y, 0.0)
    ensures Dot(XZOnly(v), Sub(v, XZOnly(v))) == 0.0
    ensures Add(XZOnly(v), Sub(v, XZOnly(v))) == v
  {
  }

  /**
   * `getForwardXZ`: the forward direction turned by `direction`, stretched to
   * `forwardDistance`, and flattened onto the horizontal plane.
   */
  function GetForwardXZ<Q>(engine: Engine<Q>, forwardDistance: real, direction: Q): (r: Vec3)
    ensures r.y == 0.0
    ensures var full := Scale(engine.rotate(direction, Forward), forwardDistance);
            Sub(full, r) == Vec3(0.0, full.y, 0.0)
  {
    var forwardMovement := Scale(engine.rotate(direction, Forward), forwardDistance);
    XZOnly(forwardMovement)
  }

  /** The forward movement is linear in the distance. */
  lemma GetForwardXZScales<Q>(engine: Engine<Q>, d: real, k: real, direction: Q)
    ensures GetForwardXZ(engine, d * k, direction) == Scale(GetForwardXZ(engine, d, direction), k)
    ensures GetForwardXZ(engine, 0.0, direction) == Zero
  {
    var f := engine.rotate(direction, Forward);
    assert f.x * (d * k) == (f.x * d) * k;
    assert f.z * (d * k) == (f.z * d) * k;
  }

  /** `averageRotation`: the spherical midpoint of two rotations. */
  function AverageRotation<Q>(engine: Engine<Q>, rot1: Q, rot2: Q): Q {
    engine.slerp(rot1, rot2, 0.5)
  }

  /** A response curve that never maps a faster swing to less movement. */
  ghost predicate Monotone(curve: real -> real) {
    forall s, t :: s <= t ==> curve(s) <= curve(t)
  }

  /**
   * The default controller-to-movement curve: the two keyframes (0, 0) and
   * (1, 1) with unit tangents, joined by their Hermite segment (which is the
   * identity), and held at the end values outside [0, 1].
   */
  function DefaultMovementCurve(t: real): (r: real)
    ensures 0.0 <= t <= 1.0 ==> r == Hermite(0.0, 1.0, 1.0, 1.0, t)
    ensures t < 0.0 ==> r == 0.0
    ensures t > 1.0 ==> r == 1.0
  {
    UnitTangentSegmentIsIdentity(t);
    Clamp01(t)
  }

  /** From (0, 0) to (1, 1) with unit slopes at both ends, the Hermite segment is a straight line. */
  lemma UnitTangentSegmentIsIdentity(t: real)
    ensures Hermite(0.0, 1.0, 1.0, 1.0, t) == t
  {
    var t2 := t * t;
    var t3 := t2 * t;
    calc {
      Hermite(0.0, 1.0, 1.0, 1.0, t);
      (t3 - 2.0 * t2 + t) + (-2.0 * t3 + 3.0 * t2) + (t3 - t2);
      t;
    }
  }

  lemma DefaultMovementCurveMonotone()
    ensures Monotone(DefaultMovementCurve)
  {
    forall s, t | s <= t ensures DefaultMovementCurve(s) <= DefaultMovementCurve(t) {
      Clamp01Monotone(s, t);
    }
  }

  /**
   * `calculateMovement`: the controller's change over one frame becomes a
   * speed, is taken as a fraction of `maxInput` (the controller speed for max
   * speed), is mapped through the curve, and serves as the parameter of a
   * clamped interpolation from 0 to `maxSpeed`; the speed times `dt` is the
   * distance to move this frame.  Because the interpolation parameter is
   * clamped, the distance never exceeds `maxSpeed * dt` in size.
   */
  function CalculateMovement(curve: real -> real, change: real, maxInput: real, maxSpeed: real, dt: real): (r: real)
    requires dt > 0.0 && maxInput != 0.0
    ensures maxSpeed >= 0.0 ==> 0.0 <= r <= maxSpeed * dt
    ensures maxSpeed <= 0.0 ==> maxSpeed * dt <= r <= 0.0
  {
    var changeInWUPS := change / dt;
    var speed := Lerp(0.0, maxSpeed, curve(changeInWUPS / maxInput));
    LerpBetween(0.0, maxSpeed, curve(changeInWUPS / maxInput));
    ScaleByPositive(speed, 0.0, maxSpeed, dt);
    ScaleByPositive(speed, maxSpeed, 0.0, dt);
    speed * dt
  }

  /** Multiplying by a positive number keeps a value inside its bounds. */
  lemma ScaleByPositive(x: real, lo: real, hi: real, k: real)
    requires k > 0.0
    ensures lo <= x <= hi ==> lo * k <= x * k <= hi * k
  {
    if lo <= x <= hi {
      assert (x - lo) * k >= 0.0;
      assert (hi - x) * k >= 0.0;
    }
  }

  /**
   * With a non-decreasing curve and a positive reference speed, moving a
   * controller further never yields less movement.
   */
  lemma CalculateMovementMonotone(curve: real -> real, c1: real, c2: real, maxInput: real, maxSpeed: real, dt: real)
    requires Monotone(curve)
    requires dt > 0.0 && maxInput > 0.0 && maxSpeed >= 0.0
    requires c1 <= c2
    ensures CalculateMovement(curve, c1, maxInput, maxSpeed, dt) <= CalculateMovement(curve, c2, maxInput, maxSpeed, dt)
  {
    var t1, t2 := c1 / dt / maxInput, c2 / dt / maxInput;
    DivideByPositive(c1, c2, dt);
    DivideByPositive(c1 / dt, c2 / dt, maxInput);
    assert curve(t1) <= curve(t2);
    var s1, s2 := Lerp(0.0, maxSpeed, curve(t1)), Lerp(0.0, maxSpeed, curve(t2));
    LerpMonotone(0.0, maxSpeed, curve(t1), curve(t2));
    ScaleOrdered(s1, s2, dt);
    calc {
      CalculateMovement(curve, c1, maxInput, maxSpeed, dt);
    ==
      s1 * dt;
    <=
      s2 * dt;
    ==
      CalculateMovement(curve, c2, maxInput, maxSpeed, dt);
    }
  }

  /** Dividing by two numbers in turn is dividing by their product. */
  lemma DivideTwice(a: real, b: real, c: real)
    requires b != 0.0 && c != 0.0
    ensures a / b / c == a / (b * c)
  {
    var q := a / b / c;
    assert q * c == a / b;
    assert q * c * b == a;
    assert q * (b * c) == a;
  }

  /** Dividing by a positive number keeps order. */
  lemma DivideByPositive(a: real, b: real, k: real)
    requires k > 0.0 && a <= b
    ensures a / k <= b / k
  {
    assert b / k - a / k == (b - a) / k;
  }

  /**
   * With the default curve, a controller moving at no more than the reference
   * speed gives movement proportional to its change, and the frame time
   * cancels out: `maxSpeed * change / maxInput`.
   */
  lemma CalculateMovementDefaultCurveLinear(change: real, maxInput: real, maxSpeed: real, dt: real)
    requires dt > 0.0 && maxInput > 0.0
    requires 0.0 <= change <= maxInput * dt
    ensures CalculateMovement(DefaultMovementCurve, change, maxInput, maxSpeed, dt) == maxSpeed * change / maxInput
  {
    var t := change / dt / maxInput;
    DivideTwice(change, dt, maxInput);
    assert 0.0 <= t <= 1.0 by {
      assert change / (dt * maxInput) <= (maxInput * dt) / (dt * maxInput) by {
        DivideByPositive(change, maxInput * dt, dt * maxInput);
      }
    }
    assert Clamp01(t) == t;
    calc {
      CalculateMovement(DefaultMovementCurve, change, maxInput, maxSpeed, dt);
      (0.0 + (maxSpeed - 0.0) * t) * dt;
      maxSpeed * (change / (dt * maxInput)) * dt;
      maxSpeed * change / maxInput;
    }
  }

  /**
   * With the default curve, a controller moving at or above the reference
   * speed gives exactly the maximum movement, `maxSpeed * dt`.
   */
  lemma CalculateMovementDefaultCurveSaturates(change: real, maxInput: real, maxSpeed: real, dt: real)
    requires dt > 0.0 && maxInput > 0.0
    requires change >= maxInput * dt
    ensures CalculateMovement(DefaultMovementCurve, change, maxInput, maxSpeed, dt) == maxSpeed * dt
  {
    var t := change / dt / maxInput;
    DivideTwice(change, dt, maxInput);
    assert t >= 1.0 by {
      DivideByPositive(maxInput * dt, change, dt * maxInput);
      assert (maxInput * dt) / (dt * maxInput) == 1.0;
    }
  }

  /**
   * The movement of the both-controllers mode: the average of the two
   * controllers' movements scaled by the both-controllers coefficient.  With
   * a non-negative coefficient and maximum speed it lies between 0 and
   * `coefficient * maxSpeed * dt`.
   */
  function BothControllersMovement(curve: real -> real, leftChange: real, rightChange: real,
                                   maxInput: real, maxSpeed: real, coefficient: real, dt: real): (r: real)
    requires dt > 0.0 && maxInput != 0.0
    ensures maxSpeed >= 0.0 && coefficient >= 0.0 ==> 0.0 <= r <= coefficient * maxSpeed * dt
  {
    var leftMovement := CalculateMovement(curve, leftChange, maxInput, maxSpeed, dt);
    var rightMovement := CalculateMovement(curve, rightChange, maxInput, maxSpeed, dt);
    AverageScaledBound(leftMovement, rightMovement, maxSpeed, dt, coefficient);
    (leftMovement + rightMovement) / 2.0 * coefficient
  }

  /** The average of two values in [0, m * d], scaled by k >= 0, lies in [0, k * m * d]. */
  lemma AverageScaledBound(x: real, y: real, m: real, d: real, k: real)
    ensures k >= 0.0 && 0.0 <= x <= m * d && 0.0 <= y <= m * d ==> 0.0 <= (x + y) / 2.0 * k <= k * m * d
  {
    if k >= 0.0 && 0.0 <= x <= m * d && 0.0 <= y <= m * d {
      var hi := m * d;
      var average := (x + y) / 2.0;
      ScaleByNonNegative(average, hi, k);
      assert k * hi == k * m * d;
    }
  }

  /** The value of `BothControllersMovement`, for proofs that need it unfolded. */
  lemma BothControllersMovementValue(curve: real -> real, leftChange: real, rightChange: real,
                                     maxInput: real, maxSpeed: real, coefficient: real, dt: real)
    requires dt > 0.0 && maxInput != 0.0
    ensures BothControllersMovement(curve, leftChange, rightChange, maxInput, maxSpeed, coefficient, dt)
         == (CalculateMovement(curve, leftChange, maxInput, maxSpeed, dt)
             + CalculateMovement(curve, rightChange, maxInput, maxSpeed, dt)) / 2.0 * coefficient
  {
  }

  /** Multiplying by a non-negative number keeps a value inside [0, hi]. */
  lemma ScaleByNonNegative(x: real, hi: real, k: real)
    ensures k >= 0.0 && 0.0 <= x <= hi ==> 0.0 <= x * k <= k * hi
  {
    if k >= 0.0 && 0.0 <= x <= hi {
      ProductOfNonNegatives(x, k);
      ProductOfNonNegatives(hi - x, k);
    }
  }

  /** Neither controller is favoured: swapping them changes nothing. */
  lemma BothControllersMovementSymmetric(curve: real -> real, leftChange: real, rightChange: real,
                                         maxInput: real, maxSpeed: real, coefficient: real, dt: real)
    requires dt > 0.0 && maxInput != 0.0
    ensures BothControllersMovement(curve, leftChange, rightChange, maxInput, maxSpeed, coefficient, dt)
         == BothControllersMovement(curve, rightChange, leftChange, maxInput, maxSpeed, coefficient, dt)
  {
  }

  /** Two controllers that move alike give that controller's movement times the coefficient. */
  lemma BothControllersMovementEqualChanges(curve: real -> real, change: real,
                                            maxInput: real, maxSpeed: real, coefficient: real, dt: real)
    requires dt > 0.0 && maxInput != 0.0
    ensures BothControllersMovement(curve, change, change, maxInput, maxSpeed, coefficient, dt)
         == CalculateMovement(curve, change, maxInput, maxSpeed, dt) * coefficient
  {
  }

  /**
   * With a non-decreasing curve and a non-negative coefficient, moving either
   * controller further never slows the player down.
   */
  lemma BothControllersMovementMonotone(curve: real -> real, l1: real, l2: real, r1: real, r2: real,
                                        maxInput: real, maxSpeed: real, coefficient: real, dt: real)
    requires Monotone(curve)
    requires dt > 0.0 && maxInput > 0.0 && maxSpeed >= 0.0 && coefficient >= 0.0
    requires l1 <= l2 && r1 <= r2
    ensures BothControllersMovement(curve, l1, r1, maxInput, maxSpeed, coefficient, dt)
         <= BothControllersMovement(curve, l2, r2, maxInput, maxSpeed, coefficient, dt)
  {
    var ml1, ml2 := CalculateMovement(curve, l1, maxInput, maxSpeed, dt), CalculateMovement(curve, l2, maxInput, maxSpeed, dt);
    var mr1, mr2 := CalculateMovement(curve, r1, maxInput, maxSpeed, dt), CalculateMovement(curve, r2, maxInput, maxSpeed, dt);
    calc {
      BothControllersMovement(curve, l1, r1, maxInput, maxSpeed, coefficient, dt);
    ==  { BothControllersMovementValue(curve, l1, r1, maxInput, maxSpeed, coefficient, dt); }
      (ml1 + mr1) / 2.0 * coefficient;
    <=  { CalculateMovementMonotone(curve, l1, l2, maxInput, maxSpeed, dt);
          CalculateMovementMonotone(curve, r1, r2, maxInput, maxSpeed, dt);
          AverageScaledOrdered(ml1, ml2, mr1, mr2, coefficient); }
      (ml2 + mr2) / 2.0 * coefficient;
    ==  { BothControllersMovementValue(curve, l2, r2, maxInput, maxSpeed, coefficient, dt); }
      BothControllersMovement(curve, l2, r2, maxInput, maxSpeed, coefficient, dt);
    }
  }

  /** Averaging two ordered pairs and scaling by a non-negative number keeps order. */
  lemma AverageScaledOrdered(x1: real, x2: real, y1: real, y2: real, k: real)
    requires x1 <= x2 && y1 <= y2 && k >= 0.0
    ensures (x1 + y1) / 2.0 * k <= (x2 + y2) / 2.0 * k
  {
    ScaleOrdered((x1 + y1) / 2.0, (x2 + y2) / 2.0, k);
  }

  /** Multiplying by a non-negative number keeps order. */
  lemma ScaleOrdered(x: real, y: real, k: real)
    requires x <= y && k >= 0.0
    ensures x * k <= y * k
  {
    ProductOfNonNegatives(y - x, k);
  }

  /**
   * A worked example with the default settings (reference
   * speed 3, maximum speed 8, coefficient 1) and both controllers moving at one
   * unit per second, the player moves 8/3 units per second.
   */
  lemma BothControllersMovementDefaultExample(dt: real)
    requires dt > 0.0
    ensures BothControllersMovement(DefaultMovementCurve, dt, dt, 3.0, 8.0, 1.0, dt) == 8.0 / 3.0 * dt
  {
    var m := CalculateMovement(DefaultMovementCurve, dt, 3.0, 8.0, dt);
    CalculateMovementDefaultCurveLinear(dt, 3.0, 8.0, dt);
    assert m == 8.0 * dt / 3.0;
    BothControllersMovementValue(DefaultMovementCurve, dt, dt, 3.0, 8.0, 1.0, dt);
    assert BothControllersMovement(DefaultMovementCurve, dt, dt, 3.0, 8.0, 1.0, dt) == (m + m) / 2.0 * 1.0;
  }

  /**
   * The reference-speed setter accepts a negative value, and then a larger
   * controller change gives LESS movement, even with a non-decreasing curve:
   * with the curve `t + 0.5`, reference speed -3, max speed 8, coefficient 1
   * and dt 1, controllers at rest give 4 and controllers moving one unit give 4/3.
   */
  lemma NegativeReferenceSpeedReversesOrder()
    ensures var curve := (t: real) => t + 0.5;
            && Monotone(curve)
            && BothControllersMovement(curve, 0.0, 0.0, -3.0, 8.0, 1.0, 1.0) == 4.0
            && BothControllersMovement(curve, 1.0, 1.0, -3.0, 8.0, 1.0, 1.0) == 4.0 / 3.0
  {
    var curve := (t: real) => t + 0.5;
    assert CalculateMovement(curve, 0.0, -3.0, 8.0, 1.0) == 4.0;
    assert CalculateMovement(curve, 1.0, -3.0, 8.0, 1.0) == 4.0 / 3.0 by {
      assert 1.0 / 1.0 / -3.0 == -1.0 / 3.0;
      assert curve(-1.0 / 3.0) == 1.0 / 6.0;
    }
    BothControllersMovementEqualChanges(curve, 0.0, -3.0, 8.0, 1.0, 1.0);
    BothControllersMovementEqualChanges(curve, 1.0, -3.0, 8.0, 1.0, 1.0);
  }

  /**
   * With the default curve a negative reference speed reverses nothing: every
   * non-negative change maps to a curve parameter <= 0, so the curve gives 0
   * and the controller produces no movement at all.
   */
  lemma CalculateMovementDefaultCurveNegativeReference(change: real, maxInput: real, maxSpeed: real, dt: real)
    requires dt > 0.0 && maxInput < 0.0 && change >= 0.0
    ensures CalculateMovement(DefaultMovementCurve, change, maxInput, maxSpeed, dt) == 0.0
  {
    var speed := change / dt;
    assert speed >= 0.0;
    var t := speed / maxInput;
    assert t <= 0.0 by {
      assert t * maxInput == speed;
    }
    assert DefaultMovementCurve(t) == 0.0;
  }

  /**
   * Both controllers together: with the default curve and a negative reference
   * speed, no controller movement moves the player.  Distances are never
   * negative, so this covers every frame.
   */
  lemma BothControllersMovementDefaultCurveNegativeReference(leftChange: real, rightChange: real, maxInput: real,
                                                             maxSpeed: real, coefficient: real, dt: real)
    requires dt > 0.0 && maxInput < 0.0 && leftChange >= 0.0 && rightChange >= 0.0
    ensures BothControllersMovement(DefaultMovementCurve, leftChange, rightChange, maxInput, maxSpeed, coefficient, dt) == 0.0
  {
    CalculateMovementDefaultCurveNegativeReference(leftChange, maxInput, maxSpeed, dt);
    CalculateMovementDefaultCurveNegativeReference(rightChange, maxInput, maxSpeed, dt);
    BothControllersMovementValue(DefaultMovementCurve, leftChange, rightChange, maxInput, maxSpeed, coefficient, dt);
  }

  /***** The arm swinger object *****/

  /** The bounds of the both-controllers coefficient. */
  const CoefficientMin: real := 0.0
  const CoefficientMax: real := 10.0

  /**
   * The value the both-controllers coefficient holds after a request to set it
   * to `requested`: the request when it lies in [0, 10], otherwise the current
   * value (the C# setter logs a warning then).
   */
  function CoefficientAfterSet(current: real, requested: real): (r: real)
    ensures CoefficientMin <= requested <= CoefficientMax ==> r == requested
    ensures !(CoefficientMin <= requested <= CoefficientMax) ==> r == current
    ensures CoefficientMin <= current <= CoefficientMax ==> CoefficientMin <= r <= CoefficientMax
  {
    if requested >= CoefficientMin && requested <= CoefficientMax then requested else current
  }

  /** The four controller positions the object keeps between frames. */
  datatype ControllerPositions = ControllerPositions(left: Vec3, right: Vec3, previousLeft: Vec3, previousRight: Vec3)

  /** The stored arm-swing settings. */
  datatype Settings = Settings(controllerSpeedForMaxSpeed: real, maxSpeed: real,
                               bothControllersCoefficient: real, cameraRigScaleModifier: real)

  class ArmSwinger {
    var leftControllerLocalPosition: Vec3
    var rightControllerLocalPosition: Vec3
    var leftControllerPreviousLocalPosition: Vec3
    var rightControllerPreviousLocalPosition: Vec3

    /** The public curve field: maps a fraction of the reference speed to a fraction of max speed. */
    var controllerToMovementCurve: real -> real

    var storedControllerSpeedForMaxSpeed: real
    var storedMaxSpeed: real
    var storedBothControllersCoefficient: real
    var cameraRigScaleModifier: real

    /**
     * The object invariant: the coefficient setter only stores values in
     * [0, 10], and nothing in this class rescales the camera rig.
     */
    ghost predicate Valid()
      reads this
    {
      && CoefficientMin <= storedBothControllersCoefficient <= CoefficientMax
      && cameraRigScaleModifier == 1.0
    }

    function Positions(): ControllerPositions
      reads this
    {
      ControllerPositions(leftControllerLocalPosition, rightControllerLocalPosition,
                          leftControllerPreviousLocalPosition, rightControllerPreviousLocalPosition)
    }

    function CurrentSettings(): Settings
      reads this
    {
      Settings(storedControllerSpeedForMaxSpeed, storedMaxSpeed,
               storedBothControllersCoefficient, cameraRigScaleModifier)
    }

    /** The field initialisers: positions at the origin, the default curve and the default settings. */
    constructor ()
      ensures Valid()
      ensures Positions() == ControllerPositions(Zero, Zero, Zero, Zero)
      ensures CurrentSettings() == Settings(3.0, 8.0, 1.0, 1.0)
      ensures forall t :: controllerToMovementCurve(t) == DefaultMovementCurve(t)
    {
      leftControllerLocalPosition := Zero;
      rightControllerLocalPosition := Zero;
      leftControllerPreviousLocalPosition := Zero;
      rightControllerPreviousLocalPosition := Zero;
      controllerToMovementCurve := DefaultMovementCurve;
      storedControllerSpeedForMaxSpeed := 3.0;
      storedMaxSpeed := 8.0;
      storedBothControllersCoefficient := 1.0;
      cameraRigScaleModifier := 1.0;
    }

    /** `updateControllerPosition`: records this frame's controller positions. */
    method UpdateControllerPosition(leftControllerPosition: Vec3, rightControllerPosition: Vec3)
      modifies this`leftControllerLocalPosition, this`rightControllerLocalPosition
      ensures LeftControllerPosition() == leftControllerPosition
      ensures RightControllerPosition() == rightControllerPosition
      ensures Positions() == old(Positions()).(left := leftControllerPosition, right := rightControllerPosition)
      ensures CurrentSettings() == old(CurrentSettings())
      ensures old(Valid()) ==> Valid()
    {
      leftControllerLocalPosition := leftControllerPosition;
      rightControllerLocalPosition := rightControllerPosition;
    }

    /**
     * `updatePreviousControllerPosition`, as written: the left previous
     * position becomes the left argument, but the right previous position
     * becomes the CURRENT right position and the right argument is ignored.
     * The two agree when the caller passes the current right position.
     */
    method UpdatePreviousControllerPosition(leftControllerPosition: Vec3, rightControllerPosition: Vec3)
      modifies this`leftControllerPreviousLocalPosition, this`rightControllerPreviousLocalPosition
      ensures Positions() == old(Positions()).(previousLeft := leftControllerPosition,
                                                previousRight := old(rightControllerLocalPosition))
      ensures rightControllerPosition == old(rightControllerLocalPosition) ==>
                rightControllerPreviousLocalPosition == rightControllerPosition
      ensures CurrentSettings() == old(CurrentSettings())
      ensures old(Valid()) ==> Valid()
    {
      leftControllerPreviousLocalPosition := leftControllerPosition;
      rightControllerPreviousLocalPosition := rightControllerLocalPosition;
    }

    function LeftControllerPosition(): Vec3
      reads this
    {
      leftControllerLocalPosition
    }

    function RightControllerPosition(): Vec3
      reads this
    {
      rightControllerLocalPosition
    }

    /** Getter of `armSwingBothControllersCoefficient`. */
    function BothControllersCoefficient(): (r: real)
      reads this
      ensures Valid() ==> CoefficientMin <= r <= CoefficientMax
    {
      storedBothControllersCoefficient
    }

    /**
     * Setter of `armSwingBothControllersCoefficient`: stores a value in
     * [0, 10] and otherwise keeps the old one; nothing else changes.
     */
    method SetBothControllersCoefficient(value: real)
      modifies this`storedBothControllersCoefficient
      ensures CoefficientMin <= value <= CoefficientMax ==> BothControllersCoefficient() == value
      ensures !(CoefficientMin <= value <= CoefficientMax) ==> CurrentSettings() == old(CurrentSettings())
      ensures BothControllersCoefficient() == CoefficientAfterSet(old(BothControllersCoefficient()), value)
      ensures CurrentSettings() == old(CurrentSettings()).(bothControllersCoefficient := BothControllersCoefficient())
      ensures Positions() == old(Positions())
      ensures old(Valid()) ==> Valid()
    {
      var min := CoefficientMin;
      var max := CoefficientMax;
      if value >= min && value <= max {
        storedBothControllersCoefficient := value;
      }
    }

    /** Getter of `armSwingControllerSpeedForMaxSpeed`. */
    function ControllerSpeedForMaxSpeed(): real
      reads this
    {
      storedControllerSpeedForMaxSpeed
    }

    /** Setter of `armSwingControllerSpeedForMaxSpeed`: stores any value. */
    method SetControllerSpeedForMaxSpeed(value: real)
      modifies this`storedControllerSpeedForMaxSpeed
      ensures ControllerSpeedForMaxSpeed() == value
      ensures CurrentSettings() == old(CurrentSettings()).(controllerSpeedForMaxSpeed := value)
      ensures Positions() == old(Positions())
      ensures old(Valid()) ==> Valid()
    {
      storedControllerSpeedForMaxSpeed := value;
    }

    /** Getter of `armSwingMaxSpeed`: the stored speed in camera-rig scale. */
    function MaxSpeed(): (r: real)
      reads this
      ensures Valid() ==> r == storedMaxSpeed
    {
      storedMaxSpeed * cameraRigScaleModifier
    }

    /**
     * Setter of `armSwingMaxSpeed`: stores any value; as the scale modifier
     * stays 1, the getter then returns exactly that value.
     */
    method SetMaxSpeed(value: real)
      modifies this`storedMaxSpeed
      ensures MaxSpeed() == value * cameraRigScaleModifier
      ensures Valid() ==> MaxSpeed() == value
      ensures CurrentSettings() == old(CurrentSettings()).(maxSpeed := value)
      ensures Positions() == old(Positions())
      ensures old(Valid()) ==> Valid()
    {
      storedMaxSpeed := value;
    }

    /**
     * The movement this object's settings and positions give when both
     * buttons are held.  On a valid object with a non-negative max speed it
     * lies in [0, 10 * maxSpeed * dt], because the coefficient setter keeps
     * the coefficient in [0, 10].
     */
    function SwingMovement<Q>(engine: Engine<Q>, dt: real): (r: real)
      requires dt > 0.0 && ControllerSpeedForMaxSpeed() != 0.0
      reads this
      ensures Valid() && MaxSpeed() >= 0.0 ==> 0.0 <= r <= CoefficientMax * MaxSpeed() * dt
    {
      var leftControllerChange := engine.distance(leftControllerPreviousLocalPosition, leftControllerLocalPosition);
      var rightControllerChange := engine.distance(rightControllerPreviousLocalPosition, rightControllerLocalPosition);
      var coefficient := BothControllersCoefficient();
      var r := BothControllersMovement(controllerToMovementCurve, leftControllerChange, rightControllerChange,
                                       ControllerSpeedForMaxSpeed(), MaxSpeed(), coefficient, dt);
      CoefficientBoundsMovement(r, coefficient, MaxSpeed(), dt);
      r
    }

    /**
     * `swingBothButtonsBothControllers`: when both grip buttons are held,
     * writes the averaged movement and the averaged rotation to its two
     * by-reference outputs and reports true; otherwise reports false and
     * hands both back untouched.  A valid object with a non-negative max
     * speed never moves the player more than ten times the maximum speed per
     * second.
     */
    method SwingBothButtonsBothControllers<Q>(engine: Engine<Q>, leftButtonPressed: bool, rightButtonPressed: bool,
                                              leftRotation: Q, rightRotation: Q, dt: real,
                                              movement: real, rotation: Q)
      returns (moved: bool, newMovement: real, newRotation: Q)
      requires dt > 0.0 && (leftButtonPressed && rightButtonPressed ==> ControllerSpeedForMaxSpeed() != 0.0)
      ensures moved <==> leftButtonPressed && rightButtonPressed
      ensures moved ==> newMovement == SwingMovement(engine, dt)
      ensures moved ==> newRotation == AverageRotation(engine, leftRotation, rightRotation)
      ensures !moved ==> newMovement == movement && newRotation == rotation
      ensures Valid() && MaxSpeed() >= 0.0 && moved ==> 0.0 <= newMovement <= CoefficientMax * MaxSpeed() * dt
    {
      newMovement, newRotation := movement, rotation;
      if leftButtonPressed && rightButtonPressed {
        newRotation := AverageRotation(engine, leftRotation, rightRotation);
        var leftControllerChange := engine.distance(leftControllerPreviousLocalPosition, leftControllerLocalPosition);
        var rightControllerChange := engine.distance(rightControllerPreviousLocalPosition, rightControllerLocalPosition);
        var leftMovement := CalculateMovement(controllerToMovementCurve, leftControllerChange,
                                              ControllerSpeedForMaxSpeed(), MaxSpeed(), dt);
        var rightMovement := CalculateMovement(controllerToMovementCurve, rightControllerChange,
                                               ControllerSpeedForMaxSpeed(), MaxSpeed(), dt);
        var controllerMovement := (leftMovement + rightMovement) / 2.0 * BothControllersCoefficient();
        newMovement := controllerMovement;
        moved := true;
      } else {
        moved := false;
      }
    }

    /**
     * `variableArmSwingMotion`: this frame's horizontal translation of the
     * camera rig; the zero vector unless both buttons are held.
     */
    method VariableArmSwingMotion<Q>(engine: Engine<Q>, leftButtonPressed: bool, rightButtonPressed: bool,
                                     leftRotation: Q, rightRotation: Q, dt: real)
      returns (motion: Vec3)
      requires dt > 0.0 && (leftButtonPressed && rightButtonPressed ==> ControllerSpeedForMaxSpeed() != 0.0)
      ensures motion.y == 0.0
      ensures !(leftButtonPressed && rightButtonPressed) ==> motion == Zero
      ensures leftButtonPressed && rightButtonPressed ==>
                motion == GetForwardXZ(engine, SwingMovement(engine, dt), AverageRotation(engine, leftRotation, rightRotation))
    {
      var movementAmount := 0.0;
      var movementRotation := engine.identity;
      var movedThisFrame := false;
      movedThisFrame, movementAmount, movementRotation :=
        SwingBothButtonsBothControllers(engine, leftButtonPressed, rightButtonPressed,
                                        leftRotation, rightRotation, dt, movementAmount, movementRotation);
      if movedThisFrame {
        motion := GetForwardXZ(engine, movementAmount, movementRotation);
      } else {
        motion := Zero;
      }
    }
  }

  /** A coefficient within bounds scales the per-frame maximum by at most ten. */
  lemma CoefficientBoundsMovement(r: real, coefficient: real, maxSpeed: real, dt: real)
    ensures CoefficientMin <= coefficient <= CoefficientMax && maxSpeed >= 0.0 && dt > 0.0 ==>
              (0.0 <= r <= coefficient * maxSpeed * dt ==> 0.0 <= r <= CoefficientMax * maxSpeed * dt)
  {
    if CoefficientMin <= coefficient <= CoefficientMax && maxSpeed >= 0.0 && dt > 0.0 {
      ProductOfNonNegatives(maxSpeed, dt);
      ProductOfNonNegatives(CoefficientMax - coefficient, maxSpeed * dt);
    }
  }

  /** What `Vector3.Distance` is known to satisfy: it is never negative, and a point is at distance 0 from itself. */
  ghost predicate DistanceLaws<Q>(engine: Engine<Q>) {
    && (forall a, b :: engine.distance(a, b) >= 0.0)
    && (forall v :: engine.distance(v, v) == 0.0)
  }

  /**
   * The far left of the response curve is "no controller movement and no
   * virtual movement": when neither controller moved since the previous frame
   * and the curve maps 0 to 0, as the default one does, the player does not move.
   */
  lemma SwingMovementAtRest<Q>(engine: Engine<Q>, swinger: ArmSwinger, dt: real)
    requires DistanceLaws(engine)
    requires dt > 0.0 && swinger.ControllerSpeedForMaxSpeed() != 0.0
    requires swinger.controllerToMovementCurve(0.0) == 0.0
    requires swinger.Positions().previousLeft == swinger.Positions().left
    requires swinger.Positions().previousRight == swinger.Positions().right
    ensures swinger.SwingMovement(engine, dt) == 0.0
  {
    var curve, maxInput, maxSpeed := swinger.controllerToMovementCurve, swinger.ControllerSpeedForMaxSpeed(), swinger.MaxSpeed();
    assert engine.distance(swinger.leftControllerPreviousLocalPosition, swinger.leftControllerLocalPosition) == 0.0;
    assert engine.distance(swinger.rightControllerPreviousLocalPosition, swinger.rightControllerLocalPosition) == 0.0;
    assert 0.0 / dt / maxInput == 0.0;
    assert CalculateMovement(curve, 0.0, maxInput, maxSpeed, dt) == 0.0;
    BothControllersMovementEqualChanges(curve, 0.0, maxInput, maxSpeed, swinger.BothControllersCoefficient(), dt);
  }

  /** A fresh object whose controllers stay where they were does not move the player. */
  method FreshObjectAtRestScenario<Q>(engine: Engine<Q>, left: Vec3, right: Vec3, dt: real)
    requires DistanceLaws(engine) && dt > 0.0
  {
    var swinger := new ArmSwinger();
    swinger.UpdateControllerPosition(left, right);
    swinger.UpdatePreviousControllerPosition(left, right);
    assert swinger.controllerToMovementCurve(0.0) == 0.0;
    SwingMovementAtRest(engine, swinger, dt);
    assert swinger.SwingMovement(engine, dt) == 0.0;
  }

  /**
   * A zero reference speed is harmless while the buttons are not both held:
   * no division happens and the motion is the zero vector.
   */
  method ZeroReferenceSpeedScenario<Q>(engine: Engine<Q>, leftRotation: Q, rightRotation: Q, dt: real)
    requires dt > 0.0
  {
    var swinger := new ArmSwinger();
    swinger.SetControllerSpeedForMaxSpeed(0.0);
    var motion := swinger.VariableArmSwingMotion(engine, true, false, leftRotation, rightRotation, dt);
    assert motion == Zero;
  }

  /**
   * What a caller can rely on across the property setters, starting from a
   * fresh object: an in-range coefficient is stored and read back, an
   * out-of-range one is refused and the previous value survives, and the
   * max-speed getter returns what was set.
   */
  method SettingsScenario(speed: real)
  {
    var swinger := new ArmSwinger();
    assert swinger.BothControllersCoefficient() == 1.0;
    swinger.SetBothControllersCoefficient(15.0);
    assert swinger.BothControllersCoefficient() == 1.0;
    swinger.SetBothControllersCoefficient(2.5);
    assert swinger.BothControllersCoefficient() == 2.5;
    swinger.SetBothControllersCoefficient(-0.5);
    assert swinger.BothControllersCoefficient() == 2.5;
    assert swinger.MaxSpeed() == 8.0;
    swinger.SetMaxSpeed(speed);
    assert swinger.MaxSpeed() == speed;
    assert swinger.BothControllersCoefficient() == 2.5;
    swinger.UpdateControllerPosition(Vec3(1.0, 0.0, 0.0), Vec3(0.0, 1.0, 0.0));
    swinger.UpdatePreviousControllerPosition(Vec3(2.0, 0.0, 0.0), Vec3(9.0, 9.0, 9.0));
    assert swinger.Positions().previousRight == Vec3(0.0, 1.0, 0.0);
    assert swinger.Positions().previousLeft == Vec3(2.0, 0.0, 0.0);
  }
}
