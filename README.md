# Arm-swing locomotion (OVRArmSwinger) in Dafny

This project models the logic of the `OVRArmSwinger` class: arm-swing
locomotion for a VR camera rig. While both grip buttons are held, the player
moves forward each frame. The distance comes from how far the two hand
controllers moved since the previous frame, and the direction is the average
of the two controllers' rotations, flattened onto the horizontal plane.

The model has two modules:

- `Unity` (`unity.dfy`) holds the part of the engine's math library that the
  class uses. `Vector3`, `Vector3.zero`, `Vector3.forward`, `Mathf.Clamp01`
  and `Mathf.Lerp` are defined exactly, over the reals. Quaternions are a type
  parameter `Q`. `Quaternion.identity`, `Quaternion.Slerp`, the
  `Quaternion * Vector3` product and `Vector3.Distance` are never defined: a
  caller passes them in as function values, bundled in the `Engine<Q>`
  datatype.
- `ArmSwinging` (`arm_swinger.dfy`) holds the class itself:
  - The static helpers are functions: `XZOnly` (`vector3XZOnly`),
    `GetForwardXZ`, `AverageRotation` and `CalculateMovement`.
  - `BothControllersMovement` and `CoefficientAfterSet` are specification
    functions for the both-controllers average and for the coefficient
    setter.
  - The class `ArmSwinger` holds the four controller-position fields, the
    public response-curve field and the stored settings.
  - Its methods update those fields: `UpdateControllerPosition` and
    `UpdatePreviousControllerPosition` write the positions, the three
    property setters store settings, and `SwingBothButtonsBothControllers`
    returns the values the C# code writes through its `ref` parameters.
    `VariableArmSwingMotion` is the per-frame motion.

`Time.deltaTime` is the parameter `dt` (positive). The grip-button states and
the two controller rotations, which the C# code polls from the runtime, are
also parameters. The response curve (`AnimationCurve.Evaluate`) is a function
`real -> real`. The class's default curve has keyframes (0, 0) and (1, 1) with
unit tangents. `DefaultMovementCurve` states it as the cubic Hermite segment
of those keys (`Unity.Hermite`) on [0, 1] and as the end values outside. That
segment is the identity, so the curve is computed as `Mathf.Clamp01`.

`updatePreviousControllerPosition` is modelled as written. The right previous
position becomes the current right position, and the right argument is
ignored. The two agree when the caller passes the current right position,
and `UpdatePreviousControllerPosition` says so.

The camera-rig scale modifier starts at 1.0, and no code in the class writes
it again. So the object invariant `Valid()` pins it to 1.0, alongside the
coefficient range [0, 10].

The class declares many more settings than it uses (lines 13-307). There are
settings for five activation modes, controller smoothing, inertia, terrain
height, boundary prevention with rewind and push-back, and a push-back
budget. Only the both-buttons-both-controllers mode has code, and no method
reads the other settings. Only the both-controllers coefficient has a
validating setter. It rejects an out-of-range value instead of clamping it,
and keeps the previous value. The reference-speed setter accepts any value,
including a negative one. Then more controller movement can give less
camera-rig movement with a curve that is positive below 0
(`NegativeReferenceSpeedReversesOrder`, curve t + 0.5). With the default
curve a negative reference speed gives no movement at all
(`BothControllersMovementDefaultCurveNegativeReference`). The monotonicity
lemmas therefore assume a positive reference speed.

## Model

| member | source | states |
|---|---|---|
| `ArmSwinging.XZOnly` | Assets/Oculus/VR/Scripts/OVRArmSwinger.cs:396-399 | the projection has y = 0 and keeps x and z |
| `ArmSwinging.XZOnlyIdempotent` | Assets/Oculus/VR/Scripts/OVRArmSwinger.cs:396-399 | projecting twice equals projecting once |
| `ArmSwinging.XZOnlyFixedPoints` | Assets/Oculus/VR/Scripts/OVRArmSwinger.cs:396-399 | a vector is left unchanged by the projection exactly when its y is 0 |
| `ArmSwinging.XZOnlyIsOrthogonalProjection` | Assets/Oculus/VR/Scripts/OVRArmSwinger.cs:396-399 | what the projection removes is purely vertical, perpendicular to what it keeps, and the two parts add back to the input |
| `ArmSwinging.GetForwardXZ` | Assets/Oculus/VR/Scripts/OVRArmSwinger.cs:402-406 | the forward movement is always horizontal (y = 0), and it differs from the rotated and scaled forward vector only in its vertical component |
| `ArmSwinging.GetForwardXZScales` | Assets/Oculus/VR/Scripts/OVRArmSwinger.cs:402-406 | the forward movement is linear in the distance, and distance 0 gives the zero vector |
| `ArmSwinging.DefaultMovementCurveMonotone` | Assets/Oculus/VR/Scripts/OVRArmSwinger.cs:34 | the default controller-to-movement curve is non-decreasing |
| `Unity.Clamp01` | Assets/Oculus/VR/Scripts/OVRArmSwinger.cs:423 | the clamp that `Mathf.Lerp` applies to its parameter lies in [0, 1], is the identity on [0, 1], and is 0 below and 1 above |
| `Unity.Clamp01Monotone` | Assets/Oculus/VR/Scripts/OVRArmSwinger.cs:423 | the clamp is non-decreasing |
| `Unity.LerpBetween` | Assets/Oculus/VR/Scripts/OVRArmSwinger.cs:423 | `Mathf.Lerp(a, b, t)` stays between a and b for every t, and equals a at t = 0 and b at t = 1 |
| `Unity.LerpMonotone` | Assets/Oculus/VR/Scripts/OVRArmSwinger.cs:423 | for a <= b, `Mathf.Lerp(a, b, t)` is non-decreasing in t |
| `ArmSwinging.CalculateMovement` | Assets/Oculus/VR/Scripts/OVRArmSwinger.cs:420-426 | for dt > 0 and a max speed >= 0, the movement lies in [0, maxSpeed * dt] whatever the curve returns; for a max speed <= 0 it lies in [maxSpeed * dt, 0] |
| `ArmSwinging.CalculateMovementMonotone` | Assets/Oculus/VR/Scripts/OVRArmSwinger.cs:420-426 | with a non-decreasing curve, a positive reference speed and a max speed >= 0, a larger controller change never gives less movement |
| `ArmSwinging.CalculateMovementDefaultCurveLinear` | Assets/Oculus/VR/Scripts/OVRArmSwinger.cs:420-426 | with the default curve, a positive reference speed and a change in [0, maxInput * dt], the movement is exactly maxSpeed * change / maxInput; the frame time cancels out |
| `ArmSwinging.CalculateMovementDefaultCurveSaturates` | Assets/Oculus/VR/Scripts/OVRArmSwinger.cs:420-426 | with the default curve and a positive reference speed, a change of at least maxInput * dt gives exactly maxSpeed * dt |
| `ArmSwinging.BothControllersMovement` | Assets/Oculus/VR/Scripts/OVRArmSwinger.cs:373-377 | the average of the two movements times the coefficient lies in [0, coefficient * maxSpeed * dt] when the coefficient and the max speed are >= 0 |
| `ArmSwinging.BothControllersMovementSymmetric` | Assets/Oculus/VR/Scripts/OVRArmSwinger.cs:373-377 | swapping the left and right changes does not change the movement |
| `ArmSwinging.BothControllersMovementEqualChanges` | Assets/Oculus/VR/Scripts/OVRArmSwinger.cs:373-377 | two equal changes give one controller's movement times the coefficient |
| `ArmSwinging.BothControllersMovementMonotone` | Assets/Oculus/VR/Scripts/OVRArmSwinger.cs:373-377 | with a non-decreasing curve, a positive reference speed, a max speed >= 0 and a coefficient >= 0, moving either controller further never slows the player down |
| `ArmSwinging.BothControllersMovementDefaultExample` | Assets/Oculus/VR/Scripts/OVRArmSwinger.cs:34-44 | with the default curve and settings (reference speed 3, max speed 8, coefficient 1), both controllers moving at one unit per second give 8/3 units per second |
| `ArmSwinging.CoefficientAfterSet` | Assets/Oculus/VR/Scripts/OVRArmSwinger.cs:441-454 | a requested coefficient in [0, 10] is taken; any other value leaves the current one; a coefficient in range stays in range |
| `Unity.Lerp` | Assets/Oculus/VR/Scripts/OVRArmSwinger.cs:423 | `Mathf.Lerp` is linear interpolation for t in [0, 1], gives a for t <= 0 and gives b for t >= 1 |
| `ArmSwinging.DefaultMovementCurve` | Assets/Oculus/VR/Scripts/OVRArmSwinger.cs:34 | on [0, 1] the default curve is the cubic Hermite segment of its keyframes (0, 0) and (1, 1), both with unit tangents; it is 0 before the first key and 1 after the last |
| `ArmSwinging.AverageRotation` | Assets/Oculus/VR/Scripts/OVRArmSwinger.cs:391-394 | the average of two rotations is the engine's slerp at t = 0.5; slerp is a parameter, so nothing more is stated |
| `ArmSwinging.NegativeReferenceSpeedReversesOrder` | Assets/Oculus/VR/Scripts/OVRArmSwinger.cs:458-468 | the reference-speed setter accepts a negative value, and then more controller movement can give less camera-rig movement with a non-decreasing curve (curve t + 0.5, reference speed -3, max speed 8, coefficient 1, dt 1: changes 0 give 4, changes 1 give 4/3) |
| `ArmSwinging.CalculateMovementDefaultCurveNegativeReference` | Assets/Oculus/VR/Scripts/OVRArmSwinger.cs:420-426 | with the default curve and a negative reference speed, every non-negative controller change gives movement 0 |
| `ArmSwinging.BothControllersMovementDefaultCurveNegativeReference` | Assets/Oculus/VR/Scripts/OVRArmSwinger.cs:373-377 | with the default curve and a negative reference speed, the both-controllers movement is 0 for all non-negative changes, whatever the max speed and coefficient |
| `ArmSwinging.SwingMovementAtRest` | Assets/Oculus/VR/Scripts/OVRArmSwinger.cs:33-34 | when neither controller moved since the previous frame, the engine's distance is 0 from a point to itself, and the curve maps 0 to 0 (as the default curve does), the swing movement is 0: no controller movement gives no virtual movement |
| `ArmSwinging.ArmSwinger.LeftControllerPosition` | Assets/Oculus/VR/Scripts/OVRArmSwinger.cs:326-329 | the stored left position; what it returns after an update is stated by `UpdateControllerPosition` |
| `ArmSwinging.ArmSwinger.RightControllerPosition` | Assets/Oculus/VR/Scripts/OVRArmSwinger.cs:331-334 | the stored right position; what it returns after an update is stated by `UpdateControllerPosition` |
| `ArmSwinging.ArmSwinger.BothControllersCoefficient` | Assets/Oculus/VR/Scripts/OVRArmSwinger.cs:436-439 | on a valid object the coefficient lies in [0, 10] |
| `ArmSwinging.ArmSwinger.ControllerSpeedForMaxSpeed` | Assets/Oculus/VR/Scripts/OVRArmSwinger.cs:460-463 | the stored reference speed, unvalidated; what it returns after a set is stated by `SetControllerSpeedForMaxSpeed` |
| `ArmSwinging.ArmSwinger.MaxSpeed` | Assets/Oculus/VR/Scripts/OVRArmSwinger.cs:472-475 | the stored max speed times the camera-rig scale modifier, which on a valid object is the stored max speed itself |
| `ArmSwinging.ArmSwinger.SwingMovement` | Assets/Oculus/VR/Scripts/OVRArmSwinger.cs:369-377 | the both-controllers movement for the stored positions and settings; on a valid object with a max speed >= 0 it lies in [0, 10 * maxSpeed * dt] |
| `ArmSwinging.ArmSwinger.constructor` | Assets/Oculus/VR/Scripts/OVRArmSwinger.cs:34-44 | a new object has the default curve, reference speed 3, max speed 8, coefficient 1.0 and scale modifier 1.0 (line 307), with all four positions at the origin (lines 222-225) |
| `ArmSwinging.ArmSwinger.UpdateControllerPosition` | Assets/Oculus/VR/Scripts/OVRArmSwinger.cs:314-318 | afterwards the left and right getters return the arguments; the previous positions and all settings are unchanged |
| `ArmSwinging.ArmSwinger.UpdatePreviousControllerPosition` | Assets/Oculus/VR/Scripts/OVRArmSwinger.cs:320-324 | the left previous position becomes the left argument; the right previous position becomes the current right position, ignoring the right argument; the current positions and the settings are unchanged |
| `ArmSwinging.ArmSwinger.SetBothControllersCoefficient` | Assets/Oculus/VR/Scripts/OVRArmSwinger.cs:434-456 | a value in [0, 10] is what the getter then returns; any other value leaves every setting as it was; the positions never change, and the invariant is kept |
| `ArmSwinging.ArmSwinger.SetControllerSpeedForMaxSpeed` | Assets/Oculus/VR/Scripts/OVRArmSwinger.cs:458-468 | any value is stored and returned by the getter; nothing else changes |
| `ArmSwinging.ArmSwinger.SetMaxSpeed` | Assets/Oculus/VR/Scripts/OVRArmSwinger.cs:470-480 | the getter returns the stored value times the scale modifier, which equals the set value on a valid object; nothing else changes |
| `ArmSwinging.ArmSwinger.SwingBothButtonsBothControllers` | Assets/Oculus/VR/Scripts/OVRArmSwinger.cs:361-386 | it reports movement exactly when both buttons are held; the movement is then the averaged, coefficient-scaled movement of the two controllers' changes, and the rotation is the slerp midpoint of the two rotations; otherwise both outputs are handed back unchanged; on a valid object with a max speed >= 0 the movement lies in [0, 10 * maxSpeed * dt]; a zero reference speed is allowed while the buttons are not both held, since no division happens then |
| `ArmSwinging.ArmSwinger.VariableArmSwingMotion` | Assets/Oculus/VR/Scripts/OVRArmSwinger.cs:340-358 | the motion is always horizontal; it is the zero vector unless both buttons are held, and then it is the forward vector for the swing movement and the average rotation; a zero reference speed is allowed while the buttons are not both held |

## Left out

- Floating point: every C# `float` is a Dafny `real`, so IEEE rounding, infinities and NaN are not modelled.
- CalculateMovement: requires `dt > 0` and a non-zero reference speed. The float results of dividing by zero (infinity or NaN fed to the curve) are not modelled. `armSwingControllerSpeedForMaxSpeed` has a setter that accepts any value. `SwingBothButtonsBothControllers` and `VariableArmSwingMotion` require it to be non-zero only when both buttons are held, because only then is anything divided by it.
- `Time.deltaTime` is a parameter rather than a global clock.
- Button polling (`OVRInput.Get`, line 363) and controller orientation (`OVRInput.GetLocalControllerRotation`, line 415) are runtime calls. Their results are parameters. `determineAverageControllerRotation` (lines 409-418) is therefore `AverageRotation` applied to the two rotation parameters.
- `Quaternion.Slerp`, the `Quaternion * Vector3` product and `Vector3.Distance` are engine numerics. They are uninterpreted function values, so nothing is proved about `AverageRotation` beyond its definition. The movement bounds hold whatever distance the engine reports. `DistanceLaws` states two facts about `Vector3.Distance`: it is non-negative, and it is 0 from a point to itself. `SwingMovementAtRest` uses only the second.
- `AnimationCurve.Evaluate` is an arbitrary function; monotonicity is assumed only where a lemma states it. The default curve is modelled exactly, as a clamp to [0, 1].
- `Debug.LogWarning` in the coefficient setter (line 452) is only a diagnostic side effect.
- The inspector-only fields, tooltips and enums (lines 13-307), including the single-controller coefficient (line 48), are left out. No method of the class reads them: smoothing, inertia, raycast, rewind, push-back and pause settings, and the history lists and queues.
- The empty C# constructor (lines 309-312) together with the field initialisers is the Dafny constructor.

