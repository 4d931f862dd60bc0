# Single-touch rotation gesture recognizer, modelled in Dafny

This project models the single-touch rotation gesture recognizer. The recognizer follows one finger around the center of the view it is attached to. It reports two values: the accumulated rotation in radians, and the angular velocity of the latest step in radians per second.

The model has three modules, one per part of `SingleTouchRotationGestureRecognizer.swift`:

- `Geometry` (`geometry.dfy`): points, vectors, sizes and rectangles over `real`. It holds point subtraction (`Sub`) and the center of a rectangle (`Center`).
- `Angles` (`angles.dfy`): the heading of a vector through an abstract `Atan2`, and the folded signed angle between two vectors (`AngleFromVector`). It also holds the sums of such angles along a path of samples. `Pi` is the exact value of `Double.pi`, because that is what the code compares against. `Atan2` is a module constant whose type only says its values lie in `[-Pi, Pi]`, so nothing else about it is assumed.
- `Recognizer` (`recognizer.dfy`): the recognizer class. Its fields are `rotation`, `lastVector`, `angularVelocity`, `lastTimestamp`, `state` and `view`. Its methods are `Reset`, `TouchesBegan`, `TouchesMoved`, `TouchesCancelled` and `TouchesEnded`, plus the `Velocity` getter. Three ghost fields record the current gesture: `base` is the rotation when the touch began, `anchor` is the touch vector then, and `trail` holds the touch vectors of the moves since. `Valid()` says that `rotation` is `base` plus the angles measured along the trail, and that `lastVector` is where the trail ends. So after `Reset`, a successful `TouchesBegan` and n successful `TouchesMoved`, `rotation` is the sum of the n measured angles, each in `[-Pi, Pi]`.

How the model represents the host toolkit:

- A touch set is a sequence in the order the set enumerates its members. Its `first` is the head and its `count` is the length.
- A touch carries its location in its view's coordinates and its timestamp.
- A view carries its bounds and an opaque conversion `toScreen` into screen coordinates. The screen vector of a touch is `Sub(toScreen(location), toScreen(Center(bounds)))`, as in `screenVectorFromTouch`.
- The gesture state is a plain enumeration: `Possible`, `Began`, `Changed`, `Ended`, `Failed`.
- `Reset` also puts the state back to `Possible`. This models what the base class's reset does.

Points where the code's exact behaviour matters:

- Both comparisons in `angleFromVector` are strict (lines 35 and 38), so the folded angle lies in the closed interval `[-Pi, Pi]`. A raw difference of exactly `Pi` or `-Pi` comes back unchanged.
- `touchesBegan` leaves `rotation` as it is (lines 95-97). Only `reset` zeroes it.
- The division at line 112 has no guard, so `TouchesMoved` requires a non-zero time step.
- The comment on point subtraction says it returns the vector "from lhs point to rhs point". The code computes `lhs - rhs`, which is the displacement from `rhs` to `lhs`. `Sub` follows the code.

## Model

| member | source | states |
|---|---|---|
| Geometry.Sub | SingleTouchRotationGestureRecognizer/SingleTouchRotationGestureRecognizer.swift:16-18 | moving from `rhs` along the result reaches `lhs`; the result is zero exactly when the points coincide |
| Geometry.SubUnique | SingleTouchRotationGestureRecognizer/SingleTouchRotationGestureRecognizer.swift:16-18 | the difference is the only displacement leading from `rhs` to `lhs` |
| Geometry.SubAntisymmetric | SingleTouchRotationGestureRecognizer/SingleTouchRotationGestureRecognizer.swift:16-18 | swapping the points negates the vector |
| Geometry.Center | SingleTouchRotationGestureRecognizer/SingleTouchRotationGestureRecognizer.swift:45-49 | the center is the midpoint of origin and far corner, and it lies within the rectangle when width and height are not negative |
| Geometry.CenterUnique | SingleTouchRotationGestureRecognizer/SingleTouchRotationGestureRecognizer.swift:45-49 | the midpoint property determines the center |
| Angles.Heading | SingleTouchRotationGestureRecognizer/SingleTouchRotationGestureRecognizer.swift:30 | a direction from `atan2` lies in `[-Pi, Pi]` |
| Angles.AngleFromVector | SingleTouchRotationGestureRecognizer/SingleTouchRotationGestureRecognizer.swift:29-42 | the result lies in `[-Pi, Pi]`; it differs from the raw difference of directions by 0, -2Pi or +2Pi; it equals the raw difference if and only if that difference is in `[-Pi, Pi]` |
| Angles.AngleIsRawPlusTurns | SingleTouchRotationGestureRecognizer/SingleTouchRotationGestureRecognizer.swift:35-40 | the folded angle is the raw difference plus a whole number of turns between -1 and 1 |
| Angles.AngleFromSelf | SingleTouchRotationGestureRecognizer/SingleTouchRotationGestureRecognizer.swift:29-42 | a vector measured against itself gives 0 |
| Angles.AngleAntisymmetric | SingleTouchRotationGestureRecognizer/SingleTouchRotationGestureRecognizer.swift:29-42 | measuring in the opposite order negates the angle, including at the ends `-Pi` and `Pi` |
| Angles.AngleIsShortest | SingleTouchRotationGestureRecognizer/SingleTouchRotationGestureRecognizer.swift:32-40 | no rotation reaching the same direction, i.e. the raw difference plus any whole number of turns, is shorter than the folded angle |
| Angles.AngleRecoversRotation | SingleTouchRotationGestureRecognizer/SingleTouchRotationGestureRecognizer.swift:21-42 | if the directions differ by `theta` in `[-Pi, Pi]` up to whole turns, the measured angle is `theta`, or the opposite end when `theta` is `Pi` or `-Pi` |
| Angles.QuarterTurnAcrossCut | SingleTouchRotationGestureRecognizer/SingleTouchRotationGestureRecognizer.swift:29-42 | a quarter turn across the jump of `atan2` from `Pi` to `-Pi` is measured as a quarter turn in each order, with opposite signs |
| Angles.SumAppend | SingleTouchRotationGestureRecognizer/SingleTouchRotationGestureRecognizer.swift:109 | adding one more step to the accumulated rotation adds its angle to the sum |
| Angles.SumBound | SingleTouchRotationGestureRecognizer/SingleTouchRotationGestureRecognizer.swift:108-109 | n steps of at most half a turn accumulate to at most n half turns |
| Angles.PathAngles | SingleTouchRotationGestureRecognizer/SingleTouchRotationGestureRecognizer.swift:107-110 | the angles measured along a path, one per sample, are each in `[-Pi, Pi]` |
| Angles.PathAnglesAppend | SingleTouchRotationGestureRecognizer/SingleTouchRotationGestureRecognizer.swift:107-110 | one more sample adds the angle measured from the previous end of the path, and the path then ends at the new sample |
| Angles.PathRotationWinds | SingleTouchRotationGestureRecognizer/SingleTouchRotationGestureRecognizer.swift:107-110 | the accumulated angles along a path equal the change of direction from first to last vector plus a whole number of turns, so the rotation stays continuous across the jump at `Pi` |
| Recognizer.ScreenVector | SingleTouchRotationGestureRecognizer/SingleTouchRotationGestureRecognizer.swift:80-86 | the vector leads from the view's center to the touch, both converted to screen coordinates |
| Recognizer.SingleTouchRotationGestureRecognizer.constructor | SingleTouchRotationGestureRecognizer/SingleTouchRotationGestureRecognizer.swift:58-71 | a new recognizer has zero rotation, vector, velocity and timestamp, is in the possible state, and has no view |
| Recognizer.SingleTouchRotationGestureRecognizer.RotationSinceBegan | SingleTouchRotationGestureRecognizer/SingleTouchRotationGestureRecognizer.swift:95-115 | since the touch began, the rotation has changed by the change of direction of the touch vector plus whole turns, and by at most half a turn per move |
| Recognizer.SingleTouchRotationGestureRecognizer.Velocity | SingleTouchRotationGestureRecognizer/SingleTouchRotationGestureRecognizer.swift:61-63 | the velocity reported is the angular velocity last computed |
| Recognizer.SingleTouchRotationGestureRecognizer.Reset | SingleTouchRotationGestureRecognizer/SingleTouchRotationGestureRecognizer.swift:73-78 | sets vector, rotation and timestamp to zero and returns to the possible state; the angular velocity and view stay as they were; a second reset therefore changes nothing |
| Recognizer.SingleTouchRotationGestureRecognizer.TouchesBegan | SingleTouchRotationGestureRecognizer/SingleTouchRotationGestureRecognizer.swift:88-98 | with exactly one touch and a view: records that touch's screen vector and timestamp and begins, and the gesture record restarts from the current rotation. Otherwise it fails with vector and timestamp unchanged. Rotation and velocity never change |
| Recognizer.SingleTouchRotationGestureRecognizer.TouchesMoved | SingleTouchRotationGestureRecognizer/SingleTouchRotationGestureRecognizer.swift:100-116 | with a touch and a view: adds exactly the folded angle from the last vector to the rotation and appends the new vector to the trail; stores the new vector and timestamp; sets the velocity to that angle over the time step; changes state. Otherwise it fails with every numeric field unchanged. No touch-count check |
| Recognizer.SingleTouchRotationGestureRecognizer.TouchesCancelled | SingleTouchRotationGestureRecognizer/SingleTouchRotationGestureRecognizer.swift:118-121 | ends the gesture and changes nothing else |
| Recognizer.SingleTouchRotationGestureRecognizer.TouchesEnded | SingleTouchRotationGestureRecognizer/SingleTouchRotationGestureRecognizer.swift:123-126 | ends the gesture and changes nothing else |

## Left out

- Floating point: all quantities are `real`. The model does not capture rounding in the subtraction of directions, in `Pi * 2`, in the division by the time step, or in the conversions between `CGFloat` and `Double`.
- `atan2` is abstract. Only its range `[-Pi, Pi]` is known, so no lemma fixes the direction of a particular vector. Scenarios that depend on such directions are stated with those directions as hypotheses.
- Recognizer.SingleTouchRotationGestureRecognizer.TouchesMoved: requires a non-zero time step. The code divides without a guard, and the infinity or NaN that floating point would then produce is not modelled.
- The coordinate conversion of the host toolkit is an opaque function carried by the view. The window and screen lookups are not modelled, and neither is the crash when the view has no window.
- The base gesture-recognizer class is not modelled: its initializer with target and action, its `super` calls, its rules on which state changes are allowed, and its delivery of actions to targets. The `event` argument of the touch callbacks is unused by the code and is left out.
- `ViewController.swift` is demo UI. It wires the recognizer to a view and turns the reported rotation into an affine transform, and is not part of this model.
