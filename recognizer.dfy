/**
 * The single-touch rotation recognizer: a gesture recognizer that follows
 * one finger around the center of its view and reports the accumulated
 * rotation, in radians, and the angular velocity of the latest step, in
 * radians per second.
 */
module Recognizer {
  import opened Geometry
  import opened Angles

  datatype Option<T> = None | Some(value: T)

  /** The recognizer states that this recognizer enters. */
  datatype GestureState = Possible | Began | Changed | Ended | Failed

  /** A touch sample: its location in its view's coordinates and its time in seconds. */
  datatype Touch = Touch(location: Point, timestamp: real)

  /**
   * The view a recognizer is attached to: its bounds, and the conversion
   * from its own coordinates into the coordinates of the screen (which the
   * host toolkit provides and which this model does not look into).
   */
  datatype View = View(bounds: Rect, toScreen: Point -> Point)

  /**
   * Where a touch lies relative to the center of its view, both measured
   * in screen coordinates, which stay put while the view itself rotates.
   */
  function ScreenVector(view: View, touch: Touch): (v: Vector)
    ensures Translate(view.toScreen(Center(view.bounds)), v) == view.toScreen(touch.location)
  {
    var location := view.toScreen(touch.location);
    var center := view.toScreen(Center(view.bounds));
    Sub(location, center)
  }

  /** Whether `touchesBegan` accepts a touch set: exactly one touch, and a view. */
  predicate AcceptsBegin(touches: seq<Touch>, view: Option<View>) {
    |touches| == 1 && view.Some?
  }

  /** Whether `touchesMoved` accepts a touch set: some touch, and a view. */
  predicate AcceptsMove(touches: seq<Touch>, view: Option<View>) {
    |touches| > 0 && view.Some?
  }

  /**
   * The recognizer. A touch set is given as a sequence in the order in
   * which the set enumerates its members, so its first touch is the head
   * of the sequence and its count is the length.
   */
  class SingleTouchRotationGestureRecognizer {
    /** Accumulated rotation in radians. */
    var rotation: real
    var lastVector: Vector
    /** Angular velocity of the latest step, in radians per second. */
    var angularVelocity: real
    var lastTimestamp: real
    var state: GestureState
    /** The attached view, if any; the host toolkit sets it. */
    var view: Option<View>

    /** The rotation when the current touch began (or when it was last zeroed). */
    ghost var base: real
    /** The touch vector recorded when the current touch began. */
    ghost var anchor: Vector
    /** The touch vectors of the moves since then, in order. */
    ghost var trail: seq<Vector>

    /**
     * `rotation` is `base` plus the angles measured along the moves since
     * the touch began, and `lastVector` is where those moves ended.
     */
    ghost predicate Valid()
      reads this
    {
      rotation == base + Sum(PathAngles(anchor, trail)) && lastVector == PathEnd(anchor, trail)
    }

    constructor ()
      ensures Valid()
      ensures rotation == 0.0 && lastVector == ZeroVector
      ensures angularVelocity == 0.0 && lastTimestamp == 0.0
      ensures state == Possible && view == None
    {
      rotation := 0.0;
      lastVector := ZeroVector;
      angularVelocity := 0.0;
      lastTimestamp := 0.0;
      state := Possible;
      view := None;
      base, anchor, trail := 0.0, ZeroVector, [];
    }

    /**
     * Since the current touch began, the rotation has changed by the
     * change of direction of the touch vector plus whole turns, and by at
     * most half a turn per move.
     */
    lemma RotationSinceBegan()
      requires Valid()
      ensures rotation - base
           == Heading(lastVector) - Heading(anchor) + 2.0 * Pi * PathTurns(anchor, trail) as real
      ensures -(|trail| as real) * Pi <= rotation - base <= (|trail| as real) * Pi
    {
      PathRotationWinds(anchor, trail);
      SumBound(PathAngles(anchor, trail));
    }

    /** The angular velocity as last computed. */
    function Velocity(): (r: real)
      reads this
      ensures r == angularVelocity
    {
      angularVelocity
    }

    /**
     * Zeroes the vector, the rotation and the time of the last sample and
     * returns to the possible state; the angular velocity is kept.
     */
    method Reset()
      requires Valid()
      modifies this
      ensures Valid() && base == 0.0 && anchor == ZeroVector && trail == []
      ensures lastVector == ZeroVector && rotation == 0.0 && lastTimestamp == 0.0
      ensures state == Possible
      ensures angularVelocity == old(angularVelocity) && view == old(view)
    {
      state := Possible;
      lastVector := ZeroVector;
      rotation := 0.0;
      lastTimestamp := 0.0;
      base, anchor, trail := 0.0, ZeroVector, [];
    }

    /**
     * Starts following a touch. Fails, changing nothing else, unless there
     * is exactly one touch and a view; otherwise records where and when
     * the touch is. The rotation is not zeroed here.
     */
    method TouchesBegan(touches: seq<Touch>)
      requires Valid()
      modifies this
      ensures Valid()
      ensures rotation == old(rotation) && angularVelocity == old(angularVelocity)
      ensures view == old(view)
      ensures AcceptsBegin(touches, view) ==>
                lastVector == ScreenVector(view.value, touches[0])
                && lastTimestamp == touches[0].timestamp
                && state == Began
                && base == rotation && anchor == lastVector && trail == []
      ensures !AcceptsBegin(touches, view) ==>
                lastVector == old(lastVector) && lastTimestamp == old(lastTimestamp)
                && state == Failed
                && base == old(base) && anchor == old(anchor) && trail == old(trail)
    {
      if !(|touches| > 0 && |touches| == 1 && view.Some?) {
        state := Failed;
        return;
      }
      var touch := touches[0];
      lastVector := ScreenVector(view.value, touch);
      lastTimestamp := touch.timestamp;
      state := Began;
      base, anchor, trail := rotation, lastVector, [];
    }

    /**
     * Follows the first touch to its new place: adds the signed angle it
     * has turned through to the rotation, and sets the angular velocity to
     * that angle over the time since the previous sample. Fails, changing
     * nothing else, when there is no touch or no view; the number of
     * touches is not checked here. The time since the previous sample must
     * not be zero.
     */
    method TouchesMoved(touches: seq<Touch>)
      requires Valid()
      requires AcceptsMove(touches, view) ==> touches[0].timestamp != lastTimestamp
      modifies this
      ensures Valid() && view == old(view)
      ensures AcceptsMove(touches, view) ==>
                var current := ScreenVector(view.value, touches[0]);
                var delta := AngleFromVector(current, old(lastVector));
                rotation == old(rotation) + delta
                && base == old(base) && anchor == old(anchor) && trail == old(trail) + [current]
                && lastVector == current
                && angularVelocity == delta / (touches[0].timestamp - old(lastTimestamp))
                && lastTimestamp == touches[0].timestamp
                && state == Changed
      ensures !AcceptsMove(touches, view) ==>
                rotation == old(rotation)
                && base == old(base) && anchor == old(anchor) && trail == old(trail)
                && lastVector == old(lastVector) && angularVelocity == old(angularVelocity)
                && lastTimestamp == old(lastTimestamp)
                && state == Failed
    {
      if !(|touches| > 0 && view.Some?) {
        state := Failed;
        return;
      }
      var touch := touches[0];
      var currentVector := ScreenVector(view.value, touch);
      var angularDelta := AngleFromVector(currentVector, lastVector);
      PathAnglesAppend(anchor, trail, currentVector);
      SumAppend(PathAngles(anchor, trail), angularDelta);
      rotation := rotation + angularDelta;
      trail := trail + [currentVector];
      lastVector := currentVector;

      angularVelocity := angularDelta / (touch.timestamp - lastTimestamp);
      lastTimestamp := touch.timestamp;

      state := Changed;
    }

    /** A cancelled touch ends the gesture; nothing else changes. */
    method TouchesCancelled(touches: seq<Touch>)
      requires Valid()
      modifies this
      ensures Valid() && view == old(view)
      ensures base == old(base) && anchor == old(anchor) && trail == old(trail)
      ensures state == Ended
      ensures rotation == old(rotation) && lastVector == old(lastVector)
      ensures angularVelocity == old(angularVelocity) && lastTimestamp == old(lastTimestamp)
    {
      state := Ended;
    }

    /** A lifted touch ends the gesture; nothing else changes. */
    method TouchesEnded(touches: seq<Touch>)
      requires Valid()
      modifies this
      ensures Valid() && view == old(view)
      ensures base == old(base) && anchor == old(anchor) && trail == old(trail)
      ensures state == Ended
      ensures rotation == old(rotation) && lastVector == old(lastVector)
      ensures angularVelocity == old(angularVelocity) && lastTimestamp == old(lastTimestamp)
    {
      state := Ended;
    }
  }
}

