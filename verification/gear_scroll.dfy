/** The rotational scroll control of src/components/GearScroll.tsx: a drag
    around the gear's centre turns pointer angles into wraparound-corrected
    deltas, spins the gear by them and, outside a small dead zone, emits
    scroll commands proportional to them. */
module GearScroll {
  import opened Options

  /** An angle in degrees as atan2 scaled by 180/pi yields it. */
  type Degrees = r: real | -180.0 <= r <= 180.0

  datatype Point = Point(x: real, y: real)

  /** A bounding client rectangle. */
  datatype Rect = Rect(left: real, top: real, width: real, height: real)

  datatype Direction = Up | Down

  /** The arguments of one onScroll call. */
  datatype ScrollCommand = ScrollCommand(direction: Direction, amount: real)

  /** Deltas of at most this many degrees are jitter and scroll nothing. */
  const DEAD_ZONE: real := 0.5

  /** Pixels scrolled per degree of rotation. */
  const GAIN: real := 3.0

  function Abs(x: real): real
  {
    if x < 0.0 then -x else x
  }

  /** The centre of a rectangle: as far from its right edge as from its left,
      and from its bottom edge as from its top. */
  function Center(r: Rect): (c: Point)
    ensures c.x - r.left == (r.left + r.width) - c.x
    ensures c.y - r.top == (r.top + r.height) - c.y
  {
    Point(r.left + r.width / 2.0, r.top + r.height / 2.0)
  }

  /** The signed seam crossing of the step from `last` to `current`: 1 when
      the pointer went backwards over the seam, from the -180 side to the 180
      side (a raw difference above 180); -1 when it went forwards, from the
      180 side to the -180 side (a raw difference below -180); otherwise 0. */
  function Winding(last: real, current: real): int
  {
    if current - last > 180.0 then 1
    else if current - last < -180.0 then -1
    else 0
  }

  /** The raw difference of two angles, corrected once for wraparound. The
      result differs from the raw difference by the seam crossings, whole
      turns only; it equals it when no correction is needed; and for two
      angles in [-180, 180] it lies in [-180, 180]. */
  function NormalizeDelta(last: real, current: real): (d: real)
    ensures d == (current - last) - 360.0 * Winding(last, current) as real
    ensures -180.0 <= current - last <= 180.0 ==> d == current - last
    ensures -180.0 <= last <= 180.0 && -180.0 <= current <= 180.0 ==> -180.0 <= d <= 180.0
  {
    var raw := current - last;
    var once := if raw > 180.0 then raw - 360.0 else raw;
    if once < -180.0 then once + 360.0 else once
  }

  /** Both ends of [-180, 180] occur: a raw difference of exactly -180 or 180
      is left as it is. */
  lemma SeamEndsReachable()
    ensures NormalizeDelta(180.0, 0.0) == -180.0
    ensures NormalizeDelta(0.0, 180.0) == 180.0
  {
  }

  /** The scroll command one move emits for its delta: one exactly when the
      delta leaves the dead zone, scrolling down for a positive delta and up
      otherwise, by the gain times the delta's size, so always by more than
      1.5 pixels. */
  function Emit(d: real): (c: Option<ScrollCommand>)
    ensures c.Some? <==> Abs(d) > DEAD_ZONE
    ensures c.Some? ==> (c.value.direction == Down <==> d > 0.0)
    ensures c.Some? ==> c.value.amount == GAIN * Abs(d) && c.value.amount > DEAD_ZONE * GAIN
  {
    if Abs(d) > DEAD_ZONE then
      Some(ScrollCommand(if d > 0.0 then Down else Up, Abs(d) * GAIN))
    else
      None
  }

  /** The angle before the i-th of a session's samples. */
  function Before(last: real, angles: seq<real>, i: nat): real
    requires i < |angles|
  {
    if i == 0 then last else angles[i - 1]
  }

  /** The commands a drag session emits while the pointer passes through
      `angles`, starting from `last`. */
  function Emissions(last: real, angles: seq<real>): seq<ScrollCommand>
    decreases |angles|
  {
    if angles == [] then []
    else
      (match Emit(NormalizeDelta(last, angles[0]))
       case Some(c) => [c]
       case None => []) + Emissions(angles[0], angles[1..])
  }

  /** The rotation a drag session adds to the gear along `angles`. */
  function Spin(last: real, angles: seq<real>): real
    decreases |angles|
  {
    if angles == [] then 0.0
    else NormalizeDelta(last, angles[0]) + Spin(angles[0], angles[1..])
  }

  /** The seam crossings along `angles`, counted with sign. */
  function Turns(last: real, angles: seq<real>): int
    decreases |angles|
  {
    if angles == [] then 0
    else Winding(last, angles[0]) + Turns(angles[0], angles[1..])
  }

  /** A session whose every step stays inside the dead zone emits nothing. */
  lemma {:induction false} DeadZoneSilent(last: real, angles: seq<real>)
    requires forall i :: 0 <= i < |angles| ==> Abs(NormalizeDelta(Before(last, angles, i), angles[i])) <= DEAD_ZONE
    ensures Emissions(last, angles) == []
    decreases |angles|
  {
    if angles != [] {
      assert Before(last, angles, 0) == last;
      forall i | 0 <= i < |angles[1..]|
        ensures Abs(NormalizeDelta(Before(angles[0], angles[1..], i), angles[1..][i])) <= DEAD_ZONE
      {
        assert Before(angles[0], angles[1..], i) == Before(last, angles, i + 1);
      }
      DeadZoneSilent(angles[0], angles[1..]);
    }
  }

  /** The gear's spin over a session follows the pointer: it is the pointer's
      net change of angle, corrected by whole turns for each seam crossing. */
  lemma {:induction false} SpinTracksAngle(last: real, angles: seq<real>)
    requires angles != []
    ensures Spin(last, angles) == (angles[|angles| - 1] - last) - 360.0 * Turns(last, angles) as real
    decreases |angles|
  {
    if |angles| > 1 {
      SpinTracksAngle(angles[0], angles[1..]);
      assert angles[1..][|angles[1..]| - 1] == angles[|angles| - 1];
    }
  }

  /** The gear control: its displayed rotation, whether a drag is in progress,
      the angle of the last pointer sample and the centre fixed at drag start.
      `angleOf(dy, dx)` is the host's atan2 in degrees. The ghost `anchor` (the
      rotation minus the pointer angle when the drag started) and `turns` (the
      signed seam crossings since then) record how the rotation follows the
      pointer angle. */
  class Gear {
    const angleOf: (real, real) -> Degrees
    var rotation: real
    var isDragging: bool
    var lastAngle: Degrees
    var center: Point
    ghost var anchor: real
    ghost var turns: int

    /** Since the current drag started, the gear has turned by the pointer's
        change of angle up to whole turns. */
    ghost predicate Valid()
      reads this
    {
      rotation == anchor + lastAngle - 360.0 * turns as real
    }

    /** calculateAngle: the angle of a pointer position seen from the centre
        fixed at drag start, given to atan2 as (deltaY, deltaX). */
    function AngleAt(p: Point): (a: Degrees)
      reads this
    {
      angleOf(p.y - center.y, p.x - center.x)
    }

    constructor (angleOf: (real, real) -> Degrees)
      ensures Valid() && this.angleOf == angleOf
      ensures rotation == 0.0 && !isDragging && lastAngle == 0.0 && center == Point(0.0, 0.0)
      ensures anchor == 0.0 && turns == 0
    {
      this.angleOf := angleOf;
      rotation := 0.0;
      isDragging := false;
      lastAngle := 0.0;
      center := Point(0.0, 0.0);
      anchor := 0.0;
      turns := 0;
    }

    /** handleMouseDown: with no gear element mounted nothing happens;
        otherwise the centre is fixed at the element's centre, the start
        angle is recorded and the drag begins. The rotation is kept. */
    method MouseDown(control: Option<Rect>, p: Point)
      requires Valid()
      modifies this
      ensures Valid()
      ensures control.None? ==>
        rotation == old(rotation) && isDragging == old(isDragging) &&
        lastAngle == old(lastAngle) && center == old(center)
      ensures control.Some? ==>
        center == Center(control.value) && lastAngle == AngleAt(p) &&
        isDragging && rotation == old(rotation)
      ensures control.None? ==> anchor == old(anchor) && turns == old(turns)
      ensures control.Some? ==> anchor == rotation - lastAngle && turns == 0
    {
      if control.None? {
        return;
      }
      center := Center(control.value);
      lastAngle := AngleAt(p);
      isDragging := true;
      anchor, turns := rotation - lastAngle, 0;
    }

    /** handleTouchStart: as MouseDown, at the first touch point. */
    method TouchStart(control: Option<Rect>, touches: seq<Point>)
      requires Valid() && |touches| > 0
      modifies this
      ensures Valid()
      ensures control.None? ==>
        rotation == old(rotation) && isDragging == old(isDragging) &&
        lastAngle == old(lastAngle) && center == old(center)
      ensures control.Some? ==>
        center == Center(control.value) && lastAngle == AngleAt(touches[0]) &&
        isDragging && rotation == old(rotation)
      ensures control.None? ==> anchor == old(anchor) && turns == old(turns)
      ensures control.Some? ==> anchor == rotation - lastAngle && turns == 0
    {
      MouseDown(control, touches[0]);
    }

    /** handleMouseMove: ignored unless dragging. While dragging, the delta
        from the last angle, corrected for wraparound, is added to the rotation
        even inside the dead zone; the command for it, if any, is emitted; and
        the new angle becomes the last angle in every case. */
    method MouseMove(p: Point) returns (emitted: Option<ScrollCommand>)
      requires Valid()
      modifies this
      ensures Valid()
      ensures isDragging == old(isDragging) && center == old(center)
      ensures !old(isDragging) ==>
        emitted == None && rotation == old(rotation) && lastAngle == old(lastAngle)
      ensures old(isDragging) ==>
        lastAngle == AngleAt(p) &&
        rotation == old(rotation) + NormalizeDelta(old(lastAngle), lastAngle) &&
        emitted == Emit(NormalizeDelta(old(lastAngle), lastAngle))
      ensures anchor == old(anchor)
      ensures !old(isDragging) ==> turns == old(turns)
      ensures old(isDragging) ==> turns == old(turns) + Winding(old(lastAngle), lastAngle)
    {
      if !isDragging {
        emitted := None;
        return;
      }
      var currentAngle := AngleAt(p);
      var delta := currentAngle - lastAngle;
      if delta > 180.0 {
        delta := delta - 360.0;
      }
      if delta < -180.0 {
        delta := delta + 360.0;
      }
      turns := turns + Winding(lastAngle, currentAngle);
      rotation := rotation + delta;
      if Abs(delta) > DEAD_ZONE {
        var direction := if delta > 0.0 then Down else Up;
        emitted := Some(ScrollCommand(direction, Abs(delta) * GAIN));
      } else {
        emitted := None;
      }
      lastAngle := currentAngle;
    }

    /** handleTouchMove: as MouseMove, at the first touch point. */
    method TouchMove(touches: seq<Point>) returns (emitted: Option<ScrollCommand>)
      requires Valid() && |touches| > 0
      modifies this
      ensures Valid()
      ensures isDragging == old(isDragging) && center == old(center)
      ensures !old(isDragging) ==>
        emitted == None && rotation == old(rotation) && lastAngle == old(lastAngle)
      ensures old(isDragging) ==>
        lastAngle == AngleAt(touches[0]) &&
        rotation == old(rotation) + NormalizeDelta(old(lastAngle), lastAngle) &&
        emitted == Emit(NormalizeDelta(old(lastAngle), lastAngle))
      ensures anchor == old(anchor)
      ensures !old(isDragging) ==> turns == old(turns)
      ensures old(isDragging) ==> turns == old(turns) + Winding(old(lastAngle), lastAngle)
    {
      emitted := MouseMove(touches[0]);
    }

    /** handleMouseUp: the drag ends; nothing else changes. */
    method MouseUp()
      requires Valid()
      modifies this
      ensures Valid() && !isDragging
      ensures rotation == old(rotation) && lastAngle == old(lastAngle) && center == old(center)
      ensures anchor == old(anchor) && turns == old(turns)
    {
      isDragging := false;
    }

    /** handleTouchEnd: as MouseUp. */
    method TouchEnd()
      requires Valid()
      modifies this
      ensures Valid() && !isDragging
      ensures rotation == old(rotation) && lastAngle == old(lastAngle) && center == old(center)
      ensures anchor == old(anchor) && turns == old(turns)
    {
      MouseUp();
    }
  }
}
