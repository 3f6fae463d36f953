/** Fly movement: one animation frame moves every fly along its heading,
 *  bounces it off the walls and now and then gives it a new random heading
 *  (the animation effect of src/app/game/page.tsx). */
module Motion {
  import opened Flies

  /** A frame is applied only when more than this many milliseconds passed. */
  const MIN_FRAME_GAP: real := 16.0
  /** A draw below this gives the fly a new heading. */
  const REDRAW_CHANCE: real := 0.01
  /** Width of the range a heading component is drawn from, in units per ms. */
  const HEADING_SCALE: real := 0.05

  /** A fly's heading, in board units per millisecond. */
  datatype Direction = Direction(dx: real, dy: real)

  /** The draws Math.random supplies for one fly in one frame: the re-heading
   *  chance and the draws for the two new components. */
  datatype Jitter = Jitter(chance: real, rx: real, ry: real)

  /** The position and heading of a fly on one axis after a frame. */
  datatype Axis = Axis(pos: real, heading: real)

  /** A fly and its heading after a frame. */
  datatype Moved = Moved(fly: Fly, dir: Direction)

  predicate AtWall(v: real) { v == 0.0 || v == FIELD_MAX }

  /** `(Math.random() - 0.5) * 0.05`: a heading component centred on zero. */
  function RandomHeading(r: real): (h: real)
    ensures IsDraw(r) ==> -HEADING_SCALE / 2.0 <= h < HEADING_SCALE / 2.0
    ensures r < 0.5 <==> h < 0.0
  {
    (r - 0.5) * HEADING_SCALE
  }

  /** `Math.max(0, Math.min(80, v))`. */
  function Clamp(v: real): (r: real)
    ensures 0.0 <= r <= FIELD_MAX
    ensures 0.0 <= v <= FIELD_MAX ==> r == v
    ensures v < 0.0 ==> r == 0.0
    ensures v > FIELD_MAX ==> r == FIELD_MAX
  {
    var low := if FIELD_MAX < v then FIELD_MAX else v;
    if 0.0 < low then low else 0.0
  }

  /** One axis of one fly in one frame: advance by heading * deltaTime * speed;
   *  a position at or past a wall turns the heading round and is clamped. */
  function MoveAxis(pos: real, heading: real, deltaTime: real, speed: real): (r: Axis)
    ensures 0.0 <= r.pos <= FIELD_MAX
    ensures r.pos == Clamp(pos + heading * deltaTime * speed)
    ensures AtWall(r.pos) <==> (pos + heading * deltaTime * speed <= 0.0 || pos + heading * deltaTime * speed >= FIELD_MAX)
    ensures r.heading == if AtWall(r.pos) then -heading else heading
  {
    var next := pos + heading * deltaTime * speed;
    if next <= 0.0 || next >= FIELD_MAX then Axis(Clamp(next), -heading)
    else Axis(next, heading)
  }

  /** A fly that moves forward in time and hits a wall leaves it heading back
   *  into the field (or standing still). */
  lemma BounceTurnsInward(pos: real, heading: real, deltaTime: real, speed: real)
    requires 0.0 <= pos <= FIELD_MAX && 0.0 < deltaTime && 0.0 < speed
    ensures MoveAxis(pos, heading, deltaTime, speed).pos == 0.0 ==> MoveAxis(pos, heading, deltaTime, speed).heading >= 0.0
    ensures MoveAxis(pos, heading, deltaTime, speed).pos == FIELD_MAX ==> MoveAxis(pos, heading, deltaTime, speed).heading <= 0.0
  {
  }

  /** A property of the per-axis rule alone: away from the walls, a move of
   *  a + b milliseconds equals a move of a milliseconds followed by one of b
   *  under the same heading. In the game two frames in a row do not share a
   *  heading: the animation effect re-runs on every render (GAME_CONFIG is a
   *  new object each render and sits in the effect's dependencies), and each
   *  run draws fresh headings and resets `lastTime`. */
  lemma FrameRateIndependence(pos: real, heading: real, a: real, b: real, speed: real)
    requires 0.0 < pos + heading * a * speed < FIELD_MAX
    requires 0.0 < pos + heading * (a + b) * speed < FIELD_MAX
    ensures MoveAxis(MoveAxis(pos, heading, a, speed).pos, MoveAxis(pos, heading, a, speed).heading, b, speed)
              == MoveAxis(pos, heading, a + b, speed)
  {
  }

  /** One fly in one frame (the body of the map in the animation step): both
   *  axes move and bounce independently, then a chance draw below 0.01
   *  overwrites the whole heading with a fresh random one. */
  function StepFly(fly: Fly, dir: Direction, deltaTime: real, speed: real, jitter: Jitter): (r: Moved)
    ensures r.fly.id == fly.id && InField(r.fly)
    ensures r.fly.x == Clamp(fly.x + dir.dx * deltaTime * speed)
    ensures r.fly.y == Clamp(fly.y + dir.dy * deltaTime * speed)
    ensures AtWall(r.fly.x) <==> (fly.x + dir.dx * deltaTime * speed <= 0.0 || fly.x + dir.dx * deltaTime * speed >= FIELD_MAX)
    ensures AtWall(r.fly.y) <==> (fly.y + dir.dy * deltaTime * speed <= 0.0 || fly.y + dir.dy * deltaTime * speed >= FIELD_MAX)
    ensures jitter.chance < REDRAW_CHANCE ==> r.dir == Direction(RandomHeading(jitter.rx), RandomHeading(jitter.ry))
    ensures jitter.chance >= REDRAW_CHANCE ==>
              r.dir == Direction(if AtWall(r.fly.x) then -dir.dx else dir.dx, if AtWall(r.fly.y) then -dir.dy else dir.dy)
  {
    var x := MoveAxis(fly.x, dir.dx, deltaTime, speed);
    var y := MoveAxis(fly.y, dir.dy, deltaTime, speed);
    var bounced := Direction(x.heading, y.heading);
    var dir' := if jitter.chance < REDRAW_CHANCE then Direction(RandomHeading(jitter.rx), RandomHeading(jitter.ry)) else bounced;
    Moved(fly.(x := x.pos, y := y.pos), dir')
  }

  /** The state of one run of the animation effect: the headings drawn for the
   *  flies on the board when the effect started (indexed by board position,
   *  not by id), the speed of the difficulty, and the time of the last applied
   *  frame. */
  class Animator {
    const speedMultiplier: real
    const directions: array<Direction>
    var lastTime: real

    /** The effect's set-up: one random heading per fly from a pair of draws,
     *  and the clock reading `now`. */
    constructor (speedMultiplier: real, headingDraws: seq<(real, real)>, now: real)
      ensures this.speedMultiplier == speedMultiplier && lastTime == now
      ensures fresh(directions) && directions.Length == |headingDraws|
      ensures forall i :: 0 <= i < |headingDraws| ==>
                directions[i] == Direction(RandomHeading(headingDraws[i].0), RandomHeading(headingDraws[i].1))
    {
      this.speedMultiplier := speedMultiplier;
      directions := new Direction[|headingDraws|](i requires 0 <= i < |headingDraws| =>
        Direction(RandomHeading(headingDraws[i].0), RandomHeading(headingDraws[i].1)));
      lastTime := now;
    }

    /** One animation frame at `currentTime` over the board `flies`, with one
     *  set of draws per fly. Below the frame gap nothing moves and `lastTime`
     *  stays, so the elapsed time carries over to the next frame. */
    method Animate(currentTime: real, flies: seq<Fly>, jitters: seq<Jitter>) returns (next: seq<Fly>)
      requires |flies| <= directions.Length && |jitters| == |flies|
      modifies this, directions
      ensures var deltaTime := currentTime - old(lastTime);
              if deltaTime > MIN_FRAME_GAP then
                lastTime == currentTime && |next| == |flies| &&
                forall i :: 0 <= i < |flies| ==>
                  Moved(next[i], directions[i]) == StepFly(flies[i], old(directions[i]), deltaTime, speedMultiplier, jitters[i])
              else
                lastTime == old(lastTime) && next == flies && directions[..] == old(directions[..])
      ensures forall i :: |flies| <= i < directions.Length ==> directions[i] == old(directions[i])
      ensures |next| == |flies| && Ids(next) == Ids(flies)
      ensures currentTime - old(lastTime) > MIN_FRAME_GAP ==> forall i :: 0 <= i < |next| ==> InField(next[i])
    {
      var deltaTime := currentTime - lastTime;
      if deltaTime > MIN_FRAME_GAP {
        next := [];
        var i := 0;
        while i < |flies|
          invariant 0 <= i <= |flies| && |next| == i
          invariant forall k :: 0 <= k < i ==>
                      Moved(next[k], directions[k]) == StepFly(flies[k], old(directions[k]), deltaTime, speedMultiplier, jitters[k])
          invariant forall k :: i <= k < directions.Length ==> directions[k] == old(directions[k])
        {
          var m := StepFly(flies[i], directions[i], deltaTime, speedMultiplier, jitters[i]);
          directions[i] := m.dir;
          next := next + [m.fly];
          i := i + 1;
        }
        lastTime := currentTime;
      } else {
        next := flies;
      }
    }
  }
}
