/** Input handling: one batch of window events folded over the camera and
    the pause flag.  Arrow keys move the camera by 5 (degrees or units, no
    clamping), the space bar toggles pause, anything else is ignored, and
    the first quit event ends the batch: what came before it is applied,
    what comes after it is never looked at. */
module Controls {
  import opened Scene

  datatype Key = Left | Right | Up | Down | Space | OtherKey(code: int)

  /** A window event: a quit request, a key press, or anything else (key
      releases, mouse motion, resizes, ...). */
  datatype Event = Quit | KeyDown(key: Key) | OtherEvent(kind: int)

  /** The state input can change: the camera and the pause flag. */
  datatype Controls = Controls(camera: Camera, paused: bool)

  /** Result of handling a batch: the new controls, and false once a quit
      event was seen. */
  datatype Outcome = Outcome(controls: Controls, running: bool)

  /** Degrees one left/right press turns the camera. */
  const AngleStep: real := 5.0

  /** Units one up/down press moves the camera. */
  const DistanceStep: real := 5.0

  /** One key press.  Left turns the camera +5 degrees, right -5; up brings
      it 5 units closer, down 5 further; space flips pause; other keys do
      nothing.  Each key touches only its own field. */
  function ApplyKey(c: Controls, k: Key): (r: Controls)
    ensures k.Left? ==> r == c.(camera := c.camera.(angle := c.camera.angle + 5.0))
    ensures k.Right? ==> r == c.(camera := c.camera.(angle := c.camera.angle - 5.0))
    ensures k.Up? ==> r == c.(camera := c.camera.(distance := c.camera.distance - 5.0))
    ensures k.Down? ==> r == c.(camera := c.camera.(distance := c.camera.distance + 5.0))
    ensures k.Space? ==> r == c.(paused := !c.paused)
    ensures k.OtherKey? ==> r == c
  {
    match k
    case Left => c.(camera := c.camera.(angle := c.camera.angle + AngleStep))
    case Right => c.(camera := c.camera.(angle := c.camera.angle - AngleStep))
    case Up => c.(camera := c.camera.(distance := c.camera.distance - DistanceStep))
    case Down => c.(camera := c.camera.(distance := c.camera.distance + DistanceStep))
    case Space => c.(paused := !c.paused)
    case OtherKey(_) => c
  }

  /** One event, quit aside: key presses act, everything else is ignored.
      The pause flag flips exactly on a space press. */
  function ApplyEvent(c: Controls, e: Event): (r: Controls)
    ensures !e.KeyDown? ==> r == c
    ensures r.paused != c.paused <==> e == KeyDown(Space)
    ensures e.KeyDown? ==> r == ApplyKey(c, e.key)
  {
    if e.KeyDown? then ApplyKey(c, e.key) else c
  }

  /** Every event applied in order, with no stop at a quit.  The reference
      against which `HandleEvents` is stated. */
  function ApplyAll(c: Controls, events: seq<Event>): Controls
    decreases |events|
  {
    if |events| == 0 then c else ApplyAll(ApplyEvent(c, events[0]), events[1..])
  }

  /** Handles one batch: applies events in order and stops at the first
      quit.  The batch keeps the program running exactly when it holds no
      quit event. */
  function HandleEvents(c: Controls, events: seq<Event>): (r: Outcome)
    ensures r.running <==> Quit !in events
    decreases |events|
  {
    if |events| == 0 then Outcome(c, true)
    else if events[0].Quit? then Outcome(c, false)
    else
      assert events == [events[0]] + events[1..];
      HandleEvents(ApplyEvent(c, events[0]), events[1..])
  }

  /** The key undoing `k`: left/right and up/down undo each other, space
      undoes itself, other keys need no undoing. */
  function Opposite(k: Key): Key {
    match k
    case Left => Right
    case Right => Left
    case Up => Down
    case Down => Up
    case Space => Space
    case OtherKey(code) => OtherKey(code)
  }

  /** Every key press is undone by its opposite: in particular pressing
      space twice restores the pause flag. */
  lemma KeyUndo(c: Controls, k: Key)
    ensures ApplyKey(ApplyKey(c, k), Opposite(k)) == c
  {
  }

  /** A batch with no quit is exactly every event applied in order. */
  lemma {:induction false} HandleWithoutQuit(c: Controls, events: seq<Event>)
    requires Quit !in events
    ensures HandleEvents(c, events) == Outcome(ApplyAll(c, events), true)
    decreases |events|
  {
    if |events| > 0 {
      assert events[0] in events;
      assert forall e :: e in events[1..] ==> e in events;
      HandleWithoutQuit(ApplyEvent(c, events[0]), events[1..]);
    }
  }

  /** A batch stops at its first quit: the events before it are applied,
      the program is told to stop, and whatever follows is ignored. */
  lemma {:induction false} HandleStopsAtFirstQuit(c: Controls, before: seq<Event>, after: seq<Event>)
    requires Quit !in before
    ensures HandleEvents(c, before + [Quit] + after) == Outcome(ApplyAll(c, before), false)
    decreases |before|
  {
    var events := before + [Quit] + after;
    if |before| == 0 {
      assert events[0] == Quit;
    } else {
      assert events[0] == before[0];
      assert events[1..] == before[1..] + [Quit] + after;
      assert forall e :: e in before[1..] ==> e in before;
      HandleStopsAtFirstQuit(ApplyEvent(c, events[0]), before[1..], after);
    }
  }

  /** How many presses of `k` a batch holds. */
  function Presses(events: seq<Event>, k: Key): nat
    decreases |events|
  {
    if |events| == 0 then 0
    else (if events[0] == KeyDown(k) then 1 else 0) + Presses(events[1..], k)
  }

  predicate Odd(n: nat) {
    n % 2 == 1
  }

  /** Applying a batch moves the camera angle by 5 per left press and -5 per
      right press, the distance by 5 per down press and -5 per up press, and
      flips pause once per space press, whatever the order of the events. */
  lemma {:induction false} ApplyAllCounts(c: Controls, events: seq<Event>)
    ensures ApplyAll(c, events).camera.angle
      == c.camera.angle + 5.0 * (Presses(events, Left) as real - Presses(events, Right) as real)
    ensures ApplyAll(c, events).camera.distance
      == c.camera.distance + 5.0 * (Presses(events, Down) as real - Presses(events, Up) as real)
    ensures ApplyAll(c, events).paused == (c.paused != Odd(Presses(events, Space)))
    decreases |events|
  {
    if |events| > 0 {
      ApplyAllCounts(ApplyEvent(c, events[0]), events[1..]);
    }
  }

  /** Five left presses turn the camera by exactly 25 degrees. */
  lemma FiveLefts(c: Controls)
    ensures var r := HandleEvents(c, [KeyDown(Left), KeyDown(Left), KeyDown(Left), KeyDown(Left), KeyDown(Left)]);
      r.controls.camera.angle == c.camera.angle + 25.0 && r.controls.camera.distance == c.camera.distance
  {
    var events := [KeyDown(Left), KeyDown(Left), KeyDown(Left), KeyDown(Left), KeyDown(Left)];
    HandleWithoutQuit(c, events);
    ApplyAllCounts(c, events);
    assert Presses(events, Left) == 5;
  }

  /** Two space presses leave every control as it was. */
  lemma PauseTwice(c: Controls)
    ensures HandleEvents(c, [KeyDown(Space), KeyDown(Space)]) == Outcome(c, true)
  {
    KeyUndo(c, Space);
  }
}
