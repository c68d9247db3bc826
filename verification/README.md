# Solar system animation — a Dafny model of its core

The program animates a toy solar system: a sun that spins in place and
eight planets that revolve around it, the three outermost with translucent
rings. The keyboard moves a camera and pauses the animation. This project
models the part of it that is not graphics plumbing. Angles are exact reals,
so floating-point rounding is not modelled.

- **Ticks** (`angles.dfy`, `bodies.dfy`). The sun spins 0.05 degrees per
  tick. A planet revolves by its own `speed`. In both cases the angle wraps
  once at 360: if the sum reaches 360, 360 is subtracted one time. The model
  proves this equals the true remainder modulo 360 whenever the angle is
  in [0, 360) and the delta is in [0, 360]. It also proves that `n` ticks
  land on (angle + n·delta) mod 360 with no drift.
- **Scene** (`scene.dfy`). The scene holds one sun, eight planets built
  with the program's constants, and a camera. A scene tick updates the sun
  and then every planet in list order. It changes only the angles and never
  adds, drops or reorders a planet. For example, Earth is at 180 after 180
  ticks and back at 0 after 360.
- **Drawing as a command trace** (`render.dfy`). Graphics calls become
  abstract commands: `View`, `Sphere` and `Ring`.
  - The sun's sphere comes first and is drawn unlit. The planets follow in
    list order and are drawn lit.
  - A ringed planet's ring is drawn twice: once inside the planet's own draw
    routine and once more by the scene. So a ringed planet emits sphere,
    ring, ring.
  - The ring's quad strip has 51 vertex pairs (50 sides, both ends
    included). The inner radius is 1.5× the planet radius and the outer is
    2×. The texture coordinate v climbs strictly from 0 to 1.
- **Input and main loop** (`controls.dfy`, `mainloop.dfy`).
  - A batch of events is folded over the camera and the pause flag. The
    batch stops at the first quit event.
  - A frame ticks and redraws the scene exactly when the pause flag is off
    after its events. That includes the frame that carries the quit.
  - The loop is a method over a list of event batches. It stops after the
    first batch that holds a quit.

Three behaviours of the code are worth calling out, and the model keeps
each one as written:

- A paused frame is not displayed at all. The loop reaches the display
  routine only through the tick routine, and it skips that routine while
  paused (SolarSystem.py:202-204, 241-242). `MainLoop.Frame` returns
  `NotRedrawn` for a paused frame. Camera moves made while paused still
  change the camera and appear at the next drawn frame.
- The outer ring vertex's x coordinate uses (distance + outer radius), and
  its y coordinate uses the outer radius alone (SolarSystem.py:111). The
  inner vertex follows the same pattern with the inner radius.
- A ringed planet's ring is drawn twice per scene draw: once by the
  planet's own draw routine and once more by the scene's loop
  (SolarSystem.py:74-75, 152-153).

## Model

| member | source | states |
|---|---|---|
| Angles.Advance | SolarSystem.py:78-81 | a tick adds the delta and subtracts 360 at most once; an in-range angle with a delta in [0, 360] stays in [0, 360) |
| Angles.AdvanceIsModulo | SolarSystem.py:31-34 | for an angle in [0, 360) and a delta in [0, 360], the single wrap equals the true remainder of angle + delta modulo 360 |
| Angles.AdvanceNeedsSmallDelta | SolarSystem.py:78-81 | the single wrap is not a modulo for deltas above 360: 0 + 720 leaves the angle at 360, out of range |
| Angles.TickN | SolarSystem.py:78-81 | n ticks of one body: an angle in [0, 360) stays in [0, 360) under any number of ticks of a delta in [0, 360] |
| Angles.TickNIsModulo | SolarSystem.py:78-81 | n ticks from an in-range angle land on (angle + n·delta) mod 360 and stay in range, for every n (exact arithmetic) |
| Bodies.NewSun | SolarSystem.py:13-16 | a new sun has positive radius and spin angle 0 |
| Bodies.NewPlanet | SolarSystem.py:45-52 | a new planet starts at angle 0 with the default ring colour and keeps its distance, radius, speed, colour and ring flag |
| Bodies.SunTick | SolarSystem.py:31-34 | a sun tick keeps radius and colour; an in-range angle stays in range and becomes (angle + 0.05) mod 360 |
| Bodies.PlanetTick | SolarSystem.py:78-81 | a planet tick keeps distance, radius, speed, colour, ring flag and ring colour; a planet in good shape stays so, and its angle becomes (angle + speed) mod 360 |
| Scene.InitialPlanets | SolarSystem.py:120-130 | eight planets, all at angle 0 with speeds in (0, 360], radius below distance, distances strictly increasing, rings exactly on the last three |
| Scene.Initial | SolarSystem.py:118-133 | the start-up scene is well-formed, has eight planets and the sun at 0, places the camera at angle 0 and distance 50, and has Earth at distance 1.5, radius 0.14, speed 1.0 |
| Scene.TickAll | SolarSystem.py:158-159 | ticking the planet list keeps its length and ticks each planet in place |
| Scene.Update | SolarSystem.py:156-159 | a scene tick ticks the sun and every planet in place, keeps list length and camera, and preserves well-formedness |
| Scene.UpdateN | SolarSystem.py:156-159 | n scene ticks keep the planet count and the camera, and keep a well-formed scene well-formed |
| Scene.UpdateNIsPerBody | SolarSystem.py:156-159 | n scene ticks equal n independent ticks of each body; every other field and the camera are unchanged |
| Scene.UpdateNIsModulo | SolarSystem.py:156-159 | after n ticks of a well-formed scene the sun sits at (start + 0.05·n) mod 360, every planet at (start + n·speed) mod 360, and the scene stays well-formed |
| Scene.UnitSpeedOrbit | SolarSystem.py:123 | a planet of speed 1.0 starting at 0 sits at n mod 360 after n ticks: 180 after 180 ticks, 0 after 360 |
| Scene.SunSpinPeriod | SolarSystem.py:31-34 | a sun starting at 0 sits at (0.05·n) mod 360 after n ticks and returns to 0 after 7200 |
| Render.RingOf | SolarSystem.py:91-99 | a ring has inner radius 1.5·r, outer 2·r, 50 sides, alpha 0.6, revolves with its planet, and inner < outer for r > 0 |
| Render.SunSphere | SolarSystem.py:19-28 | the sun's sphere belongs to the sun, is drawn unlit with the sun's radius, spun by its angle, neither moved nor tilted |
| Render.PlanetDraw | SolarSystem.py:55-75 | the planet's own draw emits its lit sphere, then its ring once if it has one: 2 commands when ringed, else 1 |
| Render.PlanetSegment | SolarSystem.py:150-153 | per planet the scene emits its sphere then, if ringed, two copies of its ring (3 commands), else the sphere alone |
| Render.SystemDraw | SolarSystem.py:139-153 | a scene draw starts with the sun's sphere and holds 1 + planets + 2·rings commands |
| Render.Display | SolarSystem.py:179-190 | a displayed frame places the camera first, then draws the sun's sphere |
| Render.PlanetsDrawShape | SolarSystem.py:150-153 | the planets' trace holds their spheres in list order, each ringed planet's ring twice in list order, and one command per planet plus two per ring |
| Render.DrawOrder | SolarSystem.py:139-153 | the sun's sphere comes first, then planet spheres in construction order; rings belong to ringed planets, twice each; trace length is 1 + planets + 2·rings |
| Render.SunOnlyUnlit | SolarSystem.py:148-151 | in the scene's trace a sphere is lit exactly when it belongs to a planet |
| Render.InitialDraw | SolarSystem.py:120-153 | the initial scene draws 9 spheres, sun first, and the rings of planets 5, 6, 7 twice each: 15 commands |
| Render.StripSamplesOrdered | SolarSystem.py:102-111 | strip samples run from turn 0 to turn 1 with v strictly increasing and within [0, 1] |
| Render.EmitStrip | SolarSystem.py:101-112 | a ring strip has sides + 1 vertex pairs; the first and last lie a full turn apart on the same radii (the strip closes); v climbs strictly from 0 to 1; inner u = 0, outer u = 1 |
| Render.EmitPlanetRing | SolarSystem.py:91-112 | a planet's ring strip is the ring's 51 samples: pair i at turn and v = i/50, inner x radius distance + 1.5·r and y radius 1.5·r, outer x radius distance + 2·r and y radius 2·r, inner below outer for r > 0 |
| Controls.ApplyKey | SolarSystem.py:212-222 | left/right move the camera angle by +5/−5, up/down the distance by −5/+5 without clamping, space flips pause, other keys change nothing |
| Controls.ApplyEvent | SolarSystem.py:210-222 | a non-key event changes nothing, a key press acts as that key, and the pause flag flips exactly on a space press |
| Controls.HandleEvents | SolarSystem.py:207-224 | a batch reports "keep running" exactly when it holds no quit event |
| Controls.KeyUndo | SolarSystem.py:212-222 | each key press is undone by its opposite; space undoes itself |
| Controls.HandleWithoutQuit | SolarSystem.py:209-224 | a batch with no quit applies every event in order and keeps running |
| Controls.HandleStopsAtFirstQuit | SolarSystem.py:209-211 | events before the first quit are applied, the loop is told to stop, and events after it have no effect |
| Controls.ApplyAllCounts | SolarSystem.py:212-222 | a batch moves the angle by 5·(lefts − rights), the distance by 5·(downs − ups), and flips pause once per space press, in any order |
| Controls.FiveLefts | SolarSystem.py:213-214 | five left presses turn the camera by exactly 25 degrees and leave the distance alone |
| Controls.PauseTwice | SolarSystem.py:221-222 | two space presses restore every control |
| MainLoop.Start | SolarSystem.py:234-238 | the program starts unpaused with a well-formed scene |
| MainLoop.Frame | SolarSystem.py:239-242 | a frame ticks and redraws exactly when unpaused after its events, quit frame included; paused frames keep every body; the camera follows the keys either way; "running" is false exactly when the batch holds a quit |
| MainLoop.Run | SolarSystem.py:239-244 | the loop consumes batches up to and including the first that holds a quit, and ends in the frame-by-frame replay of those batches |
| MainLoop.PausedReplayFreezes | SolarSystem.py:241-242 | paused frames without space or quit stay paused and leave every body unchanged |
| MainLoop.PauseAndResume | SolarSystem.py:221-242 | pause, idle any number of frames, unpause: the bodies end one tick past their pre-pause values, resuming from the exact paused angles |
| MainLoop.QuitFrameStillTicks | SolarSystem.py:240-242 | the frame carrying a quit still ticks and redraws an unpaused scene before the loop stops |

## Left out

- Graphics-API calls are not modelled. This covers the global render-state
  setup, matrix push/pop, colour calls, quadric spheres with 50×50 slices,
  the light position, buffer clears and the buffer flip. Draw commands stand
  in for them.
- The window-resize handler is not modelled. It only sets the projection
  and viewport, and it divides by the height, which can be 0.
- The cos/sin vertex positions of the ring strip are not modelled. A vertex
  is kept as (x scale, y scale, fraction of a turn). The closing of the
  strip is therefore stated as "first and last sample a full turn apart on
  the same radii", not as equal coordinates.
- Window creation, event polling, the 60 Hz pacing, and the final
  quit/exit are I/O and timing. Event batches are a parameter instead.
- Floating-point rounding is not modelled. 0.05 and every speed are exact
  reals, so the repeated-tick results hold in exact arithmetic only.
- Colours are carried in the records but have no behaviour beyond being
  passed to the graphics API.
- The unlit branch of the planet draw routine is not modelled. The scene
  always passes "lit" (a planet is never the sun), so that branch is never
  taken.
- MainLoop.Run: the program loops until a quit arrives, however long that
  takes. The model stops early when the supplied batches run out and makes
  no claim about frames beyond them.
