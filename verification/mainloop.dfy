/** The main loop.  Each frame handles one batch of events, and then, only
    if the scene is not paused afterwards, ticks the scene and displays it.
    A paused frame neither ticks nor redraws.  The loop ends after the first
    frame whose batch held a quit; that frame is still ticked and displayed
    when not paused.  Event batches are a parameter: polling the window
    system, the 60 Hz pacing and shutdown are not part of the model. */
module MainLoop {
  import opened Bodies
  import opened Scene
  import opened Render
  import opened Controls

  /** What lives across frames: the scene (with its camera) and the pause
      flag. */
  datatype World = World(system: SolarSystem, paused: bool)

  /** Whether a frame was redrawn, and with which commands. */
  datatype Picture = NotRedrawn | Redrawn(commands: seq<Cmd>)

  datatype FrameResult = FrameResult(world: World, running: bool, picture: Picture)

  /** The world at program start: the initial scene, not paused. */
  function Start(): (w: World)
    ensures !w.paused && WellFormed(w.system)
  {
    World(Initial(), false)
  }

  /** One pass of the loop body.  The batch's key presses move the camera
      and flip pause; the scene ticks (every body once) and is displayed
      exactly when the pause flag is off after the batch, including in the
      frame that carries a quit; a paused frame leaves every body angle as
      it was although the camera still moves.  The loop continues exactly
      when the batch holds no quit. */
  function Frame(w: World, events: seq<Event>): (r: FrameResult)
    ensures r.running <==> Quit !in events
    ensures r.picture.Redrawn? <==> !r.world.paused
    ensures r.world.paused == HandleEvents(Controls(w.system.camera, w.paused), events).controls.paused
    ensures r.world.system.camera == HandleEvents(Controls(w.system.camera, w.paused), events).controls.camera
    ensures r.world.paused ==> r.world.system.sun == w.system.sun && r.world.system.planets == w.system.planets
    ensures !r.world.paused ==> r.world.system.sun == SunTick(w.system.sun)
    ensures !r.world.paused ==> r.world.system.planets == TickAll(w.system.planets)
    ensures r.picture.Redrawn? ==> r.picture.commands == Display(r.world.system)
    ensures WellFormed(w.system) ==> WellFormed(r.world.system)
  {
    var out := HandleEvents(Controls(w.system.camera, w.paused), events);
    var moved := w.system.(camera := out.controls.camera);
    if out.controls.paused then
      FrameResult(World(moved, true), out.running, NotRedrawn)
    else
      var next := Update(moved);
      FrameResult(World(next, false), out.running, Redrawn(Display(next)))
  }

  /** The world after running the loop body once per batch, in order,
      regardless of quit. */
  function Replay(w: World, batches: seq<seq<Event>>): World
    decreases |batches|
  {
    if |batches| == 0 then w
    else Frame(Replay(w, batches[..|batches| - 1]), batches[|batches| - 1]).world
  }

  /** What each frame of `Replay(w, batches)` displayed, in order. */
  function Pictures(w: World, batches: seq<seq<Event>>): seq<Picture>
    decreases |batches|
  {
    if |batches| == 0 then []
    else
      var init := batches[..|batches| - 1];
      Pictures(w, init) + [Frame(Replay(w, init), batches[|batches| - 1]).picture]
  }

  /** True when some batch in `batches` holds a quit event. */
  predicate AnyQuit(batches: seq<seq<Event>>) {
    exists k :: 0 <= k < |batches| && Quit in batches[k]
  }

  /** Replaying one more batch is one more frame. */
  lemma ReplayStep(w: World, batches: seq<seq<Event>>, n: nat)
    requires n < |batches|
    ensures Replay(w, batches[..n + 1]) == Frame(Replay(w, batches[..n]), batches[n]).world
    ensures Pictures(w, batches[..n + 1]) == Pictures(w, batches[..n]) + [Frame(Replay(w, batches[..n]), batches[n]).picture]
  {
    assert batches[..n + 1][..n] == batches[..n];
  }

  /** The loop: runs frames until one returns "stop" or the supplied batches
      run out.  It runs exactly up to and including the first batch that
      holds a quit; the world it ends in is the frame-by-frame replay of the
      batches it consumed, and `pictures` lists what each of those frames
      displayed. */
  method Run(w: World, batches: seq<seq<Event>>) returns (final: World, frames: nat, pictures: seq<Picture>)
    ensures frames <= |batches| && |pictures| == frames
    ensures forall k :: 0 <= k < frames - 1 ==> Quit !in batches[k]
    ensures frames < |batches| ==> 0 < frames && Quit in batches[frames - 1]
    ensures AnyQuit(batches) ==> 0 < frames && Quit in batches[frames - 1]
    ensures final == Replay(w, batches[..frames])
    ensures pictures == Pictures(w, batches[..frames])
  {
    final := w;
    frames := 0;
    pictures := [];
    var running := true;
    while running && frames < |batches|
      invariant frames <= |batches| && |pictures| == frames
      invariant final == Replay(w, batches[..frames])
      invariant pictures == Pictures(w, batches[..frames])
      invariant forall k :: 0 <= k < frames - 1 ==> Quit !in batches[k]
      invariant running <==> (frames == 0 || Quit !in batches[frames - 1])
    {
      var r := Frame(final, batches[frames]);
      ReplayStep(w, batches, frames);
      assert forall k :: 0 <= k < frames ==> Quit !in batches[k];
      final := r.world;
      running := r.running;
      pictures := pictures + [r.picture];
      frames := frames + 1;
    }
    if running {
      assert forall k :: 0 <= k < |batches| ==> Quit !in batches[k];
    }
  }

  /** Frames replayed over batches with no quit and no space press, starting
      paused, stay paused and leave every body exactly where it was. */
  lemma {:induction false} PausedReplayFreezes(w: World, batches: seq<seq<Event>>)
    requires w.paused
    requires forall k :: 0 <= k < |batches| ==> Quit !in batches[k] && Presses(batches[k], Space) == 0
    ensures Replay(w, batches).paused
    ensures Replay(w, batches).system.sun == w.system.sun
    ensures Replay(w, batches).system.planets == w.system.planets
    decreases |batches|
  {
    if |batches| > 0 {
      var init := batches[..|batches| - 1];
      PausedReplayFreezes(w, init);
      var prev := Replay(w, init);
      var events := batches[|batches| - 1];
      var c := Controls(prev.system.camera, prev.paused);
      HandleWithoutQuit(c, events);
      ApplyAllCounts(c, events);
    }
  }

  /** Pausing, idling through any number of frames without space or quit,
      and unpausing resumes the animation from exactly the angles it was
      paused at: the bodies end one tick past where they were before the
      pause, as if the paused frames never happened. */
  lemma PauseAndResume(w: World, idle: seq<seq<Event>>)
    requires !w.paused
    requires forall k :: 0 <= k < |idle| ==> Quit !in idle[k] && Presses(idle[k], Space) == 0
    ensures Frame(w, [KeyDown(Space)]).world.paused
    ensures Frame(w, [KeyDown(Space)]).world.system.sun == w.system.sun
    ensures Frame(w, [KeyDown(Space)]).world.system.planets == w.system.planets
    ensures var resumed := Frame(Replay(Frame(w, [KeyDown(Space)]).world, idle), [KeyDown(Space)]).world;
      && !resumed.paused
      && resumed.system.sun == SunTick(w.system.sun)
      && resumed.system.planets == TickAll(w.system.planets)
  {
    var paused := Frame(w, [KeyDown(Space)]).world;
    PausedReplayFreezes(paused, idle);
    var idled := Replay(paused, idle);
    var resumed := Frame(idled, [KeyDown(Space)]).world;
    assert resumed.system.planets == TickAll(w.system.planets);
  }

  /** The frame that carries a quit still ticks and displays an unpaused
      scene, and then the loop stops. */
  lemma QuitFrameStillTicks(w: World)
    requires !w.paused
    ensures !Frame(w, [Quit]).running
    ensures Frame(w, [Quit]).picture.Redrawn?
    ensures Frame(w, [Quit]).world.system.sun == SunTick(w.system.sun)
  {
    assert Quit in [Quit];
  }
}
