/** The scene: one sun, a fixed ordered list of planets and the camera that
    orbits them.  `Update` ticks the sun and then every planet in list
    order; it never adds, removes or reorders planets. */
module Scene {
  import opened Angles
  import opened Bodies

  /** The camera orbits the vertical axis at `angle` degrees and looks at
      the origin from `distance` units away.  Neither is clamped or wrapped. */
  datatype Camera = Camera(angle: real, distance: real)

  datatype SolarSystem = SolarSystem(sun: Sun, planets: seq<Planet>, camera: Camera)

  /** Where the camera starts: angle 0, 50 units out. */
  const InitialCamera: Camera := Camera(0.0, 50.0)

  /** Every body angle is in [0, 360) and every planet speed needs at most
      one wrap per tick. */
  predicate WellFormed(s: SolarSystem) {
    && InRange(s.sun.angle)
    && forall i :: 0 <= i < |s.planets| ==> PlanetOk(s.planets[i])
  }

  /** The eight planets, innermost first: Mercury, Venus, Earth, Mars,
      Jupiter, then the ringed Saturn, Uranus and Neptune. */
  function InitialPlanets(): (ps: seq<Planet>)
    ensures |ps| == 8
    ensures forall i :: 0 <= i < |ps| ==> ps[i].angle == 0.0 && PlanetOk(ps[i])
    ensures forall i :: 0 <= i < |ps| ==> 0.0 < ps[i].radius < ps[i].distance
    ensures forall i :: 0 <= i < |ps| ==> 0.0 < ps[i].speed
    ensures forall i :: 0 <= i < |ps| ==> (ps[i].hasRing <==> 5 <= i)
    ensures forall i, j :: 0 <= i < j < |ps| ==> ps[i].distance < ps[j].distance
  {
    [ NewPlanet(0.7, 0.06, 2.4, Color(0.7, 0.7, 0.7), false),
      NewPlanet(1.1, 0.12, 1.7, Color(0.9, 0.7, 0.4), false),
      NewPlanet(1.5, 0.14, 1.0, Color(0.2, 0.5, 1.0), false),
      NewPlanet(2.0, 0.08, 0.8, Color(1.0, 0.3, 0.3), false),
      NewPlanet(6.0, 0.3, 0.4, Color(0.7, 0.5, 0.3), false),
      NewPlanet(10.0, 0.25, 0.25, Color(0.9, 0.8, 0.6), true),
      NewPlanet(20.0, 0.2, 0.15, Color(0.6, 0.8, 0.9), true),
      NewPlanet(30.0, 0.18, 0.1, Color(0.4, 0.4, 0.9), true) ]
  }

  /** Index of Earth in the planet list. */
  const Earth: nat := 2

  /** The scene as constructed at start-up. */
  function Initial(): (s: SolarSystem)
    ensures WellFormed(s)
    ensures |s.planets| == 8
    ensures s.sun.angle == 0.0 && s.sun.radius > 0.0
    ensures s.camera == Camera(0.0, 50.0)
    ensures s.planets[Earth].speed == 1.0 && s.planets[Earth].angle == 0.0
    ensures s.planets[Earth].distance == 1.5 && s.planets[Earth].radius == 0.14
  {
    SolarSystem(NewSun(), InitialPlanets(), InitialCamera)
  }

  /** Ticks every planet of the list, keeping length and order. */
  function TickAll(ps: seq<Planet>): (r: seq<Planet>)
    ensures |r| == |ps|
    ensures forall i :: 0 <= i < |ps| ==> r[i] == PlanetTick(ps[i])
  {
    if |ps| == 0 then [] else [PlanetTick(ps[0])] + TickAll(ps[1..])
  }

  /** One simulation tick: the sun, then every planet in list order.
      Only body angles change, list length and order are kept, and a
      well-formed scene stays well-formed. */
  function Update(s: SolarSystem): (r: SolarSystem)
    ensures r.camera == s.camera
    ensures r.sun == SunTick(s.sun)
    ensures |r.planets| == |s.planets|
    ensures forall i :: 0 <= i < |s.planets| ==> r.planets[i] == PlanetTick(s.planets[i])
    ensures WellFormed(s) ==> WellFormed(r)
  {
    SolarSystem(SunTick(s.sun), TickAll(s.planets), s.camera)
  }

  /** `n` consecutive ticks.  The planet list keeps its length, the camera
      never moves, and a well-formed scene stays well-formed however many
      ticks pass. */
  function UpdateN(s: SolarSystem, n: nat): (r: SolarSystem)
    ensures |r.planets| == |s.planets| && r.camera == s.camera
    ensures WellFormed(s) ==> WellFormed(r)
  {
    if n == 0 then s else Update(UpdateN(s, n - 1))
  }

  /** After `n` ticks the planet list has the same length, every planet keeps
      all its fields except the angle, and each angle is exactly the one-body
      iterate `TickN` of its own delta. */
  lemma {:induction false} UpdateNIsPerBody(s: SolarSystem, n: nat)
    ensures UpdateN(s, n).camera == s.camera
    ensures UpdateN(s, n).sun == s.sun.(angle := TickN(s.sun.angle, SunSpin, n))
    ensures |UpdateN(s, n).planets| == |s.planets|
    ensures forall i :: 0 <= i < |s.planets| ==>
      UpdateN(s, n).planets[i] == s.planets[i].(angle := TickN(s.planets[i].angle, s.planets[i].speed, n))
  {
    if n > 0 {
      var m: nat := n - 1;
      UpdateNIsPerBody(s, m);
      var prev := UpdateN(s, m);
      assert UpdateN(s, n) == Update(prev);
      forall i | 0 <= i < |s.planets|
        ensures UpdateN(s, n).planets[i] == s.planets[i].(angle := TickN(s.planets[i].angle, s.planets[i].speed, n))
      {
        assert prev.planets[i] == s.planets[i].(angle := TickN(s.planets[i].angle, s.planets[i].speed, m));
      }
    }
  }

  /** In exact arithmetic, `n` ticks of a well-formed scene put every body at
      (start angle + n * delta) modulo 360, with no drift from the repeated
      single wrap. */
  lemma UpdateNIsModulo(s: SolarSystem, n: nat)
    requires WellFormed(s)
    ensures WellFormed(UpdateN(s, n))
    ensures |UpdateN(s, n).planets| == |s.planets|
    ensures UpdateN(s, n).sun.angle == NormalizeDegrees(Sweep(s.sun.angle, SunSpin, n))
    ensures forall i :: 0 <= i < |s.planets| ==>
      UpdateN(s, n).planets[i].angle == NormalizeDegrees(Sweep(s.planets[i].angle, s.planets[i].speed, n))
  {
    UpdateNIsPerBody(s, n);
    TickNIsModulo(s.sun.angle, SunSpin, n);
    forall i | 0 <= i < |s.planets|
      ensures PlanetOk(UpdateN(s, n).planets[i])
      ensures UpdateN(s, n).planets[i].angle == NormalizeDegrees(Sweep(s.planets[i].angle, s.planets[i].speed, n))
    {
      var p := s.planets[i];
      assert UpdateN(s, n).planets[i] == p.(angle := TickN(p.angle, p.speed, n));
      TickNIsModulo(p.angle, p.speed, n);
    }
  }

  /** A planet of speed 1.0 that starts at angle 0 (Earth, in the initial
      scene) sits at n modulo 360 after n ticks: half-way round after 180
      ticks and back at 0 after 360. */
  lemma UnitSpeedOrbit(s: SolarSystem, i: nat, n: nat)
    requires WellFormed(s) && i < |s.planets|
    requires s.planets[i].speed == 1.0 && s.planets[i].angle == 0.0
    ensures |UpdateN(s, n).planets| == |s.planets|
    ensures UpdateN(s, n).planets[i].angle == NormalizeDegrees(n as real)
    ensures n == 180 ==> UpdateN(s, n).planets[i].angle == 180.0
    ensures n == 360 ==> UpdateN(s, n).planets[i].angle == 0.0
  {
    UpdateNIsModulo(s, n);
    if n == 180 {
      NormalizeUnique(180.0, 180.0, 0);
    } else if n == 360 {
      NormalizeUnique(360.0, 0.0, 1);
    }
  }

  /** A sun spinning 0.05 per tick from 0 completes one full turn every
      7200 ticks. */
  lemma SunSpinPeriod(s: SolarSystem, n: nat)
    requires WellFormed(s) && s.sun.angle == 0.0
    ensures UpdateN(s, n).sun.angle == NormalizeDegrees(Sweep(0.0, SunSpin, n))
    ensures n == 7200 ==> UpdateN(s, n).sun.angle == 0.0
  {
    UpdateNIsPerBody(s, n);
    TickNIsModulo(s.sun.angle, SunSpin, n);
    if n == 7200 {
      NormalizeUnique(360.0, 0.0, 1);
    }
  }
}
