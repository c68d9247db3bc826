/** The two kinds of body in the animation, as immutable records, and their
    per-tick update.  The sun spins by a fixed 0.05 degrees per tick; a planet
    revolves by its own speed.  Both wrap once at 360.  Colours are carried
    only so that the frame condition of a tick can mention them. */
module Bodies {
  import opened Angles

  /** An RGB (or RGB plus alpha) colour with components in [0, 1]. */
  datatype Color = Color(red: real, green: real, blue: real)

  /** The sun: sits at the origin and spins about the vertical axis. */
  datatype Sun = Sun(radius: real, color: Color, angle: real)

  /** A planet: revolves about the sun at `distance`, advancing `speed`
      degrees per tick; `hasRing` planets also get a translucent ring. */
  datatype Planet = Planet(
    distance: real,
    radius: real,
    speed: real,
    color: Color,
    hasRing: bool,
    angle: real,
    ringColor: Color)

  /** Degrees the sun spins per tick. */
  const SunSpin: real := 0.05

  /** Radius of the sun. */
  const SunRadius: real := 0.8

  /** Colour of the sun (yellow). */
  const SunColor: Color := Color(1.0, 1.0, 0.0)

  /** Ring colour given to every planet at construction (light grey). */
  const DefaultRingColor: Color := Color(0.8, 0.8, 0.8)

  /** A freshly built sun: radius 0.8, yellow, angle 0. */
  function NewSun(): (s: Sun)
    ensures s.radius > 0.0 && InRange(s.angle)
    ensures s.angle == 0.0
  {
    Sun(SunRadius, SunColor, 0.0)
  }

  /** A freshly built planet starts at angle 0 with the default ring colour;
      every other field is taken from the arguments. */
  function NewPlanet(distance: real, radius: real, speed: real, color: Color, hasRing: bool): (p: Planet)
    ensures p.angle == 0.0 && InRange(p.angle)
    ensures p.ringColor == DefaultRingColor
    ensures p.distance == distance && p.radius == radius && p.speed == speed
    ensures p.color == color && p.hasRing == hasRing
  {
    Planet(distance, radius, speed, color, hasRing, 0.0, DefaultRingColor)
  }

  /** One tick of the sun: only the spin angle changes, and it stays in
      [0, 360), equal to the previous angle plus 0.05 modulo 360. */
  function SunTick(s: Sun): (r: Sun)
    ensures r.radius == s.radius && r.color == s.color
    ensures InRange(s.angle) ==> InRange(r.angle)
    ensures InRange(s.angle) ==> r.angle == NormalizeDegrees(s.angle + SunSpin)
  {
    var r := s.(angle := Advance(s.angle, SunSpin));
    if InRange(s.angle) then AdvanceIsModulo(s.angle, SunSpin); r else r
  }

  /** A planet whose angle is normalised and whose speed needs at most one
      wrap per tick. */
  predicate PlanetOk(p: Planet) {
    InRange(p.angle) && ValidDelta(p.speed)
  }

  /** One tick of a planet: only the revolution angle changes; for a planet
      in good shape it stays in [0, 360) and equals angle + speed modulo 360. */
  function PlanetTick(p: Planet): (r: Planet)
    ensures r.distance == p.distance && r.radius == p.radius && r.speed == p.speed
    ensures r.color == p.color && r.hasRing == p.hasRing && r.ringColor == p.ringColor
    ensures PlanetOk(p) ==> PlanetOk(r)
    ensures PlanetOk(p) ==> r.angle == NormalizeDegrees(p.angle + p.speed)
  {
    var r := p.(angle := Advance(p.angle, p.speed));
    if PlanetOk(p) then AdvanceIsModulo(p.angle, p.speed); r else r
  }
}
