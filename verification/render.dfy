/** Drawing, as an abstract command trace instead of graphics-API calls.

    `SystemDraw` lists, in order, what one call of the scene's draw routine
    submits: the sun's sphere, then for each planet in list order its sphere,
    its ring if it has one (drawn inside the planet's own draw routine), and
    its ring once more (drawn again by the scene).  `Display` prefixes the
    camera placement.  A ring's quad strip is expanded by `EmitStrip`; vertex
    positions are kept symbolic as (x scale, y scale, fraction of a turn),
    meaning (xScale * cos(2 pi turn), yScale * sin(2 pi turn), 0). */
module Render {
  import opened Angles
  import opened Bodies
  import opened Scene

  /** Which body a sphere belongs to; planets by position in the list. */
  datatype BodyRef = SunRef | PlanetRef(index: nat)

  /** A sphere's transform: rotate `revolution` degrees about the vertical
      axis, move `offset` units outward, then tilt `tilt` degrees about the
      horizontal axis. */
  datatype Placement = Placement(revolution: real, offset: real, tilt: real)

  /** Everything one ring draw depends on: owner, tilt then revolution
      rotation, orbit distance, the two radii, tessellation and opacity. */
  datatype RingGeometry = RingGeometry(
    owner: nat,
    tilt: real,
    revolution: real,
    distance: real,
    inner: real,
    outer: real,
    sides: nat,
    alpha: real)

  datatype Cmd =
    | View(cameraDistance: real, cameraAngle: real)
    | Sphere(body: BodyRef, radius: real, placement: Placement, lit: bool)
    | Ring(geometry: RingGeometry)

  /** One strip vertex: texture coordinate (u, v) and the symbolic position
      (xScale * cos, yScale * sin) of the sample's angle. */
  datatype RingVertex = RingVertex(texU: real, texV: real, xScale: real, yScale: real)

  /** Sample of the strip at `turn` (fraction of a full circle): the inner
      vertex then the outer one. */
  datatype RingPair = RingPair(turn: real, inner: RingVertex, outer: RingVertex)

  /** Segments of a ring's quad strip. */
  const RingSides: nat := 50

  /** Opacity of a ring. */
  const RingAlpha: real := 0.6

  /** Inner and outer ring radius, as multiples of the planet radius. */
  const InnerScale: real := 1.5
  const OuterScale: real := 2.0

  /** Degrees a planet (and its ring) is tilted about the horizontal axis. */
  const PoleTilt: real := 90.0

  /** The sun's sphere: spun by its angle, not moved, drawn unlit. */
  function SunSphere(s: Sun): (c: Cmd)
    ensures c.Sphere? && c.body == SunRef && !c.lit
    ensures c.radius == s.radius && c.placement.revolution == s.angle
    ensures c.placement.offset == 0.0 && c.placement.tilt == 0.0
  {
    Sphere(SunRef, s.radius, Placement(s.angle, 0.0, 0.0), false)
  }

  /** A planet's sphere: revolved by its angle, moved out by its distance,
      tilted 90 degrees, drawn lit. */
  function PlanetSphere(p: Planet, index: nat): Cmd {
    Sphere(PlanetRef(index), p.radius, Placement(p.angle, p.distance, PoleTilt), true)
  }

  /** The ring of a planet: radii 1.5 and 2 times the planet's, 50 sides,
      60% opaque, tilted and then revolved with the planet. */
  function RingOf(p: Planet, index: nat): (g: RingGeometry)
    ensures g.owner == index && g.distance == p.distance && g.revolution == p.angle
    ensures g.sides == 50 && g.alpha == 0.6
    ensures g.inner == 1.5 * p.radius && g.outer == 2.0 * p.radius
    ensures p.radius > 0.0 ==> 0.0 < g.inner < g.outer
  {
    RingGeometry(index, PoleTilt, p.angle, p.distance, InnerScale * p.radius, OuterScale * p.radius, RingSides, RingAlpha)
  }

  /** What the planet's own draw routine submits: its sphere, then its ring
      if it has one. */
  function PlanetDraw(p: Planet, index: nat): (r: seq<Cmd>)
    ensures |r| == if p.hasRing then 2 else 1
    ensures r[0] == PlanetSphere(p, index) && r[0].lit
    ensures p.hasRing ==> r[1] == Ring(RingOf(p, index))
  {
    [PlanetSphere(p, index)] + (if p.hasRing then [Ring(RingOf(p, index))] else [])
  }

  /** What the scene's loop submits for one planet: the planet's own draw,
      then the ring again when the planet has one.  A ringed planet thus
      yields sphere, ring, ring; an unringed one only its sphere. */
  function PlanetSegment(p: Planet, index: nat): (r: seq<Cmd>)
    ensures |r| == if p.hasRing then 3 else 1
    ensures r[0] == PlanetSphere(p, index)
    ensures forall k :: 1 <= k < |r| ==> r[k] == Ring(RingOf(p, index))
  {
    PlanetDraw(p, index) + (if p.hasRing then [Ring(RingOf(p, index))] else [])
  }

  /** The segments of `ps`, the first planet numbered `from`. */
  function PlanetsDraw(ps: seq<Planet>, from: nat): seq<Cmd>
    decreases |ps|
  {
    if |ps| == 0 then [] else PlanetSegment(ps[0], from) + PlanetsDraw(ps[1..], from + 1)
  }

  /** One draw of the scene: the sun, then the planets in list order. */
  function SystemDraw(s: SolarSystem): (r: seq<Cmd>)
    ensures |r| == 1 + |s.planets| + 2 * RingedCount(s.planets)
    ensures r[0] == SunSphere(s.sun)
  {
    PlanetsDrawShape(s.planets, 0);
    [SunSphere(s.sun)] + PlanetsDraw(s.planets, 0)
  }

  /** One displayed frame: the camera placement, then the scene. */
  function Display(s: SolarSystem): (r: seq<Cmd>)
    ensures |r| >= 2 && r[0] == View(s.camera.distance, s.camera.angle)
    ensures r[1] == SunSphere(s.sun)
  {
    [View(s.camera.distance, s.camera.angle)] + SystemDraw(s)
  }

  // ---------------------------------------------------------------------
  // Projections of a trace, used to state ordering.

  /** The bodies whose spheres appear in `t`, in order. */
  function Spheres(t: seq<Cmd>): seq<BodyRef> {
    if |t| == 0 then []
    else (if t[0].Sphere? then [t[0].body] else []) + Spheres(t[1..])
  }

  /** The owners of the rings drawn in `t`, in order. */
  function RingOwners(t: seq<Cmd>): seq<nat> {
    if |t| == 0 then []
    else (if t[0].Ring? then [t[0].geometry.owner] else []) + RingOwners(t[1..])
  }

  /** `PlanetRef(from)`, ..., `PlanetRef(from + n - 1)`. */
  function PlanetRefs(from: nat, n: nat): seq<BodyRef> {
    seq(n, k requires 0 <= k < n => PlanetRef(from + k))
  }

  /** Positions (numbered from `from`) of the ringed planets of `ps`, each
      listed twice. */
  function RingedTwice(ps: seq<Planet>, from: nat): seq<nat>
    decreases |ps|
  {
    if |ps| == 0 then []
    else (if ps[0].hasRing then [from, from] else []) + RingedTwice(ps[1..], from + 1)
  }

  /** How many planets of `ps` have a ring. */
  function RingedCount(ps: seq<Planet>): nat {
    if |ps| == 0 then 0 else (if ps[0].hasRing then 1 else 0) + RingedCount(ps[1..])
  }

  lemma {:induction false} SpheresAppend(a: seq<Cmd>, b: seq<Cmd>)
    ensures Spheres(a + b) == Spheres(a) + Spheres(b)
  {
    if |a| > 0 {
      assert (a + b)[1..] == a[1..] + b;
      SpheresAppend(a[1..], b);
    } else {
      assert a + b == b;
    }
  }

  lemma {:induction false} RingOwnersAppend(a: seq<Cmd>, b: seq<Cmd>)
    ensures RingOwners(a + b) == RingOwners(a) + RingOwners(b)
  {
    if |a| > 0 {
      assert (a + b)[1..] == a[1..] + b;
      RingOwnersAppend(a[1..], b);
    } else {
      assert a + b == b;
    }
  }

  /** The planets' part of the trace holds exactly their spheres in list
      order, the rings of ringed planets twice each in list order, and one
      command per planet plus two per ring. */
  lemma {:induction false} PlanetsDrawShape(ps: seq<Planet>, from: nat)
    ensures Spheres(PlanetsDraw(ps, from)) == PlanetRefs(from, |ps|)
    ensures RingOwners(PlanetsDraw(ps, from)) == RingedTwice(ps, from)
    ensures |PlanetsDraw(ps, from)| == |ps| + 2 * RingedCount(ps)
  {
    if |ps| > 0 {
      var seg := PlanetSegment(ps[0], from);
      var rest := PlanetsDraw(ps[1..], from + 1);
      PlanetsDrawShape(ps[1..], from + 1);
      SpheresAppend(seg, rest);
      RingOwnersAppend(seg, rest);
      if ps[0].hasRing {
        assert seg == [seg[0], seg[1], seg[2]];
        assert seg[1..][1..] == seg[2..] && seg[2..][1..] == [];
        assert Spheres(seg[2..]) == [] && RingOwners(seg[2..]) == [from];
        assert Spheres(seg[1..]) == [] && RingOwners(seg[1..]) == [from, from];
      } else {
        assert seg == [seg[0]];
        assert Spheres(seg) == [PlanetRef(from)];
        assert RingOwners(seg) == [];
      }
      assert PlanetRefs(from, |ps|) == [PlanetRef(from)] + PlanetRefs(from + 1, |ps| - 1);
    } else {
      assert PlanetRefs(from, 0) == [];
    }
  }

  /** Draw order: the sun's sphere comes first, then the planets' spheres in
      construction order; rings belong to ringed planets only, twice each,
      in list order. */
  lemma DrawOrder(s: SolarSystem)
    ensures SystemDraw(s)[0] == SunSphere(s.sun)
    ensures Spheres(SystemDraw(s)) == [SunRef] + PlanetRefs(0, |s.planets|)
    ensures RingOwners(SystemDraw(s)) == RingedTwice(s.planets, 0)
    ensures |SystemDraw(s)| == 1 + |s.planets| + 2 * RingedCount(s.planets)
  {
    PlanetsDrawShape(s.planets, 0);
    SpheresAppend([SunSphere(s.sun)], PlanetsDraw(s.planets, 0));
    RingOwnersAppend([SunSphere(s.sun)], PlanetsDraw(s.planets, 0));
  }

  /** Every command the planets' part of the trace holds is lit, and every
      ring in it belongs to one of the listed planets. */
  lemma {:induction false} PlanetsDrawLit(ps: seq<Planet>, from: nat)
    ensures forall k :: 0 <= k < |PlanetsDraw(ps, from)| && PlanetsDraw(ps, from)[k].Sphere? ==>
      PlanetsDraw(ps, from)[k].lit && PlanetsDraw(ps, from)[k].body.PlanetRef?
  {
    if |ps| > 0 {
      PlanetsDrawLit(ps[1..], from + 1);
      var seg := PlanetSegment(ps[0], from);
      var rest := PlanetsDraw(ps[1..], from + 1);
      var t: seq<Cmd> := seg + rest;
      assert PlanetsDraw(ps, from) == t;
      forall k | 0 <= k < |t| && t[k].Sphere?
        ensures t[k].lit && t[k].body.PlanetRef?
      {
        if k >= |seg| {
          assert t[k] == rest[k - |seg|];
        }
      }
    }
  }

  /** Lighting: the sun's sphere is the one sphere drawn unlit. */
  lemma SunOnlyUnlit(s: SolarSystem)
    ensures forall k :: 0 <= k < |SystemDraw(s)| && SystemDraw(s)[k].Sphere? ==>
      (SystemDraw(s)[k].lit <==> SystemDraw(s)[k].body.PlanetRef?)
  {
    var rest := PlanetsDraw(s.planets, 0);
    PlanetsDrawLit(s.planets, 0);
    forall k | 0 <= k < |SystemDraw(s)| && SystemDraw(s)[k].Sphere?
      ensures SystemDraw(s)[k].lit <==> SystemDraw(s)[k].body.PlanetRef?
    {
      if k > 0 {
        assert SystemDraw(s)[k] == rest[k - 1];
      }
    }
  }

  /** In the initial scene one frame draws 9 spheres (sun first) and the
      rings of Saturn, Uranus and Neptune twice each: 15 commands. */
  lemma InitialDraw(s: SolarSystem)
    requires s == Initial()
    ensures Spheres(SystemDraw(s)) == [SunRef, PlanetRef(0), PlanetRef(1), PlanetRef(2), PlanetRef(3),
                                       PlanetRef(4), PlanetRef(5), PlanetRef(6), PlanetRef(7)]
    ensures RingOwners(SystemDraw(s)) == [5, 5, 6, 6, 7, 7]
    ensures |SystemDraw(s)| == 15
  {
    DrawOrder(s);
    var ps := s.planets;
    assert ps[1..][1..][1..][1..][1..] == ps[5..];
    assert RingedTwice(ps[5..], 5) == [5, 5, 6, 6, 7, 7] by {
      assert ps[5..][1..] == ps[6..];
      assert ps[6..][1..] == ps[7..];
      assert ps[7..][1..] == [];
    }
    assert RingedCount(ps[5..]) == 3 by {
      assert ps[5..][1..] == ps[6..];
      assert ps[6..][1..] == ps[7..];
      assert ps[7..][1..] == [];
    }
  }

  // ---------------------------------------------------------------------
  // The ring's quad strip.

  /** Sample `i` of the strip of `g`: at turn i / sides, an inner vertex at
      scales (distance + inner, inner) with u = 0 and an outer vertex at
      scales (distance + outer, outer) with u = 1, both with v = i / sides. */
  function StripSample(g: RingGeometry, i: nat): RingPair
    requires g.sides > 0
  {
    var v := i as real / g.sides as real;
    RingPair(v,
      RingVertex(0.0, v, g.distance + g.inner, g.inner),
      RingVertex(1.0, v, g.distance + g.outer, g.outer))
  }

  lemma DivStrictlyIncreasing(i: nat, j: nat, n: nat)
    requires n > 0 && i < j
    ensures i as real / n as real < j as real / n as real
  {
    assert j as real / n as real - i as real / n as real == (j - i) as real / n as real;
  }

  lemma DivAtMostOne(i: nat, n: nat)
    requires 0 < n && i <= n
    ensures 0.0 <= i as real / n as real <= 1.0
  {
    if i < n {
      DivStrictlyIncreasing(i, n, n);
    }
  }

  /** The samples of a strip are ordered and bounded: v climbs strictly
      from 0 at the first sample to 1 at the last. */
  lemma StripSamplesOrdered(g: RingGeometry, strip: seq<RingPair>)
    requires g.sides > 0 && |strip| == g.sides + 1
    requires forall i :: 0 <= i < |strip| ==> strip[i] == StripSample(g, i)
    ensures strip[0].turn == 0.0 && strip[g.sides].turn == 1.0
    ensures forall i, j :: 0 <= i < j < |strip| ==> strip[i].inner.texV < strip[j].inner.texV
    ensures forall i :: 0 <= i < |strip| ==> 0.0 <= strip[i].inner.texV <= 1.0
  {
    forall i, j | 0 <= i < j < |strip|
      ensures strip[i].inner.texV < strip[j].inner.texV
    {
      DivStrictlyIncreasing(i, j, g.sides);
    }
    forall i | 0 <= i < |strip|
      ensures 0.0 <= strip[i].inner.texV <= 1.0
    {
      DivAtMostOne(i, g.sides);
    }
  }

  /** Expands a ring into its quad strip: samples 0 to sides inclusive, so
      sides + 1 vertex pairs.  The texture coordinate v climbs strictly from
      0 to 1; the first and last samples lie one full turn apart on the same
      radii, so the strip closes; inner vertices have u = 0, outer u = 1. */
  method EmitStrip(g: RingGeometry) returns (strip: seq<RingPair>)
    requires g.sides > 0
    ensures |strip| == g.sides + 1
    ensures forall i :: 0 <= i < |strip| ==> strip[i] == StripSample(g, i)
    ensures strip[0].turn == 0.0 && strip[g.sides].turn == 1.0
    ensures strip[0].inner.xScale == strip[g.sides].inner.xScale && strip[0].inner.yScale == strip[g.sides].inner.yScale
    ensures strip[0].outer.xScale == strip[g.sides].outer.xScale && strip[0].outer.yScale == strip[g.sides].outer.yScale
    ensures forall i, j :: 0 <= i < j < |strip| ==> strip[i].inner.texV < strip[j].inner.texV
    ensures forall i :: 0 <= i < |strip| ==> 0.0 <= strip[i].inner.texV <= 1.0 && strip[i].inner.texV == strip[i].outer.texV
    ensures forall i :: 0 <= i < |strip| ==> strip[i].inner.texU == 0.0 && strip[i].outer.texU == 1.0
  {
    strip := [];
    var i: nat := 0;
    while i <= g.sides
      invariant i <= g.sides + 1
      invariant |strip| == i
      invariant forall k :: 0 <= k < i ==> strip[k] == StripSample(g, k)
    {
      strip := strip + [StripSample(g, i)];
      i := i + 1;
    }
    StripSamplesOrdered(g, strip);
  }

  /** A ring as drawn has 50 sides, so its strip holds 51 vertex pairs, and
      for a planet of positive radius the inner radius is below the outer. */
  method EmitPlanetRing(p: Planet, index: nat) returns (strip: seq<RingPair>)
    ensures |strip| == 51
    ensures strip[0].turn == 0.0 && strip[50].turn == 1.0
    ensures forall i :: 0 <= i < |strip| ==> strip[i].inner.yScale == 1.5 * p.radius
    ensures forall i :: 0 <= i < |strip| ==> strip[i].outer.yScale == 2.0 * p.radius
    ensures forall i :: 0 <= i < |strip| ==> strip[i].outer.xScale == p.distance + 2.0 * p.radius
    ensures forall i :: 0 <= i < |strip| ==> strip[i].inner.xScale == p.distance + 1.5 * p.radius
    ensures forall i :: 0 <= i < |strip| ==> strip[i].inner.texV == strip[i].outer.texV == i as real / 50.0
    ensures forall i :: 0 <= i < |strip| ==> strip[i] == StripSample(RingOf(p, index), i)
    ensures p.radius > 0.0 ==> forall i :: 0 <= i < |strip| ==> strip[i].inner.yScale < strip[i].outer.yScale
  {
    strip := EmitStrip(RingOf(p, index));
  }
}
