/** The arithmetic of particle creation, with the random draws taken as inputs. */
module Spawn {
  import opened ParticleModel

  const RadiusMean: real := 20.0
  const RadiusVariance: real := 5.0
  const SpawnVariance: real := 30.0

  /** The random inputs of one particle: three standard-normal draws and the velocity
      components already resolved from speed and direction. */
  datatype SpawnDraw = SpawnDraw(
    radiusDraw: real,
    xDraw: real,
    yDraw: real,
    xVelocity: real,
    yVelocity: real)

  /** The radius is the scaled draw, mirrored when it is negative. */
  function SpawnRadius(draw: real): (r: real)
    ensures r >= 0.0
    ensures r == draw * RadiusVariance + RadiusMean || r == -(draw * RadiusVariance + RadiusMean)
  {
    var raw := draw * RadiusVariance + RadiusMean;
    if raw < 0.0 then -raw else raw
  }

  /** Horizontal spawn position: the jittered centre, clamped first from below, then from above. */
  function SpawnX(r: real, draw: real, width: real): (x: real)
    ensures x <= width - r / 2.0
    ensures r <= width ==> r / 2.0 <= x
    ensures var raw := draw * SpawnVariance + width / 2.0;
      && (r / 2.0 <= raw <= width - r / 2.0 ==> x == raw)
      && (raw < r / 2.0 && r <= width ==> x == r / 2.0)
      && (raw > width - r / 2.0 ==> x == width - r / 2.0)
  {
    var x0 := draw * SpawnVariance + width / 2.0;
    var x1 := if x0 < r / 2.0 then r / 2.0 else x0;
    if x1 > width - r / 2.0 then width - r / 2.0 else x1
  }

  /** Vertical spawn position. As in the source, the upper clamp tests against the height
      but assigns width - r/2, so it keeps y in the canvas only when width <= height. */
  function SpawnY(r: real, draw: real, width: real, height: real): (y: real)
    ensures r <= width ==> r / 2.0 <= y
    ensures y <= height - r / 2.0 || y == width - r / 2.0
    ensures width <= height ==> y <= height - r / 2.0
    ensures var raw := draw * SpawnVariance + height / 2.0;
      && (r / 2.0 <= raw <= height - r / 2.0 ==> y == raw)
      && (raw < r / 2.0 && r <= height ==> y == r / 2.0)
      && (raw > height - r / 2.0 ==> y == width - r / 2.0)
  {
    var y0 := draw * SpawnVariance + height / 2.0;
    var y1 := if y0 < r / 2.0 then r / 2.0 else y0;
    if y1 > height - r / 2.0 then width - r / 2.0 else y1
  }

  /** On a wide, short canvas a particle can spawn far below the bottom edge. */
  lemma SpawnYLeavesWideCanvas()
    ensures SpawnY(20.0, 2.0, 800.0, 100.0) == 790.0
    ensures SpawnY(20.0, 2.0, 800.0, 100.0) > 100.0 - 20.0 / 2.0
  {
  }

  /** One freshly created particle: unsampled, with a non-negative radius. */
  function SpawnParticle(d: SpawnDraw, width: real, height: real): (p: Particle)
    ensures p.radius >= 0.0 && p.color == Unsampled
    ensures p.xVelocity == d.xVelocity && p.yVelocity == d.yVelocity
    ensures p.radius <= width ==> p.radius / 2.0 <= p.xPos <= width - p.radius / 2.0
    ensures p.radius <= width && width <= height ==> p.radius / 2.0 <= p.yPos <= height - p.radius / 2.0
  {
    var r := SpawnRadius(d.radiusDraw);
    Particle(r, SpawnX(r, d.xDraw, width), SpawnY(r, d.yDraw, width, height), d.xVelocity, d.yVelocity, Unsampled)
  }

  /** The particle array built from one draw per particle. */
  function SpawnAll(draws: seq<SpawnDraw>, width: real, height: real): (ps: seq<Particle>)
    ensures |ps| == |draws|
    ensures forall i :: 0 <= i < |ps| ==> ps[i] == SpawnParticle(draws[i], width, height)
  {
    seq(|draws|, i requires 0 <= i < |draws| => SpawnParticle(draws[i], width, height))
  }
}
