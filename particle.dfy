/** Particle records and the physics of one particle in one animation frame. */
module ParticleModel {

  /** Number of particles created by every (re)initialisation. */
  const NumParticles: nat := 75

  /** Nominal sample cap; the `<=` guard of the tick lets the list reach MaxSample + 1. */
  const MaxSample: nat := 10

  /** The two fill colours of a particle (the opacity suffix is display only). */
  datatype Colour = Unsampled | Sampled

  /** One particle record: canvas y grows downward, so yVelocity points up. */
  datatype Particle = Particle(
    radius: real,
    xPos: real,
    yPos: real,
    xVelocity: real,
    yVelocity: real,
    color: Colour)

  /** Fixed-step integration of one frame. */
  function Move(p: Particle): Particle {
    p.(xPos := p.xPos + p.xVelocity, yPos := p.yPos - p.yVelocity)
  }

  /** The x coordinate lies outside [radius/2, width - radius/2]. */
  predicate OutX(p: Particle, width: real) {
    p.xPos > width - p.radius / 2.0 || p.xPos < p.radius / 2.0
  }

  /** The y coordinate lies outside [radius/2, height - radius/2]. */
  predicate OutY(p: Particle, height: real) {
    p.yPos > height - p.radius / 2.0 || p.yPos < p.radius / 2.0
  }

  /** Reflection: x is checked first; y only when x is inside. Positions are never corrected. */
  function Bounce(p: Particle, width: real, height: real): Particle {
    if OutX(p, width) then p.(xVelocity := -p.xVelocity)
    else if OutY(p, height) then p.(yVelocity := -p.yVelocity)
    else p
  }

  function Abs(x: real): (r: real)
    ensures r >= 0.0 && (r == x || r == -x)
  {
    if x < 0.0 then -x else x
  }

  /** Everything but the velocity survives a bounce, at most one component changes sign,
      and neither component changes magnitude. */
  lemma BounceFlipsAtMostOne(p: Particle, width: real, height: real)
    ensures var q := Bounce(p, width, height);
      && q.radius == p.radius && q.xPos == p.xPos && q.yPos == p.yPos && q.color == p.color
      && (q.xVelocity == p.xVelocity || q.yVelocity == p.yVelocity)
      && Abs(q.xVelocity) == Abs(p.xVelocity) && Abs(q.yVelocity) == Abs(p.yVelocity)
      && (OutX(p, width) ==> q.xVelocity == -p.xVelocity && q.yVelocity == p.yVelocity)
      && (!OutX(p, width) && OutY(p, height) ==> q.xVelocity == p.xVelocity && q.yVelocity == -p.yVelocity)
      && (!OutX(p, width) && !OutY(p, height) ==> q == p)
  {
  }
}
