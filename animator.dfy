/** One animation frame of the particle field, the epoch it belongs to, and the
    `Particles` object that runs it in place. */
module Animator {
  import opened ParticleModel
  import opened Sampling
  import opened Stats
  import opened Spawn

  /** Post-move x of every particle, the coordinate the sampling test reads. */
  function MovedXs(ps: seq<Particle>): (xs: seq<real>)
    ensures |xs| == |ps|
    ensures forall i :: 0 <= i < |ps| ==> xs[i] == ps[i].xPos + ps[i].xVelocity
  {
    seq(|ps|, i requires 0 <= i < |ps| => Move(ps[i]).xPos)
  }

  function Radii(ps: seq<Particle>): (rs: seq<real>)
    ensures |rs| == |ps|
    ensures forall i :: 0 <= i < |ps| ==> rs[i] == ps[i].radius
  {
    seq(|ps|, i requires 0 <= i < |ps| => ps[i].radius)
  }

  function Paint(p: Particle, sampled: bool): Particle {
    if sampled then p.(color := Sampled) else p
  }

  /** One particle's frame: move, take the sampled colour if listed, then bounce. */
  function StepParticle(p: Particle, sampled: bool, width: real, height: real): Particle {
    Bounce(Paint(Move(p), sampled), width, height)
  }

  /** The sampled list after one frame. */
  function TickSampled(ps: seq<Particle>, s: seq<nat>, left: real): seq<nat> {
    SampleUpTo(s, MovedXs(ps), left, |ps|)
  }

  /** The particles after one frame. Particle i is painted when i is in the final list,
      which is the same as being listed when its own turn ends (SampleUpToSettled). */
  function TickParticles(ps: seq<Particle>, s: seq<nat>, left: real, width: real, height: real): seq<Particle> {
    var after := TickSampled(ps, s, left);
    seq(|ps|, i requires 0 <= i < |ps| => StepParticle(ps[i], i in after, width, height))
  }

  /** What holds of the sampled list and the colours between frames. */
  predicate SampledValid(ps: seq<Particle>, s: seq<nat>) {
    && NoDuplicates(s)
    && |s| <= MaxSample + 1
    && IndicesIn(s, |ps|)
    && forall k :: 0 <= k < |s| ==> ps[s[k]].color == Sampled
  }

  /** Per particle: exact displacement, unchanged radius, colour rule and bounce priority,
      the bounce judged on the post-move position. */
  lemma TickParticle(ps: seq<Particle>, s: seq<nat>, left: real, width: real, height: real, i: nat)
    requires i < |ps|
    ensures |TickParticles(ps, s, left, width, height)| == |ps|
    ensures var p, q := ps[i], TickParticles(ps, s, left, width, height)[i];
      var m := Move(p);
      && q.radius == p.radius
      && q.xPos == p.xPos + p.xVelocity
      && q.yPos == p.yPos - p.yVelocity
      && q.color == (if i in TickSampled(ps, s, left) then Sampled else p.color)
      && (OutX(m, width) ==> q.xVelocity == -p.xVelocity && q.yVelocity == p.yVelocity)
      && (!OutX(m, width) && OutY(m, height) ==> q.xVelocity == p.xVelocity && q.yVelocity == -p.yVelocity)
      && (!OutX(m, width) && !OutY(m, height) ==> q.xVelocity == p.xVelocity && q.yVelocity == p.yVelocity)
      && (q.xVelocity == p.xVelocity || q.yVelocity == p.yVelocity)
      && Abs(q.xVelocity) == Abs(p.xVelocity) && Abs(q.yVelocity) == Abs(p.yVelocity)
  {
  }

  /** The list only grows by appending, never repeats an index, never passes
      MaxSample + 1, and appends only particles left of the line, in ascending order. */
  lemma TickSampledGrows(ps: seq<Particle>, s: seq<nat>, left: real)
    requires NoDuplicates(s) && |s| <= MaxSample + 1
    ensures var r := TickSampled(ps, s, left);
      && s <= r
      && NoDuplicates(r)
      && |r| <= MaxSample + 1
      && (forall j :: |s| <= j < |r| ==> r[j] < |ps| && ps[r[j]].xPos + ps[r[j]].xVelocity < left)
      && (forall a, b :: |s| <= a < b < |r| ==> r[a] < r[b])
  {
    var xs := MovedXs(ps);
    SampleUpToGrows(s, xs, left, |ps|);
    SampleUpToNoDuplicates(s, xs, left, |ps|);
    SampleUpToCap(s, xs, left, |ps|);
    SampleUpToAppends(s, xs, left, |ps|);
  }

  /** A particle that ends the frame left of the line is listed, unless the cap was reached. */
  lemma TickSampledComplete(ps: seq<Particle>, s: seq<nat>, left: real, i: nat)
    requires i < |ps| && ps[i].xPos + ps[i].xVelocity < left
    ensures var r := TickSampled(ps, s, left);
      i in r || |r| > MaxSample
  {
    SampleUpToComplete(s, MovedXs(ps), left, |ps|, i);
  }

  /** Lower indices win within a frame: if a higher particle j2 joined the list during
      the frame, every lower particle that ended its move left of the line is listed too. */
  lemma TickLowerIndicesWin(ps: seq<Particle>, s: seq<nat>, left: real, j: nat, j2: nat)
    requires j < j2 < |ps| && ps[j].xPos + ps[j].xVelocity < left
    requires j2 in TickSampled(ps, s, left) && j2 !in s
    ensures j in TickSampled(ps, s, left)
  {
    LowerIndicesWin(s, MovedXs(ps), left, |ps|, j, j2);
  }

  /** A frame keeps the list and the colours consistent: every listed particle is painted. */
  lemma TickPreservesSampledValid(ps: seq<Particle>, s: seq<nat>, left: real, width: real, height: real)
    requires SampledValid(ps, s)
    ensures SampledValid(TickParticles(ps, s, left, width, height), TickSampled(ps, s, left))
  {
    var r := TickSampled(ps, s, left);
    var qs := TickParticles(ps, s, left, width, height);
    TickSampledGrows(ps, s, left);
    forall k | 0 <= k < |r|
      ensures r[k] < |qs| && qs[r[k]].color == Sampled
    {
      TickParticle(ps, s, left, width, height, r[k]);
    }
  }

  /** Radii never change, so the true mean is the same before and after a frame. */
  lemma TickKeepsRadii(ps: seq<Particle>, s: seq<nat>, left: real, width: real, height: real)
    ensures Radii(TickParticles(ps, s, left, width, height)) == Radii(ps)
    ensures |ps| > 0 ==> TrueMean(Radii(TickParticles(ps, s, left, width, height))) == TrueMean(Radii(ps))
  {
  }

  /** The frame after the first i particles have had their turn. Particle j is painted
      when it is listed once its own turn is over. */
  function PartialTick(ps: seq<Particle>, s: seq<nat>, left: real, width: real, height: real, i: nat): (qs: seq<Particle>)
    ensures |qs| == |ps|
  {
    seq(|ps|, j requires 0 <= j < |ps| =>
      if j < i then StepParticle(ps[j], j in SampleUpTo(s, MovedXs(ps), left, j + 1), width, height) else ps[j])
  }

  /** Particle i's turn extends the partial frame by one particle. */
  lemma PartialTickStep(ps: seq<Particle>, s: seq<nat>, left: real, width: real, height: real, i: nat)
    requires i < |ps|
    ensures PartialTick(ps, s, left, width, height, i + 1)
      == PartialTick(ps, s, left, width, height, i)[i := StepParticle(ps[i], i in SampleUpTo(s, MovedXs(ps), left, i + 1), width, height)]
  {
  }

  /** Once every particle has had its turn, the partial frame is the whole frame: membership
      at the end of a particle's own turn equals membership at the end of the frame. */
  lemma PartialTickComplete(ps: seq<Particle>, s: seq<nat>, left: real, width: real, height: real)
    ensures PartialTick(ps, s, left, width, height, |ps|) == TickParticles(ps, s, left, width, height)
  {
    forall j | 0 <= j < |ps|
      ensures PartialTick(ps, s, left, width, height, |ps|)[j] == TickParticles(ps, s, left, width, height)[j]
    {
      SampleUpToSettled(s, MovedXs(ps), left, |ps|, j);
    }
  }

  /** Canvas size during one frame (the resize notifier may change it between frames). */
  datatype Frame = Frame(width: real, height: real)

  datatype EpochState = EpochState(particles: seq<Particle>, sampled: seq<nat>)

  /** The frames of one epoch, between two resets, with the sampling line fixed. */
  function RunFrames(st: EpochState, left: real, frames: seq<Frame>): EpochState
    decreases |frames|
  {
    if frames == [] then st
    else
      var f := frames[0];
      var next := EpochState(
        TickParticles(st.particles, st.sampled, left, f.width, f.height),
        TickSampled(st.particles, st.sampled, left));
      RunFrames(next, left, frames[1..])
  }

  /** Across any number of frames of an epoch the list only grows, stays capped and
      duplicate-free, listed particles stay painted, and the radii do not change. */
  lemma {:induction false} EpochKeepsSamples(st: EpochState, left: real, frames: seq<Frame>)
    requires SampledValid(st.particles, st.sampled)
    ensures var e := RunFrames(st, left, frames);
      && SampledValid(e.particles, e.sampled)
      && st.sampled <= e.sampled
      && Radii(e.particles) == Radii(st.particles)
      && forall k :: 0 <= k < |st.sampled| ==> e.particles[st.sampled[k]].color == Sampled
    decreases |frames|
  {
    if frames != [] {
      var f := frames[0];
      var next := EpochState(
        TickParticles(st.particles, st.sampled, left, f.width, f.height),
        TickSampled(st.particles, st.sampled, left));
      TickPreservesSampledValid(st.particles, st.sampled, left, f.width, f.height);
      TickSampledGrows(st.particles, st.sampled, left);
      TickKeepsRadii(st.particles, st.sampled, left, f.width, f.height);
      EpochKeepsSamples(next, left, frames[1..]);
      var e := RunFrames(st, left, frames);
      assert e == RunFrames(next, left, frames[1..]);
      assert forall k :: 0 <= k < |st.sampled| ==> e.sampled[k] == st.sampled[k];
    }
  }

  /** A fresh epoch: nothing sampled, so the sampled mean is the sentinel 0, and the
      true mean of the new radii is non-negative. */
  lemma FreshEpochStatistics(draws: seq<SpawnDraw>, width: real, height: real)
    requires |draws| > 0
    ensures var rs := Radii(SpawnAll(draws, width, height));
      && SampledMean(rs, []) == 0.0
      && 0.0 <= TrueMean(rs)
      && SampledValid(SpawnAll(draws, width, height), [])
  {
    TrueMeanNonNegative(Radii(SpawnAll(draws, width, height)));
  }

  /** The animated particle field: particle records in an array, the sampled indices,
      and the x coordinate of the sampling line. */
  class Particles {
    var particles: array<Particle>
    var sampledParticles: seq<nat>
    var sampleLeft: real

    ghost predicate Valid()
      reads this, particles
    {
      SampledValid(particles[..], sampledParticles)
    }

    constructor ()
      ensures Valid() && fresh(particles)
      ensures particles.Length == 0 && sampledParticles == [] && sampleLeft == 0.0
    {
      particles := new Particle[0];
      sampledParticles := [];
      sampleLeft := 0.0;
    }

    /** Fills a new particle array, one draw per particle. */
    method CreateCircle(draws: seq<SpawnDraw>, width: real, height: real)
      requires |draws| == NumParticles
      modifies this
      ensures fresh(particles)
      ensures particles[..] == SpawnAll(draws, width, height)
      ensures sampledParticles == old(sampledParticles) && sampleLeft == old(sampleLeft)
    {
      var ps := new Particle[NumParticles];
      var i := 0;
      while i < NumParticles
        invariant 0 <= i <= NumParticles
        invariant forall j :: 0 <= j < i ==> ps[j] == SpawnParticle(draws[j], width, height)
        modifies ps
      {
        ps[i] := SpawnParticle(draws[i], width, height);
        i := i + 1;
      }
      particles := ps;
    }

    /** Starts a new epoch: clears particles and samples, puts the line at 0, spawns. */
    method Init(draws: seq<SpawnDraw>, width: real, height: real)
      requires |draws| == NumParticles
      modifies this
      ensures Valid() && fresh(particles)
      ensures particles[..] == SpawnAll(draws, width, height)
      ensures sampledParticles == [] && sampleLeft == 0.0
      ensures SampledMean(Radii(particles[..]), sampledParticles) == 0.0
      ensures 0.0 <= TrueMean(Radii(particles[..]))
    {
      particles := new Particle[0];
      sampledParticles := [];
      sampleLeft := 0.0;
      CreateCircle(draws, width, height);
      FreshEpochStatistics(draws, width, height);
    }

    /** End of a drag: a new epoch, then the line moves to where the handle was dropped. */
    method Restart(draws: seq<SpawnDraw>, width: real, height: real, leftValue: real)
      requires |draws| == NumParticles
      modifies this
      ensures Valid() && fresh(particles)
      ensures particles[..] == SpawnAll(draws, width, height)
      ensures sampledParticles == [] && sampleLeft == leftValue
    {
      Init(draws, width, height);
      sampleLeft := leftValue;
    }

    /** The body of the frame loop for particle i: move it, list it if it is left of the
        line and there is room, paint it if listed, then reflect its velocity. */
    method Advance(i: nat, width: real, height: real)
      requires i < particles.Length
      modifies particles, this`sampledParticles
      ensures sampledParticles == SampleStep(old(sampledParticles), i, Move(old(particles[i])).xPos, sampleLeft)
      ensures particles[..] == old(particles[..])[i := StepParticle(old(particles[i]), i in sampledParticles, width, height)]
    {
      particles[i] := particles[i].(xPos := particles[i].xPos + particles[i].xVelocity);
      particles[i] := particles[i].(yPos := particles[i].yPos - particles[i].yVelocity);
      if particles[i].xPos < sampleLeft {
        if |sampledParticles| <= MaxSample && i !in sampledParticles {
          sampledParticles := sampledParticles + [i];
        }
      }
      if i in sampledParticles {
        particles[i] := particles[i].(color := Sampled);
      }
      if particles[i].xPos > width - particles[i].radius / 2.0 || particles[i].xPos < particles[i].radius / 2.0 {
        particles[i] := particles[i].(xVelocity := -particles[i].xVelocity);
      } else if particles[i].yPos > height - particles[i].radius / 2.0 || particles[i].yPos < particles[i].radius / 2.0 {
        particles[i] := particles[i].(yVelocity := -particles[i].yVelocity);
      }
    }

    /** One frame, in place: returns the true mean radius (taken before the moves) and
        the sampled mean radius as last recomputed inside the loop. */
    method Tick(width: real, height: real) returns (trueMean: real, sampledMean: real)
      requires Valid() && particles.Length == NumParticles
      modifies particles, this`sampledParticles
      ensures Valid()
      ensures particles[..] == TickParticles(old(particles[..]), old(sampledParticles), sampleLeft, width, height)
      ensures sampledParticles == TickSampled(old(particles[..]), old(sampledParticles), sampleLeft)
      ensures trueMean == TrueMean(Radii(old(particles[..])))
      ensures sampledMean == SampledMean(Radii(particles[..]), sampledParticles)
    {
      ghost var ps0 := particles[..];
      ghost var s0 := sampledParticles;
      trueMean := TrueMean(Radii(particles[..]));
      sampledMean := 0.0;
      var i := 0;
      while i < NumParticles
        invariant 0 <= i <= NumParticles
        invariant sampledParticles == SampleUpTo(s0, MovedXs(ps0), sampleLeft, i)
        invariant particles[..] == PartialTick(ps0, s0, sampleLeft, width, height, i)
        invariant i > 0 ==> IndicesIn(sampledParticles, NumParticles) && sampledMean == SampledMean(Radii(particles[..]), sampledParticles)
      {
        Advance(i, width, height);
        PartialTickStep(ps0, s0, sampleLeft, width, height, i);
        SampleUpToIndices(s0, MovedXs(ps0), sampleLeft, i + 1);
        sampledMean := SampledMean(Radii(particles[..]), sampledParticles);
        i := i + 1;
      }
      PartialTickComplete(ps0, s0, sampleLeft, width, height);
      TickPreservesSampledValid(ps0, s0, sampleLeft, width, height);
    }
  }
}
