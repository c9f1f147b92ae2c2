# Sampling paradox: particle simulation and sampling engine

This project is a Dafny model of the animation core of the sampling-paradox demo. The demo
(`script.js`) animates 75 circles of random radius that bounce around a canvas. A vertical
line splits the canvas. A particle that moves to the left of the line is "sampled", up to
a cap. Every frame the demo shows two numbers: the mean radius of all particles and the
mean radius of the sampled ones. Small particles move faster, so they cross the line
earlier, and the sampled mean is biased low.

The model has five modules:

- `ParticleModel` (`particle.dfy`): the particle record. Its `color` is a two-valued
  `Colour`, because the rgba string only encodes "sampled or not". This module also holds
  the one-frame move, the boundary tests and the reflection. Reflection is an x-first
  `if / else if`.
- `Spawn` (`spawn.dfy`): the arithmetic of `createCircle`. The random draws are inputs
  (`SpawnDraw`): three standard-normal samples and the two resolved velocity components.
  This covers the absolute value of the radius and the clamping of the spawn position.
  The y clamp keeps the source's quirk: it tests against the canvas height but assigns
  `width - r/2`.
- `Sampling` (`sampling.dfy`): the sampled-index list. `SampleStep` is one particle's
  decision. `SampleUpTo` is the left fold of those decisions over particles `0 .. k-1`, in
  index order.
- `Stats` (`stats.dfy`): the true mean and the sampled mean. `reduce` becomes a left-fold
  `Sum`. The sampled mean is 0 while the list is empty.
- `Animator` (`animator.dfy`): a pure specification of one frame (`TickParticles`,
  `TickSampled`), the frames of one epoch (`RunFrames`), and the class `Particles`.
  - `Particles` holds the particle array, the `sampledParticles` list and `sampleLeft`.
  - Its `Tick` method is the body of the interval callback. It runs a `while` loop over
    the array and updates it in place.
  - `Advance` is that loop's body for one particle: move, sample, paint, bounce.
  - `Init` is the reset. `Restart` is the drag-end handler, which resets and then moves
    the line.

Positions, velocities and radii are Dafny `real`s. The canvas width and height of a frame
are parameters of `Tick` and of the spawn functions; the window-resize handler that sets
them is not part of this model.

Some of the code's behaviour is easy to misread; the model follows the code:

- The radius is made non-negative with an absolute value. It is not guaranteed to be
  positive: a draw of exactly -4 gives radius 0.
- Nothing keeps a particle inside the canvas. A bounce only negates a velocity component,
  so no containment is claimed.
- The spawn y clamp uses the width (script.js:115). `SpawnYLeavesWideCanvas` shows a
  particle spawning below the bottom edge of an 800 x 100 canvas.
- The sample cap uses `<=` (script.js:185), so the list reaches `MaxSample + 1` = 11
  entries (`CapOvershoot`).
- A reset sets the line to 0 (script.js:57). The drag handler then sets it to the
  handle's position (script.js:302).

## Model

| member | source | states |
|---|---|---|
| `ParticleModel.BounceFlipsAtMostOne` | script.js:194-205 | If x is outside [r/2, width - r/2], only xVelocity is negated. Otherwise, if y is outside [r/2, height - r/2], only yVelocity is negated. Otherwise nothing changes. At most one component flips, magnitudes are kept, and position, radius and colour are untouched. |
| `Spawn.SpawnRadius` | script.js:104-105 | The radius is `draw * 5 + 20` or its negation, and it is never negative. |
| `Spawn.SpawnX` | script.js:109-111 | The spawn x never exceeds `width - r/2`. It is at least `r/2` when `r <= width`. A jittered centre inside the interval is kept. A centre below `r/2` becomes `r/2` when `r <= width`. A centre above `width - r/2` becomes `width - r/2`. |
| `Spawn.SpawnY` | script.js:113-115 | A centre above `height - r/2` becomes `width - r/2` (the quirk: the test uses the height, the assignment the width). A centre below `r/2` becomes `r/2` when `r <= height`. An in-range centre is kept. So y is at most `height - r/2` or exactly `width - r/2`. It stays in the canvas whenever `width <= height`, and is at least `r/2` when `r <= width`. |
| `Spawn.SpawnYLeavesWideCanvas` | script.js:115 | On an 800 x 100 canvas, radius 20 and draw 2 give y = 790: the centre lies 690 below the bottom edge of the 100-high canvas, where the lowest allowed centre is 90. |
| `Spawn.SpawnParticle` | script.js:125-132 | A new particle is unsampled and has a non-negative radius. Its velocity is the drawn velocity. It lies within the x bounds when `r <= width`, and within the y bounds when also `width <= height`. |
| `Sampling.SampleUpToNoDuplicates` | script.js:185-186 | A duplicate-free list stays duplicate-free, because an index is pushed only if it is not already included. |
| `Sampling.SampleUpToCap` | script.js:185-186 | A list of at most `MaxSample + 1` entries stays within `MaxSample + 1`. |
| `Sampling.SampleUpToGrows` | script.js:184-187 | The old list is a prefix of the new one. Entries are only appended, and earlier entries keep their positions. |
| `Sampling.SampleUpToAppends` | script.js:178-187 | Every appended entry is an index below k whose post-move x is left of the line and which was not listed before. Appended entries are strictly ascending, following the loop order. |
| `Sampling.SampleUpToIndices` | script.js:178-186 | Every listed index names a particle, provided the old list did. |
| `Sampling.SampleUpToComplete` | script.js:184-187 | A particle whose post-move x is left of the line ends up listed, unless the list has passed `MaxSample` entries. |
| `Sampling.SampleUpToMonotone` | script.js:178-187 | The list after a particles is a prefix of the list after any b >= a particles of the same frame. |
| `Sampling.SampleUpToListedWhenRoom` | script.js:184-187 | A particle left of the line whose own turn finds at most `MaxSample` entries is listed, and stays listed for the rest of the frame. |
| `Sampling.LowerIndicesWin` | script.js:178-186 | When the cap is hit, lower indices win. If a higher particle j2 was appended, every lower particle j left of the line is listed too. |
| `Sampling.SampleUpToSettled` | script.js:185-190 | Whether particle j is listed is decided on its own turn. Later turns append only larger indices. |
| `Sampling.SampleUpToAllLeft` | script.js:178-187 | In a fresh epoch with every particle left of the line, the list is exactly `0, 1, ..., min(k, MaxSample + 1) - 1`, so the lowest indices win. |
| `Sampling.CapOvershoot` | script.js:185 | With all 75 particles left of the line, the list reaches `MaxSample + 1` = 11 entries, one past the nominal cap of 10. |
| `Stats.MeanBetween` | script.js:173-174 | The true mean lies between any lower and upper bound of the radii. |
| `Stats.TrueMeanNonNegative` | script.js:173-174 | Non-negative radii give a non-negative true mean. |
| `Stats.SampledMeanBetween` | script.js:211-215 | With something sampled, the sampled mean lies between any bounds of the sampled radii. |
| `Stats.SampledMeanOfAll` | script.js:211-215 | Sampling every particle once, in index order, gives exactly the true mean. |
| `Animator.TickParticle` | script.js:178-205 | In one frame, each particle moves by exactly `xPos + xVelocity` and `yPos - yVelocity`. Its radius is unchanged. It becomes sampled-coloured if listed and otherwise keeps its colour. Its velocity follows the x-first bounce priority, judged on the post-move position: at most one component flips, and magnitudes are kept. |
| `Animator.TickSampledGrows` | script.js:184-187 | After a frame, the old list is a prefix of the new one. The new list is duplicate-free and holds at most `MaxSample + 1` entries. Every appended index names a particle whose post-move x is left of the line, and appended indices are ascending. |
| `Animator.TickSampledComplete` | script.js:184-187 | A particle that ends its move left of the line is listed after the frame, unless the list has passed `MaxSample` entries. |
| `Animator.TickLowerIndicesWin` | script.js:178-186 | Within one frame, if a higher particle joined the list, every lower particle that ended its move left of the line is listed too. |
| `Animator.TickPreservesSampledValid` | script.js:184-190 | A frame keeps the list duplicate-free, capped and in range, and every listed particle has the sampled colour. |
| `Animator.TickKeepsRadii` | script.js:173-180 | A frame changes no radius, so the true mean is the same before and after it. |
| `Animator.PartialTickStep` | script.js:178-208 | Each turn of the frame loop replaces exactly particle i with its moved, painted and bounced version. |
| `Animator.PartialTickComplete` | script.js:185-190 | Once every particle has had its turn, the in-place result is the whole-frame specification, even though each particle was painted according to the list as it stood at that moment. |
| `Animator.EpochKeepsSamples` | script.js:170-225 | Across any number of frames of one epoch, and any canvas sizes, the list only grows and stays duplicate-free and capped. Once listed, a particle keeps the sampled colour on every later frame. Radii never change. |
| `Animator.FreshEpochStatistics` | script.js:54-60 | A corollary of `Stats.TrueMeanNonNegative` for freshly spawned particles: their true mean is non-negative. With the empty list of a reset, the sampled mean is 0 and the sampled-list invariant holds, both by definition. `Init` uses it. |
| `Animator.Particles.constructor` | script.js:23-48 | A new object has no particles, an empty sampled list and the line at 0. |
| `Animator.Particles.CreateCircle` | script.js:99-136 | Fills a fresh particle array with one spawned particle per draw, in index order. The sampled list and the line are unchanged. |
| `Animator.Particles.Init` | script.js:54-60 | Resets: fresh particles from the draws, an empty sampled list, the line at 0, and the class invariant established. Afterwards the sampled mean is 0 and the true mean is non-negative. |
| `Animator.Particles.Restart` | script.js:300-302 | The drag-end handler resets, then puts the line at the handle position. |
| `Animator.Particles.Advance` | script.js:179-205 | One loop turn for particle i. The list becomes `SampleStep` of the old list at i's post-move x. Particle i becomes its moved, painted and bounced version. No other particle changes. |
| `Animator.Particles.Tick` | script.js:170-225 | One frame in place. The new particle array and sampled list equal the frame specification applied to the old ones. The class invariant is kept. The returned true mean is taken over the old radii, and the sampled mean over the new list. |

## Left out

- Random generation is not modelled: `_rand`, the Box-Muller `_wrand`, and the speed and direction of a new particle (script.js:69-78, 106, 121-123). They use `Math.random`, logarithms, square roots and trigonometry. The draws, including both velocity components, are inputs (`SpawnDraw`). So the model does not capture that speed is `800 / (PI * r^2)`, nor that speed is infinite when the radius is 0.
- `Animator.Particles.Tick`: the two statistics are returned unrounded. `roundToTwo` (script.js:172) is floating-point display rounding.
- Floating point in general is not modelled. Positions, velocities and radii are exact reals, so rounding and `-0` are not represented.
- Drawing is not modelled: `render`, `draw`, `clearCanvas`, the `fillText` and font calls, and the resize binding (script.js:84-93, 150-159, 218-222, 232-234). The canvas width and height are parameters instead.
- Timer plumbing is not modelled: `setInterval`, `fps` and the `isAnimating` guard (script.js:138-141, 170, 225). A frame is one `Tick` call.
- The slider and drag handling (script.js:239-320) is left out, apart from its effect of resetting and then setting `sampleLeft`, which is `Restart`. resize.js is not part of this model.
- The colour strings and the opacity are reduced to the two-valued `Colour`.
- `Stats.TrueMean`: requires at least one particle. `reduce` without an initial value throws on an empty array, and `Tick` always runs on 75 particles.
