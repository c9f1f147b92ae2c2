/** The sampled-index list: how one frame's sampling decisions extend it. */
module Sampling {
  import opened ParticleModel

  /** Particle i, whose post-move x is x, is appended when it lies left of the
      sampling line, the list has at most MaxSample entries, and i is not listed yet. */
  function SampleStep(s: seq<nat>, i: nat, x: real, left: real): seq<nat> {
    if x < left && |s| <= MaxSample && i !in s then s + [i] else s
  }

  /** The decisions for particles 0 .. k-1 taken in ascending index order;
      xs[j] is the post-move x of particle j. */
  function SampleUpTo(s: seq<nat>, xs: seq<real>, left: real, k: nat): seq<nat>
    requires k <= |xs|
    decreases k
  {
    if k == 0 then s else SampleStep(SampleUpTo(s, xs, left, k - 1), k - 1, xs[k - 1], left)
  }

  predicate NoDuplicates(s: seq<nat>) {
    forall a, b :: 0 <= a < b < |s| ==> s[a] != s[b]
  }

  /** No index is ever listed twice. */
  lemma {:induction false} SampleUpToNoDuplicates(s: seq<nat>, xs: seq<real>, left: real, k: nat)
    requires k <= |xs|
    requires NoDuplicates(s)
    ensures NoDuplicates(SampleUpTo(s, xs, left, k))
  {
    if k > 0 {
      SampleUpToNoDuplicates(s, xs, left, k - 1);
    }
  }

  /** The list never holds more than MaxSample + 1 indices (one past the nominal cap). */
  lemma {:induction false} SampleUpToCap(s: seq<nat>, xs: seq<real>, left: real, k: nat)
    requires k <= |xs|
    requires |s| <= MaxSample + 1
    ensures |SampleUpTo(s, xs, left, k)| <= MaxSample + 1
  {
    if k > 0 {
      SampleUpToCap(s, xs, left, k - 1);
    }
  }

  /** The old list is a prefix of the new one: entries are only appended. */
  lemma {:induction false} SampleUpToGrows(s: seq<nat>, xs: seq<real>, left: real, k: nat)
    requires k <= |xs|
    ensures s <= SampleUpTo(s, xs, left, k)
  {
    if k > 0 {
      SampleUpToGrows(s, xs, left, k - 1);
    }
  }

  /** Every appended entry is a particle index below k that was left of the line and
      not listed before, and the appended entries are in strictly ascending order. */
  lemma {:induction false} SampleUpToAppends(s: seq<nat>, xs: seq<real>, left: real, k: nat)
    requires k <= |xs|
    ensures var r := SampleUpTo(s, xs, left, k);
      && |s| <= |r|
      && (forall j :: |s| <= j < |r| ==> r[j] < k && xs[r[j]] < left && r[j] !in s)
      && (forall a, b :: |s| <= a < b < |r| ==> r[a] < r[b])
  {
    if k > 0 {
      SampleUpToAppends(s, xs, left, k - 1);
      var p := SampleUpTo(s, xs, left, k - 1);
      SampleUpToGrows(s, xs, left, k - 1);
      assert forall j :: 0 <= j < |s| ==> s[j] == p[j];
      if SampleUpTo(s, xs, left, k) != p {
        assert (k - 1) !in s;
      }
    }
  }

  /** Every listed index names a particle. */
  lemma SampleUpToIndices(s: seq<nat>, xs: seq<real>, left: real, k: nat)
    requires k <= |xs|
    requires forall j :: 0 <= j < |s| ==> s[j] < |xs|
    ensures var r := SampleUpTo(s, xs, left, k);
      forall j :: 0 <= j < |r| ==> r[j] < |xs|
  {
  }

  /** A particle left of the line is listed unless the list had already reached its cap. */
  lemma {:induction false} SampleUpToComplete(s: seq<nat>, xs: seq<real>, left: real, k: nat, j: nat)
    requires k <= |xs|
    requires j < k && xs[j] < left
    ensures j in SampleUpTo(s, xs, left, k) || |SampleUpTo(s, xs, left, k)| > MaxSample
  {
    if j < k - 1 {
      SampleUpToComplete(s, xs, left, k - 1, j);
    }
  }

  /** Processing more particles only extends the list: the list after a particles is a
      prefix of the list after b >= a particles. */
  lemma {:induction false} SampleUpToMonotone(s: seq<nat>, xs: seq<real>, left: real, a: nat, b: nat)
    requires a <= b <= |xs|
    ensures SampleUpTo(s, xs, left, a) <= SampleUpTo(s, xs, left, b)
    decreases b
  {
    if a < b {
      SampleUpToMonotone(s, xs, left, a, b - 1);
    }
  }

  /** A particle left of the line whose turn finds at most MaxSample entries is listed,
      and stays listed for the rest of the frame. */
  lemma SampleUpToListedWhenRoom(s: seq<nat>, xs: seq<real>, left: real, k: nat, j: nat)
    requires j < k <= |xs| && xs[j] < left
    requires |SampleUpTo(s, xs, left, j)| <= MaxSample
    ensures j in SampleUpTo(s, xs, left, k)
  {
    assert j in SampleUpTo(s, xs, left, j + 1);
    SampleUpToMonotone(s, xs, left, j + 1, k);
  }

  /** When the cap is hit, lower indices win: if a higher particle j2 was appended, every
      lower particle j that was left of the line is listed too. */
  lemma LowerIndicesWin(s: seq<nat>, xs: seq<real>, left: real, k: nat, j: nat, j2: nat)
    requires j < j2 < k <= |xs| && xs[j] < left
    requires j2 in SampleUpTo(s, xs, left, k) && j2 !in s
    ensures j in SampleUpTo(s, xs, left, k)
  {
    SampleUpToSettled(s, xs, left, k, j2);
    SampleUpToAppends(s, xs, left, j2);
    SampleUpToGrows(s, xs, left, j2);
    var before := SampleUpTo(s, xs, left, j2);
    assert j2 !in before by {
      forall m | 0 <= m < |before| ensures before[m] != j2 {
        if m < |s| {
          assert before[m] == s[m];
        }
      }
    }
    assert |before| <= MaxSample;
    SampleUpToMonotone(s, xs, left, j, j2);
    SampleUpToListedWhenRoom(s, xs, left, k, j);
  }

  /** Membership of particle j is settled at its own step: later steps append only larger indices. */
  lemma {:induction false} SampleUpToSettled(s: seq<nat>, xs: seq<real>, left: real, k: nat, j: nat)
    requires j < k <= |xs|
    ensures (j in SampleUpTo(s, xs, left, k)) == (j in SampleUpTo(s, xs, left, j + 1))
  {
    if k > j + 1 {
      SampleUpToSettled(s, xs, left, k - 1, j);
    }
  }

  /** When every particle is left of the line in a fresh epoch, the lowest indices win:
      the list becomes 0, 1, ... up to MaxSample + 1 entries. */
  lemma {:induction false} SampleUpToAllLeft(xs: seq<real>, left: real, k: nat)
    requires k <= |xs|
    requires forall j :: 0 <= j < |xs| ==> xs[j] < left
    ensures var n := if k <= MaxSample + 1 then k else MaxSample + 1;
      SampleUpTo([], xs, left, k) == seq(n, j requires 0 <= j => j as nat)
  {
    if k > 0 {
      SampleUpToAllLeft(xs, left, k - 1);
    }
  }

  /** The cap really is overshot: eleven particles left of the line give eleven entries. */
  lemma CapOvershoot(xs: seq<real>, left: real)
    requires |xs| == NumParticles
    requires forall j :: 0 <= j < |xs| ==> xs[j] < left
    ensures |SampleUpTo([], xs, left, |xs|)| == MaxSample + 1
  {
    SampleUpToAllLeft(xs, left, |xs|);
  }
}
