/**
 * The preloader's progress-bar fill (`animateProgress`): a fixed number of timeline steps,
 * each tweening the bar's horizontal scale to a new target. Every target but the last moves
 * the bar up by a pseudo-random increment, capped below full; the last one fills it exactly.
 * The random source is injected as the sequence of draws it would have produced.
 */
module ProgressBar {

  /** Number of timeline steps the bar fills in. */
  const CounterSteps: nat := 5

  /** Total fill duration, in seconds, when the caller gives none. */
  const DefaultDuration: real := 4.0

  /** No target before the final step exceeds this scale. */
  const Cap: real := 0.9

  /** Easing of every fill step. */
  const Ease: string := "power2.out"

  /** One `to` step appended to the bar's timeline: the `scaleX` it tweens to, over how long, with which easing. */
  datatype FillStep = FillStep(scaleX: real, duration: real, ease: string)

  /** A value `Math.random` can return. */
  predicate IsDraw(r: real) {
    0.0 <= r < 1.0
  }

  predicate ValidDraws(draws: seq<real>) {
    forall k :: 0 <= k < |draws| ==> IsDraw(draws[k])
  }

  function Min(a: real, b: real): real {
    if a <= b then a else b
  }

  /**
   * The target of a non-final step: the bar rises from `current` by an increment in
   * [0.1, 0.4) drawn from `draw`, but never above the cap.
   */
  function NextTarget(current: real, draw: real): (t: real)
    ensures t <= Cap
    ensures IsDraw(draw) && current <= Cap ==> current <= t
    ensures IsDraw(draw) ==> t == Cap || (0.1 <= t - current < 0.4)
    ensures IsDraw(draw) ==> t < current + 0.4
    ensures IsDraw(draw) && current + 0.1 <= Cap ==> current + 0.1 <= t
  {
    Min(current + draw * 0.3 + 0.1, Cap)
  }

  /** The scale the bar has reached after `targets`; it starts empty. */
  function Current(targets: seq<real>): real {
    if targets == [] then 0.0 else targets[|targets| - 1]
  }

  /** The targets of the non-final steps, one per draw, each rising from the one before. */
  function Climb(draws: seq<real>): (ts: seq<real>)
    ensures |ts| == |draws|
    ensures forall k :: 0 <= k < |ts| ==> ts[k] <= Cap
  {
    if draws == [] then []
    else
      var before := Climb(draws[..|draws| - 1]);
      before + [NextTarget(Current(before), draws[|draws| - 1])]
  }

  /** All targets of one fill: the climbing ones, then the bar filled exactly. */
  function Targets(draws: seq<real>): (ts: seq<real>)
    requires |draws| == CounterSteps - 1
    ensures |ts| == CounterSteps
    ensures ts[CounterSteps - 1] == 1.0
    ensures forall k :: 0 <= k < CounterSteps - 1 ==> ts[k] <= Cap
  {
    Climb(draws) + [1.0]
  }

  /** Climbing over a prefix of the draws gives the prefix of the targets. */
  lemma {:induction false} ClimbPrefix(draws: seq<real>, i: nat)
    requires i <= |draws|
    ensures Climb(draws[..i]) == Climb(draws)[..i]
    decreases |draws|
  {
    if i < |draws| {
      assert draws[..|draws| - 1][..i] == draws[..i];
      ClimbPrefix(draws[..|draws| - 1], i);
    } else {
      assert draws[..i] == draws;
    }
  }

  /**
   * Each climbing target comes from the one before it (the empty bar before the first) and
   * its own draw: with a genuine draw it either reaches the cap or rises by an increment in
   * [0.1, 0.4).
   */
  lemma ClimbSteps(draws: seq<real>, k: nat)
    requires k < |draws|
    ensures var prev := if k == 0 then 0.0 else Climb(draws)[k - 1];
      Climb(draws)[k] == NextTarget(prev, draws[k]) &&
      (IsDraw(draws[k]) ==> Climb(draws)[k] == Cap || 0.1 <= Climb(draws)[k] - prev < 0.4)
  {
    ClimbPrefix(draws, k + 1);
    ClimbPrefix(draws, k);
    assert draws[..k + 1][..k] == draws[..k];
    assert draws[..k + 1][k] == draws[k];
    assert Climb(draws)[..k + 1][k] == Climb(draws)[k];
    if k > 0 {
      assert Climb(draws)[..k][k - 1] == Climb(draws)[k - 1];
    }
  }

  /** With genuine draws the bar never moves back, and every climbing target is at least 0.1. */
  lemma {:induction false} ClimbRises(draws: seq<real>)
    requires ValidDraws(draws)
    ensures forall j, k :: 0 <= j <= k < |draws| ==> Climb(draws)[j] <= Climb(draws)[k]
    ensures forall k :: 0 <= k < |draws| ==> 0.1 <= Climb(draws)[k]
  {
    if draws != [] {
      var init := draws[..|draws| - 1];
      assert ValidDraws(init) by {
        forall k | 0 <= k < |init| ensures IsDraw(init[k]) { assert init[k] == draws[k]; }
      }
      ClimbRises(init);
      var before := Climb(init);
      var t := NextTarget(Current(before), draws[|draws| - 1]);
      assert IsDraw(draws[|draws| - 1]);
      assert Current(before) <= t;
      assert 0.1 <= t;
      assert Climb(draws) == before + [t];
    }
  }

  /** The targets of one fill start above the empty bar, never decrease, and end exactly full. */
  lemma TargetsNonDecreasing(draws: seq<real>)
    requires |draws| == CounterSteps - 1 && ValidDraws(draws)
    ensures 0.0 < Targets(draws)[0]
    ensures forall j, k :: 0 <= j <= k < CounterSteps ==> Targets(draws)[j] <= Targets(draws)[k]
  {
    ClimbRises(draws);
    var ts := Targets(draws);
    forall j, k | 0 <= j <= k < CounterSteps ensures ts[j] <= ts[k] {
      if k < CounterSteps - 1 {
        assert ts[j] == Climb(draws)[j] && ts[k] == Climb(draws)[k];
      }
    }
  }

  /** With the default duration each of the five steps lasts 0.8 seconds. */
  lemma DefaultStepDuration()
    ensures DefaultDuration / CounterSteps as real == 0.8
  {
  }

  /**
   * Builds the bar's timeline: one step per target, each lasting an equal share of
   * `duration`; step `i` (but the last) consumes `draws[i]`.
   */
  method AnimateProgress(duration: real, draws: seq<real>) returns (tl: seq<FillStep>)
    requires |draws| == CounterSteps - 1
    ensures |tl| == CounterSteps
    ensures forall k :: 0 <= k < CounterSteps ==>
      tl[k] == FillStep(Targets(draws)[k], duration / CounterSteps as real, Ease)
  {
    tl := [];
    var currentProgress := 0.0;
    for i := 0 to CounterSteps
      invariant |tl| == i
      invariant forall k :: 0 <= k < i ==>
        tl[k] == FillStep(Targets(draws)[k], duration / CounterSteps as real, Ease)
      invariant i < CounterSteps ==> currentProgress == Current(Climb(draws)[..i])
    {
      var finalStep := i == CounterSteps - 1;
      var targetProgress := if finalStep then 1.0 else Min(currentProgress + draws[i] * 0.3 + 0.1, Cap);
      if !finalStep {
        ClimbPrefix(draws, i);
        ClimbPrefix(draws, i + 1);
        assert draws[..i + 1][..i] == draws[..i];
        assert targetProgress == Climb(draws)[i];
        assert Climb(draws)[..i + 1][i] == Climb(draws)[i];
      }
      currentProgress := targetProgress;
      tl := tl + [FillStep(targetProgress, duration / CounterSteps as real, Ease)];
    }
  }
}
