/**
 * The intro card's scroll-driven update: as its observer's progress runs from 0 to 1 the image
 * wrapper grows to full size while its rounded corners tighten, the inner image zooms out, the
 * marquee fades over the first part of the growth, and a latch plays the content transition
 * once when progress completes and the opposite one once when it falls back.
 */
module Intro {
  import opened Content

  /** The styles set on the intro card before any scrolling. */
  const InitialWrapperScale: real := 0.5
  const InitialBorderRadius: real := 400.0
  const InitialInnerScale: real := 1.5

  /** Wrapper scales between which the marquee fades out. */
  const FadeStart: real := 0.5
  const FadeEnd: real := 0.75

  /** Scale of the image wrapper: from its initial half size at progress 0 to full size at 1. */
  function WrapperScale(p: real): (s: real)
    ensures p == 0.0 ==> s == InitialWrapperScale
    ensures p == 1.0 ==> s == 1.0
    ensures 0.0 <= p <= 1.0 ==> InitialWrapperScale <= s <= 1.0
  {
    0.5 + p * 0.5
  }

  /** Corner radius of the image wrapper in pixels: from its initial 400 down to 25. */
  function BorderRadius(p: real): (r: real)
    ensures p == 0.0 ==> r == InitialBorderRadius
    ensures p == 1.0 ==> r == 25.0
    ensures 0.0 <= p <= 1.0 ==> 25.0 <= r <= InitialBorderRadius
  {
    400.0 - p * 375.0
  }

  /** Scale of the image inside the wrapper: from its initial zoomed-in 1.5 down to 1. */
  function InnerImageScale(p: real): (s: real)
    ensures p == 0.0 ==> s == InitialInnerScale
    ensures p == 1.0 ==> s == 1.0
    ensures 0.0 <= p <= 1.0 ==> 1.0 <= s <= InitialInnerScale
  {
    1.5 - p * 0.5
  }

  /** The three maps are exactly linear: each changes at a fixed rate per unit of progress. */
  lemma IntroMapsLinear(p: real, q: real)
    ensures WrapperScale(q) - WrapperScale(p) == 0.5 * (q - p)
    ensures BorderRadius(q) - BorderRadius(p) == -375.0 * (q - p)
    ensures InnerImageScale(q) - InnerImageScale(p) == -0.5 * (q - p)
  {
  }

  /**
   * Opacity of the marquee for a wrapper scale: opaque up to the fade start, transparent
   * from the fade end on, and linear in between (the fade band is tested first, so it
   * decides both boundaries).
   */
  function MarqueeOpacity(scale: real): (o: real)
    ensures 0.0 <= o <= 1.0
    ensures scale <= FadeStart ==> o == 1.0
    ensures scale >= FadeEnd ==> o == 0.0
  {
    if FadeStart <= scale <= FadeEnd then
      1.0 - (scale - FadeStart) / (FadeEnd - FadeStart)
    else if scale < FadeStart then
      1.0
    else
      0.0
  }

  /** Across the fade band the opacity falls at a constant rate of 4 per unit of scale. */
  lemma MarqueeFadeLinear(s: real, t: real)
    requires FadeStart <= s <= FadeEnd && FadeStart <= t <= FadeEnd
    ensures MarqueeOpacity(t) - MarqueeOpacity(s) == -4.0 * (t - s)
  {
  }

  /** The opacity never rises as the wrapper grows, and it has no jump: it moves by at most 4 times the change in scale. */
  lemma MarqueeOpacityContinuous(s: real, t: real)
    requires s <= t
    ensures MarqueeOpacity(t) <= MarqueeOpacity(s)
    ensures MarqueeOpacity(s) - MarqueeOpacity(t) <= 4.0 * (t - s)
  {
  }

  /** Over the intro's progress the marquee fades out during the first half and stays hidden after. */
  lemma IntroMarqueeOpacity(p: real)
    requires 0.0 <= p <= 1.0
    ensures MarqueeOpacity(WrapperScale(p)) == if p <= 0.5 then 1.0 - 2.0 * p else 0.0
  {
  }

  /** Everything the update sets on the intro card for one progress value. */
  datatype IntroFrame = IntroFrame(wrapperScale: real, borderRadius: real, innerScale: real, marqueeOpacity: real)

  /** The styles for progress `p`: the initial styles at 0, the fully opened card at 1. */
  function FrameAt(p: real): (f: IntroFrame)
    ensures p == 0.0 ==> f == IntroFrame(InitialWrapperScale, InitialBorderRadius, InitialInnerScale, 1.0)
    ensures p == 1.0 ==> f == IntroFrame(1.0, 25.0, 1.0, 0.0)
    ensures 0.0 <= p <= 1.0 ==> 0.0 <= f.marqueeOpacity <= 1.0 && f.wrapperScale <= 1.0
  {
    var imgScale := WrapperScale(p);
    IntroFrame(imgScale, BorderRadius(p), InnerImageScale(p), MarqueeOpacity(imgScale))
  }

  /** The latch after an update, and the transitions the update started, in order. */
  datatype LatchOutcome = LatchOutcome(revealed: bool, events: seq<Reveal>)

  /**
   * One update of the content-reveal latch: reveal when progress is complete and the content
   * is not yet revealed, then hide when progress is incomplete and the content is revealed.
   * Afterwards the latch says whether progress is complete, and a transition fires exactly
   * when the latch changes.
   */
  function LatchStep(revealed: bool, p: real): (o: LatchOutcome)
    ensures o.revealed == (p >= 1.0)
    ensures |o.events| <= 1
    ensures o.events == [ContentIn] <==> p >= 1.0 && !revealed
    ensures o.events == [ContentOut] <==> p < 1.0 && revealed
    ensures o.events == [] <==> o.revealed == revealed
  {
    var afterIn := if p >= 1.0 && !revealed then LatchOutcome(true, [ContentIn]) else LatchOutcome(revealed, []);
    if p < 1.0 && afterIn.revealed then
      assert afterIn.events + [ContentOut] == [ContentOut];
      LatchOutcome(false, afterIn.events + [ContentOut])
    else
      afterIn
  }

  /** Feeding the same progress twice fires nothing the second time. */
  lemma LatchIdempotent(revealed: bool, p: real)
    ensures LatchStep(LatchStep(revealed, p).revealed, p) == LatchOutcome(LatchStep(revealed, p).revealed, [])
  {
  }

  /** The latch driven by a series of progress values: its final state and every transition fired. */
  function RunLatch(revealed: bool, ps: seq<real>): (o: LatchOutcome)
    ensures ps == [] ==> o == LatchOutcome(revealed, [])
    ensures ps != [] ==> o.revealed == (ps[|ps| - 1] >= 1.0)
    ensures |o.events| <= |ps|
  {
    if ps == [] then LatchOutcome(revealed, [])
    else
      var before := RunLatch(revealed, ps[..|ps| - 1]);
      var step := LatchStep(before.revealed, ps[|ps| - 1]);
      LatchOutcome(step.revealed, before.events + step.events)
  }

  /**
   * The transitions fired alternate, starting with the one that leaves the initial state and
   * ending with the one that entered the final state; if none fires, the final latch equals
   * the initial one.
   */
  lemma {:induction false} EventsAlternate(revealed: bool, ps: seq<real>)
    ensures var o := RunLatch(revealed, ps);
      (o.events == [] ==> o.revealed == revealed) &&
      (o.events != [] ==> o.events[0] == (if revealed then ContentOut else ContentIn)) &&
      (o.events != [] ==> o.events[|o.events| - 1] == (if o.revealed then ContentIn else ContentOut)) &&
      (forall k :: 0 <= k < |o.events| - 1 ==> o.events[k] != o.events[k + 1])
  {
    if ps != [] {
      EventsAlternate(revealed, ps[..|ps| - 1]);
    }
  }

  /**
   * Update `k` crosses completion when its progress is on the other side of 1 from the one
   * before it (from the initial latch, for the first update).
   */
  predicate CrossesAt(revealed: bool, ps: seq<real>, k: nat)
    requires k < |ps|
  {
    (ps[k] >= 1.0) != (if k == 0 then revealed else ps[k - 1] >= 1.0)
  }

  /** The updates at which progress crosses completion. */
  function Crossings(revealed: bool, ps: seq<real>): set<nat> {
    set k: nat | k < |ps| && CrossesAt(revealed, ps, k)
  }

  /** No transition fires over a run exactly when every progress value agrees with the initial latch. */
  lemma {:induction false} SilentIffSteady(revealed: bool, ps: seq<real>)
    ensures RunLatch(revealed, ps).events == [] <==> forall k :: 0 <= k < |ps| ==> (ps[k] >= 1.0) == revealed
  {
    if ps != [] {
      var init := ps[..|ps| - 1];
      SilentIffSteady(revealed, init);
      var before := RunLatch(revealed, init);
      var step := LatchStep(before.revealed, ps[|ps| - 1]);
      assert RunLatch(revealed, ps).events == before.events + step.events;
      if RunLatch(revealed, ps).events == [] {
        assert before.events == [] && step.events == [];
        forall k | 0 <= k < |ps| ensures (ps[k] >= 1.0) == revealed {
          if k < |ps| - 1 { assert ps[k] == init[k]; }
        }
      }
      if forall k :: 0 <= k < |ps| ==> (ps[k] >= 1.0) == revealed {
        forall k | 0 <= k < |init| ensures (init[k] >= 1.0) == revealed {
          assert init[k] == ps[k];
        }
        assert before.events == [];
      }
    }
  }

  /** Exactly one transition fires at each crossing of completion, and none at any other update. */
  lemma {:induction false} OneEventPerCrossing(revealed: bool, ps: seq<real>)
    ensures |RunLatch(revealed, ps).events| == |Crossings(revealed, ps)|
  {
    if ps == [] {
      assert Crossings(revealed, ps) == {};
    } else {
      var n := |ps| - 1;
      var init := ps[..n];
      OneEventPerCrossing(revealed, init);
      var before := RunLatch(revealed, init);
      var step := LatchStep(before.revealed, ps[n]);
      assert before.revealed == (if n == 0 then revealed else ps[n - 1] >= 1.0) by {
        if n > 0 { assert init[n - 1] == ps[n - 1]; }
      }
      assert |step.events| == (if CrossesAt(revealed, ps, n) then 1 else 0);
      forall k: nat | k < n ensures CrossesAt(revealed, init, k) == CrossesAt(revealed, ps, k) {
        assert init[k] == ps[k];
        if k > 0 { assert init[k - 1] == ps[k - 1]; }
      }
      var last: set<nat> := if CrossesAt(revealed, ps, n) then {n} else {};
      assert Crossings(revealed, ps) == Crossings(revealed, init) + last;
      assert n !in Crossings(revealed, init);
    }
  }

  /** Starting hidden, the content's resting style always agrees with the latch. */
  lemma {:induction false} StyleFollowsLatch(ps: seq<real>)
    ensures var o := RunLatch(false, ps);
      SettleAll(Hidden, o.events) == (if o.revealed then Shown else Hidden)
  {
    EventsAlternate(false, ps);
  }

  /** Scrolling through 0, 0.5, 1, 1, 0.5, 0 reveals once at the first 1 and hides once at the following 0.5. */
  lemma RevealOnceHideOnce()
    ensures RunLatch(false, [0.0, 0.5]).events == []
    ensures RunLatch(false, [0.0, 0.5, 1.0]).events == [ContentIn]
    ensures RunLatch(false, [0.0, 0.5, 1.0, 1.0]).events == [ContentIn]
    ensures RunLatch(false, [0.0, 0.5, 1.0, 1.0, 0.5]).events == [ContentIn, ContentOut]
    ensures RunLatch(false, [0.0, 0.5, 1.0, 1.0, 0.5, 0.0]).events == [ContentIn, ContentOut]
  {
    var ps := [0.0, 0.5, 1.0, 1.0, 0.5, 0.0];
    assert ps[..5] == [0.0, 0.5, 1.0, 1.0, 0.5];
    assert ps[..5][..4] == [0.0, 0.5, 1.0, 1.0];
    assert ps[..5][..4][..3] == [0.0, 0.5, 1.0];
    assert ps[..5][..4][..3][..2] == [0.0, 0.5];
    assert ps[..5][..4][..3][..2][..1] == [0.0];
  }

  /** The intro card: its observer's update callback and the content-revealed flag it keeps. */
  class IntroCard {
    var contentRevealed: bool

    constructor ()
      ensures !contentRevealed
    {
      contentRevealed := false;
    }

    /** One progress update: the styles to set and the content transitions to play. */
    method OnUpdate(progress: real) returns (frame: IntroFrame, events: seq<Reveal>)
      modifies this
      ensures frame == FrameAt(progress)
      ensures LatchOutcome(contentRevealed, events) == LatchStep(old(contentRevealed), progress)
      ensures contentRevealed == (progress >= 1.0)
    {
      var imgScale := 0.5 + progress * 0.5;
      var borderRadius := 400.0 - progress * 375.0;
      var innerImgScale := 1.5 - progress * 0.5;
      var opacity := 0.0;
      if imgScale >= 0.5 && imgScale <= 0.75 {
        var fadeProgress := (imgScale - 0.5) / (0.75 - 0.5);
        opacity := 1.0 - fadeProgress;
      } else if imgScale < 0.5 {
        opacity := 1.0;
      } else if imgScale > 0.75 {
        opacity := 0.0;
      }
      frame := IntroFrame(imgScale, borderRadius, innerImgScale, opacity);

      events := [];
      if progress >= 1.0 && !contentRevealed {
        contentRevealed := true;
        events := events + [ContentIn];
      }
      if progress < 1.0 && contentRevealed {
        contentRevealed := false;
        events := events + [ContentOut];
      }
    }
  }

  /**
   * The scroll engine calling the card's update once per progress value: the transitions
   * played and the final flag are those of the latch folded over the same values.
   */
  method ScrollThrough(card: IntroCard, ps: seq<real>) returns (fired: seq<Reveal>)
    modifies card
    ensures fired == RunLatch(old(card.contentRevealed), ps).events
    ensures card.contentRevealed == RunLatch(old(card.contentRevealed), ps).revealed
  {
    fired := [];
    for i := 0 to |ps|
      invariant fired == RunLatch(old(card.contentRevealed), ps[..i]).events
      invariant card.contentRevealed == RunLatch(old(card.contentRevealed), ps[..i]).revealed
    {
      var _, events := card.OnUpdate(ps[i]);
      assert ps[..i + 1][..i] == ps[..i];
      fired := fired + events;
    }
    assert ps[..|ps|] == ps;
  }

  /** A fresh intro card scrolled through 0, 0.5, 1, 1, 0.5, 0 plays exactly one reveal, then one hide. */
  method ReplayRevealOnceHideOnce() returns (fired: seq<Reveal>)
    ensures fired == [ContentIn, ContentOut]
  {
    var card := new IntroCard();
    fired := ScrollThrough(card, [0.0, 0.5, 1.0, 1.0, 0.5, 0.0]);
    RevealOnceHideOnce();
  }
}
