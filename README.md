# Animated website: preloader and scroll-card logic, modelled in Dafny

The website plays a preloader intro once its fonts are ready, then drives a stack of "card"
sections from the scroll position. Almost all of it hands work to an animation engine, a
scroll-observer engine, a text splitter and a smooth-scroll library. This project lifts out
the few pieces of logic that the page computes itself. The engines are treated as sinks: what
the page hands them is modelled as plain values.

- `ProgressBar` (progress_bar.dfy): the preloader's progress-bar fill. It has five timeline
  steps, each lasting a fifth of the total duration. Each non-final step tweens the bar to
  `min(current + r*0.3 + 0.1, 0.9)` for a random draw `r`, and the final step tweens it to
  exactly 1. The random draws are a parameter. Only four are consumed, because the final step
  never asks for one.
- `SplitTexts` (split_texts.dfy): builds the dictionary of text splits. Each labelled selector
  gets a splitter configuration: masked at its own granularity, with a `char` or `line` class
  marker. A split is represented by the request handed to the splitter.
- `Content` (content.dfy): the content-in and content-out transitions of a card's title
  characters and description. It gives the tweens each one starts and the resting style they
  leave once they have completed.
- `Intro` (intro.dfy): the intro card's progress update. This covers the exact linear maps for
  wrapper scale, corner radius and inner-image scale, and the piecewise-linear marquee opacity.
  It also covers the content-revealed latch: a class `IntroCard` with the `contentRevealed`
  flag and an `OnUpdate` method, plus `RunLatch`, which folds a series of progress values into
  the transitions fired.
- `CardObservers` (card_observers.dfy): the scroll observers registered for `n` cards. There is
  a pin per card, a recede effect on card `i` driven by card `i+1`, and an arriving zoom and an
  enter/leave-back reveal for every card but the first. It also gives the recede and arriving
  progress maps.

Progress values, durations and styles are Dafny `real`s. Progress values are passed in as
inputs, because the scroll engine computes them.

Two details of the code are easy to misread:
- A non-last card's pin ends when the LAST card's top reaches the viewport top (script.js:275,
  `endTrigger: cards[cards.length - 1]`). It does not end when the next card arrives.
- The intro latch reveals when progress is `>= 1` (script.js:258), not only at exactly 1.

## Model

| member | source | states |
|---|---|---|
| `ProgressBar.NextTarget` | script.js:57-59 | A non-final target never exceeds 0.9. For a draw in [0,1) it never moves the bar back and rises by less than 0.4. It either hits the 0.9 cap or rises by an increment in [0.1, 0.4), and it rises by at least 0.1 whenever that stays under the cap. |
| `ProgressBar.Climb` | script.js:55-60 | One target per draw, each at most 0.9. |
| `ProgressBar.ClimbSteps` | script.js:55-60 | Target `k` is `NextTarget` of target `k-1` (of the empty bar 0 for the first) and of draw `k`. With a draw in [0,1) it either reaches the 0.9 cap or rises over the previous target by an increment in [0.1, 0.4). |
| `ProgressBar.Targets` | script.js:52-60 | A fill has exactly 5 targets. The last is exactly 1 and every earlier one is at most 0.9, whatever the draws. |
| `ProgressBar.ClimbPrefix` | script.js:55-60 | The targets computed from the first `i` draws are the first `i` targets: earlier steps never depend on later draws. |
| `ProgressBar.ClimbRises` | script.js:53-60 | With draws in [0,1), the climbing targets never decrease and each is at least 0.1. |
| `ProgressBar.TargetsNonDecreasing` | script.js:53-60 | With draws in [0,1), the whole target list starts above the empty bar and is non-decreasing up to the final 1. |
| `ProgressBar.DefaultStepDuration` | script.js:50-66 | With the default duration of 4 s, each of the 5 steps lasts 0.8 s. |
| `ProgressBar.AnimateProgress` | script.js:50-70 | The loop appends exactly 5 steps. Step `k` tweens `scaleX` to the `k`-th target, with duration `duration/5` and easing `power2.out`. |
| `SplitTexts.ConfigFor` | script.js:15-18 | The mask equals the granularity. A `char` class is set exactly for "chars" and a `line` class exactly for "lines", never both. |
| `SplitTexts.SplitsOf` | script.js:11-23 | The dictionary's labels are exactly the labels of the elements. |
| `SplitTexts.LastLabelWins` | script.js:14-20 | Under each label is the split of the last element carrying that label (later entries overwrite earlier ones). |
| `SplitTexts.DistinctLabelsKeepAll` | script.js:14-20 | With distinct labels, the dictionary has one entry per element and each entry holds its own element's split. |
| `SplitTexts.PreloaderSplits` | script.js:25-34 | The six preloader texts get six entries, each holding the split requested for its selector and granularity. |
| `SplitTexts.CreateSplitTexts` | script.js:11-23 | The `forEach` loop builds exactly the dictionary `SplitsOf` describes. |
| `Content.Tweens` | script.js:208-227 | Each transition starts two tweens, title characters then description, with easing `power4.out`. Content-in lasts 0.75 s and its description tween is delayed 0.1 s. Content-out lasts 0.5 s. Only the description tween sets opacity. |
| `Content.Settle` | script.js:208-227 | Once its tweens complete, content-in leaves the content shown (title at 0%, description at 0 px, opaque). Content-out leaves it hidden (title at 100%, description at 40 px, transparent). The style before does not matter. |
| `Content.SettleAll` | script.js:208-227 | After a series of completed transitions the last one alone decides the style. With none, the style is unchanged. |
| `Content.RevealRoundTrip` | script.js:208-227 | Revealing then hiding restores the hidden style exactly, and the reverse restores the shown style. Repeating a transition changes nothing. |
| `Intro.WrapperScale` | script.js:239 | At progress 0 it equals the initial 0.5 set at line 205, at 1 it is 1, and over [0,1] it stays in [0.5, 1]. |
| `Intro.BorderRadius` | script.js:240 | At progress 0 it equals the initial 400 px set at line 205, at 1 it is 25 px, and over [0,1] it stays in [25, 400]. |
| `Intro.InnerImageScale` | script.js:241 | At progress 0 it equals the initial 1.5 set at line 206, at 1 it is 1, and over [0,1] it stays in [1, 1.5]. |
| `Intro.IntroMapsLinear` | script.js:239-241 | The three maps change at the fixed rates 0.5, -375 and -0.5 per unit of progress. |
| `Intro.MarqueeOpacity` | script.js:249-256 | Opacity always lies in [0,1]. It is 1 at wrapper scales up to 0.5 and 0 from 0.75 on. |
| `Intro.MarqueeFadeLinear` | script.js:249-251 | Between wrapper scales 0.5 and 0.75, opacity falls at the constant rate 4 per unit of scale. |
| `Intro.MarqueeOpacityContinuous` | script.js:249-256 | Opacity never rises as the wrapper grows. It has no jump at either boundary: it changes by at most 4 times the change in scale. |
| `Intro.IntroMarqueeOpacity` | script.js:239-256 | Over progress [0,1] the marquee fades as `1 - 2p` during the first half and is 0 after. |
| `Intro.FrameAt` | script.js:237-256 | At progress 0 the update sets exactly the initial styles of lines 205-206 with an opaque marquee. At 1 the card is fully open: scale 1, radius 25, inner scale 1, marquee hidden. |
| `Intro.LatchStep` | script.js:258-265 | Content-in fires exactly when progress >= 1 and the latch is clear. Content-out fires exactly when progress < 1 and the latch is set. At most one fires. Afterwards the latch says whether progress >= 1, and nothing fires when it already did. |
| `Intro.LatchIdempotent` | script.js:258-265 | Feeding the same progress twice fires nothing the second time. |
| `Intro.RunLatch` | script.js:258-265 | Folds the latch over a series of updates. With no updates nothing fires. At most one transition fires per update, and the final latch says whether the last progress was >= 1. |
| `Intro.EventsAlternate` | script.js:258-265 | The transitions fired alternate in/out. They start with the one leaving the initial state and end with the one entering the final state. If none fires, the final latch equals the initial one. |
| `Intro.SilentIffSteady` | script.js:258-265 | No transition fires over a run exactly when every progress value is on the same side of 1 as the initial latch. |
| `Intro.OneEventPerCrossing` | script.js:258-265 | The number of transitions fired equals the number of updates whose progress is on the other side of 1 from the previous one (or from the initial latch, for the first). |
| `Intro.StyleFollowsLatch` | script.js:258-265 | Starting hidden, the content's resting style after any scrolling is shown exactly when the latch is set. |
| `Intro.RevealOnceHideOnce` | script.js:258-265 | Progress 0, 0.5, 1, 1, 0.5, 0 fires content-in at the first 1 and content-out at the following 0.5, and nothing else. |
| `Intro.IntroCard.constructor` | script.js:258 | A card starts with its content not revealed. |
| `Intro.IntroCard.OnUpdate` | script.js:237-266 | One update sets the styles `FrameAt` gives. It moves the `contentRevealed` flag and fires transitions exactly as `LatchStep` says, so the flag ends up equal to `progress >= 1`. |
| `Intro.ScrollThrough` | script.js:237-266 | Calling the card's `OnUpdate` once per progress value, in order, plays exactly the transitions `RunLatch` gives from the card's flag, and leaves the flag where `RunLatch` ends. |
| `Intro.ReplayRevealOnceHideOnce` | script.js:258-265 | A fresh intro card driven through 0, 0.5, 1, 1, 0.5, 0 plays exactly content-in then content-out. |
| `CardObservers.PlanAt` | script.js:269-328 | The plan lists all pins in card order, then recedes for cards 0..n-2, then arrivals for cards 1..n-1, then reveals for cards 1..n-1. |
| `CardObservers.PlanSize` | script.js:233-328 | `n` cards get `4n - 3` card observers, plus the intro card's own. |
| `CardObservers.PinPlan` | script.js:269-279 | Every card is pinned exactly once, from its top reaching the viewport top. Only the last card's pin reserves space, and it lasts `+=100vh` (one viewport height) past its start. Every other pin ends when the last card's top reaches the viewport top. |
| `CardObservers.RecedePlan` | script.js:281-297 | Card `i` has a recede observer exactly when `i < n - 1`. It is triggered by card `i + 1`, from that card's top at the viewport bottom to its top at the viewport top. |
| `CardObservers.ArriveRevealPlan` | script.js:299-328 | Card `i` has an arriving-zoom observer and an enter/leave-back reveal observer exactly when `0 < i < n`, each triggered by card `i` itself. |
| `CardObservers.RegisterObservers` | script.js:233-328 | Setup registers the intro observer and then runs the four passes over the cards, producing exactly the page plan. |
| `CardObservers.Recede` | script.js:288-294 | At progress 0 the covered card is untouched. At 1 it is at scale 0.75 and transparent, and it is transparent only at 1. Over [0,1] scale stays in [0.75, 1] and opacity in [0, 1]. |
| `CardObservers.Arrive` | script.js:307-311 | The image zooms from 2x with 150 px corners at progress 0 to 1x with 25 px corners at 1, staying within those bounds in between. |
| `CardObservers.EffectsLinear` | script.js:288-311 | Both effects are exactly linear in progress, with rates -0.25 and -1 (recede) and -1 and -125 (arrive). |
| `CardObservers.ArrivalMatchesOpenedIntro` | script.js:239-310 | An arriving card lands on the same image scale (1) and corner radius (25 px) that the intro card reaches at full progress. |

The plan lemmas above describe these definitions:
- `CardObservers.IntroObserver` models script.js:233-236.
- `CardObservers.PinObserver` models script.js:271-278.
- `CardObservers.RecedeObserver` models script.js:284-287.
- `CardObservers.ArriveObserver` models script.js:303-306.
- `CardObservers.RevealObserver` models script.js:322-326.
- `CardObservers.CardPlan` and `CardObservers.PagePlan` list them in registration order, for script.js:233-328.
- `SplitTexts.RequestFor` is the request of script.js:19.

## Left out

- The preloader's master timeline (script.js:72-177): its start offsets ("<", "-=0.5", "0.25", negative delays), the nested timeline started from the button step, and easing are the animation engine's scheduling. The only part modelled is the progress-bar steps it embeds.
- The initial hidden states set before the preloader (script.js:36-48). These are fixed style assignments with no logic.
- Text splitting itself and the per-character `<span>` wrapping of card titles (script.js:19, 191-201). They are DOM segmentation done by the external splitter.
- Smooth-scroll wiring, the shared ticker and `lagSmoothing` (script.js:183-186): frame plumbing with no behaviour of its own.
- Font readiness, `DOMContentLoaded` and element lookups. These are event and DOM plumbing; every selector is assumed to resolve.
- `Math.random`. The draws are a parameter, assumed to lie in [0,1) wherever a property needs it.
- IEEE floating point. All arithmetic is on exact reals.
- How the scroll engine turns scroll position into progress, and when it fires `onEnter`/`onLeaveBack`. Observers are modelled as the descriptors the page registers.
- Tween interpolation and overlapping tweens. `Content.Settle` gives only the resting style once a transition's tweens complete, assuming the latest transition's tweens finish last.
- The content's style before any transition comes from the stylesheet, which is not part of this model. `Intro.StyleFollowsLatch` assumes it starts as the hidden resting style.
- `setupMarqueeAnimation` (script.js:330): marquee.js is not part of this model.
- vite.config.js: build configuration with no runtime logic.
