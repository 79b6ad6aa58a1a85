/**
 * The scroll observers registered for the cards, `n` of them indexed 0 to n-1 in page order,
 * the first being the intro card. Each observer is described by its trigger card, the scroll
 * positions where it starts and ends, an optional end-trigger card, and what it does; the
 * scroll engine that runs them is a sink. Also the progress maps of the recede and arriving
 * effects.
 */
module CardObservers {
  import opened Wrappers
  import Intro

  /**
   * A scroll position: the trigger's top at the viewport's top, its top at the viewport's
   * bottom, or a distance past the start in `vh` units (hundredths of the viewport height,
   * so `Extend(300)` is three viewport heights).
   */
  datatype Position = TopTop | TopBottom | Extend(vh: nat)

  /** What an observer does over its scroll range. */
  datatype Action =
    | Pin(pinSpacing: bool)      // pins its trigger card, reserving the scrolled space or not
    | IntroProgress              // drives the intro card's update
    | RecedeProgress(card: nat)  // shrinks and fades `card` as it is covered
    | ArriveProgress(card: nat)  // zooms `card`'s own image as it arrives
    | EnterLeaveBack(card: nat)  // plays `card`'s content in on enter and out on leaving back

  /** One registered observer; `end == None` leaves the engine's default end. */
  datatype Observer = Observer(trigger: nat, start: Position, end: Option<Position>, endTrigger: Option<nat>, action: Action)

  /** The intro card's observer: it runs over three viewport heights from the card reaching the top. */
  function IntroObserver(): Observer {
    Observer(0, TopTop, Some(Extend(300)), None, IntroProgress)
  }

  /** The pin of card `i`: the last card pins for one more viewport height with space reserved; every other card stays pinned until the last card reaches the top. */
  function PinObserver(n: nat, i: nat): Observer
    requires i < n
  {
    var isLastCard := i == n - 1;
    Observer(i, TopTop, Some(if isLastCard then Extend(100) else TopTop),
             if isLastCard then None else Some(n - 1), Pin(isLastCard))
  }

  /** Card `i` recedes while card `i + 1` scrolls over it. */
  function RecedeObserver(i: nat): Observer {
    Observer(i + 1, TopBottom, Some(TopTop), None, RecedeProgress(i))
  }

  /** Card `i`'s image zooms while card `i` itself scrolls in. */
  function ArriveObserver(i: nat): Observer {
    Observer(i, TopBottom, Some(TopTop), None, ArriveProgress(i))
  }

  /** Card `i`'s content is revealed when the card reaches the top. */
  function RevealObserver(i: nat): Observer {
    Observer(i, TopTop, None, None, EnterLeaveBack(i))
  }

  function Pins(n: nat): seq<Observer> {
    seq(n, i requires 0 <= i < n => PinObserver(n, i))
  }

  function Recedes(n: nat): seq<Observer> {
    if n == 0 then [] else seq(n - 1, i requires 0 <= i < n - 1 => RecedeObserver(i))
  }

  function Arrivals(n: nat): seq<Observer> {
    if n == 0 then [] else seq(n - 1, i requires 0 <= i < n - 1 => ArriveObserver(i + 1))
  }

  function Reveals(n: nat): seq<Observer> {
    if n == 0 then [] else seq(n - 1, i requires 0 <= i < n - 1 => RevealObserver(i + 1))
  }

  /** The per-card observers, in registration order: all pins, then recedes, then arrivals, then reveals. */
  function CardPlan(n: nat): seq<Observer> {
    Pins(n) + Recedes(n) + Arrivals(n) + Reveals(n)
  }

  /** Every observer that page setup registers, the intro card's first. */
  function PagePlan(n: nat): seq<Observer>
    requires n >= 1
  {
    [IntroObserver()] + CardPlan(n)
  }

  predicate PinsCard(o: Observer, i: nat) {
    o.trigger == i && o.action.Pin?
  }

  /** Four observers per card, less one of each kind that skips a card. */
  lemma PlanSize(n: nat)
    requires n >= 1
    ensures |CardPlan(n)| == 4 * n - 3
    ensures |PagePlan(n)| == 4 * n - 2
  {
  }

  /** Which observer sits at each position of the plan. */
  lemma PlanAt(n: nat, k: nat)
    requires k < |CardPlan(n)|
    ensures n >= 1
    ensures k < n ==> CardPlan(n)[k] == PinObserver(n, k)
    ensures n <= k < 2 * n - 1 ==> CardPlan(n)[k] == RecedeObserver(k - n)
    ensures 2 * n - 1 <= k < 3 * n - 2 ==> CardPlan(n)[k] == ArriveObserver(k - (2 * n - 1) + 1)
    ensures 3 * n - 2 <= k ==> CardPlan(n)[k] == RevealObserver(k - (3 * n - 2) + 1)
  {
  }

  /**
   * Every card is pinned exactly once; only the last card's pin reserves space and it runs one
   * more viewport height; every other pin ends when the last card reaches the top.
   */
  lemma PinPlan(n: nat)
    ensures forall i :: 0 <= i < n ==> PinsCard(CardPlan(n)[i], i)
    ensures forall k :: 0 <= k < |CardPlan(n)| && CardPlan(n)[k].action.Pin? ==> k == CardPlan(n)[k].trigger < n
    ensures forall o :: o in CardPlan(n) && o.action.Pin? ==>
      o.start == TopTop &&
      (o.action.pinSpacing <==> o.trigger == n - 1) &&
      (o.trigger == n - 1 ==> o.end == Some(Extend(100)) && o.endTrigger == None) &&
      (o.trigger < n - 1 ==> o.end == Some(TopTop) && o.endTrigger == Some(n - 1))
  {
  }

  /** Card `i` recedes exactly when a later card exists, and its recede is driven by card `i + 1`. */
  lemma RecedePlan(n: nat)
    ensures forall i: nat :: RecedeObserver(i) in CardPlan(n) <==> i + 1 < n
    ensures forall o :: o in CardPlan(n) && o.action.RecedeProgress? ==>
      o == RecedeObserver(o.action.card) && o.trigger == o.action.card + 1 < n
  {
    var plan := CardPlan(n);
    forall i: nat ensures RecedeObserver(i) in plan <==> i + 1 < n {
      if i + 1 < n {
        PlanAt(n, n + i);
      }
      if RecedeObserver(i) in plan {
        var k :| 0 <= k < |plan| && plan[k] == RecedeObserver(i);
        PlanAt(n, k);
      }
    }
    forall o | o in plan && o.action.RecedeProgress?
      ensures o == RecedeObserver(o.action.card) && o.trigger == o.action.card + 1 < n
    {
      var k :| 0 <= k < |plan| && plan[k] == o;
      PlanAt(n, k);
    }
  }

  /** Card `i` gets an arriving zoom and an enter/leave-back reveal exactly when it is not the first card. */
  lemma ArriveRevealPlan(n: nat)
    ensures forall i: nat :: ArriveObserver(i) in CardPlan(n) <==> 0 < i < n
    ensures forall i: nat :: RevealObserver(i) in CardPlan(n) <==> 0 < i < n
    ensures forall o :: o in CardPlan(n) && (o.action.ArriveProgress? || o.action.EnterLeaveBack?) ==>
      o.trigger == o.action.card && 0 < o.trigger < n
  {
    var plan := CardPlan(n);
    forall i: nat
      ensures ArriveObserver(i) in plan <==> 0 < i < n
      ensures RevealObserver(i) in plan <==> 0 < i < n
    {
      if 0 < i < n {
        PlanAt(n, 2 * n - 1 + (i - 1));
        PlanAt(n, 3 * n - 2 + (i - 1));
      }
      if ArriveObserver(i) in plan {
        var k :| 0 <= k < |plan| && plan[k] == ArriveObserver(i);
        PlanAt(n, k);
      }
      if RevealObserver(i) in plan {
        var k :| 0 <= k < |plan| && plan[k] == RevealObserver(i);
        PlanAt(n, k);
      }
    }
    forall o | o in plan && (o.action.ArriveProgress? || o.action.EnterLeaveBack?)
      ensures o.trigger == o.action.card && 0 < o.trigger < n
    {
      var k :| 0 <= k < |plan| && plan[k] == o;
      PlanAt(n, k);
    }
  }

  /**
   * Registers the observers as page setup does: the intro card's, then one pass over the cards
   * per kind. There must be a card: the intro card is the first one.
   */
  method RegisterObservers(n: nat) returns (registered: seq<Observer>)
    requires n >= 1
    ensures registered == PagePlan(n)
  {
    registered := [IntroObserver()];
    for index := 0 to n
      invariant registered == [IntroObserver()] + Pins(n)[..index]
    {
      var isLastCard := index == n - 1;
      registered := registered + [Observer(index, TopTop, Some(if isLastCard then Extend(100) else TopTop),
                                           if isLastCard then None else Some(n - 1), Pin(isLastCard))];
    }
    assert Pins(n)[..n] == Pins(n);
    for index := 0 to n
      invariant registered == [IntroObserver()] + Pins(n) + Recedes(n)[..if index < n then index else n - 1]
    {
      if index < n - 1 {
        registered := registered + [Observer(index + 1, TopBottom, Some(TopTop), None, RecedeProgress(index))];
      }
    }
    for index := 0 to n
      invariant registered == [IntroObserver()] + Pins(n) + Recedes(n) + Arrivals(n)[..if index == 0 then 0 else index - 1]
    {
      if index > 0 {
        registered := registered + [Observer(index, TopBottom, Some(TopTop), None, ArriveProgress(index))];
      }
    }
    for index := 0 to n
      invariant registered == [IntroObserver()] + Pins(n) + Recedes(n) + Arrivals(n) + Reveals(n)[..if index == 0 then 0 else index - 1]
    {
      if index == 0 { continue; }
      registered := registered + [Observer(index, TopTop, None, None, EnterLeaveBack(index))];
    }
  }

  /** What the recede effect sets on the covered card's wrapper. */
  datatype RecedeStyle = RecedeStyle(wrapperScale: real, opacity: real)

  /** Recede: from untouched at progress 0 to three-quarter size and fully transparent at 1. */
  function Recede(p: real): (s: RecedeStyle)
    ensures p == 0.0 ==> s == RecedeStyle(1.0, 1.0)
    ensures p == 1.0 ==> s == RecedeStyle(0.75, 0.0)
    ensures 0.0 <= p <= 1.0 ==> 0.75 <= s.wrapperScale <= 1.0 && 0.0 <= s.opacity <= 1.0
    ensures s.opacity == 0.0 <==> p == 1.0
  {
    RecedeStyle(1.0 - p * 0.25, 1.0 - p)
  }

  /** What the arriving effect sets on a card's own image and its container. */
  datatype ArriveStyle = ArriveStyle(imageScale: real, borderRadius: real)

  /** Arrive: from a doubled image with 150px corners at progress 0 to natural size with 25px corners at 1. */
  function Arrive(p: real): (s: ArriveStyle)
    ensures p == 0.0 ==> s == ArriveStyle(2.0, 150.0)
    ensures p == 1.0 ==> s == ArriveStyle(1.0, 25.0)
    ensures 0.0 <= p <= 1.0 ==> 1.0 <= s.imageScale <= 2.0 && 25.0 <= s.borderRadius <= 150.0
  {
    ArriveStyle(2.0 - p, 150.0 - p * 125.0)
  }

  /** Both effects are exactly linear in progress. */
  lemma EffectsLinear(p: real, q: real)
    ensures Recede(q).wrapperScale - Recede(p).wrapperScale == -0.25 * (q - p)
    ensures Recede(q).opacity - Recede(p).opacity == -(q - p)
    ensures Arrive(q).imageScale - Arrive(p).imageScale == -(q - p)
    ensures Arrive(q).borderRadius - Arrive(p).borderRadius == -125.0 * (q - p)
  {
  }

  /** An arriving card lands on the image scale and corner radius the intro card reaches at full progress. */
  lemma ArrivalMatchesOpenedIntro()
    ensures Arrive(1.0).imageScale == Intro.InnerImageScale(1.0)
    ensures Arrive(1.0).borderRadius == Intro.BorderRadius(1.0)
  {
  }
}
