/**
 * The content transitions of a card (`animateContentIn` / `animateContentOut`): the tweens each
 * one starts on the card's title characters and description, and the resting style they leave
 * once they complete.
 */
module Content {
  import opened Wrappers

  /** The two content transitions a card can play. */
  datatype Reveal = ContentIn | ContentOut

  /** The parts of a card's content that the transitions move. */
  datatype Part = TitleChars | Description

  /** A horizontal offset, as a percentage of the element's width or in pixels. */
  datatype Offset = Percent(percent: real) | Px(px: real)

  /** One tween handed to the animation engine: target part, final offset and opacity (if set), duration and delay in seconds, easing. */
  datatype Tween = Tween(part: Part, x: Offset, opacity: Option<real>, duration: real, delay: real, ease: string)

  const Ease: string := "power4.out"

  /** The tweens a transition starts, title characters first. */
  function Tweens(r: Reveal): (ts: seq<Tween>)
    ensures |ts| == 2 && ts[0].part == TitleChars && ts[1].part == Description
    ensures ts[0].opacity == None && ts[1].opacity.Some?
    ensures forall k :: 0 <= k < 2 ==> ts[k].ease == Ease
    ensures r == ContentIn ==> ts[0].duration == ts[1].duration == 0.75 && ts[1].delay == 0.1
    ensures r == ContentOut ==> ts[0].duration == ts[1].duration == 0.5 && ts[1].delay == 0.0
  {
    match r
    case ContentIn =>
      [Tween(TitleChars, Percent(0.0), None, 0.75, 0.0, Ease),
       Tween(Description, Px(0.0), Some(1.0), 0.75, 0.1, Ease)]
    case ContentOut =>
      [Tween(TitleChars, Percent(100.0), None, 0.5, 0.0, Ease),
       Tween(Description, Px(40.0), Some(0.0), 0.5, 0.0, Ease)]
  }

  /** The style of a card's content: the title characters' offset, the description's offset and opacity. */
  datatype Style = Style(titleX: Offset, descriptionX: Offset, descriptionOpacity: real)

  /** Content fully in view. */
  const Shown: Style := Style(Percent(0.0), Px(0.0), 1.0)

  /** Content slid away and faded out. */
  const Hidden: Style := Style(Percent(100.0), Px(40.0), 0.0)

  /** The style once tween `t` has completed: it fixes the properties it names and no others. */
  function Land(s: Style, t: Tween): Style {
    match t.part
    case TitleChars => s.(titleX := t.x)
    case Description =>
      s.(descriptionX := t.x,
         descriptionOpacity := if t.opacity.Some? then t.opacity.value else s.descriptionOpacity)
  }

  function LandAll(s: Style, ts: seq<Tween>): Style
    decreases |ts|
  {
    if ts == [] then s else LandAll(Land(s, ts[0]), ts[1..])
  }

  /** Whatever the style before, a completed transition leaves the content shown or hidden outright. */
  function Settle(s: Style, r: Reveal): (s': Style)
    ensures s' == (if r == ContentIn then Shown else Hidden)
  {
    var ts := Tweens(r);
    assert ts == [ts[0], ts[1]];
    assert ts[1..] == [ts[1]] && ts[1..][1..] == [];
    assert LandAll(s, ts) == LandAll(Land(s, ts[0]), [ts[1]]);
    assert LandAll(Land(s, ts[0]), [ts[1]]) == Land(Land(s, ts[0]), ts[1]);
    LandAll(s, ts)
  }

  /** The style after a series of completed transitions: the last one decides it. */
  function SettleAll(s: Style, rs: seq<Reveal>): (s': Style)
    ensures rs == [] ==> s' == s
    ensures rs != [] ==> s' == (if rs[|rs| - 1] == ContentIn then Shown else Hidden)
  {
    if rs == [] then s else Settle(SettleAll(s, rs[..|rs| - 1]), rs[|rs| - 1])
  }

  /** Revealing and then hiding content restores the hidden style exactly; the same holds the other way round. */
  lemma RevealRoundTrip(s: Style)
    ensures Settle(Settle(Hidden, ContentIn), ContentOut) == Hidden
    ensures Settle(Settle(Shown, ContentOut), ContentIn) == Shown
    ensures Settle(Settle(s, ContentOut), ContentOut) == Settle(s, ContentOut)
    ensures Settle(Settle(s, ContentIn), ContentIn) == Settle(s, ContentIn)
  {
  }
}
