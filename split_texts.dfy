/**
 * The preloader's text splitting (`createSplitTexts`): for each labelled selector it builds
 * the configuration handed to the text-splitting collaborator and files the result under the
 * label. The collaborator itself is a sink: a split is represented by the request it receives.
 */
module SplitTexts {
  import opened Wrappers

  /** One entry of the list of texts to split: a label, a selector and a granularity ("chars" or "lines"). */
  datatype SplitElement = SplitElement(key: string, selector: string, splitType: string)

  /** The options object passed to the splitter. */
  datatype SplitConfig = SplitConfig(splitType: string, mask: string, charsClass: Option<string>, linesClass: Option<string>)

  /** What the splitter is asked to split, and how. */
  datatype SplitRequest = SplitRequest(selector: string, config: SplitConfig)

  /**
   * The options for one granularity: the units are masked at that same granularity, and
   * character units, or line units, get their class marker; any other granularity gets none.
   */
  function ConfigFor(splitType: string): (c: SplitConfig)
    ensures c.splitType == splitType && c.mask == splitType
    ensures c.charsClass.Some? <==> splitType == "chars"
    ensures c.linesClass.Some? <==> splitType == "lines"
    ensures !(c.charsClass.Some? && c.linesClass.Some?)
    ensures c.charsClass.Some? ==> c.charsClass.value == "char"
    ensures c.linesClass.Some? ==> c.linesClass.value == "line"
  {
    var withChars := if splitType == "chars" then Some("char") else None;
    var withLines := if splitType == "lines" then Some("line") else None;
    SplitConfig(splitType, splitType, withChars, withLines)
  }

  function RequestFor(e: SplitElement): SplitRequest {
    SplitRequest(e.selector, ConfigFor(e.splitType))
  }

  function KeysOf(elements: seq<SplitElement>): set<string> {
    set e | e in elements :: e.key
  }

  /** The dictionary after filing every element in order; a later element overwrites an earlier one with the same label. */
  function SplitsOf(elements: seq<SplitElement>): (splits: map<string, SplitRequest>)
    ensures splits.Keys == KeysOf(elements)
  {
    if elements == [] then map[]
    else
      var last := elements[|elements| - 1];
      var before := elements[..|elements| - 1];
      assert elements == before + [last];
      SplitsOf(before)[last.key := RequestFor(last)]
  }

  /** Under each label is the request of the last element carrying that label. */
  lemma {:induction false} LastLabelWins(elements: seq<SplitElement>, k: nat)
    requires k < |elements|
    requires forall j :: k < j < |elements| ==> elements[j].key != elements[k].key
    ensures elements[k].key in SplitsOf(elements)
    ensures SplitsOf(elements)[elements[k].key] == RequestFor(elements[k])
  {
    if k < |elements| - 1 {
      var before := elements[..|elements| - 1];
      LastLabelWins(before, k);
    }
  }

  /** The texts the preloader splits. */
  const PreloaderElements: seq<SplitElement> := [
    SplitElement("logoChars", ".preloader-logo h1", "chars"),
    SplitElement("footerLines", ".preloader-footer p", "lines"),
    SplitElement("headerChars", ".header h1", "chars"),
    SplitElement("heroFooterH3", ".hero-footer h3", "lines"),
    SplitElement("heroFooterP", ".hero-footer p", "lines"),
    SplitElement("btnLabels", ".btn-label span", "lines")
  ]

  predicate DistinctKeys(elements: seq<SplitElement>) {
    forall j, k :: 0 <= j < k < |elements| ==> elements[j].key != elements[k].key
  }

  /** With distinct labels nothing is overwritten: one entry per element, each holding that element's split. */
  lemma {:induction false} DistinctLabelsKeepAll(elements: seq<SplitElement>)
    requires DistinctKeys(elements)
    ensures |SplitsOf(elements)| == |elements|
    ensures forall e :: e in elements ==> SplitsOf(elements)[e.key] == RequestFor(e)
  {
    if elements != [] {
      var last := elements[|elements| - 1];
      var before := elements[..|elements| - 1];
      DistinctLabelsKeepAll(before);
      forall k | 0 <= k < |elements| ensures SplitsOf(elements)[elements[k].key] == RequestFor(elements[k]) {
        LastLabelWins(elements, k);
      }
    }
  }

  /** The preloader's six labels are distinct, so each holds the split of its own element. */
  lemma PreloaderSplits()
    ensures |SplitsOf(PreloaderElements)| == 6
    ensures forall e :: e in PreloaderElements ==> SplitsOf(PreloaderElements)[e.key] == RequestFor(e)
  {
    var es := PreloaderElements;
    assert es[0].key[0] == 'l' && es[1].key[0] == 'f' && es[2].key[1] == 'e' && es[5].key[0] == 'b';
    assert es[3].key[1] == 'e' && es[3].key[2] == 'r' && es[2].key[2] == 'a';
    assert es[3].key[10] == 'H' && es[4].key[10] == 'P';
    DistinctLabelsKeepAll(es);
  }

  /** Files one split per element, in order, under the element's label. */
  method CreateSplitTexts(elements: seq<SplitElement>) returns (splits: map<string, SplitRequest>)
    ensures splits == SplitsOf(elements)
  {
    splits := map[];
    for i := 0 to |elements|
      invariant splits == SplitsOf(elements[..i])
    {
      var e := elements[i];
      var config := SplitConfig(e.splitType, e.splitType, None, None);
      if e.splitType == "chars" { config := config.(charsClass := Some("char")); }
      if e.splitType == "lines" { config := config.(linesClass := Some("line")); }
      assert elements[..i + 1][..i] == elements[..i];
      splits := splits[e.key := SplitRequest(e.selector, config)];
    }
    assert elements[..|elements|] == elements;
  }
}
