/** How the graph component (`frontend/src/components/NetworkGraph.js`) draws
    nodes and links: colour by node type, and link width and colour opacity
    scaled by the link's value, clamped to the range 0 to 10. */
module GraphStyle {
  import opened Wrappers
  import opened Text
  import opened JsValues
  import GraphView

  const SourceColor: string := "#e91e63"
  const AddressColor: string := "#90caf9"

  /** `getNodeColor`. */
  function NodeColor(kind: string): string {
    if kind == "source" then SourceColor else AddressColor
  }

  /** `Math.min(Math.max((value - 0) / (10 - 0), 0), 1)`. */
  function Share(value: JsNumber): JsNumber {
    match value
    case NaN => NaN
    case Infinity(positive) => Finite(if positive then 1.0 else 0.0)
    case Finite(v) =>
      var scaled := v / 10.0;
      var atLeastZero := if scaled < 0.0 then 0.0 else scaled;
      Finite(if atLeastZero > 1.0 then 1.0 else atLeastZero)
  }

  /** `getLinkWidth`: `1 + share * (5 - 1)`. */
  function LinkWidth(value: JsNumber): JsNumber {
    match Share(value)
    case Finite(s) => Finite(1.0 + s * 4.0)
    case _ => NaN
  }

  /** The opacity in `getLinkColor`: `0.2 + share * 0.8`. */
  function LinkAlpha(value: JsNumber): JsNumber {
    match Share(value)
    case Finite(s) => Finite(0.2 + s * 0.8)
    case _ => NaN
  }

  /** `linkDirectionalParticleWidth`: six tenths of the link width. */
  function ParticleWidth(value: JsNumber): JsNumber {
    match LinkWidth(value)
    case Finite(w) => Finite(w * 0.6)
    case _ => NaN
  }

  /** The radius of the drawn circle. */
  function NodeRadius(kind: string): nat {
    if kind == "source" then 8 else 5
  }

  /** The label drawn under a node: its first ten characters and "...", only at
      a zoom scale of at least 1. */
  function NodeLabel(labelText: string, globalScale: real): Option<string> {
    if globalScale >= 1.0 then Some(Prefix(labelText, 10) + "...") else None
  }

  /** Source nodes are pink and every other node light blue, drawn larger. */
  lemma NodeLook(kind: string)
    ensures NodeColor(kind) == SourceColor <==> kind == "source"
    ensures NodeColor(kind) == AddressColor <==> kind != "source"
    ensures NodeRadius(kind) == (if kind == "source" then 8 else 5)
  {
  }

  /** The share is the value divided by 10 and clamped to [0, 1]; it is a number
      for every value but NaN. */
  lemma ShareMeaning(value: JsNumber)
    ensures value.NaN? <==> Share(value).NaN?
    ensures Share(value).Finite? ==> 0.0 <= Share(value).r <= 1.0
    ensures value.Finite? && 0.0 <= value.r <= 10.0 ==> Share(value) == Finite(value.r / 10.0)
    ensures LessOrEqual(value, Finite(0.0)) ==> Share(value) == Finite(0.0)
    ensures LessOrEqual(Finite(10.0), value) ==> Share(value) == Finite(1.0)
  {
  }

  /** The share never decreases as the value grows. */
  lemma ShareMonotone(a: JsNumber, b: JsNumber)
    requires LessOrEqual(a, b)
    ensures LessOrEqual(Share(a), Share(b))
  {
  }

  /** A width lies in [1, 5]: 1 up to a value of 0, 5 from a value of 10, and it
      never decreases as the value grows. */
  lemma LinkWidthMeaning(a: JsNumber, b: JsNumber)
    ensures !a.NaN? ==> LinkWidth(a).Finite? && 1.0 <= LinkWidth(a).r <= 5.0
    ensures LessOrEqual(a, Finite(0.0)) ==> LinkWidth(a) == Finite(1.0)
    ensures LessOrEqual(Finite(10.0), a) ==> LinkWidth(a) == Finite(5.0)
    ensures LessOrEqual(a, b) ==> LessOrEqual(LinkWidth(a), LinkWidth(b))
  {
    ShareMeaning(a);
    ShareMeaning(b);
    if LessOrEqual(a, b) {
      ShareMonotone(a, b);
    }
  }

  /** The opacity lies in [0.2, 1] and the particle width in [0.6, 3]. */
  lemma LinkAlphaMeaning(value: JsNumber)
    ensures !value.NaN? ==> LinkAlpha(value).Finite? && 0.2 <= LinkAlpha(value).r <= 1.0
    ensures !value.NaN? ==> ParticleWidth(value).Finite? && 0.6 <= ParticleWidth(value).r <= 3.0
  {
    ShareMeaning(value);
    LinkWidthMeaning(value, value);
  }

  /** Every link of a graph the page hands over, whose values normalisation
      made numeric, is drawn with a width in [1, 5] and an opacity in [0.2, 1]. */
  lemma DrawnLinksInRange(g: GraphView.Graph)
    requires GraphView.NaNFree(g)
    ensures forall i :: 0 <= i < |g.links| ==>
              && LinkWidth(g.links[i].value).Finite? && 1.0 <= LinkWidth(g.links[i].value).r <= 5.0
              && LinkAlpha(g.links[i].value).Finite? && 0.2 <= LinkAlpha(g.links[i].value).r <= 1.0
  {
    forall i | 0 <= i < |g.links|
      ensures LinkWidth(g.links[i].value).Finite? && 1.0 <= LinkWidth(g.links[i].value).r <= 5.0
      ensures LinkAlpha(g.links[i].value).Finite? && 0.2 <= LinkAlpha(g.links[i].value).r <= 1.0
    {
      LinkWidthMeaning(g.links[i].value, g.links[i].value);
      LinkAlphaMeaning(g.links[i].value);
    }
  }

  /** A label is drawn only from a scale of 1 on, and is at most thirteen
      characters: a prefix of the node's label and "...". */
  lemma NodeLabelMeaning(labelText: string, globalScale: real)
    ensures NodeLabel(labelText, globalScale).Some? <==> globalScale >= 1.0
    ensures NodeLabel(labelText, globalScale).Some? ==>
              var l := NodeLabel(labelText, globalScale).value;
              && |l| <= 13
              && l[..|l| - 3] <= labelText
              && l[|l| - 3..] == "..."
              && (|labelText| >= 10 ==> |l| == 13)
  {
  }
}
