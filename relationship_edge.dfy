/**
 * The styling of a relationship edge (components/relationship-edge.tsx): the arrow-head marker,
 * dash pattern, stroke width and colour chosen from the relationship type and the selection,
 * and which of the edge's three texts are drawn. The path geometry is not modelled.
 */
module RelationshipEdge {
  import opened Wrappers

  /** The optional `data` of the edge, with each field optional as read through `data?.`. */
  datatype EdgeData = EdgeData(
    relType: Option<string>, labelText: Option<string>,
    sourceCardinality: Option<string>, targetCardinality: Option<string>)

  /** The eight markers the edge defines in its `<defs>`, by id. */
  const MarkerIds: seq<string> := [
    "association", "composition", "aggregation", "generalization",
    "dependency", "one-to-one", "one-to-many", "many-to-many"]

  function MarkerUrl(markerId: string): string {
    "url(#" + markerId + ")"
  }

  function TypeOf(data: Option<EdgeData>): Option<string> {
    if data.Some? then data.value.relType else None
  }

  /** `getMarkerEnd`. */
  function MarkerEnd(data: Option<EdgeData>): (m: string)
    ensures TypeOf(data).Some? && TypeOf(data).value in MarkerIds ==> m == MarkerUrl(TypeOf(data).value)
    ensures TypeOf(data).None? || TypeOf(data).value !in MarkerIds ==> m == MarkerUrl("association")
  {
    var t := TypeOf(data);
    if t.Some? && t.value in MarkerIds then MarkerUrl(t.value) else MarkerUrl("association")
  }

  /** Every edge points at one of the markers it defines, and different known types get
      different markers. */
  lemma MarkerEndSpec(d: Option<EdgeData>, e: Option<EdgeData>)
    ensures exists k :: 0 <= k < |MarkerIds| && MarkerEnd(d) == MarkerUrl(MarkerIds[k])
    ensures TypeOf(d).Some? && TypeOf(e).Some? && TypeOf(d).value in MarkerIds && TypeOf(e).value in MarkerIds ==>
      (MarkerEnd(d) == MarkerEnd(e) <==> TypeOf(d) == TypeOf(e))
  {
    var t := TypeOf(d);
    if t.Some? && t.value in MarkerIds {
      var k :| 0 <= k < |MarkerIds| && MarkerIds[k] == t.value;
    } else {
      assert MarkerIds[0] == "association";
    }
    if TypeOf(d).Some? && TypeOf(e).Some? && TypeOf(d).value in MarkerIds && TypeOf(e).value in MarkerIds {
      if MarkerEnd(d) == MarkerEnd(e) {
        UrlInjective(TypeOf(d).value, TypeOf(e).value);
      }
    }
  }

  lemma UrlInjective(a: string, b: string)
    requires MarkerUrl(a) == MarkerUrl(b)
    ensures a == b
  {
    var n := |"url(#"|;
    assert a == MarkerUrl(a)[n..|MarkerUrl(a)| - 1];
    assert b == MarkerUrl(b)[n..|MarkerUrl(b)| - 1];
  }

  /** `getStrokeStyle`: the `strokeDasharray`. */
  function StrokeStyle(data: Option<EdgeData>): (s: string)
    ensures s == "6,3" <==> TypeOf(data) == Some("dependency")
    ensures s == "6,3" || s == "none"
  {
    if TypeOf(data) == Some("dependency") then "6,3" else "none"
  }

  /** `getStrokeWidth`: the type makes no difference. */
  function StrokeWidth(data: Option<EdgeData>, selected: bool): (w: string)
    ensures w == (if selected then "4" else "3")
  {
    if selected then "4"
    else if TypeOf(data) == Some("composition") || TypeOf(data) == Some("aggregation") then "3"
    else if TypeOf(data) == Some("generalization") then "3"
    else "3"
  }

  /** `getStrokeColor`: black, selected or not. */
  function StrokeColor(selected: bool): (c: string)
    ensures c == "#000000"
  {
    if selected then "#000000" else "#000000"
  }

  /** A `data?.field` test in the markup: present and not empty. */
  function Shown(s: Option<string>): (r: Option<string>)
    ensures r.Some? <==> s.Some? && s.value != ""
    ensures r.Some? ==> r == s
  {
    if s.Some? && s.value != "" then s else None
  }

  /** The texts drawn beside the path: the two cardinalities near their ends and the label. */
  datatype Texts = Texts(source: Option<string>, target: Option<string>, labelText: Option<string>)

  function EdgeTexts(data: Option<EdgeData>): (t: Texts)
  {
    if data.None? then Texts(None, None, None)
    else Texts(Shown(data.value.sourceCardinality), Shown(data.value.targetCardinality),
               Shown(data.value.labelText))
  }

  /** Each text is drawn exactly when its field is set and not empty, independently of the
      others; the default relationship of the diagram tool draws all three, and an edge without
      data draws none. */
  lemma EdgeTextsSpec(data: EdgeData)
    ensures EdgeTexts(None) == Texts(None, None, None)
    ensures EdgeTexts(Some(data)).source.Some? <==> data.sourceCardinality.Some? && data.sourceCardinality.value != ""
    ensures EdgeTexts(Some(data)).target.Some? <==> data.targetCardinality.Some? && data.targetCardinality.value != ""
    ensures EdgeTexts(Some(data)).labelText.Some? <==> data.labelText.Some? && data.labelText.value != ""
    ensures EdgeTexts(Some(EdgeData(Some("asociación"), Some("relaciona con"), Some("1"), Some("*")))) ==
      Texts(Some("1"), Some("*"), Some("relaciona con"))
  {
  }
}
