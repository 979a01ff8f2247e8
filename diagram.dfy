/**
 * The diagram document of components/er-diagram-tool.tsx: entity and class nodes, relationship
 * edges, and the editing operations the tool offers on them. Each operation of the component is
 * a pure updater over the node and edge lists (the callbacks passed to `setNodes` / `setEdges`),
 * and the component state those setters replace is the class `DiagramTool`.
 */
module Diagram {
  import opened Wrappers
  import opened Strings
  import opened Sequences

  datatype Attribute = Attribute(
    id: string,
    name: string,
    dataType: string,
    isPrimaryKey: bool,
    isForeignKey: bool,
    isRequired: bool,
    visibility: Option<string>,
    isStatic: Option<bool>)

  /** `Partial<Attribute>`: the fields an update sets. */
  datatype AttributePatch = AttributePatch(
    id: Option<string>,
    name: Option<string>,
    dataType: Option<string>,
    isPrimaryKey: Option<bool>,
    isForeignKey: Option<bool>,
    isRequired: Option<bool>,
    visibility: Option<string>,
    isStatic: Option<bool>)

  datatype Method = Method(
    id: string,
    name: string,
    returnType: string,
    parameters: string,
    visibility: string,
    isStatic: bool,
    isAbstract: bool)

  /** A node's `data`: `EntityData` for an entity-relationship diagram, `ClassData` for a class
      diagram. */
  datatype NodeData =
    | EntityData(id: string, name: string, attributes: seq<Attribute>, color: string)
    | ClassData(id: string, name: string, color: string, isAbstract: bool, isInterface: bool,
                attributes: seq<Attribute>, methods: seq<Method>)

  /** `Partial<EntityData>`. */
  datatype EntityPatch = EntityPatch(
    id: Option<string>,
    name: Option<string>,
    attributes: Option<seq<Attribute>>,
    color: Option<string>)

  /** A node; `kind` is React Flow's node `type` ("entity" or "class"). */
  datatype Node = Node(id: string, kind: string, data: NodeData)

  datatype RelationshipData = RelationshipData(
    id: string,
    relType: string,
    labelText: string,
    sourceCardinality: string,
    targetCardinality: string)

  /** `Partial<RelationshipData>`. */
  datatype RelationshipPatch = RelationshipPatch(
    id: Option<string>,
    relType: Option<string>,
    labelText: Option<string>,
    sourceCardinality: Option<string>,
    targetCardinality: Option<string>)

  /** An edge; `kind` is React Flow's edge `type`. */
  datatype Edge = Edge(id: string, source: string, target: string, kind: string,
                       data: RelationshipData)

  // -----------------------------------------------------------------------------------------------
  // Shallow merges (`{ ...old, ...patch }`)

  function MergeAttribute(a: Attribute, p: AttributePatch): Attribute {
    Attribute(
      p.id.GetOr(a.id), p.name.GetOr(a.name), p.dataType.GetOr(a.dataType),
      p.isPrimaryKey.GetOr(a.isPrimaryKey), p.isForeignKey.GetOr(a.isForeignKey),
      p.isRequired.GetOr(a.isRequired),
      if p.visibility.Some? then p.visibility else a.visibility,
      if p.isStatic.Some? then p.isStatic else a.isStatic)
  }

  function MergeEntity(d: NodeData, p: EntityPatch): NodeData {
    d.(id := p.id.GetOr(d.id), name := p.name.GetOr(d.name),
       attributes := p.attributes.GetOr(d.attributes), color := p.color.GetOr(d.color))
  }

  function MergeRelationship(d: RelationshipData, p: RelationshipPatch): RelationshipData {
    RelationshipData(
      p.id.GetOr(d.id), p.relType.GetOr(d.relType), p.labelText.GetOr(d.labelText),
      p.sourceCardinality.GetOr(d.sourceCardinality),
      p.targetCardinality.GetOr(d.targetCardinality))
  }

  /** Two patches applied one after the other: a field the second sets wins. */
  function Then(p: EntityPatch, q: EntityPatch): EntityPatch {
    EntityPatch(
      if q.id.Some? then q.id else p.id,
      if q.name.Some? then q.name else p.name,
      if q.attributes.Some? then q.attributes else p.attributes,
      if q.color.Some? then q.color else p.color)
  }

  /** A shallow merge is the identity for an empty patch, keeps the node's kind of data and the
      fields it does not name, applies a patch twice as once, and two merges compose into one. */
  lemma MergeEntityLaws(d: NodeData, p: EntityPatch, q: EntityPatch)
    ensures MergeEntity(d, EntityPatch(None, None, None, None)) == d
    ensures MergeEntity(d, p).EntityData? == d.EntityData?
    ensures d.ClassData? ==>
      (MergeEntity(d, p).methods == d.methods && MergeEntity(d, p).isAbstract == d.isAbstract
       && MergeEntity(d, p).isInterface == d.isInterface)
    ensures MergeEntity(MergeEntity(d, p), p) == MergeEntity(d, p)
    ensures MergeEntity(MergeEntity(d, p), q) == MergeEntity(d, Then(p, q))
  {
  }

  // -----------------------------------------------------------------------------------------------
  // Node updaters

  predicate HasNode(nodes: seq<Node>, id: string) {
    exists i :: 0 <= i < |nodes| && nodes[i].id == id
  }

  /** Every edge joins two nodes of the document. */
  predicate EdgesWellFormed(nodes: seq<Node>, edges: seq<Edge>) {
    forall i :: 0 <= i < |edges| ==> HasNode(nodes, edges[i].source) && HasNode(nodes, edges[i].target)
  }

  function WithId(id: string): Node -> bool {
    (n: Node) => n.id == id
  }

  function MergeInto(id: string, p: EntityPatch): Node -> Node {
    (n: Node) => if n.id == id then n.(data := MergeEntity(n.data, p)) else n
  }

  /** `updateEntity`'s updater. */
  function UpdateEntityIn(nodes: seq<Node>, id: string, p: EntityPatch): seq<Node> {
    Map(nodes, MergeInto(id, p))
  }

  /** `updateEntity` merges the patch into the data of the nodes with that id only; ids, kinds,
      order and length are unchanged, so every edge still joins existing nodes. */
  lemma UpdateEntitySpec(nodes: seq<Node>, edges: seq<Edge>, id: string, p: EntityPatch)
    ensures var r := UpdateEntityIn(nodes, id, p);
      && |r| == |nodes|
      && (forall i :: 0 <= i < |nodes| ==> r[i].id == nodes[i].id && r[i].kind == nodes[i].kind)
      && (forall i :: 0 <= i < |nodes| && nodes[i].id != id ==> r[i] == nodes[i])
      && (forall i :: 0 <= i < |nodes| && nodes[i].id == id ==>
            r[i].data == MergeEntity(nodes[i].data, p))
      && (EdgesWellFormed(nodes, edges) ==> EdgesWellFormed(r, edges))
  {
    var r := UpdateEntityIn(nodes, id, p);
    if EdgesWellFormed(nodes, edges) {
      forall i | 0 <= i < |edges| ensures HasNode(r, edges[i].source) && HasNode(r, edges[i].target) {
        var s :| 0 <= s < |nodes| && nodes[s].id == edges[i].source;
        var t :| 0 <= t < |nodes| && nodes[t].id == edges[i].target;
        assert r[s].id == edges[i].source && r[t].id == edges[i].target;
      }
    }
  }

  function NotTouching(id: string): Edge -> bool {
    (e: Edge) => e.source != id && e.target != id
  }

  function NotWithId(id: string): Node -> bool {
    (n: Node) => n.id != id
  }

  /** `deleteEntity`'s node updater. */
  function RemoveNode(nodes: seq<Node>, id: string): seq<Node> {
    Filter(nodes, NotWithId(id))
  }

  /** `deleteEntity`'s edge updater: the edges incident to the node go with it. */
  function RemoveIncident(edges: seq<Edge>, id: string): seq<Edge> {
    Filter(edges, NotTouching(id))
  }

  /** Deleting an entity removes it and exactly the edges that start or end at it, keeps every
      other node and edge in order, and leaves no edge dangling. */
  lemma DeleteEntitySpec(nodes: seq<Node>, edges: seq<Edge>, id: string)
    ensures var ns := RemoveNode(nodes, id);
      var es := RemoveIncident(edges, id);
      && !HasNode(ns, id)
      && (forall n :: n in ns <==> n in nodes && n.id != id)
      && (forall e :: e in es <==> e in edges && e.source != id && e.target != id)
      && SubsequenceOf(ns, nodes) && SubsequenceOf(es, edges)
      && (EdgesWellFormed(nodes, edges) ==> EdgesWellFormed(ns, es))
  {
    var ns := RemoveNode(nodes, id);
    FilterSpec(nodes, NotWithId(id));
    FilterSpec(edges, NotTouching(id));
    assert forall i :: 0 <= i < |ns| ==> ns[i] in ns;
    if EdgesWellFormed(nodes, edges) {
      DeleteKeepsEdgesWellFormed(nodes, edges, id);
    }
  }

  /** A node other than the deleted one is still found after the deletion. */
  lemma RemoveNodeKeepsOthers(nodes: seq<Node>, id: string, x: string)
    requires HasNode(nodes, x) && x != id
    ensures HasNode(RemoveNode(nodes, id), x)
  {
    FilterSpec(nodes, NotWithId(id));
    var ns := RemoveNode(nodes, id);
    var s :| 0 <= s < |nodes| && nodes[s].id == x;
    assert nodes[s] in ns;
    var s' :| 0 <= s' < |ns| && ns[s'] == nodes[s];
  }

  /** The edges left by a deletion only join nodes left by it. */
  lemma DeleteKeepsEdgesWellFormed(nodes: seq<Node>, edges: seq<Edge>, id: string)
    requires EdgesWellFormed(nodes, edges)
    ensures EdgesWellFormed(RemoveNode(nodes, id), RemoveIncident(edges, id))
  {
    var ns := RemoveNode(nodes, id);
    var es := RemoveIncident(edges, id);
    FilterSpec(edges, NotTouching(id));
    forall i | 0 <= i < |es| ensures HasNode(ns, es[i].source) && HasNode(ns, es[i].target) {
      assert es[i] in es;
      var k :| 0 <= k < |edges| && edges[k] == es[i];
      RemoveNodeKeepsOthers(nodes, id, edges[k].source);
      RemoveNodeKeepsOthers(nodes, id, edges[k].target);
    }
  }

  /** The attribute `addAttribute` appends. */
  function NewAttribute(id: string): Attribute {
    Attribute(id, "new_attribute", "VARCHAR(255)", false, false, false, None, None)
  }

  function AttributesPatch(attrs: seq<Attribute>): EntityPatch {
    EntityPatch(None, None, Some(attrs), None)
  }

  /** `addAttribute`'s effect on the nodes: nothing for an unknown entity, otherwise the first
      node with that id's attributes plus one new attribute, merged into the nodes with that id. */
  function AddAttributeIn(nodes: seq<Node>, entityId: string, attrId: string): seq<Node> {
    match Find(nodes, WithId(entityId))
    case None => nodes
    case Some(n) =>
      UpdateEntityIn(nodes, entityId, AttributesPatch(n.data.attributes + [NewAttribute(attrId)]))
  }

  /** Adding an attribute to a known entity appends one attribute at the end with the defaults
      and leaves the ones before it and every other node unchanged; for an unknown entity
      nothing changes. */
  lemma AddAttributeSpec(nodes: seq<Node>, entityId: string, attrId: string, k: nat)
    requires k < |nodes| && nodes[k].id == entityId
    requires forall j :: 0 <= j < |nodes| && j != k ==> nodes[j].id != entityId
    ensures var r := AddAttributeIn(nodes, entityId, attrId);
      var before := nodes[k].data.attributes;
      && |r| == |nodes|
      && r[k].data.attributes == before + [NewAttribute(attrId)]
      && r[k].data.attributes[|before|] ==
           Attribute(attrId, "new_attribute", "VARCHAR(255)", false, false, false, None, None)
      && r[k].data.(attributes := before) == nodes[k].data
      && (forall j :: 0 <= j < |nodes| && j != k ==> r[j] == nodes[j])
  {
    var f := Find(nodes, WithId(entityId));
    assert f.Some? && f.value == nodes[k];
  }

  lemma AddAttributeUnknown(nodes: seq<Node>, entityId: string, attrId: string)
    requires !HasNode(nodes, entityId)
    ensures AddAttributeIn(nodes, entityId, attrId) == nodes
  {
    assert Find(nodes, WithId(entityId)).None?;
  }

  function PatchAttribute(attrId: string, p: AttributePatch): Attribute -> Attribute {
    (a: Attribute) => if a.id == attrId then MergeAttribute(a, p) else a
  }

  function NotAttribute(attrId: string): Attribute -> bool {
    (a: Attribute) => a.id != attrId
  }

  /** `updateAttribute`'s effect on the nodes. */
  function UpdateAttributeIn(nodes: seq<Node>, entityId: string, attrId: string,
                             p: AttributePatch): seq<Node> {
    match Find(nodes, WithId(entityId))
    case None => nodes
    case Some(n) =>
      UpdateEntityIn(nodes, entityId,
                     AttributesPatch(Map(n.data.attributes, PatchAttribute(attrId, p))))
  }

  /** `deleteAttribute`'s effect on the nodes. */
  function DeleteAttributeIn(nodes: seq<Node>, entityId: string, attrId: string): seq<Node> {
    match Find(nodes, WithId(entityId))
    case None => nodes
    case Some(n) =>
      UpdateEntityIn(nodes, entityId, AttributesPatch(Filter(n.data.attributes, NotAttribute(attrId))))
  }

  /** Updating or deleting an attribute touches only the attribute with that id, inside that
      entity only; an unknown entity is left alone. */
  lemma AttributeEditSpec(nodes: seq<Node>, entityId: string, attrId: string, p: AttributePatch,
                          k: nat)
    requires k < |nodes| && nodes[k].id == entityId
    requires forall j :: 0 <= j < |nodes| && j != k ==> nodes[j].id != entityId
    ensures var r := UpdateAttributeIn(nodes, entityId, attrId, p);
      var before := nodes[k].data.attributes;
      && |r| == |nodes| && |r[k].data.attributes| == |before|
      && (forall i :: 0 <= i < |before| && before[i].id != attrId ==> r[k].data.attributes[i] == before[i])
      && (forall i :: 0 <= i < |before| && before[i].id == attrId ==>
            r[k].data.attributes[i] == MergeAttribute(before[i], p))
      && (forall j :: 0 <= j < |nodes| && j != k ==> r[j] == nodes[j])
    ensures var r := DeleteAttributeIn(nodes, entityId, attrId);
      var before := nodes[k].data.attributes;
      && |r| == |nodes|
      && (forall a :: a in r[k].data.attributes <==> a in before && a.id != attrId)
      && SubsequenceOf(r[k].data.attributes, before)
      && (forall j :: 0 <= j < |nodes| && j != k ==> r[j] == nodes[j])
  {
    var f := Find(nodes, WithId(entityId));
    assert f.Some? && f.value == nodes[k];
    FilterSpec(nodes[k].data.attributes, NotAttribute(attrId));
  }

  lemma AttributeEditUnknown(nodes: seq<Node>, entityId: string, attrId: string, p: AttributePatch)
    requires !HasNode(nodes, entityId)
    ensures UpdateAttributeIn(nodes, entityId, attrId, p) == nodes
    ensures DeleteAttributeIn(nodes, entityId, attrId) == nodes
  {
    assert Find(nodes, WithId(entityId)).None?;
  }

  // -----------------------------------------------------------------------------------------------
  // Edge updaters

  function MergeIntoEdge(id: string, p: RelationshipPatch): Edge -> Edge {
    (e: Edge) => if e.id == id then e.(data := MergeRelationship(e.data, p)) else e
  }

  function UpdateRelationshipIn(edges: seq<Edge>, id: string, p: RelationshipPatch): seq<Edge> {
    Map(edges, MergeIntoEdge(id, p))
  }

  function EdgeOtherThan(id: string): Edge -> bool {
    (e: Edge) => e.id != id
  }

  function RemoveEdge(edges: seq<Edge>, id: string): seq<Edge> {
    Filter(edges, EdgeOtherThan(id))
  }

  /** `updateRelationship` merges into the matching edge's data only, and `deleteRelationship`
      removes exactly the edges with that id; neither leaves an edge dangling. */
  lemma RelationshipEditSpec(nodes: seq<Node>, edges: seq<Edge>, id: string, p: RelationshipPatch)
    ensures var r := UpdateRelationshipIn(edges, id, p);
      && |r| == |edges|
      && (forall i :: 0 <= i < |edges| && edges[i].id != id ==> r[i] == edges[i])
      && (forall i :: 0 <= i < |edges| && edges[i].id == id ==>
            r[i] == edges[i].(data := MergeRelationship(edges[i].data, p)))
      && (EdgesWellFormed(nodes, edges) ==> EdgesWellFormed(nodes, r))
    ensures var r := RemoveEdge(edges, id);
      && (forall e :: e in r <==> e in edges && e.id != id)
      && SubsequenceOf(r, edges)
      && (EdgesWellFormed(nodes, edges) ==> EdgesWellFormed(nodes, r))
  {
    var r := RemoveEdge(edges, id);
    FilterSpec(edges, EdgeOtherThan(id));
    if EdgesWellFormed(nodes, edges) {
      forall i | 0 <= i < |r| ensures HasNode(nodes, r[i].source) && HasNode(nodes, r[i].target) {
        assert r[i] in r;
      }
    }
  }

  // -----------------------------------------------------------------------------------------------
  // New nodes and edges

  /** `entityColors`. */
  const EntityColors: seq<string> := ["blue", "green", "purple", "orange", "red", "teal", "indigo", "pink"]

  /** The colour a new entity or class gets when the diagram has `count` nodes. */
  function ColorFor(count: nat): (c: string)
    ensures c in EntityColors
  {
    EntityColors[count % |EntityColors|]
  }

  /** The colours cycle through the eight entries: two node counts get the same colour exactly
      when they agree modulo 8, so nodes added one after the other always differ in colour. */
  lemma ColorCycle(m: nat, n: nat)
    ensures ColorFor(m) == ColorFor(n) <==> m % 8 == n % 8
    ensures ColorFor(n) != ColorFor(n + 1)
  {
    assert forall i, j :: 0 <= i < j < 8 ==> EntityColors[i] != EntityColors[j];
  }

  /** The readings of `Date.now()` a new node's ids are built from, one per call in the handler:
      the node id, the data id, the first attribute's id and (for a class) the first method's. */
  datatype NodeStamps = NodeStamps(node: nat, data: nat, attribute: nat, methodRow: nat)

  function NodePrefix(isClass: bool): string {
    if isClass then "class-" else "entity-"
  }

  /** The node `addEntityCallback` appends to a diagram of `count` nodes. */
  function NewNode(isClass: bool, count: nat, t: NodeStamps): Node {
    var id, dataId := NodePrefix(isClass) + NatToString(t.node), NodePrefix(isClass) + NatToString(t.data);
    var attrId := "attr-" + NatToString(t.attribute);
    if isClass then
      Node(id, "class",
           ClassData(dataId, "NewClass", ColorFor(count), false, false,
                     [Attribute(attrId, "id", "int", false, false, false, Some("private"), Some(false))],
                     [Method("method-" + NatToString(t.methodRow), "getId", "int", "", "public", false, false)]))
    else
      Node(id, "entity",
           EntityData(dataId, "New Entity",
                      [Attribute(attrId, "id", "INTEGER", true, false, true, None, None)],
                      ColorFor(count)))
  }

  /** Equal prefixes followed by decimal texts are equal exactly when the numbers are. */
  lemma StampedIdsEqual(prefix: string, m: nat, n: nat)
    ensures prefix + NatToString(m) == prefix + NatToString(n) <==> m == n
  {
    if prefix + NatToString(m) == prefix + NatToString(n) {
      assert (prefix + NatToString(m))[|prefix|..] == NatToString(m);
      assert (prefix + NatToString(n))[|prefix|..] == NatToString(n);
      NatToStringInjective(m, n);
    }
  }

  /** A new node is coloured by the number of nodes before it, and an entity starts with one
      required primary-key attribute. Its id and its data's id are read from separate clock
      calls, so they agree exactly when the two readings do. */
  lemma NewNodeSpec(isClass: bool, nodes: seq<Node>, t: NodeStamps)
    ensures var n := NewNode(isClass, |nodes|, t);
      && n.data.color == EntityColors[|nodes| % 8]
      && n.id == NodePrefix(isClass) + NatToString(t.node)
      && n.data.id == NodePrefix(isClass) + NatToString(t.data)
      && (n.id == n.data.id <==> t.node == t.data)
      && n.kind == (if isClass then "class" else "entity")
      && |n.data.attributes| == 1
      && (!isClass ==> n.data.attributes[0].isPrimaryKey && n.data.attributes[0].isRequired)
  {
    StampedIdsEqual(NodePrefix(isClass), t.node, t.data);
  }

  /** A connection drawn between two handles (the handles themselves are not modelled). */
  datatype Connection = Connection(source: string, target: string)

  /** The edge `onConnect` builds; its id and its data's id come from two clock readings. */
  function NewEdge(c: Connection, idStamp: nat, dataStamp: nat): Edge {
    Edge("edge-" + NatToString(idStamp), c.source, c.target, "relationship",
         RelationshipData("edge-" + NatToString(dataStamp), "asociación", "relaciona con", "1", "*"))
  }

  /** The new edge joins the connected handles' nodes as a one-to-many association, and its id
      equals its data's id exactly when the two clock readings agree. */
  lemma NewEdgeSpec(c: Connection, idStamp: nat, dataStamp: nat)
    ensures var e := NewEdge(c, idStamp, dataStamp);
      && e.source == c.source && e.target == c.target
      && e.data.relType == "asociación"
      && e.data.sourceCardinality == "1" && e.data.targetCardinality == "*"
      && (e.id == e.data.id <==> idStamp == dataStamp)
  {
    StampedIdsEqual("edge-", idStamp, dataStamp);
  }

  predicate Connected(edges: seq<Edge>, source: string, target: string) {
    exists i :: 0 <= i < |edges| && edges[i].source == source && edges[i].target == target
  }

  /** React Flow's `addEdge`: an edge with an empty endpoint, or between two nodes that are
      already connected in that direction, is not added; otherwise it is appended. */
  function AddEdge(e: Edge, edges: seq<Edge>): seq<Edge> {
    if e.source == "" || e.target == "" || Connected(edges, e.source, e.target) then edges
    else edges + [e]
  }

  /** A connected pair of nodes is joined by at most one edge. */
  predicate NoParallelEdges(edges: seq<Edge>) {
    forall i, j :: 0 <= i < j < |edges| ==>
      edges[i].source != edges[j].source || edges[i].target != edges[j].target
  }

  /** `onConnect` between two nodes of the document keeps every edge well formed and never
      creates a second edge between the same two nodes in the same direction. */
  lemma ConnectSpec(nodes: seq<Node>, edges: seq<Edge>, c: Connection, idStamp: nat, dataStamp: nat)
    requires HasNode(nodes, c.source) && HasNode(nodes, c.target)
    ensures var r := AddEdge(NewEdge(c, idStamp, dataStamp), edges);
      && (EdgesWellFormed(nodes, edges) ==> EdgesWellFormed(nodes, r))
      && (NoParallelEdges(edges) ==> NoParallelEdges(r))
      && Connected(r, c.source, c.target) == ((c.source != "" && c.target != "") || Connected(edges, c.source, c.target))
  {
    var e := NewEdge(c, idStamp, dataStamp);
    var r := AddEdge(e, edges);
    if r != edges {
      assert r[|edges|] == e;
    }
  }

  // -----------------------------------------------------------------------------------------------
  // Import and export

  /** A parsed project file: its `name`, `nodes` and `edges` members, where present. */
  datatype ProjectFile = ProjectFile(name: Option<string>, nodes: Option<seq<Node>>,
                                     edges: Option<seq<Edge>>)

  const ImportedDefaultName: string := "Proyecto Importado"

  /** `projectData.name || "Proyecto Importado"`. */
  function ImportedName(name: Option<string>): (r: string)
    ensures r != ""
    ensures name.Some? && name.value != "" ==> r == name.value
    ensures !(name.Some? && name.value != "") ==> r == ImportedDefaultName
  {
    match name
    case Some(s) => if s != "" then s else ImportedDefaultName
    case None => ImportedDefaultName
  }

  /** The download name: each white-space run of the project name becomes `_`, then `.json`. */
  function ExportFileName(projectName: string): (r: string)
    ensures |r| >= 5 && r[|r| - 5..] == ".json"
  {
    CollapseSpaces(projectName) + ".json"
  }

  /** The stem of the export name has no white space and is no longer than the project name; a
      name without white space is kept as it is; exporting under an already exported stem gives
      the same file name. */
  lemma ExportFileNameSpec(projectName: string)
    ensures var r := ExportFileName(projectName);
      && NoSpaces(r[..|r| - 5])
      && |r| <= |projectName| + 5
      && (NoSpaces(projectName) ==> r == projectName + ".json")
      && ExportFileName(r[..|r| - 5]) == r
  {
    var r := ExportFileName(projectName);
    assert r[..|r| - 5] == CollapseSpaces(projectName);
    CollapseSpacesNoSpaces(projectName);
    CollapseSpacesShorter(projectName);
    CollapseSpacesIdempotent(projectName);
    if NoSpaces(projectName) {
      CollapseSpacesKeeps(projectName);
    }
  }

  /** The stem is built run by run: a maximal white-space run between two parts becomes one
      underscore, the parts are replaced on their own and kept in order, and a part without white
      space is copied as it is. */
  lemma ExportFileNameRuns(a: string, w: string, b: string)
    requires a == [] || !IsSpace(a[|a| - 1])
    requires w != [] && AllSpaces(w)
    requires b == [] || !IsSpace(b[0])
    ensures ExportFileName(a + w + b) == CollapseSpaces(a) + "_" + CollapseSpaces(b) + ".json"
    ensures NoSpaces(a) && NoSpaces(b) ==> ExportFileName(a + w + b) == a + "_" + b + ".json"
    ensures NoSpaces(a) ==> ExportFileName(a + w + b) == a + "_" + CollapseSpaces(b) + ".json"
  {
    CollapseSpacesSplit(a, w, b);
    if NoSpaces(a) {
      CollapseSpacesKeeps(a);
    }
    if NoSpaces(b) {
      CollapseSpacesKeeps(b);
    }
  }

  /** Two blanks between two words give a single underscore. */
  lemma ExportFileNameExample()
    ensures ExportFileName("Mi  plan") == "Mi_plan.json"
  {
    var a, w, b := "Mi", "  ", "plan";
    assert !IsSpace(a[1]) && !IsSpace(b[0]);
    assert AllSpaces(w) && NoSpaces(a) && NoSpaces(b);
    assert a + w + b == "Mi  plan";
    ExportFileNameRuns(a, w, b);
    assert a + "_" + b + ".json" == "Mi_plan.json";
  }

  // -----------------------------------------------------------------------------------------------
  // The component state

  const NewProjectName: string := "Nuevo proyecto"

  class DiagramTool {
    var nodes: seq<Node>
    var edges: seq<Edge>
    var selectedEntity: Option<string>
    var selectedEdge: Option<string>
    var projectName: string
    var isModified: bool

    /** The tool's initial state. */
    constructor ()
      ensures nodes == [] && edges == [] && selectedEntity == None && selectedEdge == None
      ensures projectName == "Nuevo Proyecto" && !isModified
    {
      nodes, edges := [], [];
      selectedEntity, selectedEdge := None, None;
      projectName := "Nuevo Proyecto";
      isModified := false;
    }

    method UpdateEntity(id: string, p: EntityPatch)
      modifies this`nodes, this`isModified
      ensures nodes == UpdateEntityIn(old(nodes), id, p) && isModified
    {
      nodes := UpdateEntityIn(nodes, id, p);
      isModified := true;
    }

    /** `deleteEntity`: the node and its edges go, and the entity selection is cleared only if it
        was that node. */
    method DeleteEntity(id: string)
      modifies this`nodes, this`edges, this`selectedEntity, this`isModified
      ensures nodes == RemoveNode(old(nodes), id) && edges == RemoveIncident(old(edges), id)
      ensures selectedEntity == if old(selectedEntity) == Some(id) then None else old(selectedEntity)
      ensures isModified
    {
      nodes := RemoveNode(nodes, id);
      edges := RemoveIncident(edges, id);
      if selectedEntity == Some(id) {
        selectedEntity := None;
      }
      isModified := true;
    }

    /** `addAttribute` with `attr-<now>` as the new id; an unknown entity changes nothing, not
        even the modified flag. */
    method AddAttribute(entityId: string, now: nat)
      modifies this`nodes, this`isModified
      ensures nodes == AddAttributeIn(old(nodes), entityId, "attr-" + NatToString(now))
      ensures isModified == (old(isModified) || HasNode(old(nodes), entityId))
    {
      var found := Find(nodes, WithId(entityId));
      if found.None? {
        return;
      }
      var n := found.value;
      UpdateEntity(entityId, AttributesPatch(n.data.attributes + [NewAttribute("attr-" + NatToString(now))]));
    }

    method UpdateAttribute(entityId: string, attrId: string, p: AttributePatch)
      modifies this`nodes, this`isModified
      ensures nodes == UpdateAttributeIn(old(nodes), entityId, attrId, p)
      ensures isModified == (old(isModified) || HasNode(old(nodes), entityId))
    {
      var found := Find(nodes, WithId(entityId));
      if found.None? {
        return;
      }
      UpdateEntity(entityId, AttributesPatch(Map(found.value.data.attributes, PatchAttribute(attrId, p))));
    }

    method DeleteAttribute(entityId: string, attrId: string)
      modifies this`nodes, this`isModified
      ensures nodes == DeleteAttributeIn(old(nodes), entityId, attrId)
      ensures isModified == (old(isModified) || HasNode(old(nodes), entityId))
    {
      var found := Find(nodes, WithId(entityId));
      if found.None? {
        return;
      }
      UpdateEntity(entityId, AttributesPatch(Filter(found.value.data.attributes, NotAttribute(attrId))));
    }

    method UpdateRelationship(id: string, p: RelationshipPatch)
      modifies this`edges, this`isModified
      ensures edges == UpdateRelationshipIn(old(edges), id, p) && isModified
    {
      edges := UpdateRelationshipIn(edges, id, p);
      isModified := true;
    }

    /** `deleteRelationship`: the edge selection is cleared only if it was that edge. */
    method DeleteRelationship(id: string)
      modifies this`edges, this`selectedEdge, this`isModified
      ensures edges == RemoveEdge(old(edges), id)
      ensures selectedEdge == if old(selectedEdge) == Some(id) then None else old(selectedEdge)
      ensures isModified
    {
      edges := RemoveEdge(edges, id);
      if selectedEdge == Some(id) {
        selectedEdge := None;
      }
      isModified := true;
    }

    /** `addEntityCallback` for a class or an entity diagram. */
    method AddEntity(isClass: bool, t: NodeStamps)
      modifies this`nodes, this`isModified
      ensures nodes == old(nodes) + [NewNode(isClass, |old(nodes)|, t)] && isModified
    {
      nodes := nodes + [NewNode(isClass, |nodes|, t)];
      isModified := true;
    }

    /** `onConnect`. */
    method Connect(c: Connection, idStamp: nat, dataStamp: nat)
      modifies this`edges, this`isModified
      ensures edges == AddEdge(NewEdge(c, idStamp, dataStamp), old(edges)) && isModified
    {
      edges := AddEdge(NewEdge(c, idStamp, dataStamp), edges);
      isModified := true;
    }

    /** Importing a parsed file (`None` when it is not JSON): a file without `nodes` or `edges`
        is rejected and changes nothing; otherwise the document is replaced, both selections
        are cleared and the project counts as unmodified. */
    method Import(file: Option<ProjectFile>) returns (ok: bool)
      modifies this`nodes, this`edges, this`selectedEntity, this`selectedEdge
      modifies this`projectName, this`isModified
      ensures ok <==> file.Some? && file.value.nodes.Some? && file.value.edges.Some?
      ensures !ok ==>
        (nodes == old(nodes) && edges == old(edges) && projectName == old(projectName)
         && selectedEntity == old(selectedEntity) && selectedEdge == old(selectedEdge)
         && isModified == old(isModified))
      ensures ok ==>
        (nodes == file.value.nodes.value && edges == file.value.edges.value
         && projectName == ImportedName(file.value.name)
         && selectedEntity == None && selectedEdge == None && !isModified)
    {
      if file.None? || file.value.nodes.None? || file.value.edges.None? {
        return false;
      }
      projectName := ImportedName(file.value.name);
      nodes := file.value.nodes.value;
      edges := file.value.edges.value;
      selectedEntity, selectedEdge := None, None;
      isModified := false;
      ok := true;
    }

    /** `createNewProject`: with unsaved changes it needs the user's confirmation. */
    method NewProject(confirmed: bool)
      modifies this`nodes, this`edges, this`selectedEntity, this`selectedEdge
      modifies this`projectName, this`isModified
      ensures old(isModified) && !confirmed ==>
        (nodes == old(nodes) && edges == old(edges) && projectName == old(projectName)
         && selectedEntity == old(selectedEntity) && selectedEdge == old(selectedEdge)
         && isModified)
      ensures !old(isModified) || confirmed ==>
        (nodes == [] && edges == [] && projectName == NewProjectName
         && selectedEntity == None && selectedEdge == None && !isModified)
    {
      if isModified && !confirmed {
        return;
      }
      projectName := NewProjectName;
      nodes, edges := [], [];
      selectedEntity, selectedEdge := None, None;
      isModified := false;
    }
  }
}
