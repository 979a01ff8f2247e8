/**
 * The entity box of an ER diagram (components/entity-node.tsx): which attribute fields the
 * diagram's model type shows, the badges of an attribute row, the accent colour, and the name and
 * attribute editors. The node's optional callbacks `onUpdateEntity` and `onUpdateAttribute` are
 * flags; what the component asks of them is logged in `calls`.
 */
module EntityNode {
  import opened Wrappers

  datatype Attribute = Attribute(
    id: string, name: string, attrType: string,
    isPrimaryKey: bool, isForeignKey: bool, isRequired: bool)

  /** `Partial<Attribute>`. */
  datatype AttributePatch = AttributePatch(
    id: Option<string>, name: Option<string>, attrType: Option<string>,
    isPrimaryKey: Option<bool>, isForeignKey: Option<bool>, isRequired: Option<bool>)

  const EmptyPatch: AttributePatch := AttributePatch(None, None, None, None, None, None)

  // -----------------------------------------------------------------------------------------------
  // Display

  datatype DisplayFields = DisplayFields(showType: bool, showConstraints: bool)

  /** `getDisplayFields`: `data.modelType || "physical"`, then the switch. */
  function GetDisplayFields(modelType: Option<string>): (d: DisplayFields)
    ensures d.showConstraints ==> d.showType
  {
    var m := if modelType.Some? && modelType.value != "" then modelType.value else "physical";
    if m == "conceptual" then DisplayFields(false, false)
    else if m == "logical" then DisplayFields(true, false)
    else DisplayFields(true, true)
  }

  /** The conceptual model hides types and constraints, the logical one hides constraints only,
      and every other value, a missing or empty one included, shows both. */
  lemma DisplayFieldsSpec(modelType: Option<string>)
    ensures GetDisplayFields(Some("conceptual")) == DisplayFields(false, false)
    ensures GetDisplayFields(Some("logical")) == DisplayFields(true, false)
    ensures modelType != Some("conceptual") && modelType != Some("logical") ==>
      GetDisplayFields(modelType) == DisplayFields(true, true)
    ensures GetDisplayFields(None) == GetDisplayFields(Some("")) == GetDisplayFields(Some("physical"))
  {
  }

  /** What a row that is not being edited draws besides the attribute's name. */
  datatype Badges = Badges(keyIcon: bool, typeLabel: bool, pk: bool, fk: bool, required: bool)

  function RowBadges(a: Attribute, d: DisplayFields): (b: Badges)
    ensures b.keyIcon <==> a.isPrimaryKey && d.showConstraints
    ensures b.typeLabel <==> d.showType && a.attrType != ""
    ensures b.pk <==> a.isPrimaryKey && d.showConstraints
    ensures b.fk <==> a.isForeignKey && d.showConstraints
    ensures b.required <==> a.isRequired && !a.isPrimaryKey && d.showConstraints
  {
    Badges(
      a.isPrimaryKey && d.showConstraints,
      d.showType && a.attrType != "",
      d.showConstraints && a.isPrimaryKey,
      d.showConstraints && a.isForeignKey,
      d.showConstraints && a.isRequired && !a.isPrimaryKey)
  }

  /** The key icon goes with the PK badge, the required star never sits beside it, and outside
      the physical model no constraint badge is drawn at all. */
  lemma BadgesSpec(a: Attribute, modelType: Option<string>)
    ensures var b := RowBadges(a, GetDisplayFields(modelType));
      && (b.keyIcon <==> b.pk)
      && !(b.required && b.pk)
      && (modelType == Some("conceptual") || modelType == Some("logical") ==>
            !b.keyIcon && !b.pk && !b.fk && !b.required)
      && (modelType == Some("conceptual") ==> !b.typeLabel)
  {
  }

  const AccentColors: map<string, string> := map[
    "blue" := "rgb(59, 130, 246)",
    "green" := "rgb(16, 185, 129)",
    "purple" := "rgb(139, 92, 246)",
    "orange" := "rgb(249, 115, 22)",
    "red" := "rgb(239, 68, 68)",
    "teal" := "rgb(20, 184, 166)",
    "indigo" := "rgb(99, 102, 241)",
    "pink" := "rgb(236, 72, 153)"]

  /** `getEntityAccentColor`: the colour's value, blue's for an unknown name. */
  function AccentColor(color: string): (c: string)
    ensures c in AccentColors.Values
    ensures color in AccentColors ==> c == AccentColors[color]
    ensures color !in AccentColors ==> c == "rgb(59, 130, 246)"
  {
    if color in AccentColors then AccentColors[color] else AccentColors["blue"]
  }

  // -----------------------------------------------------------------------------------------------
  // Editing

  datatype Callbacks = Callbacks(onUpdateEntity: bool, onUpdateAttribute: bool)

  datatype Call =
    | UpdateEntity(entityId: string, name: string)
    | UpdateAttribute(attributeId: string, patch: AttributePatch)

  /** `handleSave`: the typed name as it is, with no trimming or emptiness check, whenever the
      callback and a node id exist. */
  function SaveCall(cb: Callbacks, id: string, editName: string): (c: Option<Call>)
    ensures c.Some? <==> cb.onUpdateEntity && id != ""
    ensures c.Some? ==> c.value == UpdateEntity(id, editName)
  {
    if cb.onUpdateEntity && id != "" then Some(UpdateEntity(id, editName)) else None
  }

  function Emit(c: Option<Call>): seq<Call> {
    if c.Some? then [c.value] else []
  }

  function AsPatch(a: Attribute): AttributePatch {
    AttributePatch(Some(a.id), Some(a.name), Some(a.attrType), Some(a.isPrimaryKey),
                   Some(a.isForeignKey), Some(a.isRequired))
  }

  /** `setEditAttributeData(prev => ({ ...prev, ...p }))`. */
  function Merge(prev: AttributePatch, p: AttributePatch): (r: AttributePatch)
    ensures p.name.Some? ==> r.name == p.name
    ensures p.name.None? ==> r.name == prev.name
    ensures p.attrType.Some? ==> r.attrType == p.attrType
    ensures p.attrType.None? ==> r.attrType == prev.attrType
    ensures r.id == (if p.id.Some? then p.id else prev.id)
    ensures r.isPrimaryKey == (if p.isPrimaryKey.Some? then p.isPrimaryKey else prev.isPrimaryKey)
    ensures r.isForeignKey == (if p.isForeignKey.Some? then p.isForeignKey else prev.isForeignKey)
    ensures r.isRequired == (if p.isRequired.Some? then p.isRequired else prev.isRequired)
  {
    AttributePatch(
      if p.id.Some? then p.id else prev.id,
      if p.name.Some? then p.name else prev.name,
      if p.attrType.Some? then p.attrType else prev.attrType,
      if p.isPrimaryKey.Some? then p.isPrimaryKey else prev.isPrimaryKey,
      if p.isForeignKey.Some? then p.isForeignKey else prev.isForeignKey,
      if p.isRequired.Some? then p.isRequired else prev.isRequired)
  }

  /** Merging the empty patch changes nothing, and merging twice is merging once. */
  lemma MergeLaws(prev: AttributePatch, p: AttributePatch)
    ensures Merge(prev, EmptyPatch) == prev
    ensures Merge(Merge(prev, p), p) == Merge(prev, p)
  {
  }

  /** The component's local state. `id` is the React Flow node id and `name` is `data.name`. */
  class EntityNodeEditor {
    const id: string
    const cb: Callbacks
    const name: string
    var isEditing: bool
    var editName: string
    var editingAttribute: Option<string>
    var editAttributeData: AttributePatch
    var calls: seq<Call>

    /** An attribute buffer is only ever filled while an attribute is being edited. */
    ghost predicate Valid()
      reads this
    {
      editingAttribute.None? ==> editAttributeData == EmptyPatch
    }

    constructor (id: string, cb: Callbacks, name: string)
      ensures Valid()
      ensures this.id == id && this.cb == cb && this.name == name
      ensures !isEditing && editName == name && editingAttribute == None && calls == []
    {
      this.id, this.cb, this.name := id, cb, name;
      isEditing, editName := false, name;
      editingAttribute, editAttributeData := None, EmptyPatch;
      calls := [];
    }

    method StartEditing()
      modifies this`isEditing
      ensures isEditing
    {
      isEditing := true;
    }

    method TypeName(s: string)
      modifies this`editName
      ensures editName == s
    {
      editName := s;
    }

    /** `handleSave`: editing always ends. */
    method Save()
      modifies this`isEditing, this`calls
      ensures !isEditing && calls == old(calls) + Emit(SaveCall(cb, id, editName))
    {
      calls := calls + Emit(SaveCall(cb, id, editName));
      isEditing := false;
    }

    /** `handleCancel`: the typed name is replaced by the entity's. */
    method Cancel()
      modifies this`isEditing, this`editName
      ensures !isEditing && editName == name
    {
      editName := name;
      isEditing := false;
    }

    /** `handleAttributeClick`: the clicked attribute is copied into the buffer. */
    method AttributeClick(a: Attribute)
      requires Valid()
      modifies this`editingAttribute, this`editAttributeData
      ensures Valid() && editingAttribute == Some(a.id) && editAttributeData == AsPatch(a)
    {
      editingAttribute, editAttributeData := Some(a.id), AsPatch(a);
    }

    /** One input, select or checkbox of the row being edited. */
    method EditBuffer(p: AttributePatch)
      requires Valid() && editingAttribute.Some?
      modifies this`editAttributeData
      ensures Valid() && editAttributeData == Merge(old(editAttributeData), p)
    {
      editAttributeData := Merge(editAttributeData, p);
    }

    /** `handleAttributeSave`: the buffer goes out only for an attribute being edited (a
        non-empty id) with the callback present; the buffer is cleared either way. */
    method AttributeSave()
      requires Valid()
      modifies this`editingAttribute, this`editAttributeData, this`calls
      ensures Valid() && editingAttribute == None && editAttributeData == EmptyPatch
      ensures calls == old(calls) +
        (if old(editingAttribute).Some? && old(editingAttribute).value != "" && cb.onUpdateAttribute
         then [UpdateAttribute(old(editingAttribute).value, old(editAttributeData))] else [])
    {
      if editingAttribute.Some? && editingAttribute.value != "" && cb.onUpdateAttribute {
        calls := calls + [UpdateAttribute(editingAttribute.value, editAttributeData)];
      }
      editingAttribute, editAttributeData := None, EmptyPatch;
    }

    /** `handleAttributeCancel`. */
    method AttributeCancel()
      requires Valid()
      modifies this`editingAttribute, this`editAttributeData
      ensures Valid() && editingAttribute == None && editAttributeData == EmptyPatch
    {
      editingAttribute, editAttributeData := None, EmptyPatch;
    }
  }

  /** A name of blanks is saved as typed: the entity is renamed to it. */
  method BlankNameIsSaved(id: string, oldName: string) returns (calls: seq<Call>, editing: bool)
    requires id != ""
    ensures calls == [UpdateEntity(id, "  ")] && !editing
  {
    var e := new EntityNodeEditor(id, Callbacks(true, true), oldName);
    e.StartEditing();
    e.TypeName("  ");
    e.Save();
    calls, editing := e.calls, e.isEditing;
  }

  /** Clicking a row, ticking PK and saving sends the whole row with only PK changed. */
  method ClickTickSave(a: Attribute) returns (calls: seq<Call>)
    requires a.id != ""
    ensures calls == [UpdateAttribute(a.id, AsPatch(a.(isPrimaryKey := true)))]
  {
    var e := new EntityNodeEditor("entity-1", Callbacks(true, true), "E");
    e.AttributeClick(a);
    e.EditBuffer(EmptyPatch.(isPrimaryKey := Some(true)));
    e.AttributeSave();
    calls := e.calls;
  }
}
