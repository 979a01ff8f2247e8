/**
 * The class box of a class diagram (components/class-node.tsx): its name editor, the
 * attribute and method lists it edits through its callbacks, and the edit buffers of the row
 * being edited. The callbacks are the node's optional `data.on…` props; what the component asks
 * of them is logged in `calls`.
 */
module ClassNode {
  import opened Wrappers
  import opened Strings
  import opened Sequences

  datatype Visibility = Public | Private | Protected

  /** `visibilitySymbols`. */
  function Symbol(v: Visibility): (s: string)
    ensures |s| == 1
  {
    match v
    case Public => "+"
    case Private => "-"
    case Protected => "#"
  }

  /** The three visibilities get three different symbols. */
  lemma SymbolsDistinct(v: Visibility, w: Visibility)
    ensures Symbol(v) == Symbol(w) <==> v == w
    ensures Symbol(Public) == "+" && Symbol(Private) == "-" && Symbol(Protected) == "#"
  {
  }

  datatype ClassAttribute = ClassAttribute(
    id: string, name: string, attrType: string, visibility: Visibility, isStatic: bool,
    defaultValue: Option<string>)

  datatype ClassMethod = ClassMethod(
    id: string, name: string, returnType: string, parameters: string, visibility: Visibility,
    isStatic: bool, isAbstract: bool)

  /** `Partial<ClassAttribute>`. */
  datatype AttributePatch = AttributePatch(
    id: Option<string>, name: Option<string>, attrType: Option<string>,
    visibility: Option<Visibility>, isStatic: Option<bool>, defaultValue: Option<string>)

  /** `Partial<Method>`. */
  datatype MethodPatch = MethodPatch(
    id: Option<string>, name: Option<string>, returnType: Option<string>,
    parameters: Option<string>, visibility: Option<Visibility>, isStatic: Option<bool>,
    isAbstract: Option<bool>)

  /** `Partial<ClassData>` as this component builds it: one of name, attributes or methods. */
  datatype ClassPatch = ClassPatch(
    name: Option<string>, attributes: Option<seq<ClassAttribute>>, methods: Option<seq<ClassMethod>>)

  /** The props the component reads. */
  datatype ClassProps = ClassProps(
    name: string, attributes: seq<ClassAttribute>, methods: seq<ClassMethod>)

  /** Which optional callbacks the node's data carries. */
  datatype Callbacks = Callbacks(
    onUpdateClass: bool, onUpdateAttribute: bool, onUpdateMethod: bool,
    onDeleteAttribute: bool, onDeleteMethod: bool)

  datatype Call =
    | UpdateClass(classId: string, patch: ClassPatch)
    | UpdateAttribute(attributeId: string, attributePatch: AttributePatch)
    | UpdateMethod(methodId: string, methodPatch: MethodPatch)
    | DeleteAttribute(attributeId: string)
    | DeleteMethod(methodId: string)

  const EmptyAttributePatch: AttributePatch := AttributePatch(None, None, None, None, None, None)
  const EmptyMethodPatch: MethodPatch := MethodPatch(None, None, None, None, None, None, None)

  function Emit(c: Option<Call>): seq<Call> {
    if c.Some? then [c.value] else []
  }

  /** The call `handleNameSave` makes: a rename to the trimmed name, only with the callback, a
      node id and a name that is not all white space. */
  function NameSaveCall(cb: Callbacks, id: string, tempName: string): (c: Option<Call>)
    ensures c.Some? <==> cb.onUpdateClass && id != "" && !AllSpaces(tempName)
    ensures c.Some? ==>
      c.value == UpdateClass(id, ClassPatch(Some(Trim(tempName)), None, None)) && Trim(tempName) != ""
  {
    TrimEmptyIff(tempName);
    if cb.onUpdateClass && id != "" && Trim(tempName) != "" then
      Some(UpdateClass(id, ClassPatch(Some(Trim(tempName)), None, None)))
    else
      None
  }

  function NewMethod(now: nat): ClassMethod {
    ClassMethod("method-" + NatToString(now), "newMethod", "void", "", Public, false, false)
  }

  function NewClassAttribute(now: nat): ClassAttribute {
    ClassAttribute("attr-" + NatToString(now), "newAttribute", "String", Public, false, None)
  }

  /** The calls of `handleAddMethod` and `handleAddAttribute`: the list with one new default
      row at its end, sent only with the callback and a node id. */
  function AddMethodCall(cb: Callbacks, id: string, props: ClassProps, now: nat): Option<Call> {
    if cb.onUpdateClass && id != "" then
      Some(UpdateClass(id, ClassPatch(None, None, Some(props.methods + [NewMethod(now)]))))
    else None
  }

  function AddAttributeCall(cb: Callbacks, id: string, props: ClassProps, now: nat): Option<Call> {
    if cb.onUpdateClass && id != "" then
      Some(UpdateClass(id, ClassPatch(None, Some(props.attributes + [NewClassAttribute(now)]), None)))
    else None
  }

  /** Adding keeps every existing row and appends exactly one default one. */
  lemma AddCallsSpec(cb: Callbacks, id: string, props: ClassProps, now: nat)
    ensures var m := AddMethodCall(cb, id, props, now);
      && (m.Some? <==> cb.onUpdateClass && id != "")
      && (m.Some? ==> var ms := m.value.patch.methods.value;
            |ms| == |props.methods| + 1 && ms[..|props.methods|] == props.methods
            && ms[|props.methods|].name == "newMethod" && ms[|props.methods|].returnType == "void"
            && ms[|props.methods|].visibility == Public)
    ensures var a := AddAttributeCall(cb, id, props, now);
      && (a.Some? <==> cb.onUpdateClass && id != "")
      && (a.Some? ==> var as_ := a.value.patch.attributes.value;
            |as_| == |props.attributes| + 1 && as_[..|props.attributes|] == props.attributes
            && as_[|props.attributes|].name == "newAttribute" && as_[|props.attributes|].attrType == "String")
  {
  }

  function NotAttribute(attrId: string): ClassAttribute -> bool {
    (a: ClassAttribute) => a.id != attrId
  }

  function NotMethod(methodId: string): ClassMethod -> bool {
    (m: ClassMethod) => m.id != methodId
  }

  /** `handleDeleteAttribute`: the delete callback if there is one, else the list without that
      id through `onUpdateClass`, else nothing. */
  function DeleteAttributeCall(cb: Callbacks, id: string, props: ClassProps, attrId: string): Option<Call> {
    if cb.onDeleteAttribute then Some(DeleteAttribute(attrId))
    else if cb.onUpdateClass && id != "" then
      Some(UpdateClass(id, ClassPatch(None, Some(Filter(props.attributes, NotAttribute(attrId))), None)))
    else None
  }

  function DeleteMethodCall(cb: Callbacks, id: string, props: ClassProps, methodId: string): Option<Call> {
    if cb.onDeleteMethod then Some(DeleteMethod(methodId))
    else if cb.onUpdateClass && id != "" then
      Some(UpdateClass(id, ClassPatch(None, None, Some(Filter(props.methods, NotMethod(methodId))))))
    else None
  }

  /** Deleting prefers the delete callback; the fallback list keeps exactly the other rows in
      their order. */
  lemma DeleteCallsSpec(cb: Callbacks, id: string, props: ClassProps, rowId: string)
    ensures cb.onDeleteAttribute ==> DeleteAttributeCall(cb, id, props, rowId) == Some(DeleteAttribute(rowId))
    ensures cb.onDeleteMethod ==> DeleteMethodCall(cb, id, props, rowId) == Some(DeleteMethod(rowId))
    ensures !cb.onDeleteAttribute && cb.onUpdateClass && id != "" ==>
      var c := DeleteAttributeCall(cb, id, props, rowId);
      && c.Some? && c.value.UpdateClass? && c.value.classId == id
      && var rest := c.value.patch.attributes.value;
      && (forall a :: a in rest <==> a in props.attributes && a.id != rowId)
      && SubsequenceOf(rest, props.attributes)
    ensures !cb.onDeleteMethod && cb.onUpdateClass && id != "" ==>
      var c := DeleteMethodCall(cb, id, props, rowId);
      && c.Some? && c.value.UpdateClass? && c.value.classId == id
      && var rest := c.value.patch.methods.value;
      && (forall m :: m in rest <==> m in props.methods && m.id != rowId)
      && SubsequenceOf(rest, props.methods)
    ensures !cb.onDeleteAttribute && !(cb.onUpdateClass && id != "") ==>
      DeleteAttributeCall(cb, id, props, rowId) == None
    ensures !cb.onDeleteMethod && !(cb.onUpdateClass && id != "") ==>
      DeleteMethodCall(cb, id, props, rowId) == None
  {
    FilterSpec(props.attributes, NotAttribute(rowId));
    FilterSpec(props.methods, NotMethod(rowId));
  }

  function AttributeAsPatch(a: ClassAttribute): AttributePatch {
    AttributePatch(Some(a.id), Some(a.name), Some(a.attrType), Some(a.visibility), Some(a.isStatic),
                   a.defaultValue)
  }

  function MethodAsPatch(m: ClassMethod): MethodPatch {
    MethodPatch(Some(m.id), Some(m.name), Some(m.returnType), Some(m.parameters), Some(m.visibility),
                Some(m.isStatic), Some(m.isAbstract))
  }

  /** `{ ...prev, ...p }` on a buffer. */
  function MergeAttributePatch(prev: AttributePatch, p: AttributePatch): AttributePatch {
    AttributePatch(
      if p.id.Some? then p.id else prev.id, if p.name.Some? then p.name else prev.name,
      if p.attrType.Some? then p.attrType else prev.attrType,
      if p.visibility.Some? then p.visibility else prev.visibility,
      if p.isStatic.Some? then p.isStatic else prev.isStatic,
      if p.defaultValue.Some? then p.defaultValue else prev.defaultValue)
  }

  function MergeMethodPatch(prev: MethodPatch, p: MethodPatch): MethodPatch {
    MethodPatch(
      if p.id.Some? then p.id else prev.id, if p.name.Some? then p.name else prev.name,
      if p.returnType.Some? then p.returnType else prev.returnType,
      if p.parameters.Some? then p.parameters else prev.parameters,
      if p.visibility.Some? then p.visibility else prev.visibility,
      if p.isStatic.Some? then p.isStatic else prev.isStatic,
      if p.isAbstract.Some? then p.isAbstract else prev.isAbstract)
  }

  /** The component's local state. `id` is the React Flow node id. */
  class ClassNodeEditor {
    const id: string
    const cb: Callbacks
    const props: ClassProps
    var editingName: bool
    var tempName: string
    var editingAttribute: Option<string>
    var tempAttribute: AttributePatch
    var editingMethod: Option<string>
    var tempMethod: MethodPatch
    var calls: seq<Call>

    /** No row is being edited without its buffer, and an idle buffer is empty. */
    ghost predicate Valid()
      reads this
    {
      && (editingAttribute.None? ==> tempAttribute == EmptyAttributePatch)
      && (editingMethod.None? ==> tempMethod == EmptyMethodPatch)
    }

    constructor (id: string, cb: Callbacks, props: ClassProps)
      ensures Valid()
      ensures this.id == id && this.cb == cb && this.props == props
      ensures !editingName && tempName == props.name && calls == []
      ensures editingAttribute == None && editingMethod == None
    {
      this.id, this.cb, this.props := id, cb, props;
      editingName, tempName := false, props.name;
      editingAttribute, tempAttribute := None, EmptyAttributePatch;
      editingMethod, tempMethod := None, EmptyMethodPatch;
      calls := [];
    }

    method StartEditingName()
      modifies this`editingName
      ensures editingName
    {
      editingName := true;
    }

    method TypeName(s: string)
      modifies this`tempName
      ensures tempName == s
    {
      tempName := s;
    }

    /** `handleNameSave`: editing ends whether or not a rename was sent. */
    method NameSave()
      modifies this`editingName, this`calls
      ensures !editingName && calls == old(calls) + Emit(NameSaveCall(cb, id, tempName))
    {
      calls := calls + Emit(NameSaveCall(cb, id, tempName));
      editingName := false;
    }

    /** `handleNameCancel`: the typed name is thrown away. */
    method NameCancel()
      modifies this`editingName, this`tempName
      ensures !editingName && tempName == props.name
    {
      tempName := props.name;
      editingName := false;
    }

    /** `handleAttributeEdit` / `handleMethodEdit`: a one-field update, if the callback exists. */
    method AttributeFieldEdit(attrId: string, p: AttributePatch)
      modifies this`calls
      ensures calls == old(calls) + (if cb.onUpdateAttribute then [UpdateAttribute(attrId, p)] else [])
    {
      if cb.onUpdateAttribute {
        calls := calls + [UpdateAttribute(attrId, p)];
      }
    }

    method MethodFieldEdit(methodId: string, p: MethodPatch)
      modifies this`calls
      ensures calls == old(calls) + (if cb.onUpdateMethod then [UpdateMethod(methodId, p)] else [])
    {
      if cb.onUpdateMethod {
        calls := calls + [UpdateMethod(methodId, p)];
      }
    }

    method AddMethod(now: nat)
      modifies this`calls
      ensures calls == old(calls) + Emit(AddMethodCall(cb, id, props, now))
    {
      calls := calls + Emit(AddMethodCall(cb, id, props, now));
    }

    method AddAttribute(now: nat)
      modifies this`calls
      ensures calls == old(calls) + Emit(AddAttributeCall(cb, id, props, now))
    {
      calls := calls + Emit(AddAttributeCall(cb, id, props, now));
    }

    method DeleteAttributeRow(attrId: string)
      modifies this`calls
      ensures calls == old(calls) + Emit(DeleteAttributeCall(cb, id, props, attrId))
    {
      calls := calls + Emit(DeleteAttributeCall(cb, id, props, attrId));
    }

    method DeleteMethodRow(methodId: string)
      modifies this`calls
      ensures calls == old(calls) + Emit(DeleteMethodCall(cb, id, props, methodId))
    {
      calls := calls + Emit(DeleteMethodCall(cb, id, props, methodId));
    }

    /** `startEditingAttribute`: the row's id and a copy of all its fields. */
    method StartEditingAttribute(a: ClassAttribute)
      modifies this`editingAttribute, this`tempAttribute
      requires Valid()
      ensures Valid()
      ensures editingAttribute == Some(a.id) && tempAttribute == AttributeAsPatch(a)
    {
      editingAttribute, tempAttribute := Some(a.id), AttributeAsPatch(a);
    }

    /** An input of the row being edited changes one field of the buffer. */
    method EditAttributeBuffer(p: AttributePatch)
      requires Valid() && editingAttribute.Some?
      modifies this`tempAttribute
      ensures Valid() && tempAttribute == MergeAttributePatch(old(tempAttribute), p)
    {
      tempAttribute := MergeAttributePatch(tempAttribute, p);
    }

    /** `saveAttributeEdit`: the buffer is sent for the row being edited (an id that is not
        empty) if the callback exists; the editor is then idle with an empty buffer. */
    method SaveAttributeEdit()
      requires Valid()
      modifies this`editingAttribute, this`tempAttribute, this`calls
      ensures Valid() && editingAttribute == None && tempAttribute == EmptyAttributePatch
      ensures calls == old(calls) +
        (if old(editingAttribute).Some? && old(editingAttribute).value != "" && cb.onUpdateAttribute
         then [UpdateAttribute(old(editingAttribute).value, old(tempAttribute))] else [])
    {
      if editingAttribute.Some? && editingAttribute.value != "" && cb.onUpdateAttribute {
        calls := calls + [UpdateAttribute(editingAttribute.value, tempAttribute)];
      }
      editingAttribute, tempAttribute := None, EmptyAttributePatch;
    }

    method CancelAttributeEdit()
      requires Valid()
      modifies this`editingAttribute, this`tempAttribute
      ensures Valid() && editingAttribute == None && tempAttribute == EmptyAttributePatch
    {
      editingAttribute, tempAttribute := None, EmptyAttributePatch;
    }

    method StartEditingMethod(m: ClassMethod)
      requires Valid()
      modifies this`editingMethod, this`tempMethod
      ensures Valid()
      ensures editingMethod == Some(m.id) && tempMethod == MethodAsPatch(m)
    {
      editingMethod, tempMethod := Some(m.id), MethodAsPatch(m);
    }

    method EditMethodBuffer(p: MethodPatch)
      requires Valid() && editingMethod.Some?
      modifies this`tempMethod
      ensures Valid() && tempMethod == MergeMethodPatch(old(tempMethod), p)
    {
      tempMethod := MergeMethodPatch(tempMethod, p);
    }

    /** `saveMethodEdit`, as for attributes. */
    method SaveMethodEdit()
      requires Valid()
      modifies this`editingMethod, this`tempMethod, this`calls
      ensures Valid() && editingMethod == None && tempMethod == EmptyMethodPatch
      ensures calls == old(calls) +
        (if old(editingMethod).Some? && old(editingMethod).value != "" && cb.onUpdateMethod
         then [UpdateMethod(old(editingMethod).value, old(tempMethod))] else [])
    {
      if editingMethod.Some? && editingMethod.value != "" && cb.onUpdateMethod {
        calls := calls + [UpdateMethod(editingMethod.value, tempMethod)];
      }
      editingMethod, tempMethod := None, EmptyMethodPatch;
    }

    method CancelMethodEdit()
      requires Valid()
      modifies this`editingMethod, this`tempMethod
      ensures Valid() && editingMethod == None && tempMethod == EmptyMethodPatch
    {
      editingMethod, tempMethod := None, EmptyMethodPatch;
    }
  }

  /** Editing a row's name and saving sends that row's id with its other fields as they were:
      a save right after starting to edit forwards the row unchanged. */
  method EditThenSave(a: ClassAttribute, newName: string)
    returns (calls: seq<Call>)
    requires a.id != ""
    ensures calls == [UpdateAttribute(a.id, AttributeAsPatch(a.(name := newName)))]
  {
    var cb := Callbacks(true, true, true, true, true);
    var e := new ClassNodeEditor("class-1", cb, ClassProps("C", [a], []));
    e.StartEditingAttribute(a);
    e.EditAttributeBuffer(EmptyAttributePatch.(name := Some(newName)));
    e.SaveAttributeEdit();
    calls := e.calls;
  }
}
