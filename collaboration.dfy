/**
 * The collaboration façade of hooks/useCollaboration.ts: nine verbs, each turned into exactly one
 * envelope handed to the session's `sendMessage`, and an inbound router that passes node and edge
 * messages on to the document callbacks the caller supplied.
 */
module Collaboration {
  import opened Wrappers
  import opened CollabTypes
  import opened Registries
  import opened Session

  /** The façade's outbound verbs with their arguments. A payload is the object spread into
      `data` after the id. */
  datatype Verb =
    | NodeUpdate(target: string, payload: Payload)
    | NodeCreate(target: string, payload: Payload)
    | NodeDelete(target: string)
    | EdgeUpdate(target: string, payload: Payload)
    | EdgeCreate(target: string, payload: Payload)
    | EdgeDelete(target: string)
    | CursorMove(x: int, y: int)
    | LockNode(target: string)
    | UnlockNode(target: string)
  {
    predicate IsUpsert() {
      NodeUpdate? || NodeCreate? || EdgeUpdate? || EdgeCreate?
    }

    predicate IsIdOnly() {
      NodeDelete? || EdgeDelete? || LockNode? || UnlockNode?
    }

    predicate OnEdge() {
      EdgeUpdate? || EdgeCreate? || EdgeDelete?
    }
  }

  /** The message type each verb sends. */
  function Kind(v: Verb): MessageType {
    match v
    case NodeUpdate(_, _) => NODE_UPDATED
    case NodeCreate(_, _) => NODE_CREATED
    case NodeDelete(_) => NODE_DELETED
    case EdgeUpdate(_, _) => EDGE_UPDATED
    case EdgeCreate(_, _) => EDGE_CREATED
    case EdgeDelete(_) => EDGE_DELETED
    case CursorMove(_, _) => USER_CURSOR
    case LockNode(_) => NODE_LOCKED
    case UnlockNode(_) => NODE_UNLOCKED
  }

  /** The key the target id travels under. */
  function IdKey(v: Verb): string {
    if v.OnEdge() then "edgeId" else "nodeId"
  }

  /** The `data` object literal: `{ id, ...payload }`, `{ id }` or `{ x, y }`. A later key of a
      spread wins, as map union does. */
  function Data(v: Verb): Payload {
    match v
    case CursorMove(x, y) => map["x" := VNum(x), "y" := VNum(y)]
    case _ =>
      var head := map[IdKey(v) := VStr(v.target)];
      if v.IsUpsert() then head + v.payload else head
  }

  /** The envelope a verb sends at time `now`: its own type, the session's project id, the
      timestamp, and no sender fields (the server stamps those). */
  function Envelope(v: Verb, projectId: string, now: int): (m: Msg)
    ensures m.projectId == projectId && m.timestamp == now
    ensures m.userId == None && m.username == None
  {
    Msg(Kind(v), None, None, projectId, Data(v), now)
  }

  /** Distinct verbs send distinct message types. */
  lemma KindsDistinct(v: Verb, w: Verb)
    requires Kind(v) == Kind(w)
    ensures v.NodeUpdate? == w.NodeUpdate? && v.NodeCreate? == w.NodeCreate?
    ensures v.NodeDelete? == w.NodeDelete? && v.EdgeUpdate? == w.EdgeUpdate?
    ensures v.EdgeCreate? == w.EdgeCreate? && v.EdgeDelete? == w.EdgeDelete?
    ensures v.CursorMove? == w.CursorMove? && v.LockNode? == w.LockNode?
    ensures v.UnlockNode? == w.UnlockNode?
  {
  }

  /** Create and update: every payload field arrives unchanged, nothing else but the id key is
      added, and the id key holds the payload's own entry if it has one, else the argument. */
  lemma UpsertData(v: Verb)
    requires v.IsUpsert()
    ensures Data(v).Keys == v.payload.Keys + {IdKey(v)}
    ensures forall k :: k in v.payload ==> Data(v)[k] == v.payload[k]
    ensures Data(v)[IdKey(v)] ==
      if IdKey(v) in v.payload then v.payload[IdKey(v)] else VStr(v.target)
  {
  }

  /** Delete, lock and unlock send nothing but the id. */
  lemma IdOnlyData(v: Verb)
    requires v.IsIdOnly()
    ensures Data(v).Keys == {IdKey(v)} && Data(v)[IdKey(v)] == VStr(v.target)
  {
  }

  /** `broadcast*`, `lockNode`, `unlockNode`: one `sendMessage` with the verb's envelope, so one
      frame is transmitted or one is queued, depending on the socket. */
  method Broadcast(s: CollaborationSession, v: Verb, now: int, sendThrows: bool)
    modifies s`sent, s`queue
    ensures s.ws == Live(Open) ==>
      s.queue == old(s.queue) &&
      s.sent == old(s.sent) + (if sendThrows then [] else [Envelope(v, s.projectId, now)])
    ensures s.ws != Live(Open) ==>
      s.queue == old(s.queue) + [Envelope(v, s.projectId, now)] && s.sent == old(s.sent)
  {
    s.SendMessage(Envelope(v, s.projectId, now), sendThrows);
  }

  // -----------------------------------------------------------------------------------------------
  // Inbound routing

  /** Which of the optional document callbacks the caller supplied. */
  datatype Handlers = Handlers(
    onNodeUpdate: bool, onNodeCreate: bool, onNodeDelete: bool,
    onEdgeUpdate: bool, onEdgeCreate: bool, onEdgeDelete: bool)

  /** A callback invocation: the id read from `data` (absent if `data` has no such key) and, for
      create and update, the whole `data` object. */
  datatype Call =
    | NodeUpdated(id: Option<Value>, data: Payload)
    | NodeCreated(id: Option<Value>, data: Payload)
    | NodeDeleted(id: Option<Value>)
    | EdgeUpdated(id: Option<Value>, data: Payload)
    | EdgeCreated(id: Option<Value>, data: Payload)
    | EdgeDeleted(id: Option<Value>)

  function Field(data: Payload, key: string): Option<Value> {
    if key in data then Some(data[key]) else None
  }

  /** The façade's `handleMessage`: the callback call a parsed message causes, if any. */
  function Route(m: Msg, h: Handlers): (c: Option<Call>) {
    match m.kind
    case NODE_UPDATED =>
      if h.onNodeUpdate then Some(NodeUpdated(Field(m.data, "nodeId"), m.data)) else None
    case NODE_CREATED =>
      if h.onNodeCreate then Some(NodeCreated(Field(m.data, "nodeId"), m.data)) else None
    case NODE_DELETED =>
      if h.onNodeDelete then Some(NodeDeleted(Field(m.data, "nodeId"))) else None
    case EDGE_UPDATED =>
      if h.onEdgeUpdate then Some(EdgeUpdated(Field(m.data, "edgeId"), m.data)) else None
    case EDGE_CREATED =>
      if h.onEdgeCreate then Some(EdgeCreated(Field(m.data, "edgeId"), m.data)) else None
    case EDGE_DELETED =>
      if h.onEdgeDelete then Some(EdgeDeleted(Field(m.data, "edgeId"))) else None
    case _ => None
  }

  predicate DocumentKind(k: MessageType) {
    k in {NODE_UPDATED, NODE_CREATED, NODE_DELETED, EDGE_UPDATED, EDGE_CREATED, EDGE_DELETED}
  }

  /** A callback is called exactly for the six node and edge kinds, and only when supplied;
      presence, cursor, lock and system messages are ignored by this router. */
  lemma RouteCalls(m: Msg, h: Handlers)
    ensures Route(m, h).Some? <==>
      || (m.kind == NODE_UPDATED && h.onNodeUpdate) || (m.kind == NODE_CREATED && h.onNodeCreate)
      || (m.kind == NODE_DELETED && h.onNodeDelete) || (m.kind == EDGE_UPDATED && h.onEdgeUpdate)
      || (m.kind == EDGE_CREATED && h.onEdgeCreate) || (m.kind == EDGE_DELETED && h.onEdgeDelete)
    ensures !DocumentKind(m.kind) ==> Route(m, h) == None
  {
  }

  /** The document registries of the session and the façade's router split the message kinds:
      a node or edge message leaves the room registries as they were. */
  lemma DocumentKindsBypassRegistries(r: Room, m: Msg, now: int, color: PaletteIndex)
    requires DocumentKind(m.kind)
    ensures Dispatch(r, m, now, color) == r
  {
  }

  /** A received create or update, relayed from another client's verb, gives the receiving
      callback the id that was sent and, with the id key taken away, exactly the payload. */
  lemma {:induction false} UpsertRoundTrip(v: Verb, projectId: string, now: int,
                                           sender: Option<string>, name: Option<string>)
    requires v.IsUpsert() && IdKey(v) !in v.payload
    ensures var m := Envelope(v, projectId, now).(userId := sender, username := name);
      var c := Route(m, Handlers(true, true, true, true, true, true));
      && c.Some? && c.value.id == Some(VStr(v.target))
      && c.value.data - {IdKey(v)} == v.payload
  {
    var d := Data(v);
    UpsertData(v);
    assert d - {IdKey(v)} == v.payload;
  }

  /** A received delete gives the receiving callback the id that was sent. */
  lemma DeleteRoundTrip(v: Verb, projectId: string, now: int, sender: Option<string>)
    requires v.NodeDelete? || v.EdgeDelete?
    ensures var m := Envelope(v, projectId, now).(userId := sender);
      var c := Route(m, Handlers(true, true, true, true, true, true));
      c == Some(if v.NodeDelete? then NodeDeleted(Some(VStr(v.target)))
                else EdgeDeleted(Some(VStr(v.target))))
  {
  }

  /** `broadcastCursorMove(x, y)`, stamped with its sender by the server, is stored by the
      receivers' registries as that sender's cursor at (x, y). */
  lemma CursorRoundTrip(r: Room, x: int, y: int, projectId: string, now: int, sender: string,
                        name: string, color: PaletteIndex)
    ensures var m := Envelope(CursorMove(x, y), projectId, now).(userId := Some(sender),
                                                                 username := Some(name));
      var c := Dispatch(r, m, now, color).cursors;
      sender in c && c[sender].x == x && c[sender].y == y && c[sender].userId == sender
      && c[sender].color in Palette
  {
  }

  /** `lockNode(id)`, relayed, adds `id` to the receivers' locked set, and `unlockNode(id)` takes
      it out again. */
  lemma LockRoundTrip(r: Room, id: string, projectId: string, now: int, color: PaletteIndex)
    ensures id in Dispatch(r, Envelope(LockNode(id), projectId, now), now, color).locked
    ensures id !in Dispatch(r, Envelope(UnlockNode(id), projectId, now), now, color).locked
    ensures var locked := Dispatch(r, Envelope(LockNode(id), projectId, now), now, color);
      Dispatch(locked, Envelope(UnlockNode(id), projectId, now), now, color).locked ==
        r.locked - {id}
  {
  }
}
