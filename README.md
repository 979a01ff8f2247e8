# Collaborative ER / class diagram front end: a Dafny model

This project models the core of a web front end for drawing entity-relationship and UML class
diagrams, where several people edit the same project at once. It covers:

- **The collaboration session.** `useWebSocket` is modelled as the class
  `Session.CollaborationSession`. It holds one WebSocket and a queue of messages waiting for the
  socket to open, plus a heartbeat timer and a reconnect timer. It also keeps the room
  registries: the connected users, their cursors, the locked nodes and the last error.
  `Registries.Dispatch` is the pure dispatcher of the inbound case.
- **The `useCollaboration` façade** (module `Collaboration`): nine outbound verbs that build
  envelopes, and the router that passes inbound document messages to the editor's callbacks.
- **The diagram document** (module `Diagram`): `components/er-diagram-tool.tsx`. Each editing
  operation is a pure updater of the node and edge lists. The component state is the class
  `Diagram.DiagramTool`. Import and export file names are covered too.
- **The node editors and the edge view.** The class box (`ClassNode`) and the entity box
  (`EntityNode`) are modelled as edit-state machines that log the callback calls they make. The
  relationship edge's styling is plain functions (`RelationshipEdge`).
- **The presence strip** (`ConnectedUsers`).
- **The AI assistant panel** (`AIAssistant`): its chat transitions and the diagram context it
  posts.
- **Access control and requests.** The route guard and permission checks of `withAuth`
  (`Auth`). The request state machine and CRUD list of `useAuthenticatedRequest` (`Requests`).

Modelling conventions:

- Socket I/O, timers, clocks and randomness are inputs:
  - a parsed frame is an `Option<Msg>`;
  - each `Date.now()` call is its own parameter (`now`, or the stamps of a new node or edge);
  - `Math.random()` picks a palette index;
  - the timer a ref holds is a pending optional field, and the environment "fires" it by
    calling a method. A timer whose ref was overwritten before it fired is a stray: it is
    counted, and it can still fire.
- What the code hands to the outside world is recorded in log fields: frames sent, messages
  delivered, sockets created, close codes, callback calls and request bodies.
- Each React handler is one atomic step on the object's fields.
- The helper modules are:
  - `Wrappers` (`Option`);
  - `Sequences` (`filter`, `map`, `some`, `every`, `find` and `slice(-n)`, with their laws);
  - `Strings` (JavaScript white space, `trim`, `replace(/\s+/g, "_")` and decimal rendering);
  - `CollabTypes` (`lib/websockets/types.ts`).

Where the code and its documentation differ, the model follows the code. Where that happens:

- **`onopen` always empties the queue.** It sends the queued messages through `wsRef` only when
  the socket `wsRef` holds is open, and then empties the queue whatever happened. Nothing in the
  loop changes that socket's state, so a flush sends all of the queue or none of it. None is sent
  when `connect()` ran again while the opening socket was CONNECTING: `wsRef` then holds the
  newer socket, which is not open yet. The messages are then lost (`OnOpen`, `QueueThenFlush`,
  `Session.DisconnectLeavesStrayHeartbeat`).
- **Some close codes are only logged.** Codes 1006, 1008 and 4000 are logged and never set
  `error`. A `send` that throws is also only logged.
- **Both timers can be pending at once.** A manual `connect()` while a reconnect is pending,
  followed by the socket opening, leaves the heartbeat and the reconnect timer pending together
  (`Session.HeartbeatBesideReconnect`).
- **An overwritten timer is never cancelled.** `onclose` schedules a reconnect and `onopen`
  starts a heartbeat without clearing the timer the ref already holds. The older timer keeps
  running, and `disconnect()` cannot reach it. After two abnormal closes with a manual
  `connect()` between them, the first reconnect still opens a socket after `disconnect()`
  (`Session.DisconnectLeavesStrayReconnect`). After two `connect()` calls while CONNECTING, both
  sockets open and each `onopen` arms a heartbeat. The first interval is overwritten, survives
  `disconnect()` and pings every later socket (`Session.DisconnectLeavesStrayHeartbeat`).
- **The effect's cleanup is not `disconnect()`.** It cancels the referenced timers and closes
  the socket. It resets no ref and keeps `isConnected` and the registries
  (`Session.CollaborationSession.Cleanup`).
- **Façade envelopes carry no sender.** They have no `userId` or `username`.
- **`withAuth` reads role names.** It reads roles as objects with a `name`, while
  `types/auth.ts` declares them as strings.
- **`requiredRoles: []` sends every signed-in user to `/unauthorized`** (when no
  `requiredRole` is given).
- **A page may render while a redirect to `/unauthorized` is still pending.**
- **A 401 leaves `loading` true.**
- **The entity box saves a name as typed.** It does not trim it and does not refuse an empty
  name. The class box does both (it saves the trimmed name, and only when it is not blank).

## Model

| member | source | states |
|---|---|---|
| CollabTypes.PaletteColor | lib/websockets/useWebSocket.ts:300-306 | the colour a random pick yields is one of the fifteen palette entries |
| Registries.DispatchConnectedUsers | lib/websockets/useWebSocket.ts:39-41 | CONNECTED_USERS replaces the roster with `data.users` (or [] without it) and changes nothing else |
| Registries.AddUserSpec | lib/websockets/useWebSocket.ts:44-54 | joining appends a user exactly when its id is new, the id is present afterwards, and unique ids stay unique |
| Registries.DispatchUserJoined | lib/websockets/useWebSocket.ts:43-55 | USER_JOINED leaves the room unchanged for a known id, otherwise appends the joined user at the end; ids stay unique; nothing but the roster changes |
| Registries.RemoveUserSpec | lib/websockets/useWebSocket.ts:58 | the roster filter keeps exactly the users with another id, in order, and is the identity when the id is absent |
| Registries.RemoveUserKeepsUnique | lib/websockets/useWebSocket.ts:58 | removing a user keeps roster ids unique |
| Registries.DispatchUserLeft | lib/websockets/useWebSocket.ts:57-64 | USER_LEFT removes that user's entries and cursor only, keeps the other cursors, the locks and the error |
| Registries.DispatchUserCursor | lib/websockets/useWebSocket.ts:66-78 | USER_CURSOR upserts the cursor under the envelope's sender id, with that id and sender name, the sent position, and the sent colour when non-empty or a palette colour otherwise; every other cursor is kept |
| Registries.DispatchLocks | lib/websockets/useWebSocket.ts:80-94 | NODE_LOCKED adds the id, NODE_UNLOCKED removes it, LOCKED_NODES replaces the set by the sent list; nothing else changes |
| Registries.LockIdempotent | lib/websockets/useWebSocket.ts:80-90 | locking twice equals locking once, and unlocking afterwards frees the node |
| Registries.DispatchErrorAndOthers | lib/websockets/useWebSocket.ts:96-106 | ERROR records `data.message`; PONG and every unhandled type change nothing |
| Registries.PresenceScenario | lib/websockets/useWebSocket.ts:39-64 | snapshot [A,B]; a repeated join of A leaves the room unchanged; a join of C, then B leaving, gives [A,C] with B's cursor gone |
| Session.Ping | lib/websockets/useWebSocket.ts:172-183 | the heartbeat frame is a PING with blank user id and name, the session's project id, empty data and the current time |
| Session.ReconnectDecision | lib/websockets/useWebSocket.ts:230-236 | a normal close (1000) never reconnects, while the abnormal codes 1006, 1008 and 4000 reconnect an enabled session that has a project id and a token |
| Session.CollaborationSession.constructor | lib/websockets/useWebSocket.ts:14-23 | the initial state: no socket, nothing queued, empty registries, no timers |
| Session.CollaborationSession.SetEnabled | lib/websockets/useWebSocket.ts:32-35 | the latest `enabled` is what later guards read |
| Session.CollaborationSession.Connect | lib/websockets/useWebSocket.ts:127-241 | a guarded call changes nothing; otherwise one new CONNECTING socket, or the construction error when the constructor throws |
| Session.CollaborationSession.SendMessage | lib/websockets/useWebSocket.ts:112-122 | on an open socket the message is sent and the queue is unchanged; otherwise it is appended to the queue and nothing is sent |
| Session.CollaborationSession.OnOpen | lib/websockets/useWebSocket.ts:155-184 | connected, error cleared, the heartbeat armed at 30000 ms, and a heartbeat the ref still held counted as a stray; the whole queue sent in order when the socket `wsRef` holds is open, and none of it otherwise (a superseded socket's `onopen` while the newer one is still CONNECTING); the queue then empty |
| Session.CollaborationSession.HeartbeatFires | lib/websockets/useWebSocket.ts:172-183 | a PING is sent exactly when the socket is open |
| Session.CollaborationSession.OnMessage | lib/websockets/useWebSocket.ts:186-194 | an unparsable frame is dropped; a parsed one updates the registries by `Dispatch` and is delivered to the subscriber |
| Session.CollaborationSession.OnError | lib/websockets/useWebSocket.ts:196-204 | the error becomes "Error de conexión WebSocket" |
| Session.CollaborationSession.StrayHeartbeatFires | lib/websockets/useWebSocket.ts:172-183 | an overwritten heartbeat still pings whatever socket is open |
| Session.CollaborationSession.OnClose | lib/websockets/useWebSocket.ts:206-237 | disconnected, heartbeat cleared, and one 3000 ms reconnect scheduled exactly when `ShouldReconnect` holds; a reconnect the ref still held becomes a stray |
| Session.CollaborationSession.ReconnectFires | lib/websockets/useWebSocket.ts:233-235 | the timer is spent and `connect` runs under its guards, so a disabled session creates no socket |
| Session.CollaborationSession.StrayReconnectFires | lib/websockets/useWebSocket.ts:233-235 | an overwritten reconnect is spent and runs `connect` under its guards, like the referenced one |
| Session.CollaborationSession.Disconnect | lib/websockets/useWebSocket.ts:244-266 | the timers the refs hold cleared, the socket closed with 1000 and dropped, registries emptied, queue and error kept, stray timers untouched |
| Session.CollaborationSession.Cleanup | lib/websockets/useWebSocket.ts:275-285 | the referenced timers cancelled and the socket asked to close with 1000; the socket stays current, and the connected flag, registries, queue and strays are unchanged |
| Session.QueueThenFlush | lib/websockets/useWebSocket.ts:112-168 | two messages sent while connecting go out in order once the socket opens, and the queue ends empty |
| Session.CloseAndDisable | lib/websockets/useWebSocket.ts:206-236 | a normal close schedules no reconnect, an abnormal one schedules one, and a reconnect firing after disabling creates no socket |
| Session.HeartbeatBesideReconnect | lib/websockets/useWebSocket.ts:155-236 | a manual connect while a reconnect is pending, then open, leaves both timers pending |
| Session.DisconnectLeavesStrayReconnect | lib/websockets/useWebSocket.ts:206-266 | two abnormal closes with a connect between them leave one stray reconnect after `disconnect`, and it creates a socket |
| Session.DisconnectLeavesStrayHeartbeat | lib/websockets/useWebSocket.ts:127-266 | after two `connect()` calls while CONNECTING, the first `onopen` drops the queued message unsent, and its heartbeat, overwritten by the second `onopen`, survives `disconnect` and pings the next open socket |
| Session.CleanupKeepsRoom | lib/websockets/useWebSocket.ts:206-285 | after the cleanup the registries and connected flag are unchanged, and the socket's normal close schedules no reconnect |
| Collaboration.Envelope | hooks/useCollaboration.ts:60-139 | every verb's envelope carries the session's project id and the call time, and no sender fields |
| Collaboration.KindsDistinct | hooks/useCollaboration.ts:60-139 | the nine verbs send nine different message types |
| Collaboration.UpsertData | hooks/useCollaboration.ts:60-103 | create and update data is the payload plus the id key, every payload field unchanged and a payload id winning over the argument |
| Collaboration.IdOnlyData | hooks/useCollaboration.ts:78-139 | delete, lock and unlock data holds only the id |
| Collaboration.Broadcast | hooks/useCollaboration.ts:60-139 | each verb is one `sendMessage` of its envelope: sent on an open socket, queued otherwise |
| Collaboration.RouteCalls | hooks/useCollaboration.ts:30-51 | a callback is called exactly for the six node and edge types whose callback was supplied, with the id read from `nodeId` or `edgeId` |
| Collaboration.DocumentKindsBypassRegistries | lib/websockets/useWebSocket.ts:37-110 | node and edge messages leave the session's registries unchanged |
| Collaboration.UpsertRoundTrip | hooks/useCollaboration.ts:30-103 | a relayed create or update calls the matching callback with the sent id and data |
| Collaboration.DeleteRoundTrip | hooks/useCollaboration.ts:38-112 | a relayed delete calls the delete callback with the sent id |
| Collaboration.CursorRoundTrip | hooks/useCollaboration.ts:114-121 | a relayed cursor move stores the sender's cursor at the sent position |
| Collaboration.LockRoundTrip | hooks/useCollaboration.ts:123-139 | a relayed lock adds the node to the locked set, and a relayed unlock removes it |
| Diagram.MergeEntityLaws | components/er-diagram-tool.tsx:406-410 | the shallow merge: the empty patch changes nothing, the data kind and unnamed fields are kept, it is idempotent, and two merges compose |
| Diagram.UpdateEntitySpec | components/er-diagram-tool.tsx:406-414 | only the nodes with that id change, by the merge; ids, kinds, order and edge integrity are kept |
| Diagram.DeleteEntitySpec | components/er-diagram-tool.tsx:416-426 | the node and exactly its incident edges are removed, the rest kept in order, no edge left dangling |
| Diagram.AddAttributeSpec | components/er-diagram-tool.tsx:428-449 | one default attribute ("new_attribute", "VARCHAR(255)", no flags) is appended to that entity; everything else is unchanged |
| Diagram.AddAttributeUnknown | components/er-diagram-tool.tsx:439-440 | an unknown entity id changes nothing |
| Diagram.AttributeEditSpec | components/er-diagram-tool.tsx:451-475 | update merges into that attribute only and delete removes exactly it, in that entity only |
| Diagram.AttributeEditUnknown | components/er-diagram-tool.tsx:451-475 | attribute edits of an unknown entity change nothing |
| Diagram.RelationshipEditSpec | components/er-diagram-tool.tsx:477-496 | update merges into the edges with that id only; delete removes exactly them; edges stay well formed |
| Diagram.ColorFor | components/er-diagram-tool.tsx:331-333 | a new node's colour is one of the eight entity colours |
| Diagram.ColorCycle | components/er-diagram-tool.tsx:331-333 | colours repeat exactly modulo eight, so consecutive nodes differ |
| Diagram.NewNodeSpec | components/er-diagram-tool.tsx:331-404 | a new node is coloured by the node count, its id and data id carry their own clock readings and agree exactly when those do, and an entity starts with a required primary key |
| Diagram.NewEdgeSpec | components/er-diagram-tool.tsx:253-266 | the new edge joins the two handles' nodes as a "1" to "*" asociación, and its id equals its data id exactly when the two clock readings agree |
| Diagram.ConnectSpec | components/er-diagram-tool.tsx:253-271 | connecting two existing nodes keeps edges well formed, never duplicates a directed pair, and leaves them connected |
| Diagram.ImportedName | components/er-diagram-tool.tsx:172 | the imported name is the file's name when that is non-empty; when it is absent or empty it is "Proyecto Importado" |
| Diagram.ExportFileName | components/er-diagram-tool.tsx:136 | the download name ends in ".json" |
| Diagram.ExportFileNameSpec | components/er-diagram-tool.tsx:136 | the stem has no white space, is no longer than the name, keeps a name without white space, and re-exporting it is a fixed point |
| Diagram.ExportFileNameRuns | components/er-diagram-tool.tsx:136 | a maximal white-space run between two parts becomes one underscore, and the parts are replaced on their own, in order; parts without white space are copied |
| Diagram.ExportFileNameExample | components/er-diagram-tool.tsx:136 | "Mi  plan" downloads as "Mi_plan.json" |
| Strings.CollapseSpacesAppend | components/er-diagram-tool.tsx:136 | replacing every white-space run distributes over a concatenation whose left part does not end in white space |
| Strings.CollapseSpacesSplit | components/er-diagram-tool.tsx:136 | a maximal white-space run between two parts becomes exactly one "_" between their replacements |
| Strings.CollapseSpacesKeepsPrefix | components/er-diagram-tool.tsx:136 | a prefix without white space is kept as it is, in front of the replacement of the rest |
| Strings.TrimEmptyIff | components/AIAssistant.tsx:80 | `s.trim()` is empty exactly when `s` is nothing but white space |
| Strings.TrimHasNoOuterSpace | components/class-node.tsx:79-80 | a trimmed name has no white space at either end, and trimming changes exactly the names that have some there |
| Strings.TrimStartDropsSpaces | components/class-node.tsx:80 | what trimming drops at the front is white space only |
| Strings.TrimEndDropsSpaces | components/class-node.tsx:80 | what trimming drops at the end is white space only |
| Diagram.DiagramTool.constructor | components/er-diagram-tool.tsx:89-95 | an empty unmodified document named "Nuevo Proyecto" |
| Diagram.DiagramTool.UpdateEntity | components/er-diagram-tool.tsx:406-414 | the nodes become `UpdateEntityIn` of the old ones, and the document is modified |
| Diagram.DiagramTool.DeleteEntity | components/er-diagram-tool.tsx:416-426 | node and incident edges removed; the selection cleared only if it was that node |
| Diagram.DiagramTool.AddAttribute | components/er-diagram-tool.tsx:428-449 | the attribute is added; an unknown entity leaves even the modified flag alone |
| Diagram.DiagramTool.UpdateAttribute | components/er-diagram-tool.tsx:451-463 | the attribute is merged; an unknown entity changes nothing |
| Diagram.DiagramTool.DeleteAttribute | components/er-diagram-tool.tsx:465-475 | the attribute is removed; an unknown entity changes nothing |
| Diagram.DiagramTool.UpdateRelationship | components/er-diagram-tool.tsx:477-485 | the edges become `UpdateRelationshipIn` of the old ones, and the document is modified |
| Diagram.DiagramTool.DeleteRelationship | components/er-diagram-tool.tsx:487-496 | the edge is removed; the edge selection cleared only if it was that edge |
| Diagram.DiagramTool.AddEntity | components/er-diagram-tool.tsx:331-404 | exactly one new class or entity node is appended, and the document is modified |
| Diagram.DiagramTool.Connect | components/er-diagram-tool.tsx:253-271 | the default relationship is added unless the pair is already connected, and the document is modified |
| Diagram.DiagramTool.Import | components/er-diagram-tool.tsx:151-198 | a file without nodes or edges is rejected with nothing changed; otherwise the document is replaced, selections cleared, unmodified |
| Diagram.DiagramTool.NewProject | components/er-diagram-tool.tsx:200-222 | unsaved changes without confirmation keep everything; otherwise an empty "Nuevo proyecto" |
| Auth.RoleNames | hoc/withAuth.tsx:115 | the names of the user's roles in order, or none without a user or roles |
| Auth.PermissionsSpec | hoc/withAuth.tsx:107-122 | `hasRole` is membership in the role names; any-of and all-of are `hasRole` over the list, false and true on [] |
| Auth.UsePermissions | hoc/withAuth.tsx:124-131 | the admin, user and moderator flags are membership of ADMIN, USER and MODERATOR |
| Auth.LoginRedirectSpec | hoc/withAuth.tsx:65-74 | after loading, an unauthenticated visitor goes to `redirectTo` (default /login) with the encoded current path, plus the query only when it is non-empty |
| Auth.RequiredRolesOverride | hoc/withAuth.tsx:76-85 | a non-empty `requiredRoles` decides alone, as any-of |
| Auth.EmptyRequiredRolesDenies | hoc/withAuth.tsx:76-90 | `requiredRoles: []` without `requiredRole` sends every signed-in user to /unauthorized |
| Auth.RoleGateSpec | hoc/withAuth.tsx:76-90 | the role gate lets a user stay exactly when they hold the single role or any listed role; otherwise /unauthorized |
| Auth.RenderGateSpec | hoc/withAuth.tsx:93-96 | a rendering page was never sent to login, and nothing renders or redirects before mounting |
| Requests.ErrorMessage | hooks/useAuthenticatedRequest.ts:52-54 | the body's message, else the error's message, else "Error en la petición"; never empty |
| Requests.RequestState.constructor | hooks/useAuthenticatedRequest.ts:20-24 | no data, not loading, no error |
| Requests.RequestState.Execute | hooks/useAuthenticatedRequest.ts:28-64 | success stores and returns the data; a 401 logs out, returns null and stays loading; another failure records the message and rethrows |
| Requests.RequestState.Reset | hooks/useAuthenticatedRequest.ts:66-72 | back to the initial state |
| Requests.ReplaceIdSpec | hooks/useAuthenticatedRequest.ts:117 | every item with the id is replaced, the others stay in place, and an absent id changes nothing |
| Requests.RemoveIdSpec | hooks/useAuthenticatedRequest.ts:131 | exactly the items with the id are removed, the rest kept in order |
| Requests.Crud.constructor | hooks/useAuthenticatedRequest.ts:82-84 | an empty list beside a fresh request state |
| Requests.Crud.FetchAll | hooks/useAuthenticatedRequest.ts:86-92 | the list is replaced only when a list came back; the request state is as `Execute` leaves it, and only a 401 logs out |
| Requests.Crud.Create | hooks/useAuthenticatedRequest.ts:94-107 | the returned item is appended; a failure rethrows with the list unchanged |
| Requests.Crud.Update | hooks/useAuthenticatedRequest.ts:109-123 | the list becomes `ReplaceId` of the old one; a failure rethrows with the list unchanged |
| Requests.Crud.Remove | hooks/useAuthenticatedRequest.ts:125-136 | the list becomes `RemoveId` of the old one; a failure rethrows with the list unchanged |
| Requests.UnauthorizedStaysLoading | hooks/useAuthenticatedRequest.ts:28-50 | after a 401 the state reads loading, with no error and one logout |
| ClassNode.Symbol | components/class-node.tsx:51-55 | a visibility is drawn as one character |
| ClassNode.SymbolsDistinct | components/class-node.tsx:51-55 | public, private and protected are "+", "-" and "#", all different |
| ClassNode.NameSaveCall | components/class-node.tsx:78-83 | a rename is sent exactly with the callback, a node id and a name that is not blank, and it carries the trimmed name |
| ClassNode.AddCallsSpec | components/class-node.tsx:102-132 | adding sends, with the callback and an id, the old list plus one default method or attribute at its end |
| ClassNode.DeleteCallsSpec | components/class-node.tsx:134-150 | deleting an attribute or a method uses its delete callback when present, else sends the list without that id, in order; with neither callback nor class id it makes no call |
| ClassNode.ClassNodeEditor.constructor | components/class-node.tsx:58-63 | nothing is being edited, the typed name is the class name, and the buffers are empty |
| ClassNode.ClassNodeEditor.StartEditingName | components/class-node.tsx:234 | the name editor opens |
| ClassNode.ClassNodeEditor.TypeName | components/class-node.tsx:208 | the typed name is the input's value |
| ClassNode.ClassNodeEditor.NameSave | components/class-node.tsx:78-83 | logs `NameSaveCall`'s rename, if any, and always closes the editor |
| ClassNode.ClassNodeEditor.NameCancel | components/class-node.tsx:85-88 | the typed name is reset to the class name and the editor closes |
| ClassNode.ClassNodeEditor.AttributeFieldEdit | components/class-node.tsx:90-94 | a one-field attribute update is forwarded exactly when its callback exists |
| ClassNode.ClassNodeEditor.MethodFieldEdit | components/class-node.tsx:96-100 | a one-field method update is forwarded exactly when its callback exists |
| ClassNode.ClassNodeEditor.AddMethod | components/class-node.tsx:102-117 | logs `AddMethodCall`'s call, if any |
| ClassNode.ClassNodeEditor.AddAttribute | components/class-node.tsx:119-132 | logs `AddAttributeCall`'s call, if any |
| ClassNode.ClassNodeEditor.DeleteAttributeRow | components/class-node.tsx:134-141 | logs `DeleteAttributeCall`'s call, if any |
| ClassNode.ClassNodeEditor.DeleteMethodRow | components/class-node.tsx:143-150 | logs `DeleteMethodCall`'s call, if any |
| ClassNode.ClassNodeEditor.StartEditingAttribute | components/class-node.tsx:152-155 | the row's id is being edited and the buffer holds all its fields |
| ClassNode.ClassNodeEditor.EditAttributeBuffer | components/class-node.tsx:267-286 | an input overwrites its field of the buffer, keeping the others |
| ClassNode.ClassNodeEditor.SaveAttributeEdit | components/class-node.tsx:157-165 | the buffer is sent for a non-empty edited id when the callback exists; the editor ends idle with an empty buffer |
| ClassNode.ClassNodeEditor.CancelAttributeEdit | components/class-node.tsx:167-170 | idle with an empty buffer, nothing sent |
| ClassNode.ClassNodeEditor.StartEditingMethod | components/class-node.tsx:172-175 | the method's id is being edited and the buffer holds all its fields |
| ClassNode.ClassNodeEditor.EditMethodBuffer | components/class-node.tsx:361-387 | an input overwrites its field of the buffer, keeping the others |
| ClassNode.ClassNodeEditor.SaveMethodEdit | components/class-node.tsx:177-185 | the buffer is sent for a non-empty edited id when the callback exists; the editor ends idle with an empty buffer |
| ClassNode.ClassNodeEditor.CancelMethodEdit | components/class-node.tsx:187-190 | idle with an empty buffer, nothing sent |
| ClassNode.EditThenSave | components/class-node.tsx:152-165 | edit a row's name and save: the row is sent with only its name changed |
| EntityNode.GetDisplayFields | components/entity-node.tsx:87-99 | showing constraints implies showing the type |
| EntityNode.DisplayFieldsSpec | components/entity-node.tsx:87-99 | conceptual hides both, logical hides constraints, anything else (missing or empty included) shows both |
| EntityNode.RowBadges | components/entity-node.tsx:277-311 | the key icon and PK badge for a primary key, FK for a foreign key, "*" for required non-key attributes, all only with constraints shown; the type only with types shown and a type set |
| EntityNode.BadgesSpec | components/entity-node.tsx:277-311 | the key goes with the PK badge, "*" never beside PK, and no constraint badge outside the physical model |
| EntityNode.AccentColor | components/entity-node.tsx:73-85 | a known colour's value, blue's value otherwise |
| EntityNode.SaveCall | components/entity-node.tsx:42-48 | the rename is sent exactly with the callback and an id, carrying the typed name unchanged |
| EntityNode.Merge | components/entity-node.tsx:194-255 | a field the patch sets wins, every other field keeps the buffer's value |
| EntityNode.MergeLaws | components/entity-node.tsx:194-255 | the empty patch changes nothing and a patch applied twice is applied once |
| EntityNode.EntityNodeEditor.constructor | components/entity-node.tsx:37-40 | not editing, the typed name is the entity's, no attribute edited |
| EntityNode.EntityNodeEditor.StartEditing | components/entity-node.tsx:168 | the name editor opens |
| EntityNode.EntityNodeEditor.TypeName | components/entity-node.tsx:141 | the typed name is the input's value |
| EntityNode.EntityNodeEditor.Save | components/entity-node.tsx:42-48 | logs `SaveCall`'s rename, if any, and always closes the editor |
| EntityNode.EntityNodeEditor.Cancel | components/entity-node.tsx:50-53 | the typed name is restored and the editor closes |
| EntityNode.EntityNodeEditor.AttributeClick | components/entity-node.tsx:55-58 | the clicked attribute is being edited, fully copied into the buffer |
| EntityNode.EntityNodeEditor.EditBuffer | components/entity-node.tsx:194-255 | an input, select or checkbox merges its field into the buffer |
| EntityNode.EntityNodeEditor.AttributeSave | components/entity-node.tsx:60-66 | the buffer is sent only for an edited non-empty id with the callback; the buffer is cleared either way |
| EntityNode.EntityNodeEditor.AttributeCancel | components/entity-node.tsx:68-71 | nothing is sent and the buffer is cleared |
| EntityNode.BlankNameIsSaved | components/entity-node.tsx:42-48 | a name of blanks is sent as typed and the editor closes |
| EntityNode.ClickTickSave | components/entity-node.tsx:55-66 | click a row, tick PK and save: the whole row is sent with only PK changed |
| RelationshipEdge.MarkerEnd | components/relationship-edge.tsx:57-78 | each of the eight known types gets its own marker; a missing or unknown type gets the association marker |
| RelationshipEdge.MarkerEndSpec | components/relationship-edge.tsx:57-78 | every edge points at a marker its own definitions declare, and distinct known types get distinct markers |
| RelationshipEdge.StrokeStyle | components/relationship-edge.tsx:80-89 | dashed "6,3" exactly for dependency, "none" for every other type |
| RelationshipEdge.StrokeWidth | components/relationship-edge.tsx:91-102 | "4" when selected and "3" otherwise, whatever the type |
| RelationshipEdge.StrokeColor | components/relationship-edge.tsx:104-107 | always black |
| RelationshipEdge.Shown | components/relationship-edge.tsx:245-297 | a text is drawn exactly when it is present and non-empty |
| RelationshipEdge.EdgeTextsSpec | components/relationship-edge.tsx:245-297 | each text is drawn exactly when its field is non-empty, an edge without data draws none, and the tool's default relationship draws "1", "*" and its label |
| ConnectedUsers.StatusText | components/collaboration/ConnectedUsers.tsx:22-29 | "Conectado" exactly when connected, "Desconectado" exactly when not |
| ConnectedUsers.Tooltip | components/collaboration/ConnectedUsers.tsx:42 | the name with " (puede editar)" when the user may edit, " (solo lectura)" otherwise, an absent flag included |
| ConnectedUsers.StripSpec | components/collaboration/ConnectedUsers.tsx:37-53 | at most five avatars, for the first users in order; the "+k" badge appears exactly above five and counts the users without an avatar |
| ConnectedUsers.CountLabelSpec | components/collaboration/ConnectedUsers.tsx:56 | "Solo tú" exactly for an empty roster; otherwise the roster size plus one "usuarios", never "1 usuarios" |
| AIAssistant.ReplyText | components/AIAssistant.tsx:106-126 | the answer is the server's response, or the fixed apology when the request failed |
| AIAssistant.EntityName | components/AIAssistant.tsx:153-157 | never empty; "Unknown" for a dangling id; any other name belongs to an entity with that id |
| AIAssistant.EntityNameSpec | components/AIAssistant.tsx:153-157 | an end is named after the first entity with its id, or "Unknown" when that name is empty |
| AIAssistant.ContextSpec | components/AIAssistant.tsx:147-162 | one summary per entity (name and attribute names) and one description per relationship (end names, "source:target", type), both in order |
| AIAssistant.AppendExchange | components/AIAssistant.tsx:82-126 | a question and its answer keep the chat alternating after the welcome |
| AIAssistant.AssistantPanel.constructor | components/AIAssistant.tsx:58-69 | the chat holds only the welcome message, on the chat tab, idle |
| AIAssistant.AssistantPanel.TypeInput | components/AIAssistant.tsx:399 | the input is the field's value |
| AIAssistant.AssistantPanel.SendMessage | components/AIAssistant.tsx:79-130 | a blank input does nothing; otherwise the user message and exactly one answer are appended, the input cleared, loading ended, and the request carries the last ten earlier messages |
| AIAssistant.AssistantPanel.Ask | components/AIAssistant.tsx:82-100 | before the request is awaited: the user message is appended, the input cleared, loading set, and the request sent with the old input and the last ten messages from before it |
| AIAssistant.AssistantPanel.Receive | components/AIAssistant.tsx:102-129 | once the request settles: exactly one answer is appended, the server's or the apology, and loading ends |
| AIAssistant.AssistantPanel.GetSuggestions | components/AIAssistant.tsx:132-198 | fewer than two entities change nothing; otherwise the context is posted and the suggestions become the reply's, or [] when it has none; a failure keeps them |
| AIAssistant.AssistantPanel.OpenSuggestionsTab | components/AIAssistant.tsx:258-262 | the tab opens, and an analysis runs only with no suggestions yet and at least two entities |
| AIAssistant.TwoExchanges | components/AIAssistant.tsx:79-130 | the second request's history is the welcome plus the first exchange, and a failed second request is answered with the apology |

## Left out

- Real WebSocket I/O, JSON parsing and serialisation, and console logging. A frame arrives
  already parsed, as `Option<Msg>`. The URL that `connect` builds is not modelled.
- Session.CollaborationSession.OnMessage: a parsed frame has a `data` object in every case,
  because `Payload` is a map. In the source, a frame with no `data` at all makes CONNECTED_USERS,
  LOCKED_NODES and ERROR throw at once. `onmessage`'s catch swallows that, and the frame is
  neither applied nor passed on; the model dispatches and delivers it. The other kinds throw
  later, inside a React state updater, which is not modelled either.
- A `data` field that the hooks read without a default (`userId`, `nodeId`, `x`, `y`) reads as ""
  or 0 when absent or of another JSON type. JavaScript would carry `undefined`.
- Timer scheduling and wall-clock time. Timers are pending fields fired by methods, and each
  `Date.now()` / `new Date()` call is a parameter. A handler that calls the clock several times
  gets one parameter per call, and no order between the readings is assumed.
- JSON numbers are modelled as `int`, so `VNum` and the cursor's `x` and `y` cannot be
  fractional. These values are only passed through, and no property depends on them.
- Session.CollaborationSession.OnClose: acts on the current socket only. Of the events raised by
  an older socket after `connect()` replaced `wsRef` (while CONNECTING), only its `onopen` is
  modelled (`OnOpen` with `superseded`). Its `onclose`, `onerror` and `onmessage` are not.
- The mount and unmount effect of `useWebSocket`, as React lifecycle. Only its effect on the
  session is modelled: `connect` under the same guards, and its cleanup as `Cleanup`. React
  batching and stale-closure refs are also left out: each handler is one atomic step.
- `Math.random()` for colours: the palette index is a parameter.
- Floating-point geometry:
  - collision checks, spiral placement and random node positions in the diagram tool;
  - node positions themselves;
  - path choice and label offsets of the relationship edge;
  - the confidence colours of the assistant's suggestions.
- Diagram.ConnectSpec: React Flow's `addEdge` is modelled only by its endpoint and
  duplicate checks. Connection handles are not modelled.
- The export's Blob and download, the share link (`btoa`, clipboard), toasts, and the tool's and
  node editors' `isLoading` timers.
- A class node's attribute in the diagram tool carries the entity attribute fields (key and
  required flags false). The class-specific fields are optional there.
- `encodeURIComponent` is the parameter `encode`, and `toUpperCase` is the parameter `upper`.
- The axios instance, interceptors and `fetch`. Only a request's outcome is modelled, as an
  input.
- AIAssistant.AssistantPanel.SendMessage: a successful reply without a `response` field
  (JavaScript would store `undefined`) is not modelled. Nor is the input being disabled while
  loading.
- The assistant's auto-analysis effect, whose timing is React's. Its effect is
  `GetSuggestions`, which the tab button (`OpenSuggestionsTab`) also runs. A click from another
  tab with no suggestions and at least two entities therefore posts the diagram context twice in
  the source. The onClick posts once, then the effect posts again, because `activeTab` changed
  while `suggestions` is still empty. `OpenSuggestionsTab` records only the first post.
- EntityNode.EntityNodeEditor.EditBuffer: accepts any field. In the markup, the type select
  appears only when types are shown and the key checkboxes only when constraints are shown.
- The colour schemes of the class box.
- EntityNode.AccentColor: keys inherited from `Object.prototype` ("toString", "constructor",
  "__proto__") are not modelled. For those the source's lookup returns the inherited value and
  not blue's; the model only knows the eight colour keys.
- ConnectedUsers.Initial: `charAt(0)` takes the first UTF-16 code unit, while the model takes the
  first character of a `seq<char>`. They differ for a name that starts outside the Basic
  Multilingual Plane (an emoji, say): there the source shows half a surrogate pair.
- The markup and pass-through of the remaining components.
