/**
 * The collaboration wire types (lib/websockets/types.ts): the message kinds, the envelope, a
 * connected user and a remote cursor, plus the JSON-like values an envelope's `data` holds and
 * the fifteen-colour presence palette of lib/websockets/useWebSocket.ts.
 */
module CollabTypes {
  import opened Wrappers

  /** The seventeen kinds of `CollaborationMessageType`, named by their wire strings, and
      `Other` for any other `type` string a parsed frame may carry. */
  datatype MessageType =
    | USER_JOINED | USER_LEFT | CONNECTED_USERS
    | NODE_CREATED | NODE_UPDATED | NODE_DELETED | NODE_LOCKED | NODE_UNLOCKED
    | EDGE_CREATED | EDGE_UPDATED | EDGE_DELETED
    | USER_CURSOR | SELECTION_CHANGED
    | ERROR | PING | PONG | LOCKED_NODES
    | Other(name: string)

  /** A JSON value inside an envelope's `data` (numbers are modelled as integers). */
  datatype Value =
    | VStr(s: string)
    | VNum(n: int)
    | VBool(b: bool)
    | VStrs(strs: seq<string>)
    | VUsers(users: seq<ConnectedUser>)
    | VObj(fields: map<string, Value>)
    | VNull

  type Payload = map<string, Value>

  /** `CollaborationMessage`. `userId` and `username` are optional because the envelopes the
      client builds (a `Partial<CollaborationMessage>`) leave them out. */
  datatype Msg = Msg(
    kind: MessageType,
    userId: Option<string>,
    username: Option<string>,
    projectId: string,
    data: Payload,
    timestamp: int)

  datatype ConnectedUser = ConnectedUser(
    userId: string,
    username: string,
    connectedAt: int,
    avatar: Option<string>,
    color: string,
    canEdit: Option<bool>)

  datatype UserCursor = Cursor(userId: string, username: string, x: int, y: int, color: string)

  /** `COLORS`, the palette presence colours are drawn from. */
  const Palette: seq<string> := [
    "#FF6B6B", "#4ECDC4", "#45B7D1", "#96CEB4", "#FECA57",
    "#FF9FF3", "#54A0FF", "#5F27CD", "#00D2D3", "#FF9F43",
    "#74B9FF", "#A29BFE", "#FD79A8", "#E17055", "#00B894"
  ]

  /** `Math.floor(Math.random() * COLORS.length)`: which entry is drawn is the caller's choice. */
  type PaletteIndex = i: nat | i < 15

  /** `getRandomColor()` for a given draw: always one of the fifteen palette colours. */
  function PaletteColor(i: PaletteIndex): (c: string)
    ensures c in Palette
  {
    Palette[i]
  }

  // Reading fields of `data`. A field of another JSON type than expected is read as absent.

  function StrField(data: Payload, key: string): Option<string> {
    if key in data && data[key].VStr? then Some(data[key].s) else None
  }

  function NumField(data: Payload, key: string): Option<int> {
    if key in data && data[key].VNum? then Some(data[key].n) else None
  }

  function BoolField(data: Payload, key: string): Option<bool> {
    if key in data && data[key].VBool? then Some(data[key].b) else None
  }

  function StrsField(data: Payload, key: string): Option<seq<string>> {
    if key in data && data[key].VStrs? then Some(data[key].strs) else None
  }

  function UsersField(data: Payload, key: string): Option<seq<ConnectedUser>> {
    if key in data && data[key].VUsers? then Some(data[key].users) else None
  }
}
