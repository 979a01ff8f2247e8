/**
 * The room registries of the collaboration client and the inbound dispatcher that updates them
 * (the `handleMessage` switch of lib/websockets/useWebSocket.ts). Each case there is a
 * previous-value to next-value updater over the presence roster, the cursor map, the locked-node
 * set or the last error; here each is a function, and `Dispatch` applies the one a message selects.
 */
module Registries {
  import opened Wrappers
  import opened CollabTypes
  import opened Sequences

  /** The state `handleMessage` updates. */
  datatype Room = Room(
    users: seq<ConnectedUser>,
    cursors: map<string, UserCursor>,
    locked: set<string>,
    error: Option<string>)

  predicate HasUser(users: seq<ConnectedUser>, id: string) {
    exists i :: 0 <= i < |users| && users[i].userId == id
  }

  /** No two roster entries share a user id. */
  predicate UniqueIds(users: seq<ConnectedUser>) {
    forall i, j :: 0 <= i < j < |users| ==> users[i].userId != users[j].userId
  }

  /** The USER_JOINED updater: the roster unchanged if that id is present, else `u` appended. */
  function AddUser(users: seq<ConnectedUser>, u: ConnectedUser): (r: seq<ConnectedUser>)
  {
    if HasUser(users, u.userId) then users else users + [u]
  }

  /** The USER_LEFT updater `prev.filter(u => u.userId !== id)`. */
  function RemoveUser(users: seq<ConnectedUser>, id: string): (r: seq<ConnectedUser>)
  {
    Filter(users, OtherThan(id))
  }

  function OtherThan(id: string): ConnectedUser -> bool {
    (u: ConnectedUser) => u.userId != id
  }

  /** A field read without a default: absent is read as the empty string. */
  function Text(o: Option<string>): string {
    o.GetOr("")
  }

  /** The roster entry USER_JOINED builds: ids from `data`, the arrival time, a palette colour. */
  function JoinedUser(m: Msg, now: int, color: PaletteIndex): ConnectedUser {
    ConnectedUser(
      Text(StrField(m.data, "userId")), Text(StrField(m.data, "username")),
      now, None, PaletteColor(color), BoolField(m.data, "canEdit"))
  }

  /** `message.data.color || getRandomColor()`. */
  function CursorColor(data: Payload, color: PaletteIndex): string {
    match StrField(data, "color")
    case Some(c) => if c != "" then c else PaletteColor(color)
    case None => PaletteColor(color)
  }

  /** The cursor USER_CURSOR stores, keyed by the sender's envelope `userId`. */
  function CursorOf(m: Msg, color: PaletteIndex): UserCursor {
    Cursor(
      Text(m.userId), Text(m.username),
      NumField(m.data, "x").GetOr(0), NumField(m.data, "y").GetOr(0),
      CursorColor(m.data, color))
  }

  function AsSet(ids: seq<string>): set<string> {
    set id | id in ids
  }

  /** The message kinds `handleMessage` acts on; every other kind falls through unchanged. */
  predicate Handled(k: MessageType) {
    k in {CONNECTED_USERS, USER_JOINED, USER_LEFT, USER_CURSOR, NODE_LOCKED, NODE_UNLOCKED,
          LOCKED_NODES, ERROR}
  }

  /** One inbound message applied to the registries. `now` stands for `Date.now()` and `color`
      for the palette entry `getRandomColor()` draws. */
  function Dispatch(r: Room, m: Msg, now: int, color: PaletteIndex): Room {
    match m.kind
    case CONNECTED_USERS => r.(users := UsersField(m.data, "users").GetOr([]))
    case USER_JOINED => r.(users := AddUser(r.users, JoinedUser(m, now, color)))
    case USER_LEFT =>
      var id := Text(StrField(m.data, "userId"));
      r.(users := RemoveUser(r.users, id), cursors := r.cursors - {id})
    case USER_CURSOR => r.(cursors := r.cursors[Text(m.userId) := CursorOf(m, color)])
    case NODE_LOCKED => r.(locked := r.locked + {Text(StrField(m.data, "nodeId"))})
    case NODE_UNLOCKED => r.(locked := r.locked - {Text(StrField(m.data, "nodeId"))})
    case LOCKED_NODES => r.(locked := AsSet(StrsField(m.data, "lockedNodes").GetOr([])))
    case ERROR => r.(error := StrField(m.data, "message"))
    case _ => r
  }

  // ---------------------------------------------------------------------------------------------
  // Roster updaters

  /** Removing a user keeps exactly the entries with another id, in their order. */
  lemma RemoveUserSpec(users: seq<ConnectedUser>, id: string)
    ensures forall u :: u in RemoveUser(users, id) <==> u in users && u.userId != id
    ensures !HasUser(RemoveUser(users, id), id)
    ensures SubsequenceOf(RemoveUser(users, id), users)
    ensures !HasUser(users, id) ==> RemoveUser(users, id) == users
  {
    FilterSpec(users, OtherThan(id));
    var r := RemoveUser(users, id);
    assert forall i :: 0 <= i < |r| ==> r[i] in r;
  }

  /** In a roster with unique ids, no user left after the head's id is filtered from the tail
      shares the head's id. */
  lemma HeadNotInRemovedTail(users: seq<ConnectedUser>, id: string)
    requires UniqueIds(users) && users != []
    ensures forall u :: u in RemoveUser(users[1..], id) ==> u.userId != users[0].userId
  {
    var tail := users[1..];
    RemoveUserSpec(tail, id);
    forall u | u in RemoveUser(tail, id) ensures u.userId != users[0].userId {
      var k :| 0 <= k < |tail| && tail[k] == u;
      assert users[k + 1] == u;
    }
  }

  /** USER_LEFT keeps user ids unique. */
  lemma {:induction false} RemoveUserKeepsUnique(users: seq<ConnectedUser>, id: string)
    requires UniqueIds(users)
    ensures UniqueIds(RemoveUser(users, id))
  {
    if users != [] {
      var tail := users[1..];
      assert UniqueIds(tail) by {
        forall i, j | 0 <= i < j < |tail| ensures tail[i].userId != tail[j].userId {
          assert tail[i] == users[i + 1] && tail[j] == users[j + 1];
        }
      }
      RemoveUserKeepsUnique(tail, id);
      var rest := RemoveUser(tail, id);
      if users[0].userId != id {
        HeadNotInRemovedTail(users, id);
        var r := [users[0]] + rest;
        assert RemoveUser(users, id) == r;
        forall i, j | 0 <= i < j < |r| ensures r[i].userId != r[j].userId {
          if i == 0 {
            assert r[j] == rest[j - 1] && rest[j - 1] in rest;
          } else {
            assert r[i] == rest[i - 1] && r[j] == rest[j - 1];
          }
        }
      } else {
        assert RemoveUser(users, id) == rest;
      }
    }
  }

  /** USER_JOINED appends exactly when the id is new, and keeps ids unique. */
  lemma AddUserSpec(users: seq<ConnectedUser>, u: ConnectedUser)
    ensures HasUser(users, u.userId) ==> AddUser(users, u) == users
    ensures !HasUser(users, u.userId) ==> AddUser(users, u) == users + [u]
    ensures HasUser(AddUser(users, u), u.userId)
    ensures UniqueIds(users) ==> UniqueIds(AddUser(users, u))
  {
    var r := AddUser(users, u);
    if !HasUser(users, u.userId) {
      assert r[|users|] == u;
    }
  }

  // ---------------------------------------------------------------------------------------------
  // Dispatch, case by case

  /** CONNECTED_USERS replaces the roster wholesale (with [] when `data.users` is absent). */
  lemma DispatchConnectedUsers(r: Room, m: Msg, now: int, color: PaletteIndex)
    requires m.kind == CONNECTED_USERS
    ensures Dispatch(r, m, now, color).users ==
            (if "users" in m.data && m.data["users"].VUsers? then m.data["users"].users else [])
    ensures Dispatch(r, m, now, color).(users := r.users) == r
  {
  }

  /** USER_JOINED adds a user only when its id is absent, so a roster with unique ids keeps them. */
  lemma DispatchUserJoined(r: Room, m: Msg, now: int, color: PaletteIndex)
    requires m.kind == USER_JOINED
    ensures var id := Text(StrField(m.data, "userId"));
      && HasUser(Dispatch(r, m, now, color).users, id)
      && (HasUser(r.users, id) ==> Dispatch(r, m, now, color) == r)
      && (!HasUser(r.users, id) ==>
            Dispatch(r, m, now, color).users == r.users + [JoinedUser(m, now, color)])
      && (UniqueIds(r.users) ==> UniqueIds(Dispatch(r, m, now, color).users))
    ensures Dispatch(r, m, now, color).(users := r.users) == r
  {
    AddUserSpec(r.users, JoinedUser(m, now, color));
  }

  /** USER_LEFT removes that user's roster entries and cursor, and nothing else. */
  lemma DispatchUserLeft(r: Room, m: Msg, now: int, color: PaletteIndex)
    requires m.kind == USER_LEFT
    ensures var id := Text(StrField(m.data, "userId"));
      var r' := Dispatch(r, m, now, color);
      && (forall u :: u in r'.users <==> u in r.users && u.userId != id)
      && SubsequenceOf(r'.users, r.users)
      && r'.cursors.Keys == r.cursors.Keys - {id}
      && (forall k :: k in r'.cursors ==> r'.cursors[k] == r.cursors[k])
      && r'.locked == r.locked && r'.error == r.error
      && (UniqueIds(r.users) ==> UniqueIds(r'.users))
  {
    var id := Text(StrField(m.data, "userId"));
    RemoveUserSpec(r.users, id);
    if UniqueIds(r.users) {
      RemoveUserKeepsUnique(r.users, id);
    }
  }

  /** USER_CURSOR upserts the sender's cursor with the envelope's sender id and name, the sent
      position and the sent colour, falling back to a palette colour when none or an empty one
      is given. */
  lemma DispatchUserCursor(r: Room, m: Msg, now: int, color: PaletteIndex)
    requires m.kind == USER_CURSOR
    ensures var r' := Dispatch(r, m, now, color);
      var key := Text(m.userId);
      && r'.cursors.Keys == r.cursors.Keys + {key}
      && r'.cursors[key].userId == key
      && r'.cursors[key].username == Text(m.username)
      && r'.cursors[key].x == NumField(m.data, "x").GetOr(0)
      && r'.cursors[key].y == NumField(m.data, "y").GetOr(0)
      && (StrField(m.data, "color").Some? && StrField(m.data, "color").value != "" ==>
            r'.cursors[key].color == StrField(m.data, "color").value)
      && (!(StrField(m.data, "color").Some? && StrField(m.data, "color").value != "") ==>
            r'.cursors[key].color in Palette)
      && (forall k :: k in r.cursors && k != key ==> r'.cursors[k] == r.cursors[k])
      && r'.users == r.users && r'.locked == r.locked && r'.error == r.error
  {
  }

  /** NODE_LOCKED adds the node id, NODE_UNLOCKED removes it, LOCKED_NODES replaces the set. */
  lemma DispatchLocks(r: Room, m: Msg, now: int, color: PaletteIndex)
    requires m.kind in {NODE_LOCKED, NODE_UNLOCKED, LOCKED_NODES}
    ensures var r' := Dispatch(r, m, now, color);
      var id := Text(StrField(m.data, "nodeId"));
      && (m.kind == NODE_LOCKED ==> r'.locked == r.locked + {id})
      && (m.kind == NODE_UNLOCKED ==> r'.locked == r.locked - {id})
      && (m.kind == LOCKED_NODES ==>
            forall n :: n in r'.locked <==>
              ("lockedNodes" in m.data && m.data["lockedNodes"].VStrs? && n in m.data["lockedNodes"].strs))
      && r' == r.(locked := r'.locked)
  {
  }

  /** Locking a node twice leaves the same set as locking it once; unlocking then frees it. */
  lemma LockIdempotent(r: Room, m: Msg, now: int, color: PaletteIndex, u: Msg, now': int, color': PaletteIndex)
    requires m.kind == NODE_LOCKED && u.kind == NODE_UNLOCKED
    requires StrField(u.data, "nodeId") == StrField(m.data, "nodeId")
    ensures var once := Dispatch(r, m, now, color);
      && Dispatch(once, m, now', color') == once
      && Text(StrField(m.data, "nodeId")) in once.locked
      && Dispatch(once, u, now', color').locked == r.locked - {Text(StrField(m.data, "nodeId"))}
  {
    var once := Dispatch(r, m, now, color);
    assert once.locked + {Text(StrField(m.data, "nodeId"))} == once.locked;
  }

  /** ERROR records `data.message`; every kind the switch does not handle (PONG among them)
      leaves the registries unchanged. */
  lemma DispatchErrorAndOthers(r: Room, m: Msg, now: int, color: PaletteIndex)
    ensures m.kind == ERROR ==> Dispatch(r, m, now, color) == r.(error := StrField(m.data, "message"))
    ensures !Handled(m.kind) ==> Dispatch(r, m, now, color) == r
  {
  }

  /** A roster snapshot [A, B], then A joins again and C joins, then B leaves: the repeated
      join changes nothing, the roster ends as [A, C] and B's cursor is gone. */
  lemma PresenceScenario(r: Room, a: ConnectedUser, b: ConnectedUser, snapshot: Msg, joinA: Msg,
                         joinC: Msg, leaveB: Msg, now: int, color: PaletteIndex)
    requires a.userId != b.userId
    requires snapshot.kind == CONNECTED_USERS && snapshot.data == map["users" := VUsers([a, b])]
    requires joinA.kind == USER_JOINED && StrField(joinA.data, "userId") == Some(a.userId)
    requires joinC.kind == USER_JOINED
    requires var c := Text(StrField(joinC.data, "userId")); c != a.userId && c != b.userId
    requires leaveB.kind == USER_LEFT && leaveB.data == map["userId" := VStr(b.userId)]
    ensures var r1 := Dispatch(r, snapshot, now, color);
      var r1' := Dispatch(r1, joinA, now, color);
      var r2 := Dispatch(r1', joinC, now, color);
      var r3 := Dispatch(r2, leaveB, now, color);
      && r1' == r1 && r1'.users == [a, b]
      && r2.users == [a, b, JoinedUser(joinC, now, color)]
      && r3.users == [a, JoinedUser(joinC, now, color)]
      && b.userId !in r3.cursors
  {
    var c := JoinedUser(joinC, now, color);
    var r1 := Dispatch(r, snapshot, now, color);
    assert r1.users == [a, b];
    assert HasUser(r1.users, a.userId) by {
      assert r1.users[0].userId == a.userId;
    }
    assert !HasUser([a, b], c.userId) by {
      forall i | 0 <= i < 2 ensures [a, b][i].userId != c.userId { }
    }
    var r2 := Dispatch(r1, joinC, now, color);
    assert r2.users == [a, b, c];
    assert StrField(leaveB.data, "userId") == Some(b.userId);
    assert [a, b, c][1..] == [b, c] && [b, c][1..] == [c] && [c][1..] == [];
    assert RemoveUser([c], b.userId) == [c];
    assert RemoveUser([b, c], b.userId) == [c];
    assert RemoveUser([a, b, c], b.userId) == [a] + [c];
  }
}
