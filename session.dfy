/**
 * The collaboration session client of lib/websockets/useWebSocket.ts: one socket, an outbound
 * queue, a heartbeat and a reconnect timer, and the room registries. Socket and timer callbacks
 * are methods, each one atomic step on the object's fields. The socket is an abstract ready
 * state; the environment's view of it is kept in log fields: what is handed to `send` in `sent`,
 * what is passed on to the `onMessage` subscriber in `delivered`, the sockets constructed, the
 * codes passed to `close` and the reconnects scheduled. The timer a ref holds is an optional
 * field holding its delay, cleared when cancelled; a pending timer "fires" when the environment
 * calls its method. A timer whose handle was overwritten in its ref before it fired or was
 * cancelled is a stray: nothing can cancel it any more, and it is only counted.
 */
module Session {
  import opened Wrappers
  import opened CollabTypes
  import opened Registries

  datatype ReadyState = Connecting | Open | Closing | Closed

  /** `wsRef.current`: no socket, or a socket in some ready state. */
  datatype Socket = NoSocket | Live(state: ReadyState)

  const HeartbeatPeriodMs: nat := 30000
  const ReconnectDelayMs: nat := 3000
  const NormalClosure: int := 1000
  const PlaceholderProject: string := "temp-project"
  const ConnectionError: string := "Error de conexión WebSocket"
  const ConstructionError: string := "No se pudo establecer la conexión"

  /** The guards of `connect`: a real project id, enabled, a token, and no socket already open. */
  predicate MayConnect(projectId: string, enabled: bool, token: string, ws: Socket) {
    && projectId != "" && projectId != PlaceholderProject
    && enabled
    && token != ""
    && ws != Live(Open)
  }

  /** The reconnect decision of the close handler. */
  predicate ShouldReconnect(code: int, enabled: bool, projectId: string, token: string) {
    code != NormalClosure && enabled && projectId != "" && token != ""
  }

  /** The heartbeat envelope: blank sender fields, the session's project id, empty data. */
  function Ping(projectId: string, now: int): (m: Msg)
    ensures m.kind == PING && m.userId == Some("") && m.username == Some("")
    ensures m.projectId == projectId && m.data == map[] && m.timestamp == now
  {
    Msg(PING, Some(""), Some(""), projectId, map[], now)
  }

  function Min(a: nat, b: nat): nat {
    if a <= b then a else b
  }

  /** Only an abnormal close of an enabled session with a project id and a token reconnects. */
  lemma ReconnectDecision(code: int, enabled: bool, projectId: string, token: string)
    ensures code == 1000 ==> !ShouldReconnect(code, enabled, projectId, token)
    ensures code in {1006, 1008, 4000} && enabled && projectId != "" && token != "" ==>
      ShouldReconnect(code, enabled, projectId, token)
  {
  }

  class CollaborationSession {
    const projectId: string
    const token: string
    var enabled: bool

    var ws: Socket
    var isConnected: bool
    var queue: seq<Msg>

    var users: seq<ConnectedUser>
    var cursors: map<string, UserCursor>
    var locked: set<string>
    var error: Option<string>

    /** The live timers `heartbeatIntervalRef` and `reconnectTimeoutRef` hold, with their delay
        in milliseconds. */
    var heartbeat: Option<nat>
    var reconnect: Option<nat>
    /** Intervals still pinging and timeouts still pending whose ref was overwritten. */
    var strayHeartbeats: nat
    var strayReconnects: nat

    var sent: seq<Msg>
    var delivered: seq<Msg>
    var socketsCreated: nat
    var closeCodes: seq<int>
    var reconnectsScheduled: nat

    /** The referenced heartbeat runs only while the session counts as connected, and each
        referenced timer holds its fixed delay. */
    ghost predicate Valid()
      reads this
    {
      && (heartbeat.Some? ==> isConnected)
      && (heartbeat.Some? ==> heartbeat.value == HeartbeatPeriodMs)
      && (reconnect.Some? ==> reconnect.value == ReconnectDelayMs)
    }

    /** The registries, as `handleMessage` sees them. */
    function Registry(): Room
      reads this
    {
      Room(users, cursors, locked, error)
    }

    /** The hook's initial state: nothing connected, nothing queued, no timers. */
    constructor (projectId: string, token: string, enabled: bool)
      ensures Valid()
      ensures this.projectId == projectId && this.token == token && this.enabled == enabled
      ensures ws == NoSocket && !isConnected && queue == []
      ensures users == [] && cursors == map[] && locked == {} && error == None
      ensures heartbeat == None && reconnect == None && strayHeartbeats == 0 && strayReconnects == 0
      ensures sent == [] && delivered == [] && socketsCreated == 0 && closeCodes == []
      ensures reconnectsScheduled == 0
    {
      this.projectId := projectId;
      this.token := token;
      this.enabled := enabled;
      ws := NoSocket;
      isConnected := false;
      queue := [];
      users, cursors, locked, error := [], map[], {}, None;
      heartbeat, reconnect := None, None;
      strayHeartbeats, strayReconnects := 0, 0;
      sent, delivered, socketsCreated, closeCodes := [], [], 0, [];
      reconnectsScheduled := 0;
    }

    /** The props effect that copies `enabled` into `enabledRef`. */
    method SetEnabled(b: bool)
      modifies this`enabled
      ensures enabled == b
    {
      enabled := b;
    }

    /** `connect()`. Past its guards it creates a socket in CONNECTING, unless the constructor
        throws (`constructorThrows`), which is caught and recorded as an error. */
    method Connect(constructorThrows: bool)
      modifies this`ws, this`error, this`socketsCreated
      ensures !MayConnect(projectId, enabled, token, old(ws)) ==>
        ws == old(ws) && error == old(error) && socketsCreated == old(socketsCreated)
      ensures MayConnect(projectId, enabled, token, old(ws)) && !constructorThrows ==>
        ws == Live(Connecting) && error == old(error) && socketsCreated == old(socketsCreated) + 1
      ensures MayConnect(projectId, enabled, token, old(ws)) && constructorThrows ==>
        ws == old(ws) && error == Some(ConstructionError) && socketsCreated == old(socketsCreated)
    {
      if projectId == "" || projectId == PlaceholderProject {
        return;
      }
      if !enabled {
        return;
      }
      if token == "" {
        return;
      }
      if ws == Live(Open) {
        return;
      }
      if constructorThrows {
        error := Some(ConstructionError);
      } else {
        ws := Live(Connecting);
        socketsCreated := socketsCreated + 1;
      }
    }

    /** `sendMessage`: on an open socket the message is sent (a `send` that throws is only
        logged), otherwise it is appended to the queue. */
    method SendMessage(m: Msg, sendThrows: bool)
      modifies this`sent, this`queue
      ensures ws == Live(Open) ==>
        queue == old(queue) && sent == old(sent) + (if sendThrows then [] else [m])
      ensures ws != Live(Open) ==> queue == old(queue) + [m] && sent == old(sent)
    {
      if ws == Live(Open) {
        if !sendThrows {
          sent := sent + [m];
        }
      } else {
        queue := queue + [m];
      }
    }

    /** `onopen` of a socket the hook created. `superseded` says that `connect()` ran again while
        that socket was CONNECTING, so `wsRef` now holds a newer socket, or none after
        `disconnect()`. Connected, error cleared, the heartbeat armed. The queue is flushed
        through `wsRef` in order: every message when the socket `wsRef` holds is open, none
        otherwise, since nothing in the loop changes that state. The queue is then emptied
        whatever happened. A heartbeat the ref still held is not cleared first: it goes on
        pinging as a stray. */
    method OnOpen(superseded: bool)
      requires Valid() && (superseded || ws == Live(Connecting))
      modifies this`ws, this`isConnected, this`error, this`queue, this`sent, this`heartbeat
      modifies this`strayHeartbeats
      ensures Valid()
      ensures isConnected && error == None && heartbeat == Some(HeartbeatPeriodMs)
      ensures strayHeartbeats == old(strayHeartbeats) + (if old(heartbeat).Some? then 1 else 0)
      ensures ws == if superseded then old(ws) else Live(Open)
      ensures sent == old(sent) + (if ws == Live(Open) then old(queue) else [])
      ensures queue == []
    {
      if !superseded {
        ws := Live(Open);
      }
      isConnected := true;
      error := None;
      if |queue| > 0 {
        var i := 0;
        while i < |queue|
          invariant 0 <= i <= |queue|
          invariant sent == old(sent) + (if ws == Live(Open) then queue[..i] else [])
          invariant ws == if superseded then old(ws) else Live(Open)
          invariant isConnected && error == None && queue == old(queue) && heartbeat == old(heartbeat)
          invariant strayHeartbeats == old(strayHeartbeats)
        {
          if ws == Live(Open) {
            sent := sent + [queue[i]];
          }
          i := i + 1;
        }
        assert queue[..|queue|] == queue;
        queue := [];
      }
      if heartbeat.Some? {
        strayHeartbeats := strayHeartbeats + 1;
      }
      heartbeat := Some(HeartbeatPeriodMs);
    }

    /** The referenced heartbeat interval firing: a PING while the socket is open, nothing
        otherwise. */
    method HeartbeatFires(now: int)
      requires heartbeat.Some?
      modifies this`sent
      ensures sent == old(sent) + (if ws == Live(Open) then [Ping(projectId, now)] else [])
    {
      if ws == Live(Open) {
        sent := sent + [Ping(projectId, now)];
      }
    }

    /** A stray heartbeat firing: it pings whatever socket is current, exactly like the
        referenced one, and keeps running. */
    method StrayHeartbeatFires(now: int)
      requires strayHeartbeats > 0
      modifies this`sent
      ensures sent == old(sent) + (if ws == Live(Open) then [Ping(projectId, now)] else [])
    {
      if ws == Live(Open) {
        sent := sent + [Ping(projectId, now)];
      }
    }

    /** `onmessage`: an unparsable frame (`None`) is dropped; a parsed one is dispatched to the
        registries and then passed on to the subscriber. */
    method OnMessage(frame: Option<Msg>, now: int, color: PaletteIndex)
      modifies this`users, this`cursors, this`locked, this`error, this`delivered
      ensures frame.None? ==> Registry() == old(Registry()) && delivered == old(delivered)
      ensures frame.Some? ==>
        && Registry() == Dispatch(old(Registry()), frame.value, now, color)
        && delivered == old(delivered) + [frame.value]
    {
      if frame.Some? {
        var r := Dispatch(Registry(), frame.value, now, color);
        users, cursors, locked, error := r.users, r.cursors, r.locked, r.error;
        delivered := delivered + [frame.value];
      }
    }

    /** `onerror`. */
    method OnError()
      modifies this`error
      ensures error == Some(ConnectionError)
    {
      error := Some(ConnectionError);
    }

    /** `onclose`: disconnected, heartbeat cancelled, and one reconnect timer scheduled exactly
        when the close was abnormal and the session is still enabled with a project id and a
        token. Codes 1006, 1008 and 4000 are only logged: `error` is left alone. A reconnect the
        ref still held is not cleared first: it stays pending as a stray. */
    method OnClose(code: int)
      requires Valid()
      modifies this`isConnected, this`heartbeat, this`ws, this`reconnect, this`reconnectsScheduled
      modifies this`strayReconnects
      ensures Valid()
      ensures !isConnected && heartbeat == None
      ensures ws == if old(ws).Live? then Live(Closed) else NoSocket
      ensures ShouldReconnect(code, enabled, projectId, token) ==>
        && reconnect == Some(ReconnectDelayMs) && reconnectsScheduled == old(reconnectsScheduled) + 1
        && strayReconnects == old(strayReconnects) + (if old(reconnect).Some? then 1 else 0)
      ensures !ShouldReconnect(code, enabled, projectId, token) ==>
        && reconnect == old(reconnect) && reconnectsScheduled == old(reconnectsScheduled)
        && strayReconnects == old(strayReconnects)
    {
      if ws.Live? {
        ws := Live(Closed);
      }
      isConnected := false;
      heartbeat := None;
      if code != NormalClosure && enabled && projectId != "" && token != "" {
        if reconnect.Some? {
          strayReconnects := strayReconnects + 1;
        }
        reconnect := Some(ReconnectDelayMs);
        reconnectsScheduled := reconnectsScheduled + 1;
      }
    }

    /** The referenced reconnect timer firing: the timer is spent and `connect()` runs with all its
        guards, so a timer that fires after the session was disabled creates no socket. */
    method ReconnectFires(constructorThrows: bool)
      requires Valid() && reconnect.Some?
      modifies this`reconnect, this`ws, this`error, this`socketsCreated
      ensures Valid() && reconnect == None
      ensures !enabled ==> ws == old(ws) && socketsCreated == old(socketsCreated)
      ensures !MayConnect(projectId, enabled, token, old(ws)) ==>
        ws == old(ws) && error == old(error) && socketsCreated == old(socketsCreated)
      ensures MayConnect(projectId, enabled, token, old(ws)) && !constructorThrows ==>
        ws == Live(Connecting) && socketsCreated == old(socketsCreated) + 1
    {
      reconnect := None;
      Connect(constructorThrows);
    }

    /** A stray reconnect firing: it is spent and runs `connect()` like the referenced one. */
    method StrayReconnectFires(constructorThrows: bool)
      requires strayReconnects > 0
      modifies this`strayReconnects, this`ws, this`error, this`socketsCreated
      ensures strayReconnects == old(strayReconnects) - 1
      ensures !MayConnect(projectId, enabled, token, old(ws)) ==>
        ws == old(ws) && error == old(error) && socketsCreated == old(socketsCreated)
      ensures MayConnect(projectId, enabled, token, old(ws)) && !constructorThrows ==>
        ws == Live(Connecting) && socketsCreated == old(socketsCreated) + 1
    {
      strayReconnects := strayReconnects - 1;
      Connect(constructorThrows);
    }

    /** `disconnect()`: the two timers the refs hold cancelled, the socket closed with code 1000
        and dropped, the registries emptied; the queue and the error are left as they were, and
        stray timers are out of its reach. */
    method Disconnect()
      requires Valid()
      modifies this`reconnect, this`heartbeat, this`ws, this`closeCodes, this`isConnected
      modifies this`users, this`cursors, this`locked
      ensures Valid()
      ensures reconnect == None && heartbeat == None && ws == NoSocket && !isConnected
      ensures closeCodes == old(closeCodes) + (if old(ws).Live? then [NormalClosure] else [])
      ensures users == [] && cursors == map[] && locked == {}
      ensures queue == old(queue) && error == old(error)
      ensures strayHeartbeats == old(strayHeartbeats) && strayReconnects == old(strayReconnects)
    {
      reconnect := None;
      heartbeat := None;
      if ws.Live? {
        closeCodes := closeCodes + [NormalClosure];
        ws := NoSocket;
      }
      isConnected := false;
      users, cursors, locked := [], map[], {};
    }

    /** The cleanup of the connect effect, run before the effect runs again and on unmount: the
        timers the refs hold are cancelled and the socket is asked to close with code 1000, but
        no ref is reset and no state is set. The socket stays the current one, the session counts
        as connected until that socket's close event, and the registries are kept. */
    method Cleanup()
      requires Valid()
      modifies this`reconnect, this`heartbeat, this`ws, this`closeCodes
      ensures Valid()
      ensures reconnect == None && heartbeat == None
      ensures closeCodes == old(closeCodes) + (if old(ws).Live? then [NormalClosure] else [])
      ensures ws == if old(ws) == Live(Connecting) || old(ws) == Live(Open) then Live(Closing) else old(ws)
      ensures isConnected == old(isConnected) && Registry() == old(Registry()) && queue == old(queue)
      ensures strayHeartbeats == old(strayHeartbeats) && strayReconnects == old(strayReconnects)
    {
      reconnect := None;
      heartbeat := None;
      if ws.Live? {
        closeCodes := closeCodes + [NormalClosure];
        if ws == Live(Connecting) || ws == Live(Open) {
          ws := Live(Closing);
        }
      }
    }
  }

  // -----------------------------------------------------------------------------------------------
  // Traces through the session, proved from the method contracts alone.

  /** Messages sent while connecting are queued and go out in order once the socket opens,
      leaving the queue empty. */
  method QueueThenFlush(a: Msg, b: Msg) returns (sent: seq<Msg>, queued: seq<Msg>)
    ensures sent == [a, b] && queued == []
  {
    var s := new CollaborationSession("project-1", "token", true);
    s.Connect(false);
    s.SendMessage(a, false);
    s.SendMessage(b, false);
    s.OnOpen(false);
    sent, queued := s.sent, s.queue;
  }

  /** A normal close schedules nothing; an abnormal one schedules exactly one reconnect; and a
      session disabled before that timer fires creates no new socket. */
  method CloseAndDisable() returns (afterNormal: nat, afterAbnormal: nat, socketsBefore: nat,
                                    socketsAfter: nat)
    ensures afterNormal == 0 && afterAbnormal == 1 && socketsAfter == socketsBefore
  {
    var s := new CollaborationSession("project-1", "token", true);
    s.Connect(false);
    s.OnOpen(false);
    s.OnClose(1000);
    afterNormal := s.reconnectsScheduled;
    s.Connect(false);
    s.OnOpen(false);
    s.OnClose(1006);
    afterAbnormal := s.reconnectsScheduled;
    socketsBefore := s.socketsCreated;
    s.SetEnabled(false);
    s.ReconnectFires(false);
    socketsAfter := s.socketsCreated;
  }

  /** A manual `connect()` while a reconnect is pending, followed by the socket opening, leaves
      the heartbeat and the reconnect timer pending together. */
  method HeartbeatBesideReconnect() returns (heartbeatPending: bool, reconnectPending: bool)
    ensures heartbeatPending && reconnectPending
  {
    var s := new CollaborationSession("project-1", "token", true);
    s.Connect(false);
    s.OnOpen(false);
    s.OnClose(1006);
    s.Connect(false);
    s.OnOpen(false);
    heartbeatPending, reconnectPending := s.heartbeat.Some?, s.reconnect.Some?;
  }

  /** Two abnormal closes with a manual reconnect between them leave the first reconnect timer
      stray: `disconnect()` cancels only the second, and the first still opens a socket after the
      user disconnected. */
  method DisconnectLeavesStrayReconnect() returns (strays: nat, socketsBefore: nat, socketsAfter: nat)
    ensures strays == 1 && socketsAfter == socketsBefore + 1
  {
    var s := new CollaborationSession("project-1", "token", true);
    s.Connect(false);
    s.OnOpen(false);
    s.OnClose(1006);
    s.Connect(false);
    s.OnOpen(false);
    s.OnClose(1006);
    s.Disconnect();
    strays, socketsBefore := s.strayReconnects, s.socketsCreated;
    s.StrayReconnectFires(false);
    socketsAfter := s.socketsCreated;
  }

  /** `connect()` twice while the first socket is CONNECTING, then both sockets open. The first
      `onopen` finds the newer socket still CONNECTING, so the message queued meanwhile is dropped
      unsent, and it arms a heartbeat. The second `onopen` overwrites that interval's ref without
      clearing it, and the old interval survives `disconnect()` and pings the socket opened after
      it. */
  method DisconnectLeavesStrayHeartbeat(a: Msg, now: int)
    returns (sentBeforeDisconnect: seq<Msg>, strays: nat, lastSent: Msg)
    ensures sentBeforeDisconnect == [] && strays == 1 && lastSent == Ping("project-1", now)
  {
    var s := new CollaborationSession("project-1", "token", true);
    s.Connect(false);
    s.SendMessage(a, false);
    s.Connect(false);
    s.OnOpen(true);
    s.OnOpen(false);
    sentBeforeDisconnect := s.sent;
    s.Disconnect();
    strays := s.strayHeartbeats;
    s.Connect(false);
    s.OnOpen(false);
    s.StrayHeartbeatFires(now);
    lastSent := s.sent[|s.sent| - 1];
  }

  /** After the effect's cleanup the registries and the connected flag stay as they were until
      the closing socket reports its close, and that normal close schedules no reconnect. */
  method CleanupKeepsRoom(m: Msg, now: int, color: PaletteIndex)
      returns (before: Room, afterCleanup: Room, connectedAfterCleanup: bool, reconnectsAfter: nat)
    ensures afterCleanup == before && connectedAfterCleanup && reconnectsAfter == 0
  {
    var s := new CollaborationSession("project-1", "token", true);
    s.Connect(false);
    s.OnOpen(false);
    assert s.Valid() && s.isConnected && s.reconnectsScheduled == 0;
    s.OnMessage(Some(m), now, color);
    assert s.Valid() && s.isConnected && s.reconnectsScheduled == 0;
    before := s.Registry();
    s.Cleanup();
    afterCleanup, connectedAfterCleanup := s.Registry(), s.isConnected;
    s.OnClose(1000);
    reconnectsAfter := s.reconnectsScheduled;
  }
}
