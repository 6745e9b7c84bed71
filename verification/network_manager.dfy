/** The client session of `src/network/NetworkManager.js` as a record changed
    by client calls and by socket events. The socket and its timers are
    replaced by explicit events; every transition returns the new session,
    the messages emitted to the server and the notices raised on the scene. */
module Session {
  import opened Js
  import opened OrderedMap

  type PlayerId = string

  /** Per-player data the server keeps in a room; opaque to the client. */
  datatype PlayerData = PlayerData(name: string, sprite: string, joinedAt: int)

  datatype RoomSummary = RoomSummary(id: string, playerCount: int, maxPlayers: int)

  /** The `roomId` slot: `null`, `undefined` (a server message without one),
      or a string. */
  datatype RoomRef = Null | Undefined | Room(id: string)

  predicate RoomTruthy(r: RoomRef) {
    r.Room? && r.id != ""
  }

  /** A game payload forwarded unchanged. */
  datatype Payload = Payload(json: string)

  datatype Session = Session(
    socket: bool,          // a socket object exists
    listening: bool,       // the room/game handlers of setupEventListeners are installed
    isConnected: bool,
    isHost: bool,
    roomId: RoomRef,
    playerId: Option<PlayerId>,
    players: Entries<PlayerId, PlayerData>)

  const MaxPlayers := 4

  /** Messages the client emits to the server. */
  datatype Outgoing =
    | CreateRoomMsg(playerData: PlayerData, maxPlayers: int)
    | JoinRoomMsg(room: string, playerData: PlayerData)
    | GetRoomListMsg
    | StartGameMsg(startRoom: RoomRef)
    | PlayerInputMsg(inputRoom: RoomRef, inputFrom: Option<PlayerId>, input: Payload, inputTime: int)
    | PlayerUpdateMsg(updateRoom: RoomRef, updateFrom: Option<PlayerId>, updateData: Payload, updateTime: int)
    | GameObjectUpdateMsg(objectRoom: RoomRef, objectFrom: Option<PlayerId>, objectData: Payload, objectTime: int)
    | LeaveRoomMsg(leftRoom: RoomRef, leaver: Option<PlayerId>)

  /** Events re-emitted on the owning scene, each carrying the data the
      server sent with it. */
  datatype Notice =
    | RoomCreatedNotice(createdIn: RoomRef, createdWith: Option<Entries<PlayerId, PlayerData>>)
    | RoomJoinedNotice(joinedIn: RoomRef, joinedWith: Entries<PlayerId, PlayerData>)
    | PlayerJoinedNotice(joined: PlayerId, joinedData: PlayerData)
    | PlayerLeftNotice(left: PlayerId)
    | GameStartedNotice(started: Payload)
    | PlayerUpdateNotice(update: Payload)
    | GameObjectUpdateNotice(objectUpdate: Payload)
    | NetworkErrorNotice(error: string)
    | RoomErrorNotice(roomError: string)
    | NetworkDisconnectedNotice

  /** Events the server sends once the room handlers are installed. */
  datatype ServerEvent =
    | RoomCreated(createdRoom: RoomRef, createdPlayers: Option<Entries<PlayerId, PlayerData>>)
    | RoomJoined(joinedRoom: RoomRef, joinedPlayers: Option<Entries<PlayerId, PlayerData>>)
    | PlayerJoined(newPlayer: PlayerId, newData: PlayerData)
    | PlayerLeft(leavingPlayer: PlayerId)
    | GameStarted(startInfo: Payload)
    | PlayerUpdateEvent(snapshot: Payload)
    | GameObjectUpdateEvent(change: Payload)
    | SocketError(message: string)
    | RoomErrorEvent(reason: string)

  datatype Reaction = Reaction(session: Session, sent: seq<Outgoing>, notices: seq<Notice>)

  /** The constructor: no socket, not connected, no room, no identity. */
  function New(): (s: Session)
    ensures !s.isConnected && !s.isHost && s.roomId == Null && s.playerId.None? && s.players == []
    ensures Valid(s)
  {
    Session(false, false, false, false, Null, None, [])
  }

  /** What every reachable session satisfies: a connected session has a socket
      and an identity, handlers live on a socket, membership keys are unique. */
  ghost predicate Valid(s: Session) {
    && (s.isConnected ==> s.socket && s.playerId.Some?)
    && (s.listening ==> s.socket)
    && UniqueKeys(s.players)
  }

  // ---------------------------------------------------------------- connect

  datatype ConnectEvent = SocketConnected(socketId: string) | SocketConnectError(reason: string) | ConnectTimerFired

  /** A `connect()` call in progress: the session, the promise returned to the
      caller, whether the 10-second timer is still armed, and whether a socket
      was created at all. */
  datatype Connecting = Connecting(session: Session, result: Promise<()>, timerArmed: bool, created: bool)

  /** `connect()`: creates a socket (without room handlers yet) and arms the
      timeout; if creating the socket throws, the promise is rejected at once. */
  function Connect(s: Session, ioFailure: Option<string>): (c: Connecting)
    ensures ioFailure.Some? ==> c == Connecting(s, Rejected(ioFailure.value), false, false)
    ensures ioFailure.None? ==> c.result.Pending? && c.timerArmed && c.created && c.session.socket
    ensures ioFailure.None? ==> c.session == s.(socket := true, listening := false)
  {
    if ioFailure.Some? then Connecting(s, Rejected(ioFailure.value), false, false)
    else Connecting(s.(socket := true, listening := false), Pending, true, true)
  }

  /** The `connect`, `connect_error` and timeout callbacks. A success or an
      error clears the timer; only the first settlement reaches the caller. */
  function OnConnectEvent(c: Connecting, e: ConnectEvent): (r: Connecting)
    ensures !c.created ==> r == c
    ensures c.created && e.SocketConnected? ==>
      r.session == c.session.(isConnected := true, playerId := Some(e.socketId), listening := true)
      && r.result == Settle(c.result, Resolved(())) && !r.timerArmed
    ensures c.created && e.SocketConnectError? ==>
      r.session == c.session.(isConnected := false)
      && r.result == Settle(c.result, Rejected(e.reason)) && !r.timerArmed
    ensures e.ConnectTimerFired? ==> r.session == c.session
    ensures e.ConnectTimerFired? && !c.timerArmed ==> r == c
    ensures c.created && e.ConnectTimerFired? && c.timerArmed ==>
      r.result == Settle(c.result, Rejected("Connection timeout")) && !r.timerArmed
    ensures !c.result.Pending? ==> r.result == c.result
  {
    if !c.created then c
    else
      match e
      case SocketConnected(id) =>
        Connecting(c.session.(isConnected := true, playerId := Some(id), listening := true),
                   Settle(c.result, Resolved(())), false, true)
      case SocketConnectError(reason) =>
        Connecting(c.session.(isConnected := false), Settle(c.result, Rejected(reason)), false, true)
      case ConnectTimerFired =>
        if c.timerArmed then c.(result := Settle(c.result, Rejected("Connection timeout")), timerArmed := false)
        else c
  }

  function RunConnect(c: Connecting, evs: seq<ConnectEvent>): Connecting
    decreases |evs|
  {
    if |evs| == 0 then c else RunConnect(OnConnectEvent(c, evs[0]), evs[1..])
  }

  /** The promise of `connect()` settles once: whatever happens afterwards,
      the caller keeps the first outcome. */
  lemma {:induction false} ConnectSettlesOnce(c: Connecting, evs: seq<ConnectEvent>)
    requires !c.result.Pending?
    ensures RunConnect(c, evs).result == c.result
    decreases |evs|
  {
    if |evs| > 0 {
      ConnectSettlesOnce(OnConnectEvent(c, evs[0]), evs[1..]);
    }
  }

  /** A successful first event resolves the call, connects the session and
      takes the socket id as identity; a first error rejects it and leaves the
      session disconnected. */
  lemma ConnectOutcomes(s: Session, id: string, reason: string, evs: seq<ConnectEvent>)
    ensures var c := RunConnect(Connect(s, None), [SocketConnected(id)] + evs);
      c.result == Resolved(())
    ensures var c := OnConnectEvent(Connect(s, None), SocketConnected(id));
      c.session.isConnected && c.session.playerId == Some(id) && c.session.listening
    ensures var c := OnConnectEvent(Connect(s, None), SocketConnectError(reason));
      !c.session.isConnected && c.result == Rejected(reason)
  {
    var c := OnConnectEvent(Connect(s, None), SocketConnected(id));
    assert ([SocketConnected(id)] + evs)[1..] == evs;
    ConnectSettlesOnce(c, evs);
  }

  /** The timer and the socket race; the loser is dropped. A socket that
      connects after the timeout still marks the session connected, although
      the caller has already been told the connection failed. */
  lemma LateConnectAfterTimeout(s: Session, id: string)
    ensures var c := RunConnect(Connect(s, None), [ConnectTimerFired, SocketConnected(id)]);
      c.result == Rejected("Connection timeout") && c.session.isConnected && c.session.playerId == Some(id)
  {
    var evs := [ConnectTimerFired, SocketConnected(id)];
    var c1 := OnConnectEvent(Connect(s, None), ConnectTimerFired);
    assert c1.result == Rejected("Connection timeout");
    var c2 := OnConnectEvent(c1, SocketConnected(id));
    assert evs[1..] == [SocketConnected(id)] && evs[1..][1..] == [];
    assert RunConnect(c2, []) == c2;
    assert RunConnect(c1, evs[1..]) == RunConnect(c2, []);
    assert RunConnect(Connect(s, None), evs) == RunConnect(c1, evs[1..]);
  }

  /** Connecting keeps the session invariant. */
  lemma ConnectKeepsValid(s: Session, ioFailure: Option<string>, evs: seq<ConnectEvent>)
    requires Valid(s)
    ensures Valid(RunConnect(Connect(s, ioFailure), evs).session)
  {
    ConnectRunKeepsValid(Connect(s, ioFailure), evs);
  }

  lemma {:induction false} ConnectRunKeepsValid(c: Connecting, evs: seq<ConnectEvent>)
    requires Valid(c.session) && (c.created ==> c.session.socket)
    ensures Valid(RunConnect(c, evs).session)
    decreases |evs|
  {
    if |evs| > 0 {
      ConnectRunKeepsValid(OnConnectEvent(c, evs[0]), evs[1..]);
    }
  }

  // ---------------------------------------------------------- server events

  /** The handlers of `setupEventListeners`. Before they are installed an
      event changes nothing. A `roomJoined` without `players` throws inside
      `Object.entries` after writing `roomId` and `isHost`, so the membership
      is kept and the scene is not told. */
  function OnServerEvent(s: Session, e: ServerEvent): (r: Reaction)
    ensures r.sent == []
    ensures !s.listening ==> r == Reaction(s, [], [])
    ensures s.listening && e.RoomCreated? ==>
      r.session == s.(roomId := e.createdRoom, isHost := true, players := FromEntries(e.createdPlayers.GetOr([])))
    ensures s.listening && e.RoomJoined? && e.joinedPlayers.Some? ==>
      r.session == s.(roomId := e.joinedRoom, isHost := false, players := FromEntries(e.joinedPlayers.value))
    ensures s.listening && e.RoomJoined? && e.joinedPlayers.None? ==>
      r.session == s.(roomId := e.joinedRoom, isHost := false) && r.notices == []
    ensures s.listening && e.PlayerJoined? ==> r.session == s.(players := Set(s.players, e.newPlayer, e.newData))
    ensures s.listening && e.PlayerLeft? ==> r.session == s.(players := Delete(s.players, e.leavingPlayer))
    ensures !(e.RoomCreated? || e.RoomJoined? || e.PlayerJoined? || e.PlayerLeft?) ==> r.session == s
    ensures s.listening && !(e.RoomJoined? && e.joinedPlayers.None?) ==> |r.notices| == 1
    ensures s.listening && e.RoomCreated? ==> r.notices == [RoomCreatedNotice(e.createdRoom, e.createdPlayers)]
    ensures s.listening && e.RoomJoined? && e.joinedPlayers.Some? ==>
      r.notices == [RoomJoinedNotice(e.joinedRoom, e.joinedPlayers.value)]
    ensures s.listening && e.PlayerJoined? ==> r.notices == [PlayerJoinedNotice(e.newPlayer, e.newData)]
    ensures s.listening && e.PlayerLeft? ==> r.notices == [PlayerLeftNotice(e.leavingPlayer)]
    ensures s.listening && e.GameStarted? ==> r.notices == [GameStartedNotice(e.startInfo)]
    ensures s.listening && e.PlayerUpdateEvent? ==> r.notices == [PlayerUpdateNotice(e.snapshot)]
    ensures s.listening && e.GameObjectUpdateEvent? ==> r.notices == [GameObjectUpdateNotice(e.change)]
    ensures s.listening && e.SocketError? ==> r.notices == [NetworkErrorNotice(e.message)]
    ensures s.listening && e.RoomErrorEvent? ==> r.notices == [RoomErrorNotice(e.reason)]
  {
    if !s.listening then Reaction(s, [], [])
    else
      match e
      case RoomCreated(room, players) =>
        Reaction(s.(roomId := room, isHost := true, players := FromEntries(players.GetOr([]))), [], [RoomCreatedNotice(room, players)])
      case RoomJoined(room, players) =>
        var s' := s.(roomId := room, isHost := false);
        if players.None? then Reaction(s', [], [])
        else Reaction(s'.(players := FromEntries(players.value)), [], [RoomJoinedNotice(room, players.value)])
      case PlayerJoined(id, data) =>
        Reaction(s.(players := Set(s.players, id, data)), [], [PlayerJoinedNotice(id, data)])
      case PlayerLeft(id) =>
        Reaction(s.(players := Delete(s.players, id)), [], [PlayerLeftNotice(id)])
      case GameStarted(p) => Reaction(s, [], [GameStartedNotice(p)])
      case PlayerUpdateEvent(p) => Reaction(s, [], [PlayerUpdateNotice(p)])
      case GameObjectUpdateEvent(p) => Reaction(s, [], [GameObjectUpdateNotice(p)])
      case SocketError(m) => Reaction(s, [], [NetworkErrorNotice(m)])
      case RoomErrorEvent(m) => Reaction(s, [], [RoomErrorNotice(m)])
  }

  /** Membership events on a consistent session: `roomCreated`/`roomJoined`
      replace the membership by the listed players and their data (the last
      listing of a key wins), `playerJoined` writes one
      entry and `playerLeft` removes one; no other entry changes. */
  lemma MembershipEvents(s: Session, e: ServerEvent)
    requires Valid(s) && s.listening
    ensures var m := OnServerEvent(s, e).session.players;
      && UniqueKeys(m)
      && (e.RoomCreated? ==> ToMap(m).Keys == set i | 0 <= i < |e.createdPlayers.GetOr([])| :: e.createdPlayers.GetOr([])[i].0)
      && (e.RoomCreated? ==> var ps := e.createdPlayers.GetOr([]);
            forall i :: 0 <= i < |ps| && LastFor(ps, i) ==> ps[i].0 in ToMap(m) && ToMap(m)[ps[i].0] == ps[i].1)
      && (e.RoomJoined? && e.joinedPlayers.Some? ==>
            ToMap(m).Keys == set i | 0 <= i < |e.joinedPlayers.value| :: e.joinedPlayers.value[i].0)
      && (e.RoomJoined? && e.joinedPlayers.Some? ==> var ps := e.joinedPlayers.value;
            forall i :: 0 <= i < |ps| && LastFor(ps, i) ==> ps[i].0 in ToMap(m) && ToMap(m)[ps[i].0] == ps[i].1)
      && (e.PlayerJoined? ==> ToMap(m) == ToMap(s.players)[e.newPlayer := e.newData])
      && (e.PlayerLeft? ==> ToMap(m) == ToMap(s.players) - {e.leavingPlayer})
  {
    match e
    case RoomCreated(_, players) => FromEntriesSpec(players.GetOr([]));
    case RoomJoined(_, players) => if players.Some? { FromEntriesSpec(players.value); }
    case PlayerJoined(id, data) => SetSpec(s.players, id, data);
    case PlayerLeft(id) => DeleteSpec(s.players, id);
    case _ =>
  }

  /** Scenario: the host's `roomCreated` for room "R1" with one member gives
      a hosted room of one. */
  lemma HostCreatesRoom(s: Session, me: PlayerData)
    requires Valid(s) && s.listening
    ensures var r := OnServerEvent(s, RoomCreated(Room("R1"), Some([("p1", me)]))).session;
      r.isHost && r.roomId == Room("R1") && |ToMap(r.players).Keys| == 1 && GetRoomInfo(r).playerCount == 1
  {
    var es := [("p1", me)];
    FromEntriesSpec(es);
    var r := OnServerEvent(s, RoomCreated(Room("R1"), Some(es))).session;
    assert (set i | 0 <= i < |es| :: es[i].0) == {"p1"};
    SizeIsKeyCount(r.players);
  }

  // ----------------------------------------------------------- client calls

  /** `createRoom(playerData)`: asks for a four-player room, only when
      connected. The session itself does not change until `roomCreated`. */
  function CreateRoom(s: Session, playerData: PlayerData): (r: Reaction)
    ensures r.session == s && r.notices == []
    ensures s.isConnected ==> r.sent == [CreateRoomMsg(playerData, MaxPlayers)]
    ensures !s.isConnected ==> r.sent == []
  {
    Reaction(s, if s.isConnected then [CreateRoomMsg(playerData, MaxPlayers)] else [], [])
  }

  /** `joinRoom(roomId, playerData)`: only when connected with a socket. */
  function JoinRoom(s: Session, room: string, playerData: PlayerData): (r: Reaction)
    ensures r.session == s && r.notices == []
    ensures s.isConnected && s.socket ==> r.sent == [JoinRoomMsg(room, playerData)]
    ensures !s.isConnected || !s.socket ==> r.sent == []
  {
    Reaction(s, if s.isConnected && s.socket then [JoinRoomMsg(room, playerData)] else [], [])
  }

  /** `startGame()`: only the connected host may start. */
  function StartGame(s: Session): (r: Reaction)
    ensures r.session == s && r.notices == []
    ensures |r.sent| <= 1
    ensures r.sent != [] <==> s.isConnected && s.isHost
    ensures r.sent != [] ==> r.sent[0] == StartGameMsg(s.roomId)
  {
    Reaction(s, if s.isConnected && s.isHost then [StartGameMsg(s.roomId)] else [], [])
  }

  /** `sendPlayerInput`: tagged with the current room and identity. */
  function SendPlayerInput(s: Session, input: Payload, now: int): (r: Reaction)
    ensures r.session == s && r.notices == []
    ensures s.isConnected ==> r.sent == [PlayerInputMsg(s.roomId, s.playerId, input, now)]
    ensures !s.isConnected ==> r.sent == []
  {
    Reaction(s, if s.isConnected then [PlayerInputMsg(s.roomId, s.playerId, input, now)] else [], [])
  }

  /** `sendPlayerUpdate`: tagged with the current room and identity. */
  function SendPlayerUpdate(s: Session, data: Payload, now: int): (r: Reaction)
    ensures r.session == s && r.notices == []
    ensures s.isConnected ==> r.sent == [PlayerUpdateMsg(s.roomId, s.playerId, data, now)]
    ensures !s.isConnected ==> r.sent == []
  {
    Reaction(s, if s.isConnected then [PlayerUpdateMsg(s.roomId, s.playerId, data, now)] else [], [])
  }

  /** `sendGameObjectUpdate`: tagged with the current room and identity. */
  function SendGameObjectUpdate(s: Session, data: Payload, now: int): (r: Reaction)
    ensures r.session == s && r.notices == []
    ensures s.isConnected ==> r.sent == [GameObjectUpdateMsg(s.roomId, s.playerId, data, now)]
    ensures !s.isConnected ==> r.sent == []
  {
    Reaction(s, if s.isConnected then [GameObjectUpdateMsg(s.roomId, s.playerId, data, now)] else [], [])
  }

  /** `leaveRoom()`: a no-op unless connected with a (truthy) room id;
      otherwise tells the server and forgets the room locally. */
  function LeaveRoom(s: Session): (r: Reaction)
    ensures r.notices == []
    ensures !s.isConnected || !RoomTruthy(s.roomId) ==> r == Reaction(s, [], [])
    ensures s.isConnected && RoomTruthy(s.roomId) ==>
      && r.sent == [LeaveRoomMsg(s.roomId, s.playerId)]
      && r.session == s.(roomId := Null, isHost := false, players := [])
  {
    if !s.isConnected || !RoomTruthy(s.roomId) then Reaction(s, [], [])
    else Reaction(s.(roomId := Null, isHost := false, players := []), [LeaveRoomMsg(s.roomId, s.playerId)], [])
  }

  /** `handleDisconnection()`: forgets connection, room, host flag and
      membership, keeps the identity, and tells the scene. */
  function HandleDisconnection(s: Session): (r: Reaction)
    ensures !r.session.isConnected && r.session.roomId == Null && !r.session.isHost && r.session.players == []
    ensures r.session.playerId == s.playerId && r.session.socket == s.socket && r.session.listening == s.listening
    ensures r.sent == [] && r.notices == [NetworkDisconnectedNotice]
  {
    Reaction(s.(isConnected := false, roomId := Null, isHost := false, players := []), [], [NetworkDisconnectedNotice])
  }

  /** `disconnect()`: drops the socket, then `handleDisconnection()`. */
  function Disconnect(s: Session): (r: Reaction)
    ensures !r.session.socket && !r.session.listening
    ensures r.session == HandleDisconnection(s.(socket := false, listening := false)).session
    ensures r.notices == [NetworkDisconnectedNotice] && r.sent == []
  {
    HandleDisconnection(s.(socket := false, listening := false))
  }

  /** Disconnecting twice leaves the same session as disconnecting once, and
      neither clears the identity. */
  lemma DisconnectIdempotent(s: Session)
    ensures Disconnect(Disconnect(s).session).session == Disconnect(s).session
    ensures Disconnect(s).session.playerId == s.playerId
    ensures !IsInRoom(Disconnect(s).session)
  {
  }

  datatype RoomInfo = RoomInfo(roomId: RoomRef, isHost: bool, playerId: Option<PlayerId>, playerCount: nat, players: seq<PlayerData>)

  /** `getRoomInfo()`: the membership in insertion order and its size. */
  function GetRoomInfo(s: Session): (i: RoomInfo)
    ensures i.roomId == s.roomId && i.isHost == s.isHost && i.playerId == s.playerId
    ensures i.playerCount == |s.players| && |i.players| == i.playerCount
    ensures forall k :: 0 <= k < |s.players| ==> i.players[k] == s.players[k].1
  {
    RoomInfo(s.roomId, s.isHost, s.playerId, |s.players|, Values(s.players))
  }

  /** On a consistent session the reported count is the number of distinct
      members. */
  lemma RoomInfoCountsMembers(s: Session)
    requires Valid(s)
    ensures GetRoomInfo(s).playerCount == |ToMap(s.players).Keys|
  {
    SizeIsKeyCount(s.players);
  }

  /** `isInRoom()`: connected and the room id is not `null` (an `undefined`
      room id counts as in a room). */
  predicate IsInRoom(s: Session) {
    s.isConnected && s.roomId != Null
  }

  lemma IsInRoomAfterLeave(s: Session)
    requires s.isConnected && RoomTruthy(s.roomId)
    ensures IsInRoom(s)
    ensures !IsInRoom(LeaveRoom(s).session)
    ensures LeaveRoom(LeaveRoom(s).session) == Reaction(LeaveRoom(s).session, [], [])
  {
  }

  // ------------------------------------------------------------- room list

  datatype RoomListEvent = RoomListReply(rooms: Option<seq<RoomSummary>>) | RoomListError(message: string) | RoomListTimerFired

  /** A `getRoomList()` call in progress: its promise, the 5-second timer and
      the two one-shot listeners (`roomList` and `error`). */
  datatype RoomListRequest = RoomListRequest(result: Promise<seq<RoomSummary>>, timerArmed: bool, awaitingReply: bool, awaitingError: bool)

  /** `getRoomList()`: resolves to `[]` at once when not connected; otherwise
      asks the server and waits. */
  function GetRoomList(s: Session): (r: (RoomListRequest, seq<Outgoing>))
    ensures !s.isConnected ==> r.0.result == Resolved([]) && r.1 == []
    ensures s.isConnected ==> r.0 == RoomListRequest(Pending, true, true, true) && r.1 == [GetRoomListMsg]
  {
    if !s.isConnected then (RoomListRequest(Resolved([]), false, false, false), [])
    else (RoomListRequest(Pending, true, true, true), [GetRoomListMsg])
  }

  /** The value the first event would settle the list with. */
  function Fallback(e: RoomListEvent): seq<RoomSummary> {
    if e.RoomListReply? then e.rooms.GetOr([]) else []
  }

  /** The `roomList` and `error` listeners and the timer: each fires at most
      once; every one of them resolves, none rejects. */
  function OnRoomListEvent(q: RoomListRequest, e: RoomListEvent): (r: RoomListRequest)
    ensures !q.result.Rejected? ==> !r.result.Rejected?
    ensures !q.result.Pending? ==> r.result == q.result
  {
    match e
    case RoomListReply(rooms) =>
      if q.awaitingReply then q.(result := Settle(q.result, Resolved(rooms.GetOr([]))), timerArmed := false, awaitingReply := false)
      else q
    case RoomListError(_) =>
      if q.awaitingError then q.(result := Settle(q.result, Resolved([])), timerArmed := false, awaitingError := false)
      else q
    case RoomListTimerFired =>
      if q.timerArmed then q.(result := Settle(q.result, Resolved([])), timerArmed := false)
      else q
  }

  function RunRoomList(q: RoomListRequest, evs: seq<RoomListEvent>): RoomListRequest
    decreases |evs|
  {
    if |evs| == 0 then q else RunRoomList(OnRoomListEvent(q, evs[0]), evs[1..])
  }

  /** `getRoomList()` never rejects, whatever the server and the timer do. */
  lemma {:induction false} RoomListNeverRejects(q: RoomListRequest, evs: seq<RoomListEvent>)
    requires !q.result.Rejected?
    ensures !RunRoomList(q, evs).result.Rejected?
    decreases |evs|
  {
    if |evs| > 0 {
      RoomListNeverRejects(OnRoomListEvent(q, evs[0]), evs[1..]);
    }
  }

  /** Once settled, the list no longer changes. */
  lemma {:induction false} RoomListSettlesOnce(q: RoomListRequest, evs: seq<RoomListEvent>)
    requires !q.result.Pending?
    ensures RunRoomList(q, evs).result == q.result
    decreases |evs|
  {
    if |evs| > 0 {
      RoomListSettlesOnce(OnRoomListEvent(q, evs[0]), evs[1..]);
    }
  }

  /** The caller of `getRoomList()` gets `[]` when disconnected, and
      otherwise the outcome of whichever of reply, error and timeout comes
      first: `rooms || []` for a reply, `[]` for the other two. */
  lemma RoomListOutcome(s: Session, evs: seq<RoomListEvent>)
    ensures var q := RunRoomList(GetRoomList(s).0, evs);
      && !q.result.Rejected?
      && (!s.isConnected ==> q.result == Resolved([]))
      && (s.isConnected && |evs| > 0 ==> q.result == Resolved(Fallback(evs[0])))
      && (s.isConnected && |evs| == 0 ==> q.result.Pending?)
  {
    var q0 := GetRoomList(s).0;
    RoomListNeverRejects(q0, evs);
    if !s.isConnected {
      RoomListSettlesOnce(q0, evs);
    } else if |evs| > 0 {
      var q1 := OnRoomListEvent(q0, evs[0]);
      assert q1.result == Resolved(Fallback(evs[0]));
      RoomListSettlesOnce(q1, evs[1..]);
    }
  }

  // ------------------------------------------------------------ invariant

  /** Everything that can happen to a session outside `connect()`. */
  datatype Action =
    | Server(event: ServerEvent)
    | TransportDisconnected
    | CreateRoomCall(createData: PlayerData)
    | JoinRoomCall(joinRoom: string, joinData: PlayerData)
    | StartGameCall
    | SendInputCall(inputPayload: Payload, inputNow: int)
    | SendUpdateCall(updatePayload: Payload, updateNow: int)
    | SendObjectCall(objectPayload: Payload, objectNow: int)
    | LeaveRoomCall
    | DisconnectCall

  function Step(s: Session, a: Action): Reaction {
    match a
    case Server(e) => OnServerEvent(s, e)
    case TransportDisconnected => HandleDisconnection(s.(isConnected := false))
    case CreateRoomCall(d) => CreateRoom(s, d)
    case JoinRoomCall(room, d) => JoinRoom(s, room, d)
    case StartGameCall => StartGame(s)
    case SendInputCall(p, now) => SendPlayerInput(s, p, now)
    case SendUpdateCall(p, now) => SendPlayerUpdate(s, p, now)
    case SendObjectCall(p, now) => SendGameObjectUpdate(s, p, now)
    case LeaveRoomCall => LeaveRoom(s)
    case DisconnectCall => Disconnect(s)
  }

  /** Every transition keeps the session consistent; only a connected session
      emits anything. */
  lemma StepKeepsValid(s: Session, a: Action)
    requires Valid(s)
    ensures Valid(Step(s, a).session)
    ensures Step(s, a).sent != [] ==> s.isConnected
  {
    match a
    case Server(e) => if s.listening { MembershipEvents(s, e); }
    case _ =>
  }
}
