/**
 * The room state machine: players, host, round status and winner of every
 * room, the per-connection binding to a room, and the effect of each
 * socket handler of the server as a function of the state before it.
 * Broadcasts are returned as a sequence of emitted messages.
 */
module Rooms {
  import opened Wrappers
  import opened Names
  import opened Codes

  /** `socket.id`. */
  type ConnId = string

  const NameRequired: string := "Debes escribir tu nombre."
  const RoomMissing: string := "La sala no existe."

  /** A player record as the server stores and sends it; `isHost` is set
      once, when the record is made. */
  datatype Player = Player(id: ConnId, name: string, isHost: bool)

  datatype Status = Waiting | Running | Ended

  datatype Room = Room(players: seq<Player>, hostId: ConnId, status: Status, winner: Option<string>)

  /** The payload of `roomJoined` and `roomUpdate`. */
  datatype RoomData = RoomData(roomId: string, players: seq<Player>, hostId: ConnId,
                               status: Status, winner: Option<string>)

  datatype Message =
    | ErrorMessage(text: string)
    | RoomJoined(data: RoomData)
    | RoomUpdate(data: RoomData)
    | HostChanged(player: Player)
    | RoundStarted
    | RoundReset
    | RoundEnded(winner: string)

  /** `socket.emit(...)` reaches one connection, `io.to(roomId).emit(...)`
      every connection in the channel of that room. */
  datatype Emit = ToSocket(conn: ConnId, msg: Message) | ToRoom(roomId: string, msg: Message)

  /** The `rooms` map and the `currentRoom` variable of every connection
      (a connection whose `currentRoom` is `null` has no entry). */
  datatype State = State(rooms: map<string, Room>, currentRoom: map<ConnId, string>)

  /** A handler's new state and what it emitted, in order. */
  datatype Outcome = Outcome(state: State, events: seq<Emit>)

  const Empty: State := State(map[], map[])

  /** JavaScript truthiness of `room.winner`. */
  predicate Truthy(v: Option<string>) { v.Some? && v.value != "" }

  predicate HasPlayer(players: seq<Player>, id: ConnId) {
    exists p :: p in players && p.id == id
  }

  /** Index of the first player whose id is `id` (when `same`) or is not
      `id` (when not `same`); `|players|` when there is none. */
  function FirstIndex(players: seq<Player>, id: ConnId, same: bool): (k: nat)
    ensures k <= |players|
    ensures forall j :: 0 <= j < k ==> (players[j].id == id) != same
    ensures k < |players| ==> (players[k].id == id) == same
  {
    if players == [] then 0
    else if (players[0].id == id) == same then 0
    else 1 + FirstIndex(players[1..], id, same)
  }

  /** `players.find((p) => p.id === id)`: the first player with that id. */
  function FindPlayer(players: seq<Player>, id: ConnId): (r: Option<Player>)
    ensures r.Some? <==> HasPlayer(players, id)
    ensures r.Some? ==> FirstIndex(players, id, true) < |players|
                        && r.value == players[FirstIndex(players, id, true)]
  {
    if players == [] then None
    else if players[0].id == id then Some(players[0])
    else
      var r := FindPlayer(players[1..], id);
      assert HasPlayer(players, id) ==> HasPlayer(players[1..], id) by {
        if HasPlayer(players, id) {
          var p :| p in players && p.id == id;
          assert p in players[1..];
        }
      }
      r
  }

  /** `players.filter((p) => p.id !== id)`: keeps the other players, in
      their order; the first one kept is the first player in `players`
      whose id is not `id`. */
  function WithoutConn(players: seq<Player>, id: ConnId): (r: seq<Player>)
    ensures |r| <= |players|
    ensures forall p :: p in r <==> p in players && p.id != id
    ensures r != [] ==> FirstIndex(players, id, false) < |players|
                        && r[0] == players[FirstIndex(players, id, false)]
  {
    if players == [] then []
    else if players[0].id == id then WithoutConn(players[1..], id)
    else [players[0]] + WithoutConn(players[1..], id)
  }

  /** Keeping the players of a concatenation keeps them part by part, so
      the filter preserves join order. */
  lemma {:induction false} WithoutConnAppend(a: seq<Player>, b: seq<Player>, id: ConnId)
    ensures WithoutConn(a + b, id) == WithoutConn(a, id) + WithoutConn(b, id)
  {
    if a != [] {
      assert (a + b)[1..] == a[1..] + b;
      WithoutConnAppend(a[1..], b, id);
    } else {
      assert a + b == b;
    }
  }

  // ---------------------------------------------------------------------
  // Snapshots and broadcasts

  /** The room a snapshot describes. */
  function RoomOf(d: RoomData): Room {
    Room(d.players, d.hostId, d.status, d.winner)
  }

  /** `getRoomData(roomId)`: `null` for an unknown code, otherwise the
      room's players, host, status and winner under its code. */
  function GetRoomData(rooms: map<string, Room>, roomId: string): (r: Option<RoomData>)
    ensures r.Some? <==> roomId in rooms
    ensures r.Some? ==> r.value.roomId == roomId && RoomOf(r.value) == rooms[roomId]
  {
    if roomId in rooms then
      var room := rooms[roomId];
      Some(RoomData(roomId, room.players, room.hostId, room.status, room.winner))
    else None
  }

  /** `broadcastRoomUpdate(roomId)`: one `roomUpdate` to the room's channel
      if the room exists, nothing otherwise. */
  function BroadcastRoomUpdate(rooms: map<string, Room>, roomId: string): (r: seq<Emit>)
    ensures roomId !in rooms ==> r == []
    ensures roomId in rooms ==>
              && |r| == 1 && r[0].ToRoom? && r[0].roomId == roomId && r[0].msg.RoomUpdate?
              && r[0].msg.data.roomId == roomId && RoomOf(r[0].msg.data) == rooms[roomId]
  {
    match GetRoomData(rooms, roomId)
    case None => []
    case Some(data) => [ToRoom(roomId, RoomUpdate(data))]
  }

  // ---------------------------------------------------------------------
  // Invariants

  /** What every non-empty result of `sanitizeName` is: at most
      `MaxNameLength` characters, not starting with whitespace. */
  predicate ValidName(n: string) { 0 < |n| <= MaxNameLength && !IsJsWhitespace(n[0]) }

  /** What every live room satisfies: it has a player, its host is one of
      them, it has a winner exactly when its round has ended, and every
      name in it is a `ValidName`. */
  predicate RoomInv(room: Room) {
    && room.players != []
    && HasPlayer(room.players, room.hostId)
    && (room.winner.Some? <==> room.status == Ended)
    && (room.winner.Some? ==> ValidName(room.winner.value))
    && (forall p :: p in room.players ==> ValidName(p.name))
  }

  /** The registry invariant: every key is a generated code of a valid room,
      and a connection bound to a code is listed in that live room. */
  predicate Inv(s: State) {
    && (forall c :: c in s.rooms ==> IsCode(c) && RoomInv(s.rooms[c]))
    && (forall x :: x in s.currentRoom ==>
          s.currentRoom[x] in s.rooms && HasPlayer(s.rooms[s.currentRoom[x]].players, x))
  }

  // ---------------------------------------------------------------------
  // The handlers

  /** `rooms.get(currentRoom)` is a room: the code of that room. */
  function BoundRoom(s: State, conn: ConnId): Option<string> {
    if conn in s.currentRoom && s.currentRoom[conn] in s.rooms then Some(s.currentRoom[conn])
    else None
  }

  /** The handler `createRoom`, given the code `generateRoomId` returned.
      It answers the sender first, emits at most two messages, adds no code
      but `roomId`, removes none, and binds no connection but the sender. */
  function CreateRoom(s: State, conn: ConnId, name: JsValue, roomId: string): (o: Outcome)
    ensures 1 <= |o.events| <= 2 && o.events[0].ToSocket? && o.events[0].conn == conn
    ensures s.rooms.Keys <= o.state.rooms.Keys
    ensures o.state.rooms.Keys <= s.rooms.Keys + {roomId}
    ensures o.state.currentRoom.Keys <= s.currentRoom.Keys + {conn}
  {
    var cleanName := SanitizeName(name);
    if cleanName == "" then Outcome(s, [ToSocket(conn, ErrorMessage(NameRequired))])
    else
      var rooms := s.rooms[roomId := Room([Player(conn, cleanName, true)], conn, Waiting, None)];
      Outcome(State(rooms, s.currentRoom[conn := roomId]),
              [ToSocket(conn, RoomJoined(GetRoomData(rooms, roomId).value))]
              + BroadcastRoomUpdate(rooms, roomId))
  }

  /** The handler `joinRoom`. It answers the sender first, emits at most
      two messages, keeps the set of codes, and binds no connection but the
      sender. */
  function JoinRoom(s: State, conn: ConnId, roomId: JsValue, name: JsValue): (o: Outcome)
    ensures 1 <= |o.events| <= 2 && o.events[0].ToSocket? && o.events[0].conn == conn
    ensures o.state.rooms.Keys == s.rooms.Keys
    ensures o.state.currentRoom.Keys <= s.currentRoom.Keys + {conn}
  {
    var code := NormalizeCode(roomId);
    if code !in s.rooms then Outcome(s, [ToSocket(conn, ErrorMessage(RoomMissing))])
    else
      var cleanName := SanitizeName(name);
      if cleanName == "" then Outcome(s, [ToSocket(conn, ErrorMessage(NameRequired))])
      else
        var room := s.rooms[code];
        var rooms := s.rooms[code := room.(players := room.players + [Player(conn, cleanName, false)])];
        Outcome(State(rooms, s.currentRoom[conn := code]),
                [ToSocket(conn, RoomJoined(GetRoomData(rooms, code).value))]
                + BroadcastRoomUpdate(rooms, code))
  }

  /** The handler `startRound`. It emits nothing, or two messages of which the
      first goes to the sender's bound room; it keeps the set of codes and
      every binding. */
  function StartRound(s: State, conn: ConnId): (o: Outcome)
    ensures o.events != [] ==> && conn in s.currentRoom && |o.events| == 2
                               && o.events[0].ToRoom? && o.events[0].roomId == s.currentRoom[conn]
    ensures o.state.rooms.Keys == s.rooms.Keys && o.state.currentRoom == s.currentRoom
  {
    match BoundRoom(s, conn)
    case None => Outcome(s, [])
    case Some(code) =>
      var room := s.rooms[code];
      if room.hostId != conn then Outcome(s, [])
      else
        var rooms := s.rooms[code := room.(status := Running, winner := None)];
        Outcome(State(rooms, s.currentRoom),
                [ToRoom(code, RoundStarted)] + BroadcastRoomUpdate(rooms, code))
  }

  /** The handler `nextRound`. It emits nothing, or two messages of which the
      first goes to the sender's bound room; it keeps the set of codes and
      every binding. */
  function NextRound(s: State, conn: ConnId): (o: Outcome)
    ensures o.events != [] ==> && conn in s.currentRoom && |o.events| == 2
                               && o.events[0].ToRoom? && o.events[0].roomId == s.currentRoom[conn]
    ensures o.state.rooms.Keys == s.rooms.Keys && o.state.currentRoom == s.currentRoom
  {
    match BoundRoom(s, conn)
    case None => Outcome(s, [])
    case Some(code) =>
      var room := s.rooms[code];
      if room.hostId != conn then Outcome(s, [])
      else
        var rooms := s.rooms[code := room.(status := Waiting, winner := None)];
        Outcome(State(rooms, s.currentRoom),
                [ToRoom(code, RoundReset)] + BroadcastRoomUpdate(rooms, code))
  }

  /** The handler `pressButton`. It emits nothing, or two messages of which the
      first goes to the sender's bound room; it keeps the set of codes and
      every binding. */
  function PressButton(s: State, conn: ConnId): (o: Outcome)
    ensures o.events != [] ==> && conn in s.currentRoom && |o.events| == 2
                               && o.events[0].ToRoom? && o.events[0].roomId == s.currentRoom[conn]
    ensures o.state.rooms.Keys == s.rooms.Keys && o.state.currentRoom == s.currentRoom
  {
    match BoundRoom(s, conn)
    case None => Outcome(s, [])
    case Some(code) =>
      var room := s.rooms[code];
      if room.status != Running || Truthy(room.winner) then Outcome(s, [])
      else
        match FindPlayer(room.players, conn)
        case None => Outcome(s, [])
        case Some(player) =>
          var rooms := s.rooms[code := room.(winner := Some(player.name), status := Ended)];
          Outcome(State(rooms, s.currentRoom),
                  [ToRoom(code, RoundEnded(player.name))] + BroadcastRoomUpdate(rooms, code))
  }

  /** `leaveRoom`, which the `disconnect` handler runs. It emits at most two
      messages, adds no code, and either keeps every binding or clears the
      sender's alone; a sender bound to a live room ends up unbound. */
  function LeaveRoom(s: State, conn: ConnId): (o: Outcome)
    ensures |o.events| <= 2
    ensures o.state.rooms.Keys <= s.rooms.Keys
    ensures o.state.currentRoom == s.currentRoom || o.state.currentRoom == s.currentRoom - {conn}
    ensures BoundRoom(s, conn).Some? ==> conn !in o.state.currentRoom
  {
    if conn !in s.currentRoom then Outcome(s, [])
    else
      var code := s.currentRoom[conn];
      if code !in s.rooms then Outcome(s, [])
      else
        var room := s.rooms[code];
        var players := WithoutConn(room.players, conn);
        if players == [] then Outcome(State(s.rooms - {code}, s.currentRoom - {conn}), [])
        else
          var hostLeft := room.hostId == conn;
          var rooms := s.rooms[code := room.(players := players,
                                             hostId := if hostLeft then players[0].id else room.hostId)];
          Outcome(State(rooms, s.currentRoom - {conn}),
                  (if hostLeft then [ToRoom(code, HostChanged(players[0]))] else [])
                  + BroadcastRoomUpdate(rooms, code))
  }
}
