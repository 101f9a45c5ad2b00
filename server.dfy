/**
 * The server process: the `rooms` registry and the `currentRoom` variable
 * of every connection, mutated in place by the socket handlers. Each
 * handler runs to completion before the next, so each is one method; the
 * connection that sent the event is a parameter, and what the handler
 * emits is returned.
 */
module Server {
  import opened Wrappers
  import opened Names
  import opened Codes
  import opened Rooms
  import opened RoomProperties

  class Registry {
    /** `rooms`: code to room. */
    var rooms: map<string, Room>
    /** `currentRoom` of each connection; no entry for `null`. */
    var currentRoom: map<ConnId, string>

    function Abs(): State
      reads this
    {
      State(rooms, currentRoom)
    }

    predicate Valid()
      reads this
    {
      Inv(Abs())
    }

    /** The registry at start-up: no rooms, no bound connection. */
    constructor ()
      ensures Valid() && Abs() == Empty
    {
      rooms := map[];
      currentRoom := map[];
    }

    /** `generateRoomId`: draws a code from the next attempt and draws
        again while the code is already in use. */
    method GenerateRoomId(attempts: seq<seq<real>>) returns (id: string)
      requires AllAttempts(attempts) && HasFreeAttempt(rooms.Keys, attempts)
      ensures IsCode(id) && id !in rooms
      ensures id == FirstFreeCode(rooms.Keys, attempts)
      decreases |attempts|
    {
      id := DrawCode(attempts[0]);
      if id in rooms {
        FreeInTail(rooms.Keys, attempts);
        id := GenerateRoomId(attempts[1..]);
      }
    }

    /** The `createRoom` handler; `attempts` is what `Math.random` yields
        to `generateRoomId`, which runs only for a non-empty name. */
    method CreateRoom(conn: ConnId, name: JsValue, attempts: seq<seq<real>>) returns (events: seq<Emit>)
      requires Valid()
      requires SanitizeName(name) != "" ==> AllAttempts(attempts) && HasFreeAttempt(rooms.Keys, attempts)
      modifies this
      ensures Valid()
      ensures SanitizeName(name) == "" ==>
        Abs() == old(Abs()) && events == [ToSocket(conn, ErrorMessage(NameRequired))]
      ensures SanitizeName(name) != "" ==>
        var o := Rooms.CreateRoom(old(Abs()), conn, name, FirstFreeCode(old(rooms).Keys, attempts));
        Abs() == o.state && events == o.events
    {
      var cleanName := SanitizeName(name);
      if cleanName == "" {
        events := [ToSocket(conn, ErrorMessage(NameRequired))];
        return;
      }
      var roomId := GenerateRoomId(attempts);
      CreateRoomKeepsInv(Abs(), conn, name, roomId);
      var player := Player(conn, cleanName, true);
      rooms := rooms[roomId := Room([player], conn, Waiting, None)];
      currentRoom := currentRoom[conn := roomId];
      events := [ToSocket(conn, RoomJoined(GetRoomData(rooms, roomId).value))]
                + BroadcastRoomUpdate(rooms, roomId);
    }

    /** The `joinRoom` handler. */
    method JoinRoom(conn: ConnId, roomId: JsValue, name: JsValue) returns (events: seq<Emit>)
      requires Valid()
      modifies this
      ensures Valid()
      ensures var o := Rooms.JoinRoom(old(Abs()), conn, roomId, name);
        Abs() == o.state && events == o.events
    {
      var code := NormalizeCode(roomId);
      if code !in rooms {
        events := [ToSocket(conn, ErrorMessage(RoomMissing))];
        return;
      }
      var cleanName := SanitizeName(name);
      if cleanName == "" {
        events := [ToSocket(conn, ErrorMessage(NameRequired))];
        return;
      }
      JoinRoomKeepsInv(Abs(), conn, roomId, name);
      var room := rooms[code];
      var player := Player(conn, cleanName, false);
      rooms := rooms[code := room.(players := room.players + [player])];
      currentRoom := currentRoom[conn := code];
      events := [ToSocket(conn, RoomJoined(GetRoomData(rooms, code).value))]
                + BroadcastRoomUpdate(rooms, code);
    }

    /** The `startRound` handler. */
    method StartRound(conn: ConnId) returns (events: seq<Emit>)
      requires Valid()
      modifies this
      ensures Valid()
      ensures var o := Rooms.StartRound(old(Abs()), conn);
        Abs() == o.state && events == o.events
    {
      StartRoundKeepsInv(Abs(), conn);
      events := [];
      if conn !in currentRoom || currentRoom[conn] !in rooms { return; }
      var code := currentRoom[conn];
      var room := rooms[code];
      if room.hostId != conn { return; }
      rooms := rooms[code := room.(status := Running, winner := None)];
      events := [ToRoom(code, RoundStarted)] + BroadcastRoomUpdate(rooms, code);
    }

    /** The `nextRound` handler. */
    method NextRound(conn: ConnId) returns (events: seq<Emit>)
      requires Valid()
      modifies this
      ensures Valid()
      ensures var o := Rooms.NextRound(old(Abs()), conn);
        Abs() == o.state && events == o.events
    {
      NextRoundKeepsInv(Abs(), conn);
      events := [];
      if conn !in currentRoom || currentRoom[conn] !in rooms { return; }
      var code := currentRoom[conn];
      var room := rooms[code];
      if room.hostId != conn { return; }
      rooms := rooms[code := room.(status := Waiting, winner := None)];
      events := [ToRoom(code, RoundReset)] + BroadcastRoomUpdate(rooms, code);
    }

    /** The `pressButton` handler. */
    method PressButton(conn: ConnId) returns (events: seq<Emit>)
      requires Valid()
      modifies this
      ensures Valid()
      ensures var o := Rooms.PressButton(old(Abs()), conn);
        Abs() == o.state && events == o.events
    {
      PressButtonKeepsInv(Abs(), conn);
      events := [];
      if conn !in currentRoom || currentRoom[conn] !in rooms { return; }
      var code := currentRoom[conn];
      var room := rooms[code];
      if room.status != Running || Truthy(room.winner) { return; }
      var player := FindPlayer(room.players, conn);
      if player.None? { return; }
      rooms := rooms[code := room.(winner := Some(player.value.name), status := Ended)];
      events := [ToRoom(code, RoundEnded(player.value.name))] + BroadcastRoomUpdate(rooms, code);
    }

    /** `leaveRoom`, run by the `disconnect` handler. */
    method LeaveRoom(conn: ConnId) returns (events: seq<Emit>)
      requires Valid()
      modifies this
      ensures Valid()
      ensures var o := Rooms.LeaveRoom(old(Abs()), conn);
        Abs() == o.state && events == o.events
    {
      LeaveRoomKeepsInv(Abs(), conn);
      events := [];
      if conn !in currentRoom { return; }
      var code := currentRoom[conn];
      if code !in rooms { return; }
      var room := rooms[code];
      room := room.(players := WithoutConn(room.players, conn));
      if room.players == [] {
        rooms := rooms - {code};
        currentRoom := currentRoom - {conn};
        return;
      }
      if room.hostId == conn {
        room := room.(hostId := room.players[0].id);
        events := [ToRoom(code, HostChanged(room.players[0]))];
      }
      rooms := rooms[code := room];
      events := events + BroadcastRoomUpdate(rooms, code);
      currentRoom := currentRoom - {conn};
    }
  }
}
