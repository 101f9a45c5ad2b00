/**
 * What each handler of the room state machine guarantees: the registry
 * invariant is kept, and the observable effect (new state, emitted
 * messages) is the one the server promises.
 */
module RoomProperties {
  import opened Wrappers
  import opened Names
  import opened Codes
  import opened Rooms

  /** `conn` is bound to a live room and is its host. */
  predicate IsHostOfBound(s: State, conn: ConnId) {
    BoundRoom(s, conn).Some? && s.rooms[BoundRoom(s, conn).value].hostId == conn
  }

  /** Under the invariant `rooms.get(currentRoom)` fails only for a
      connection that is not bound, and the room it finds lists the
      connection. */
  lemma BoundRoomUnderInv(s: State, conn: ConnId)
    requires Inv(s)
    ensures BoundRoom(s, conn).Some? <==> conn in s.currentRoom
    ensures BoundRoom(s, conn).Some? ==> HasPlayer(s.rooms[BoundRoom(s, conn).value].players, conn)
  {
  }

  /** Only room `code` differs between the two room maps, and both have the
      same codes. */
  predicate OnlyRoomChanged(before: map<string, Room>, after: map<string, Room>, code: string) {
    && after.Keys == before.Keys
    && forall c :: c in before && c != code ==> after[c] == before[c]
  }

  // ---------------------------------------------------------------------
  // The invariant is kept by every handler

  lemma CreateRoomKeepsInv(s: State, conn: ConnId, name: JsValue, roomId: string)
    requires Inv(s) && IsCode(roomId) && roomId !in s.rooms
    ensures Inv(CreateRoom(s, conn, name, roomId).state)
  {
    var o := CreateRoom(s, conn, name, roomId);
    if SanitizeName(name) != "" {
      var room := o.state.rooms[roomId];
      assert room.players[0] in room.players;
      forall x | x in o.state.currentRoom
        ensures o.state.currentRoom[x] in o.state.rooms
        ensures HasPlayer(o.state.rooms[o.state.currentRoom[x]].players, x)
      {
        if x != conn {
          assert s.currentRoom[x] in s.rooms;
        }
      }
    }
  }

  lemma JoinRoomKeepsInv(s: State, conn: ConnId, roomId: JsValue, name: JsValue)
    requires Inv(s)
    ensures Inv(JoinRoom(s, conn, roomId, name).state)
  {
    var code := NormalizeCode(roomId);
    var cleanName := SanitizeName(name);
    if code in s.rooms && cleanName != "" {
      AppendPlayerKeepsInv(s, code, Player(conn, cleanName, false));
    }
  }

  /** Appending a player with a valid name to a live room and binding the
      player's connection to it keeps the invariant. */
  lemma AppendPlayerKeepsInv(s: State, code: string, joined: Player)
    requires Inv(s) && code in s.rooms && ValidName(joined.name)
    ensures var before := s.rooms[code];
      Inv(State(s.rooms[code := before.(players := before.players + [joined])],
                s.currentRoom[joined.id := code]))
  {
    var before := s.rooms[code];
    var room := before.(players := before.players + [joined]);
    var s' := State(s.rooms[code := room], s.currentRoom[joined.id := code]);
    assert forall p :: p in before.players ==> p in room.players;
    assert joined in room.players;
    assert RoomInv(room) by {
      var h :| h in before.players && h.id == before.hostId;
      assert h in room.players;
    }
    forall x | x in s'.currentRoom
      ensures s'.currentRoom[x] in s'.rooms
      ensures HasPlayer(s'.rooms[s'.currentRoom[x]].players, x)
    {
      if x != joined.id && s.currentRoom[x] == code {
        var p :| p in before.players && p.id == x;
        assert p in room.players;
      }
    }
  }

  lemma StartRoundKeepsInv(s: State, conn: ConnId)
    requires Inv(s)
    ensures Inv(StartRound(s, conn).state)
  {
    if IsHostOfBound(s, conn) {
      var code := s.currentRoom[conn];
      var after := s.rooms[code].(status := Running, winner := None);
      assert StartRound(s, conn).state == State(s.rooms[code := after], s.currentRoom);
      RoundChangeKeepsInv(s, code, after);
    }
  }

  lemma NextRoundKeepsInv(s: State, conn: ConnId)
    requires Inv(s)
    ensures Inv(NextRound(s, conn).state)
  {
    if IsHostOfBound(s, conn) {
      var code := s.currentRoom[conn];
      var after := s.rooms[code].(status := Waiting, winner := None);
      assert NextRound(s, conn).state == State(s.rooms[code := after], s.currentRoom);
      RoundChangeKeepsInv(s, code, after);
    }
  }

  /** Changing only the status and winner of a room, consistently, keeps
      the invariant. */
  lemma RoundChangeKeepsInv(s: State, code: string, after: Room)
    requires Inv(s) && code in s.rooms
    requires after.players == s.rooms[code].players && after.hostId == s.rooms[code].hostId
    requires after.winner.Some? <==> after.status == Ended
    requires after.winner.Some? ==> ValidName(after.winner.value)
    ensures Inv(State(s.rooms[code := after], s.currentRoom))
  {
  }

  lemma PressButtonKeepsInv(s: State, conn: ConnId)
    requires Inv(s)
    ensures Inv(PressButton(s, conn).state)
  {
    var o := PressButton(s, conn);
    if o.state != s {
      var code := BoundRoom(s, conn).value;
      var player := FindPlayer(s.rooms[code].players, conn).value;
      assert player in s.rooms[code].players;
    }
  }

  lemma LeaveRoomKeepsInv(s: State, conn: ConnId)
    requires Inv(s)
    ensures Inv(LeaveRoom(s, conn).state)
  {
    if conn in s.currentRoom {
      var code := s.currentRoom[conn];
      var room := s.rooms[code];
      var rest := WithoutConn(room.players, conn);
      OthersStayListed(s, conn);
      if rest != [] {
        var after := room.(players := rest, hostId := if room.hostId == conn then rest[0].id else room.hostId);
        LeftRoomInv(room, conn);
        assert LeaveRoom(s, conn).state == State(s.rooms[code := after], s.currentRoom - {conn});
        ReplaceRoomKeepsInv(s, conn, after);
      }
    }
  }

  /** Replacing the sender's room by a valid room that still lists every
      other connection bound to it, and unbinding the sender, keeps the
      invariant. */
  lemma ReplaceRoomKeepsInv(s: State, conn: ConnId, after: Room)
    requires Inv(s) && conn in s.currentRoom && RoomInv(after)
    requires forall x :: x in s.currentRoom && x != conn && s.currentRoom[x] == s.currentRoom[conn] ==>
               HasPlayer(after.players, x)
    ensures Inv(State(s.rooms[s.currentRoom[conn] := after], s.currentRoom - {conn}))
  {
  }

  /** Another connection bound to the room being left is still listed in
      it afterwards. */
  lemma OthersStayListed(s: State, conn: ConnId)
    requires Inv(s) && conn in s.currentRoom
    ensures var code := s.currentRoom[conn];
      forall x :: x in s.currentRoom && x != conn && s.currentRoom[x] == code ==>
        HasPlayer(WithoutConn(s.rooms[code].players, conn), x)
  {
    var code := s.currentRoom[conn];
    var room := s.rooms[code];
    var players := WithoutConn(room.players, conn);
    forall x | x in s.currentRoom && x != conn && s.currentRoom[x] == code
      ensures HasPlayer(players, x)
    {
      var p :| p in room.players && p.id == x;
      assert p in players;
    }
  }

  /** A room that keeps a player after `conn` leaves, with the host moved to
      the first remaining player if `conn` was the host, is still valid. */
  lemma LeftRoomInv(room: Room, conn: ConnId)
    requires RoomInv(room) && WithoutConn(room.players, conn) != []
    ensures var rest := WithoutConn(room.players, conn);
      RoomInv(room.(players := rest, hostId := if room.hostId == conn then rest[0].id else room.hostId))
  {
    var rest := WithoutConn(room.players, conn);
    assert rest[0] in rest;
    if room.hostId != conn {
      var h :| h in room.players && h.id == room.hostId;
      assert h in rest;
    }
  }

  // ---------------------------------------------------------------------
  // createRoom

  /** An empty sanitised name is refused with an error to the sender and
      changes nothing. Otherwise exactly one room is added under the new
      code, holding the creator as its only player and host, waiting and
      without winner; no other room changes; the sender is bound to it and
      receives the snapshot, which the room's channel then receives too. */
  lemma CreateRoomEffect(s: State, conn: ConnId, name: JsValue, roomId: string)
    requires roomId !in s.rooms
    ensures var o := CreateRoom(s, conn, name, roomId);
      && (SanitizeName(name) == "" ==>
            o.state == s && o.events == [ToSocket(conn, ErrorMessage(NameRequired))])
      && (SanitizeName(name) != "" ==>
            var room := Room([Player(conn, SanitizeName(name), true)], conn, Waiting, None);
            var data := RoomData(roomId, room.players, conn, Waiting, None);
            && o.state.rooms.Keys == s.rooms.Keys + {roomId}
            && |o.state.rooms| == |s.rooms| + 1
            && o.state.rooms[roomId] == room
            && (forall c :: c in s.rooms ==> o.state.rooms[c] == s.rooms[c])
            && o.state.currentRoom == s.currentRoom[conn := roomId]
            && o.events == [ToSocket(conn, RoomJoined(data)), ToRoom(roomId, RoomUpdate(data))])
  {
    var cleanName := SanitizeName(name);
    if cleanName != "" {
      var room := Room([Player(conn, cleanName, true)], conn, Waiting, None);
      var rooms := s.rooms[roomId := room];
      assert CreateRoom(s, conn, name, roomId).state.rooms == rooms;
      assert |rooms| == |s.rooms| + 1;
    }
  }

  // ---------------------------------------------------------------------
  // joinRoom

  /** The code is trimmed and upper-cased before the lookup, and an
      unknown code is refused first, whatever the name: the error goes to
      the sender only and nothing changes. */
  lemma JoinRoomUnknownCode(s: State, conn: ConnId, roomId: JsValue, name: JsValue)
    requires NormalizeCode(roomId) !in s.rooms
    ensures JoinRoom(s, conn, roomId, name) == Outcome(s, [ToSocket(conn, ErrorMessage(RoomMissing))])
  {
  }

  /** For a live room, an empty sanitised name is refused next, again to
      the sender only and without any change. */
  lemma JoinRoomEmptyName(s: State, conn: ConnId, roomId: JsValue, name: JsValue)
    requires NormalizeCode(roomId) in s.rooms && SanitizeName(name) == ""
    ensures JoinRoom(s, conn, roomId, name) == Outcome(s, [ToSocket(conn, ErrorMessage(NameRequired))])
  {
  }

  /** Otherwise the player is appended after the existing ones; nothing
      else in the room or in another room changes; the sender is bound to
      the room and gets the snapshot, then the room's channel does. */
  lemma JoinRoomAppends(s: State, conn: ConnId, roomId: JsValue, name: JsValue)
    requires NormalizeCode(roomId) in s.rooms && SanitizeName(name) != ""
    ensures var o := JoinRoom(s, conn, roomId, name);
      var code := NormalizeCode(roomId);
      var before := s.rooms[code];
      var after := o.state.rooms[code];
      && OnlyRoomChanged(s.rooms, o.state.rooms, code)
      && after.players == before.players + [Player(conn, SanitizeName(name), false)]
      && after.hostId == before.hostId
      && after.status == before.status
      && after.winner == before.winner
      && o.state.currentRoom == s.currentRoom[conn := code]
      && o.events == [ToSocket(conn, RoomJoined(GetRoomData(o.state.rooms, code).value)),
                      ToRoom(code, RoomUpdate(GetRoomData(o.state.rooms, code).value))]
  {
    var code := NormalizeCode(roomId);
    var room := s.rooms[code];
    var rooms := s.rooms[code := room.(players := room.players + [Player(conn, SanitizeName(name), false)])];
    assert JoinRoom(s, conn, roomId, name).state.rooms == rooms;
  }

  /** A code typed with surrounding whitespace or in lower case finds the
      room it names. */
  lemma JoinRoomNormalizesCode(pre: string, typed: string, post: string, code: string)
    requires IsCode(code)
    requires |typed| == |code| && forall i :: 0 <= i < |typed| ==> UpperChar(typed[i]) == code[i]
    requires AllWhitespace(pre) && AllWhitespace(post)
    ensures NormalizeCode(JsString(pre + typed + post)) == code
  {
    TypedCodeIsPlain(typed, code);
    TrimAround(pre, typed, post);
    assert ToUpperAscii(typed) == code;
  }

  lemma TypedCodeIsPlain(typed: string, code: string)
    requires IsCode(code)
    requires |typed| == |code| && forall i :: 0 <= i < |typed| ==> UpperChar(typed[i]) == code[i]
    ensures typed != [] && !IsJsWhitespace(typed[0]) && !IsJsWhitespace(typed[|typed| - 1])
  {
    PlainCodeChar(typed[0], code[0]);
    PlainCodeChar(typed[|typed| - 1], code[|typed| - 1]);
  }

  /** A character that upper-cases to a code character is not whitespace. */
  lemma PlainCodeChar(c: char, u: char)
    requires u in Alphabet && UpperChar(c) == u
    ensures !IsJsWhitespace(c)
  {
    AlphabetIsPlain(u);
  }

  /** The characters of a code are capital letters and digits. */
  lemma AlphabetIsPlain(c: char)
    requires c in Alphabet
    ensures 'A' <= c <= 'Z' || '2' <= c <= '9'
  {
    var i :| 0 <= i < |Alphabet| && Alphabet[i] == c;
  }

  /** Whitespace around a string without whitespace at its ends is what
      `trim` removes. */
  lemma TrimAround(pre: string, t: string, post: string)
    requires AllWhitespace(pre) && AllWhitespace(post)
    requires t != [] && !IsJsWhitespace(t[0]) && !IsJsWhitespace(t[|t| - 1])
    ensures Trim(pre + t + post) == t
  {
    assert pre + t + post == pre + (t + post);
    TrimStartSkips(pre, t + post);
    TrimEndSkips(t, post);
  }

  // ---------------------------------------------------------------------
  // startRound and nextRound

  /** `startRound` acts exactly when the sender is the host of the room it
      is bound to; then that room, from any status, is running without a
      winner, players and host unchanged, and the channel gets
      `roundStarted` followed by the snapshot. Otherwise nothing happens. */
  lemma StartRoundEffect(s: State, conn: ConnId)
    ensures var o := StartRound(s, conn);
      && (!IsHostOfBound(s, conn) ==> o == Outcome(s, []))
      && (IsHostOfBound(s, conn) ==>
            var code := s.currentRoom[conn];
            var after := o.state.rooms[code];
            && OnlyRoomChanged(s.rooms, o.state.rooms, code)
            && after.status == Running && after.winner == None
            && after.players == s.rooms[code].players && after.hostId == conn
            && o.state.currentRoom == s.currentRoom
            && o.events == [ToRoom(code, RoundStarted),
                            ToRoom(code, RoomUpdate(GetRoomData(o.state.rooms, code).value))])
  {
  }

  /** `nextRound` has the same authorisation; it puts the room back to
      waiting without a winner from any status and emits `roundReset`
      followed by the snapshot. */
  lemma NextRoundEffect(s: State, conn: ConnId)
    ensures var o := NextRound(s, conn);
      && (!IsHostOfBound(s, conn) ==> o == Outcome(s, []))
      && (IsHostOfBound(s, conn) ==>
            var code := s.currentRoom[conn];
            var after := o.state.rooms[code];
            && OnlyRoomChanged(s.rooms, o.state.rooms, code)
            && after.status == Waiting && after.winner == None
            && after.players == s.rooms[code].players && after.hostId == conn
            && o.state.currentRoom == s.currentRoom
            && o.events == [ToRoom(code, RoundReset),
                            ToRoom(code, RoomUpdate(GetRoomData(o.state.rooms, code).value))])
  {
  }

  // ---------------------------------------------------------------------
  // pressButton

  /** A press counts exactly when the sender's room is running, has no
      winner yet and lists the sender; then the first player record with
      the sender's id gives the winner's name, the round ends, and the
      channel gets `roundEnded` with that name followed by the snapshot.
      Any other press changes and emits nothing. */
  lemma PressButtonEffect(s: State, conn: ConnId)
    ensures var o := PressButton(s, conn);
      var acts := BoundRoom(s, conn).Some?
                  && s.rooms[BoundRoom(s, conn).value].status == Running
                  && !Truthy(s.rooms[BoundRoom(s, conn).value].winner)
                  && HasPlayer(s.rooms[BoundRoom(s, conn).value].players, conn);
      && (!acts ==> o == Outcome(s, []))
      && (acts ==>
            var code := s.currentRoom[conn];
            var before := s.rooms[code];
            var name := before.players[FirstIndex(before.players, conn, true)].name;
            var after := o.state.rooms[code];
            && OnlyRoomChanged(s.rooms, o.state.rooms, code)
            && after == before.(status := Ended, winner := Some(name))
            && o.state.currentRoom == s.currentRoom
            && o.events == [ToRoom(code, RoundEnded(name)),
                            ToRoom(code, RoomUpdate(GetRoomData(o.state.rooms, code).value))])
  {
  }

  /** Under the invariant a press counts exactly when the sender is bound
      to a running room: a running room has no winner, and a bound
      connection is always listed in its room. */
  lemma PressCountsIffRunning(s: State, conn: ConnId)
    requires Inv(s)
    ensures PressButton(s, conn).events != [] <==>
              BoundRoom(s, conn).Some? && s.rooms[BoundRoom(s, conn).value].status == Running
  {
    PressButtonEffect(s, conn);
  }

  /** The first press that counts decides the round: after it, a press by
      any connection bound to the same room changes and emits nothing. */
  lemma {:induction false} SecondPressIsNoOp(s: State, first: ConnId, second: ConnId)
    requires PressButton(s, first).events != []
    ensures var s' := PressButton(s, first).state;
      BoundRoom(s', second) == BoundRoom(s, first) ==> PressButton(s', second) == Outcome(s', [])
  {
    PressButtonEffect(s, first);
    var s' := PressButton(s, first).state;
    assert s'.rooms[BoundRoom(s, first).value].status == Ended;
  }

  // ---------------------------------------------------------------------
  // leaveRoom

  /** With the invariant, `leaveRoom` of a bound connection removes every
      record with its id and always clears its binding. If the room is
      left empty it is deleted, its code is free again, and nothing is
      emitted. Otherwise the players keep their order; if the host left,
      the new host is the first remaining player and exactly one
      `hostChanged` naming that player precedes the snapshot; if not, the
      host is unchanged and only the snapshot is sent. An unbound
      connection changes nothing. */
  lemma LeaveRoomEffect(s: State, conn: ConnId)
    requires Inv(s)
    ensures var o := LeaveRoom(s, conn);
      && (conn !in s.currentRoom ==> o == Outcome(s, []))
      && (conn in s.currentRoom ==>
            var code := s.currentRoom[conn];
            var before := s.rooms[code];
            var rest := WithoutConn(before.players, conn);
            && o.state.currentRoom == s.currentRoom - {conn}
            && (rest == [] ==>
                  o.state.rooms == s.rooms - {code} && code !in o.state.rooms && o.events == [])
            && (rest != [] ==>
                  var after := o.state.rooms[code];
                  && OnlyRoomChanged(s.rooms, o.state.rooms, code)
                  && after.players == rest
                  && after.status == before.status && after.winner == before.winner
                  && (before.hostId == conn ==>
                        && after.hostId == rest[0].id
                        && rest[0] == before.players[FirstIndex(before.players, conn, false)]
                        && o.events == [ToRoom(code, HostChanged(rest[0])),
                                        ToRoom(code, RoomUpdate(GetRoomData(o.state.rooms, code).value))])
                  && (before.hostId != conn ==>
                        && after.hostId == before.hostId
                        && o.events == [ToRoom(code, RoomUpdate(GetRoomData(o.state.rooms, code).value))])))
  {
    if conn in s.currentRoom {
      var code := s.currentRoom[conn];
      var before := s.rooms[code];
      var rest := WithoutConn(before.players, conn);
      if rest != [] {
        var hostLeft := before.hostId == conn;
        var after := before.(players := rest, hostId := if hostLeft then rest[0].id else before.hostId);
        var rooms := s.rooms[code := after];
        assert LeaveRoom(s, conn).state == State(rooms, s.currentRoom - {conn});
        assert LeaveRoom(s, conn).events
               == (if hostLeft then [ToRoom(code, HostChanged(rest[0]))] else [])
                  + BroadcastRoomUpdate(rooms, code);
      }
    }
  }

  /** Without the invariant: a connection bound to a code that is no
      longer a room changes nothing and keeps its binding. */
  lemma LeaveRoomGone(s: State, conn: ConnId)
    requires conn in s.currentRoom && s.currentRoom[conn] !in s.rooms
    ensures LeaveRoom(s, conn) == Outcome(s, [])
    ensures conn in LeaveRoom(s, conn).state.currentRoom
  {
  }

  /** Only the last player's leaving deletes a room: the room of a leaving
      connection survives exactly when some record in it has another id. */
  lemma {:induction false} LeaveDeletesOnlyEmpty(s: State, conn: ConnId)
    requires Inv(s) && conn in s.currentRoom
    ensures var code := s.currentRoom[conn];
      code in LeaveRoom(s, conn).state.rooms <==>
        exists p :: p in s.rooms[code].players && p.id != conn
  {
    var code := s.currentRoom[conn];
    var rest := WithoutConn(s.rooms[code].players, conn);
    if rest != [] {
      assert rest[0] in rest;
    }
    if exists p :: p in s.rooms[code].players && p.id != conn {
      var p :| p in s.rooms[code].players && p.id != conn;
      assert p in rest;
    }
  }
}
