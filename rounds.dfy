/**
 * Runs of handlers: the server processes one event at a time, so a run is
 * a sequence of commands applied in order, and its output the messages of
 * each handler in turn. Properties of whole rounds are stated here.
 */
module Rounds {
  import opened Wrappers
  import opened Names
  import opened Codes
  import opened Rooms
  import opened RoomProperties

  /** One socket event from connection `conn`. `Create` carries the code
      `generateRoomId` returns; `Leave` is a disconnect. */
  datatype Command =
    | Create(conn: ConnId, name: JsValue, roomId: string)
    | Join(conn: ConnId, code: JsValue, name: JsValue)
    | Start(conn: ConnId)
    | Next(conn: ConnId)
    | Press(conn: ConnId)
    | Leave(conn: ConnId)

  /** One event to its handler, which emits at most two messages. */
  function Step(s: State, cmd: Command): (o: Outcome)
    ensures |o.events| <= 2
  {
    match cmd
    case Create(conn, name, roomId) => CreateRoom(s, conn, name, roomId)
    case Join(conn, code, name) => JoinRoom(s, conn, code, name)
    case Start(conn) => StartRound(s, conn)
    case Next(conn) => NextRound(s, conn)
    case Press(conn) => PressButton(s, conn)
    case Leave(conn) => LeaveRoom(s, conn)
  }

  /** Only `createRoom` adds a code and only a disconnect removes one; the
      round handlers leave every binding as it was. */
  lemma StepCodes(s: State, cmd: Command)
    ensures Step(s, cmd).state.rooms.Keys <= s.rooms.Keys + (if cmd.Create? then {cmd.roomId} else {})
    ensures !cmd.Leave? ==> s.rooms.Keys <= Step(s, cmd).state.rooms.Keys
    ensures cmd.Start? || cmd.Next? || cmd.Press? ==> Step(s, cmd).state.currentRoom == s.currentRoom
  {
    match cmd
    case Create(conn, name, roomId) =>
    case Join(conn, code, name) =>
    case Start(conn) =>
    case Next(conn) =>
    case Press(conn) =>
    case Leave(conn) =>
  }

  /** The commands applied in order; the messages in the order emitted, at
      most two per event. */
  function Run(s: State, cmds: seq<Command>): (o: Outcome)
    ensures |o.events| <= 2 * |cmds|
    decreases |cmds|
  {
    if cmds == [] then Outcome(s, [])
    else
      var o := Step(s, cmds[0]);
      var rest := Run(o.state, cmds[1..]);
      Outcome(rest.state, o.events + rest.events)
  }

  /** Every `Create` in the run carries a code `generateRoomId` can return
      at that point: well formed and not in use. */
  predicate Admissible(s: State, cmds: seq<Command>)
    decreases |cmds|
  {
    cmds == [] ||
    ((cmds[0].Create? ==> IsCode(cmds[0].roomId) && cmds[0].roomId !in s.rooms)
     && Admissible(Step(s, cmds[0]).state, cmds[1..]))
  }

  lemma StepKeepsInv(s: State, cmd: Command)
    requires Inv(s)
    requires cmd.Create? ==> IsCode(cmd.roomId) && cmd.roomId !in s.rooms
    ensures Inv(Step(s, cmd).state)
  {
    match cmd
    case Create(conn, name, roomId) =>
      CreateRoomKeepsInv(s, conn, name, roomId);
      assert Step(s, cmd).state == CreateRoom(s, conn, name, roomId).state;
    case Join(conn, code, name) =>
      JoinRoomKeepsInv(s, conn, code, name);
      assert Step(s, cmd).state == JoinRoom(s, conn, code, name).state;
    case Start(conn) =>
      StartRoundKeepsInv(s, conn);
      assert Step(s, cmd).state == StartRound(s, conn).state;
    case Next(conn) =>
      NextRoundKeepsInv(s, conn);
      assert Step(s, cmd).state == NextRound(s, conn).state;
    case Press(conn) =>
      PressButtonKeepsInv(s, conn);
      assert Step(s, cmd).state == PressButton(s, conn).state;
    case Leave(conn) =>
      LeaveRoomKeepsInv(s, conn);
      assert Step(s, cmd).state == LeaveRoom(s, conn).state;
  }

  /** Across any run of handlers every live room keeps a player, a host
      that is one of its players, and a winner exactly when its round has
      ended; every bound connection stays listed in its room. */
  lemma {:induction false} RunKeepsInv(s: State, cmds: seq<Command>)
    requires Inv(s) && Admissible(s, cmds)
    ensures Inv(Run(s, cmds).state)
    decreases |cmds|
  {
    if cmds != [] {
      StepKeepsInv(s, cmds[0]);
      RunKeepsInv(Step(s, cmds[0]).state, cmds[1..]);
    }
  }

  // ---------------------------------------------------------------------
  // At most one winner per round

  /** Number of `roundEnded` messages sent to room `code`. */
  function CountEnded(events: seq<Emit>, code: string): nat {
    if events == [] then 0
    else (if events[0].ToRoom? && events[0].roomId == code && events[0].msg.RoundEnded? then 1 else 0)
         + CountEnded(events[1..], code)
  }

  lemma {:induction false} CountEndedAppend(a: seq<Emit>, b: seq<Emit>, code: string)
    ensures CountEnded(a + b, code) == CountEnded(a, code) + CountEnded(b, code)
  {
    if a == [] {
      assert a + b == b;
    } else {
      assert (a + b)[0] == a[0];
      assert (a + b)[1..] == a[1..] + b;
      CountEndedAppend(a[1..], b, code);
    }
  }

  /** 1 while room `code` has a round running, else 0. */
  function RunningCount(s: State, code: string): nat {
    if code in s.rooms && s.rooms[code].status == Running then 1 else 0
  }

  /** `cmd` is a `startRound` that starts a round of room `code` in `s`:
      its sender is the host of the live room it is bound to, and that
      room is `code`. */
  predicate StartsRoom(s: State, cmd: Command, code: string) {
    cmd.Start? && IsHostOfBound(s, cmd.conn) && s.currentRoom[cmd.conn] == code
  }

  /** No command of the run starts a round of room `code` in the state it
      is applied to. */
  predicate NoStartOf(s: State, cmds: seq<Command>, code: string)
    decreases |cmds|
  {
    cmds == [] || (!StartsRoom(s, cmds[0], code) && NoStartOf(Step(s, cmds[0]).state, cmds[1..], code))
  }

  lemma BroadcastHasNoEnd(rooms: map<string, Room>, roomId: string, code: string)
    ensures CountEnded(BroadcastRoomUpdate(rooms, roomId), code) == 0
  {
  }

  /** The measure that only `startRound` can raise: a running round of
      room `code` counts 1, each `roundEnded` it emitted counts 1. */
  predicate EndsAtMostRunning(s: State, o: Outcome, code: string) {
    RunningCount(o.state, code) + CountEnded(o.events, code) <= RunningCount(s, code)
  }

  /** A handler that does not start a round of room `code` reports an end
      for that room only by ending its running round. */
  lemma StepEndsAtMostRunning(s: State, cmd: Command, code: string)
    requires !StartsRoom(s, cmd, code)
    ensures EndsAtMostRunning(s, Step(s, cmd), code)
  {
    match cmd
    case Start(conn) => OtherStartKeeps(s, conn, code);
    case Create(conn, name, roomId) => CreateEndsNothing(s, conn, name, roomId, code);
    case Join(conn, c, name) => JoinEndsNothing(s, conn, c, name, code);
    case Next(conn) => NextEndsNothing(s, conn, code);
    case Press(conn) => PressEndsRunning(s, conn, code);
    case Leave(conn) => LeaveEndsNothing(s, conn, code);
  }

  /** A `startRound` that is ignored, or that starts another room's round,
      leaves room `code` as it was and reports no end. */
  lemma OtherStartKeeps(s: State, conn: ConnId, code: string)
    requires !StartsRoom(s, Start(conn), code)
    ensures RunningCount(StartRound(s, conn).state, code) == RunningCount(s, code)
    ensures CountEnded(StartRound(s, conn).events, code) == 0
    ensures EndsAtMostRunning(s, StartRound(s, conn), code)
  {
    StartRoundEffect(s, conn);
    var o := StartRound(s, conn);
    if IsHostOfBound(s, conn) {
      var k := s.currentRoom[conn];
      BroadcastHasNoEnd(o.state.rooms, k, code);
      CountEndedAppend([ToRoom(k, RoundStarted)], BroadcastRoomUpdate(o.state.rooms, k), code);
    }
  }

  lemma CreateEndsNothing(s: State, conn: ConnId, name: JsValue, roomId: string, code: string)
    ensures EndsAtMostRunning(s, CreateRoom(s, conn, name, roomId), code)
  {
    var o := CreateRoom(s, conn, name, roomId);
    if SanitizeName(name) != "" {
      BroadcastHasNoEnd(o.state.rooms, roomId, code);
      CountEndedAppend([ToSocket(conn, RoomJoined(GetRoomData(o.state.rooms, roomId).value))],
                       BroadcastRoomUpdate(o.state.rooms, roomId), code);
    }
  }

  lemma JoinEndsNothing(s: State, conn: ConnId, c: JsValue, name: JsValue, code: string)
    ensures EndsAtMostRunning(s, JoinRoom(s, conn, c, name), code)
  {
    var k := NormalizeCode(c);
    var o := JoinRoom(s, conn, c, name);
    if k in s.rooms && SanitizeName(name) != "" {
      JoinRoomAppends(s, conn, c, name);
      BroadcastHasNoEnd(o.state.rooms, k, code);
      CountEndedAppend([ToSocket(conn, RoomJoined(GetRoomData(o.state.rooms, k).value))],
                       BroadcastRoomUpdate(o.state.rooms, k), code);
    }
  }

  lemma NextEndsNothing(s: State, conn: ConnId, code: string)
    ensures EndsAtMostRunning(s, NextRound(s, conn), code)
  {
    NextRoundEffect(s, conn);
    var o := NextRound(s, conn);
    if IsHostOfBound(s, conn) {
      var k := s.currentRoom[conn];
      BroadcastHasNoEnd(o.state.rooms, k, code);
      CountEndedAppend([ToRoom(k, RoundReset)], BroadcastRoomUpdate(o.state.rooms, k), code);
    }
  }

  lemma PressEndsRunning(s: State, conn: ConnId, code: string)
    ensures EndsAtMostRunning(s, PressButton(s, conn), code)
  {
    PressButtonEffect(s, conn);
    var o := PressButton(s, conn);
    if o.events != [] {
      var k := s.currentRoom[conn];
      var name := o.events[0].msg.winner;
      BroadcastHasNoEnd(o.state.rooms, k, code);
      CountEndedAppend([ToRoom(k, RoundEnded(name))], BroadcastRoomUpdate(o.state.rooms, k), code);
    }
  }

  lemma LeaveEndsNothing(s: State, conn: ConnId, code: string)
    ensures EndsAtMostRunning(s, LeaveRoom(s, conn), code)
  {
    var o := LeaveRoom(s, conn);
    if conn in s.currentRoom && s.currentRoom[conn] in s.rooms {
      var k := s.currentRoom[conn];
      var rest := WithoutConn(s.rooms[k].players, conn);
      if rest != [] {
        var hostLeft := s.rooms[k].hostId == conn;
        BroadcastHasNoEnd(o.state.rooms, k, code);
        CountEndedAppend(if hostLeft then [ToRoom(k, HostChanged(rest[0]))] else [],
                         BroadcastRoomUpdate(o.state.rooms, k), code);
      }
    }
  }

  /** First press wins: between two `startRound`s that start room `code`,
      the room reports at most one end of round, and none at all unless a
      round was running when the stretch began, whatever joins, leaves,
      presses, resets, creations and other rooms' starts happen in between. */
  lemma {:induction false} AtMostOneRoundEnded(s: State, cmds: seq<Command>, code: string)
    requires NoStartOf(s, cmds, code)
    ensures RunningCount(Run(s, cmds).state, code) + CountEnded(Run(s, cmds).events, code)
            <= RunningCount(s, code)
    ensures CountEnded(Run(s, cmds).events, code) <= 1
    decreases |cmds|
  {
    if cmds != [] {
      var o := Step(s, cmds[0]);
      StepEndsAtMostRunning(s, cmds[0], code);
      AtMostOneRoundEnded(o.state, cmds[1..], code);
      CountEndedAppend(o.events, Run(o.state, cmds[1..]).events, code);
    }
  }

  // ---------------------------------------------------------------------
  // A full round

  /** From a waiting room without a winner, `startRound` by the host, a
      press by a player listed in the room and bound to it, and `nextRound`
      by the host give back exactly the state the cycle began with; the
      room hears `roundStarted`, `roundEnded` with the presser's name and
      `roundReset`, each followed by the snapshot of the room as it then
      is. */
  lemma RoundCycle(s: State, host: ConnId, presser: ConnId)
    requires IsHostOfBound(s, host)
    requires s.rooms[s.currentRoom[host]].status == Waiting && s.rooms[s.currentRoom[host]].winner == None
    requires BoundRoom(s, presser) == BoundRoom(s, host)
    requires HasPlayer(s.rooms[s.currentRoom[host]].players, presser)
    ensures var code := s.currentRoom[host];
      var room := s.rooms[code];
      var name := room.players[FirstIndex(room.players, presser, true)].name;
      var o1 := StartRound(s, host);
      var o2 := PressButton(o1.state, presser);
      var o3 := NextRound(o2.state, host);
      && o3.state == s
      && o1.events == [ToRoom(code, RoundStarted), ToRoom(code, RoomUpdate(GetRoomData(o1.state.rooms, code).value))]
      && o2.events == [ToRoom(code, RoundEnded(name)), ToRoom(code, RoomUpdate(GetRoomData(o2.state.rooms, code).value))]
      && o3.events == [ToRoom(code, RoundReset), ToRoom(code, RoomUpdate(GetRoomData(s.rooms, code).value))]
  {
    var code := s.currentRoom[host];
    StartByHost(s, host);
    var s1 := StartRound(s, host).state;
    PressWins(s1, presser);
    var s2 := PressButton(s1, presser).state;
    NextByHost(s2, host);
    assert s2.rooms[code := s2.rooms[code].(status := Waiting, winner := None)] == s.rooms;
  }

  /** `startRound` by the host of its bound room. */
  lemma StartByHost(s: State, host: ConnId)
    requires IsHostOfBound(s, host)
    ensures var code := s.currentRoom[host];
      var rooms := s.rooms[code := s.rooms[code].(status := Running, winner := None)];
      StartRound(s, host)
        == Outcome(State(rooms, s.currentRoom),
                   [ToRoom(code, RoundStarted), ToRoom(code, RoomUpdate(GetRoomData(rooms, code).value))])
  {
  }

  /** `nextRound` by the host of its bound room. */
  lemma NextByHost(s: State, host: ConnId)
    requires IsHostOfBound(s, host)
    ensures var code := s.currentRoom[host];
      var rooms := s.rooms[code := s.rooms[code].(status := Waiting, winner := None)];
      NextRound(s, host)
        == Outcome(State(rooms, s.currentRoom),
                   [ToRoom(code, RoundReset), ToRoom(code, RoomUpdate(GetRoomData(rooms, code).value))])
  {
  }

  /** A press from a player of a running room with no winner ends it. */
  lemma PressWins(s: State, conn: ConnId)
    requires BoundRoom(s, conn).Some?
    requires s.rooms[s.currentRoom[conn]].status == Running && s.rooms[s.currentRoom[conn]].winner == None
    requires HasPlayer(s.rooms[s.currentRoom[conn]].players, conn)
    ensures var code := s.currentRoom[conn];
      var room := s.rooms[code];
      var name := room.players[FirstIndex(room.players, conn, true)].name;
      var rooms := s.rooms[code := room.(winner := Some(name), status := Ended)];
      PressButton(s, conn)
        == Outcome(State(rooms, s.currentRoom),
                   [ToRoom(code, RoundEnded(name)), ToRoom(code, RoomUpdate(GetRoomData(rooms, code).value))])
  {
  }

  // ---------------------------------------------------------------------
  // Joins

  /** Who joins, with the name each sends. */
  function JoinCommands(code: JsValue, joiners: seq<(ConnId, JsValue)>): seq<Command> {
    if joiners == [] then []
    else [Join(joiners[0].0, code, joiners[0].1)] + JoinCommands(code, joiners[1..])
  }

  function JoinedPlayers(joiners: seq<(ConnId, JsValue)>): seq<Player> {
    if joiners == [] then []
    else [Player(joiners[0].0, SanitizeName(joiners[0].1), false)] + JoinedPlayers(joiners[1..])
  }

  /** A run whose first command is `cmd` continues from the state `cmd`
      leaves. */
  lemma RunFirst(s: State, cmds: seq<Command>)
    requires cmds != []
    ensures Run(s, cmds).state == Run(Step(s, cmds[0]).state, cmds[1..]).state
  {
  }

  /** Every joiner sends a name that `sanitizeName` keeps non-empty. */
  predicate AllNamed(joiners: seq<(ConnId, JsValue)>) {
    joiners == [] || (SanitizeName(joiners[0].1) != "" && AllNamed(joiners[1..]))
  }

  lemma JoinCommandsCons(code: JsValue, joiners: seq<(ConnId, JsValue)>)
    requires joiners != []
    ensures JoinCommands(code, joiners)[0] == Join(joiners[0].0, code, joiners[0].1)
    ensures JoinCommands(code, joiners)[1..] == JoinCommands(code, joiners[1..])
  {
  }

  /** The joins applied one after another, by the handler itself. */
  function JoinAll(s: State, code: JsValue, joiners: seq<(ConnId, JsValue)>): State
    decreases |joiners|
  {
    if joiners == [] then s
    else JoinAll(JoinRoom(s, joiners[0].0, code, joiners[0].1).state, code, joiners[1..])
  }

  /** A run of join commands is the joins applied one after another. */
  lemma {:induction false} RunJoins(s: State, code: JsValue, joiners: seq<(ConnId, JsValue)>)
    ensures Run(s, JoinCommands(code, joiners)).state == JoinAll(s, code, joiners)
    decreases |joiners|
  {
    var cmds := JoinCommands(code, joiners);
    if joiners == [] {
      assert cmds == [];
    } else {
      JoinCommandsCons(code, joiners);
      RunFirst(s, cmds);
      RunJoins(JoinRoom(s, joiners[0].0, code, joiners[0].1).state, code, joiners[1..]);
    }
  }

  lemma JoinAllCons(s: State, code: JsValue, joiners: seq<(ConnId, JsValue)>)
    requires joiners != []
    ensures JoinAll(s, code, joiners)
            == JoinAll(JoinRoom(s, joiners[0].0, code, joiners[0].1).state, code, joiners[1..])
  {
  }

  /** One successful join changes the joined room only by the new player. */
  lemma JoinAddsPlayer(s: State, conn: ConnId, code: JsValue, name: JsValue)
    requires NormalizeCode(code) in s.rooms && SanitizeName(name) != ""
    ensures var k := NormalizeCode(code);
      var s1 := JoinRoom(s, conn, code, name).state;
      && k in s1.rooms
      && s1.rooms[k] == s.rooms[k].(players := s.rooms[k].players + [Player(conn, SanitizeName(name), false)])
  {
  }

  /** Regrouping a concatenation of player lists; kept as a lemma of its own
      because the step is costly to prove inside `JoinAllAppends`. */
  lemma PlayersAssoc(a: seq<Player>, b: seq<Player>, c: seq<Player>)
    ensures (a + b) + c == a + (b + c)
  {
  }

  /** N successful joins to a room, in any status, leave it with N more
      players, appended in arrival order; host, status and winner stay. */
  lemma {:induction false} JoinAllAppends(s: State, code: JsValue, joiners: seq<(ConnId, JsValue)>)
    requires NormalizeCode(code) in s.rooms
    requires AllNamed(joiners)
    ensures var k := NormalizeCode(code);
      var after := JoinAll(s, code, joiners);
      && k in after.rooms
      && after.rooms[k].players == s.rooms[k].players + JoinedPlayers(joiners)
      && after.rooms[k].hostId == s.rooms[k].hostId
      && after.rooms[k].status == s.rooms[k].status
      && after.rooms[k].winner == s.rooms[k].winner
    decreases |joiners|
  {
    if joiners != [] {
      var k := NormalizeCode(code);
      var conn := joiners[0].0;
      var name := joiners[0].1;
      var rest := joiners[1..];
      JoinAddsPlayer(s, conn, code, name);
      var s1 := JoinRoom(s, conn, code, name).state;
      JoinAllCons(s, code, joiners);
      JoinAllAppends(s1, code, rest);
      var p := Player(conn, SanitizeName(name), false);
      assert JoinedPlayers(joiners) == [p] + JoinedPlayers(rest);
      assert s1.rooms[k].players == s.rooms[k].players + [p];
      PlayersAssoc(s.rooms[k].players, [p], JoinedPlayers(rest));
    }
  }

  /** The same of a run of `joinRoom` events. */
  lemma JoinsAppendInOrder(s: State, code: JsValue, joiners: seq<(ConnId, JsValue)>)
    requires NormalizeCode(code) in s.rooms
    requires AllNamed(joiners)
    ensures var k := NormalizeCode(code);
      var after := Run(s, JoinCommands(code, joiners)).state;
      && k in after.rooms
      && after.rooms[k].players == s.rooms[k].players + JoinedPlayers(joiners)
      && |after.rooms[k].players| == |s.rooms[k].players| + |joiners|
      && after.rooms[k].hostId == s.rooms[k].hostId
      && after.rooms[k].status == s.rooms[k].status
      && after.rooms[k].winner == s.rooms[k].winner
  {
    RunJoins(s, code, joiners);
    JoinAllAppends(s, code, joiners);
    JoinedPlayersLength(joiners);
  }

  lemma {:induction false} JoinedPlayersLength(joiners: seq<(ConnId, JsValue)>)
    ensures |JoinedPlayers(joiners)| == |joiners|
    decreases |joiners|
  {
    if joiners != [] { JoinedPlayersLength(joiners[1..]); }
  }

  // ---------------------------------------------------------------------
  // A game

  /** A run's state and messages: the first command's, then the rest's. */
  lemma RunCons(s: State, cmd: Command, rest: seq<Command>)
    ensures Run(s, [cmd] + rest)
            == Outcome(Run(Step(s, cmd).state, rest).state,
                       Step(s, cmd).events + Run(Step(s, cmd).state, rest).events)
  {
    assert ([cmd] + rest)[0] == cmd;
    assert ([cmd] + rest)[1..] == rest;
  }

  lemma PlainName(n: string)
    requires 0 < |n| <= MaxNameLength && !IsJsWhitespace(n[0]) && !IsJsWhitespace(n[|n| - 1])
    ensures SanitizeName(JsString(n)) == n
  {
    TrimUntrimmed(n);
  }

  const Code: string := "K3F9P"

  /** The code as Luis types it names Ana's room. */
  lemma LowerCaseCode()
    ensures NormalizeCode(JsString(" k3f9p ")) == Code
  {
    var s := " k3f9p ";
    assert IsJsWhitespace(s[0]) && s[1..] == "k3f9p ";
    assert !IsJsWhitespace('k');
    assert TrimStart(s) == "k3f9p ";
    var u := "k3f9p ";
    assert IsJsWhitespace(u[5]) && u[..5] == "k3f9p";
    assert !IsJsWhitespace('p');
    assert TrimEnd(u) == "k3f9p";
    assert ToUpperAscii("k3f9p") == Code;
  }

  /** The room after Ana (`a`) created it and Luis (`l`) joined it. */
  function Lobby(a: ConnId, l: ConnId, status: Status, winner: Option<string>): State {
    State(map[Code := Room([Player(a, "Ana", true), Player(l, "Luis", false)], a, status, winner)],
          map[a := Code, l := Code])
  }

  lemma AnaCreates(a: ConnId)
    ensures Step(Empty, Create(a, JsString("Ana"), Code)).state == Created(a)
    ensures CountEnded(Step(Empty, Create(a, JsString("Ana"), Code)).events, Code) == 0
  {
    PlainName("Ana");
    CreateEndsNothing(Empty, a, JsString("Ana"), Code, Code);
  }

  /** The state before Luis joins. */
  function Created(a: ConnId): State {
    State(map[Code := Room([Player(a, "Ana", true)], a, Waiting, None)], map[a := Code])
  }

  lemma LuisJoins(a: ConnId, l: ConnId)
    ensures var o := Step(Created(a), Join(l, JsString(" k3f9p "), JsString("Luis")));
      o.state == Lobby(a, l, Waiting, None) && CountEnded(o.events, Code) == 0
  {
    LowerCaseCode();
    PlainName("Luis");
    JoinsAsLuis(a, l, JsString(" k3f9p "), JsString("Luis"));
  }

  /** Joining Ana's room under the name Luis, with any typing of the code. */
  lemma JoinsAsLuis(a: ConnId, l: ConnId, typed: JsValue, name: JsValue)
    requires NormalizeCode(typed) == Code && SanitizeName(name) == "Luis"
    ensures var o := JoinRoom(Created(a), l, typed, name);
      o.state == Lobby(a, l, Waiting, None) && CountEnded(o.events, Code) == 0
  {
    var s := Created(a);
    var luis := Player(l, "Luis", false);
    var room := s.rooms[Code];
    assert room.players + [luis] == [Player(a, "Ana", true), luis];
    var rooms := s.rooms[Code := room.(players := room.players + [luis])];
    assert rooms == Lobby(a, l, Waiting, None).rooms;
    assert s.currentRoom[l := Code] == Lobby(a, l, Waiting, None).currentRoom;
    JoinEndsNothing(s, l, typed, name, Code);
  }

  lemma AnaStarts(a: ConnId, l: ConnId)
    ensures var o := Step(Lobby(a, l, Waiting, None), Start(a));
      o.state == Lobby(a, l, Running, None) && CountEnded(o.events, Code) == 0
  {
    var s := Lobby(a, l, Running, None);
    assert Step(Lobby(a, l, Waiting, None), Start(a)).events
           == [ToRoom(Code, RoundStarted)] + BroadcastRoomUpdate(s.rooms, Code);
    BroadcastHasNoEnd(s.rooms, Code, Code);
    CountEndedAppend([ToRoom(Code, RoundStarted)], BroadcastRoomUpdate(s.rooms, Code), Code);
  }

  lemma LuisWins(a: ConnId, l: ConnId)
    requires a != l
    ensures var o := Step(Lobby(a, l, Running, None), Press(l));
      o.state == Lobby(a, l, Ended, Some("Luis")) && CountEnded(o.events, Code) == 1
  {
    var s := Lobby(a, l, Ended, Some("Luis"));
    assert FindPlayer([Player(a, "Ana", true), Player(l, "Luis", false)], l)
           == Some(Player(l, "Luis", false));
    assert Step(Lobby(a, l, Running, None), Press(l)).events
           == [ToRoom(Code, RoundEnded("Luis"))] + BroadcastRoomUpdate(s.rooms, Code);
    BroadcastHasNoEnd(s.rooms, Code, Code);
    CountEndedAppend([ToRoom(Code, RoundEnded("Luis"))], BroadcastRoomUpdate(s.rooms, Code), Code);
  }

  lemma AnaTooLate(a: ConnId, l: ConnId)
    ensures Step(Lobby(a, l, Ended, Some("Luis")), Press(a)) == Outcome(Lobby(a, l, Ended, Some("Luis")), [])
  {
  }

  /** The game's events from Luis's press on: Luis presses, then Ana. */
  function Presses(a: ConnId, l: ConnId): seq<Command> { [Press(l)] + [Press(a)] }

  /** From Ana's `startRound` on. */
  function FromStart(a: ConnId, l: ConnId): seq<Command> { [Start(a)] + Presses(a, l) }

  /** From Luis's `joinRoom` on. */
  function FromJoin(a: ConnId, l: ConnId): seq<Command> {
    [Join(l, JsString(" k3f9p "), JsString("Luis"))] + FromStart(a, l)
  }

  /** The whole game: Ana creates room `K3F9P`, Luis joins typing ` k3f9p `,
      Ana starts the round, Luis presses, then Ana presses. */
  function Game(a: ConnId, l: ConnId): seq<Command> {
    [Create(a, JsString("Ana"), Code)] + FromJoin(a, l)
  }

  lemma FromRunning(a: ConnId, l: ConnId)
    requires a != l
    ensures var o := Run(Lobby(a, l, Running, None), Presses(a, l));
      o.state == Lobby(a, l, Ended, Some("Luis")) && CountEnded(o.events, Code) == 1
  {
    var s3 := Lobby(a, l, Running, None);
    var s4 := Lobby(a, l, Ended, Some("Luis"));
    LuisWins(a, l);
    AnaTooLate(a, l);
    RunCons(s4, Press(a), []);
    assert [Press(a)] + [] == [Press(a)];
    RunCons(s3, Press(l), [Press(a)]);
    CountEndedAppend(Step(s3, Press(l)).events, [], Code);
  }

  lemma FromWaiting(a: ConnId, l: ConnId)
    requires a != l
    ensures var o := Run(Lobby(a, l, Waiting, None), FromStart(a, l));
      o.state == Lobby(a, l, Ended, Some("Luis")) && CountEnded(o.events, Code) == 1
  {
    var s2 := Lobby(a, l, Waiting, None);
    var s3 := Lobby(a, l, Running, None);
    AnaStarts(a, l);
    FromRunning(a, l);
    RunCons(s2, Start(a), Presses(a, l));
    CountEndedAppend(Step(s2, Start(a)).events, Run(s3, Presses(a, l)).events, Code);
  }

  lemma FromCreated(a: ConnId, l: ConnId)
    requires a != l
    ensures var o := Run(Created(a), FromJoin(a, l));
      o.state == Lobby(a, l, Ended, Some("Luis")) && CountEnded(o.events, Code) == 1
  {
    var s1 := Created(a);
    var c2 := Join(l, JsString(" k3f9p "), JsString("Luis"));
    LuisJoins(a, l);
    FromWaiting(a, l);
    RunCons(s1, c2, FromStart(a, l));
    CountEndedAppend(Step(s1, c2).events, Run(Lobby(a, l, Waiting, None), FromStart(a, l)).events, Code);
  }

  /** The game ends with both players listed, Ana as host, Luis as the
      winner, and exactly one `roundEnded` sent to the room. */
  lemma AnaAndLuis(a: ConnId, l: ConnId)
    requires a != l
    ensures var o := Run(Empty, Game(a, l));
      && o.state == Lobby(a, l, Ended, Some("Luis"))
      && o.state.rooms[Code].players == [Player(a, "Ana", true), Player(l, "Luis", false)]
      && o.state.rooms[Code].winner == Some("Luis")
      && CountEnded(o.events, Code) == 1
  {
    var c1 := Create(a, JsString("Ana"), Code);
    AnaCreates(a);
    FromCreated(a, l);
    RunCons(Empty, c1, FromJoin(a, l));
    CountEndedAppend(Step(Empty, c1).events, Run(Step(Empty, c1).state, FromJoin(a, l)).events, Code);
  }

  /** When Ana, the host, disconnects, Luis becomes the host and the room
      hears `hostChanged` with Luis's record, which still says he is not
      the host: `isHost` is never updated. */
  lemma AnaLeaves(a: ConnId, l: ConnId, status: Status, winner: Option<string>)
    requires a != l
    ensures var luis := Player(l, "Luis", false);
      var room := Room([luis], l, status, winner);
      var o := LeaveRoom(Lobby(a, l, status, winner), a);
      && o.state == State(map[Code := room], map[l := Code])
      && o.events == [ToRoom(Code, HostChanged(luis)),
                      ToRoom(Code, RoomUpdate(RoomData(Code, [luis], l, status, winner)))]
      && !o.events[0].msg.player.isHost
  {
    var s := Lobby(a, l, status, winner);
    var luis := Player(l, "Luis", false);
    assert WithoutConn([Player(a, "Ana", true), luis], a) == [luis];
    assert s.rooms[Code := Room([luis], l, status, winner)] == map[Code := Room([luis], l, status, winner)];
    assert s.currentRoom - {a} == map[l := Code];
  }

  /** Creating a room does not leave the room the connection was in: once
      it disconnects, the first room still lists it. No event from that
      id follows a disconnect, and `leaveRoom` only ever looks at the room
      the connection was bound to last, so that record then stays. */
  lemma {:induction false} SecondRoomLeavesStalePlayer(s: State, conn: ConnId, name: JsValue, roomId: string)
    requires Inv(s) && BoundRoom(s, conn).Some?
    requires IsCode(roomId) && roomId !in s.rooms && SanitizeName(name) != ""
    ensures var first := s.currentRoom[conn];
      var after := LeaveRoom(CreateRoom(s, conn, name, roomId).state, conn).state;
      && conn !in after.currentRoom
      && roomId !in after.rooms
      && first in after.rooms && after.rooms[first] == s.rooms[first]
      && HasPlayer(after.rooms[first].players, conn)
  {
    var first := s.currentRoom[conn];
    CreateRoomEffect(s, conn, name, roomId);
    CreateRoomKeepsInv(s, conn, name, roomId);
    var s1 := CreateRoom(s, conn, name, roomId).state;
    assert s1.currentRoom[conn] == roomId;
    assert s1.rooms[first] == s.rooms[first];
    LeaveRoomEffect(s1, conn);
    assert WithoutConn(s1.rooms[roomId].players, conn) == [];
  }
}
