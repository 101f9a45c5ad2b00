# Pulsador: rooms and rounds of the buzzer server

Pulsador is a multiplayer "first to press" buzzer game. A player creates a
room and gets a five-character code. Others join with that code and a
display name. The host starts a round, the first player to press wins it,
and the host resets the room for the next round. When a connection drops
it leaves its room: an empty room is deleted, and a room whose host left
gets the first remaining player as host.

This project models the authoritative logic of `server.js`:
- name sanitising (`sanitizeName`) and room-code normalisation;
- code generation (`generateRoomId`) with the random source as an input;
- the room snapshot (`getRoomData`) and its broadcast;
- the process-wide `rooms` registry;
- the socket handlers `createRoom`, `joinRoom`, `startRound`, `nextRound`
  and `pressButton`, and `leaveRoom` as run on `disconnect`;
- the per-connection `currentRoom` variable.

Layout, one module per file:
- `wrappers.dfy` (`Wrappers`): `Option`.
- `names.dfy` (`Names`): JavaScript `trim` over the ECMAScript
  whitespace and line-terminator set, `sanitizeName`, and the code
  normalisation `trim().toUpperCase()`.
- `codes.dfy` (`Codes`): the alphabet, the shape of a code, one attempt of
  `generateRoomId` (a `for` loop, kept as a method), and the code the
  retry-on-collision recursion returns.
- `rooms.dfy` (`Rooms`): players, rooms, snapshots, messages, the registry
  state, the registry invariant, and one function per handler giving the
  new state and the emitted messages in order.
- `properties.dfy` (`RoomProperties`): per handler, that the invariant is
  kept and what the effect is.
- `server.dfy` (`Server`): class `Registry` with fields `rooms` and
  `currentRoom`. Each handler is a method that updates them in place. Each
  method is proved to keep the invariant and to produce exactly the state
  and messages of the matching `Rooms` function.
- `rounds.dfy` (`Rounds`): runs of handlers. It proves the invariant over
  any run and at most one `roundEnded` for a room between two `startRound`s
  that start that room's round. It also
  proves the full round cycle, repeated joins, and the two-player game
  below.

In the model:
- A connection is identified by its `socket.id`, and every handler takes
  the sending connection as a parameter.
- `currentRoom` of every connection is one map; a connection whose
  `currentRoom` is `null` has no entry.
- `socket.emit` and `io.to(code).emit` become records `ToSocket(conn, msg)`
  and `ToRoom(code, msg)`, returned in emission order.
- `Math.random()` is an input. A roll is a real in [0, 1). One attempt is
  five rolls, and `generateRoomId` gets a sequence of attempts.
- A payload field is a `JsValue`: a string or any other JavaScript value.

How the code behaves at its edges, as the model keeps it:
- `joinRoom` broadcasts the same full snapshot as `roomUpdate` to the whole
  channel, the joining connection included (server.js:115-116).
- `leaveRoom` of a connection whose bound code is no longer a room returns
  without clearing `currentRoom` (server.js:54-55; `RoomProperties.LeaveRoomGone`).
  Under the registry invariant this case cannot occur
  (`RoomProperties.BoundRoomUnderInv`).
- Creating or joining while already bound is not guarded. The connection
  stays listed in its earlier room after it moves or disconnects
  (`Rounds.SecondRoomLeavesStalePlayer`).
- A player's `isHost` flag is set when the record is made and never
  updated. A host picked by migration keeps `isHost == false`, and
  `hostChanged` carries that record (`Rounds.AnaLeaves`).

## Model

| member | source | states |
|---|---|---|
| Names.TrimStart | server.js:18 | the leading part removed is all whitespace and the result does not start with whitespace |
| Names.TrimEnd | server.js:18 | the trailing part removed is all whitespace and the result does not end with whitespace |
| Names.TrimStartIsSuffix | server.js:18 | what leading trimming keeps is a suffix of the input |
| Names.TrimEndIsPrefix | server.js:18 | what trailing trimming keeps is a prefix of the input |
| Names.Trim | server.js:18 | `trim` is empty exactly when the input is all whitespace; otherwise neither end of the result is whitespace |
| Names.TrimIsSlice | server.js:18 | `trim` returns a contiguous slice of the input with only whitespace on either side of it |
| Names.TrimIdempotent | server.js:18 | trimming a trimmed string changes nothing |
| Names.TrimStartSkips | server.js:18 | leading whitespace before a non-blank character is exactly what is dropped |
| Names.TrimEndSkips | server.js:18 | trailing whitespace after a non-blank character is exactly what is dropped |
| Names.TrimUntrimmed | server.js:18 | a string without whitespace at its ends is its own `trim` |
| Names.SanitizeName | server.js:16-19 | `''` for a non-string; otherwise the first `min(20, length)` characters of the trimmed string, so never longer than 20, empty exactly when the input is blank, never starting with whitespace |
| Names.UpperChar | server.js:98 | ASCII `a`-`z` map to `A`-`Z` and every other character is kept |
| Names.ToUpperAscii | server.js:98 | same length, each character upper-cased |
| Names.ToUpperNoLower | server.js:98 | upper-casing a string without lower-case letters changes nothing |
| Names.NormalizeCode | server.js:98 | `''` for a non-string; otherwise as long as the trimmed string and character for character its upper-cased version, with no lower-case ASCII letter left, empty exactly when the string is blank, and no whitespace at either end |
| Codes.RollIndex | server.js:25 | `Math.floor(r * 32)` is an index of the alphabet, between `r*32 - 1` and `r*32` |
| Codes.CharOfRoll | server.js:25 | a roll picks a character of the alphabet |
| Codes.CodeOf | server.js:22-26 | an attempt builds a five-character code whose character `i` comes from roll `i` |
| Codes.DrawCode | server.js:23-26 | the `for` loop builds exactly `CodeOf` of the rolls: five characters of the alphabet |
| Codes.FirstFreeCode | server.js:21-28 | the generated code is well formed and not a key of `rooms`, and it is the first attempt's code that is not taken; every earlier attempt collided |
| Server.Registry.GenerateRoomId | server.js:21-28 | returns a code of five alphabet characters that is not in `rooms`, namely the first free attempt's code |
| Rooms.FirstIndex | server.js:57 | the first position whose id matches (or differs); all earlier positions do not |
| Rooms.FindPlayer | server.js:143 | `find` returns a player exactly when one has the id, and it is the first such player |
| Rooms.WithoutConn | server.js:57 | `filter` keeps exactly the players with another id, and its first element is the first such player |
| Rooms.WithoutConnAppend | server.js:57 | the filter distributes over concatenation, so the remaining players keep their order |
| Rooms.GetRoomData | server.js:30-40 | `null` exactly for an unknown code; otherwise the snapshot carries the code and the room's players, host, status and winner |
| Rooms.BroadcastRoomUpdate | server.js:42-47 | nothing for an unknown code; otherwise one `roomUpdate` to the room's channel with that room's snapshot |
| RoomProperties.BoundRoomUnderInv | server.js:120-121 | under the registry invariant `rooms.get(currentRoom)` finds a room exactly when the connection is bound, and that room lists the connection |
| Rooms.CreateRoom | server.js:74-95 | the sender is answered first, at most two messages, no code added but the generated one and none removed, no connection bound but the sender; its full effect is `RoomProperties.CreateRoomEffect` |
| Rooms.JoinRoom | server.js:97-117 | the sender is answered first, at most two messages, the set of codes kept, no connection bound but the sender; full effect in `RoomProperties.JoinRoomUnknownCode`, `JoinRoomEmptyName` and `JoinRoomAppends` |
| Rooms.StartRound | server.js:119-127 | nothing emitted, or two messages of which the first goes to the sender's bound room; codes and bindings kept; full effect in `RoomProperties.StartRoundEffect` |
| Rooms.NextRound | server.js:129-137 | the same shape as `startRound`; full effect in `RoomProperties.NextRoundEffect` |
| Rooms.PressButton | server.js:139-150 | the same shape; full effect in `RoomProperties.PressButtonEffect` |
| Rooms.LeaveRoom | server.js:52-72 | at most two messages, no code added, every binding kept or only the sender's cleared, and a sender bound to a live room ends up unbound; full effect in `RoomProperties.LeaveRoomEffect` |
| RoomProperties.CreateRoomKeepsInv | server.js:74-95 | `createRoom` with a fresh code keeps the registry invariant |
| RoomProperties.JoinRoomKeepsInv | server.js:97-117 | `joinRoom` keeps the registry invariant |
| RoomProperties.AppendPlayerKeepsInv | server.js:111-114 | pushing a player with a sanitised name and binding its connection keeps the invariant |
| RoomProperties.StartRoundKeepsInv | server.js:119-127 | `startRound` keeps the invariant: non-empty room, host among players, winner exactly when ended |
| RoomProperties.NextRoundKeepsInv | server.js:129-137 | `nextRound` keeps the invariant |
| RoomProperties.PressButtonKeepsInv | server.js:139-150 | `pressButton` keeps the invariant; the winner's name, like every player's, is non-empty, at most 20 characters long and does not start with whitespace, as every non-empty `sanitizeName` result is |
| RoomProperties.LeaveRoomKeepsInv | server.js:52-72 | `leaveRoom` keeps the invariant: removal, host migration and deletion of an empty room |
| RoomProperties.CreateRoomEffect | server.js:74-95 | empty name: error to the sender, nothing changes; otherwise exactly one new room with the creator as sole player and host, waiting, no winner; other rooms unchanged; sender bound; `roomJoined` then `roomUpdate` |
| RoomProperties.JoinRoomUnknownCode | server.js:97-103 | an unknown code is refused with the room-missing error before the name is looked at, and nothing changes |
| RoomProperties.JoinRoomEmptyName | server.js:105-109 | for a live room, an empty sanitised name is refused with the name error and nothing changes |
| RoomProperties.JoinRoomAppends | server.js:111-116 | on success the player is appended with `isHost` false; host, status, winner and all other rooms unchanged; sender bound; `roomJoined` then `roomUpdate` |
| RoomProperties.JoinRoomNormalizesCode | server.js:98 | a code typed in lower case and with surrounding whitespace normalises to the code |
| RoomProperties.StartRoundEffect | server.js:119-127 | acts exactly when the sender hosts its bound room; then running with no winner from any status, other fields and rooms unchanged, `roundStarted` then `roomUpdate`; otherwise nothing |
| RoomProperties.NextRoundEffect | server.js:129-137 | same authorisation; then waiting with no winner from any status, `roundReset` then `roomUpdate`; otherwise nothing |
| RoomProperties.PressButtonEffect | server.js:139-150 | acts exactly when the bound room is running, has no truthy winner and lists the sender; then ended with the first matching player's name as winner, `roundEnded` then `roomUpdate`; otherwise nothing |
| RoomProperties.PressCountsIffRunning | server.js:139-144 | under the invariant a press counts exactly when the sender's room is running |
| RoomProperties.SecondPressIsNoOp | server.js:141 | after a press that counted, any press from the same room changes and emits nothing |
| RoomProperties.LeaveRoomEffect | server.js:52-72 | unbound: nothing; otherwise every record of the sender is removed and its binding cleared; an emptied room is deleted with no message; host left: first remaining player becomes host and one `hostChanged` precedes `roomUpdate`; non-host left: host unchanged, only `roomUpdate` |
| RoomProperties.LeaveRoomGone | server.js:53-55 | a binding to a code that is no longer a room: nothing changes and the binding stays |
| RoomProperties.LeaveDeletesOnlyEmpty | server.js:57-62 | the room survives the sender's leaving exactly when some record in it has another id |
| Server.Registry.constructor | server.js:14 | the registry starts with no rooms and no bound connection, satisfying the invariant |
| Server.Registry.CreateRoom | server.js:74-95 | the in-place update gives exactly the `createRoom` state and messages and keeps the invariant |
| Server.Registry.JoinRoom | server.js:97-117 | the in-place update gives exactly the `joinRoom` state and messages and keeps the invariant |
| Server.Registry.StartRound | server.js:119-127 | the in-place update gives exactly the `startRound` state and messages and keeps the invariant |
| Server.Registry.NextRound | server.js:129-137 | the in-place update gives exactly the `nextRound` state and messages and keeps the invariant |
| Server.Registry.PressButton | server.js:139-150 | the in-place update gives exactly the `pressButton` state and messages and keeps the invariant |
| Server.Registry.LeaveRoom | server.js:52-72 | the in-place update (filter, delete, host migration, clearing `currentRoom`) gives exactly the `leaveRoom` state and messages and keeps the invariant |
| Rounds.Step | server.js:49-155 | each event goes to its handler, which emits at most two messages |
| Rounds.StepCodes | server.js:49-155 | only `createRoom` adds a code (the generated one), only a disconnect removes one, and round events keep every binding |
| Rounds.Run | server.js:49-155 | events are handled one after another, and a run of N events emits at most 2N messages |
| Rounds.StepKeepsInv | server.js:74-154 | every handler keeps the registry invariant |
| Rounds.RunKeepsInv | server.js:49-155 | across any sequence of events, every room stays non-empty, its host stays one of its players, it has a winner exactly when ended, and every bound connection is listed in its room |
| Rounds.OtherStartKeeps | server.js:119-127 | a `startRound` that is ignored, or that starts another room, leaves whether a room is running as it was and emits no `roundEnded` for it |
| Rounds.StepEndsAtMostRunning | server.js:119-150 | any event that does not start room `code`'s round emits `roundEnded` for that room only by ending its running round |
| Rounds.AtMostOneRoundEnded | server.js:139-150 | between two `startRound`s that start a room's round, that room reports at most one `roundEnded`, and none unless a round was running, whatever else happens, other rooms' starts and ignored starts included |
| Rounds.RoundCycle | server.js:119-150 | from a waiting room without a winner, `startRound` by the host, a press by a player listed in and bound to the room, and `nextRound` by the host give back the initial state; the channel gets exactly `roundStarted`, `roundEnded` with the presser's name and `roundReset`, each followed by the `roomUpdate` snapshot of the room as it then is |
| Rounds.RunJoins | server.js:97-117 | a run of join events is the joins applied one after another |
| Rounds.JoinAllAppends | server.js:111-112 | successive successful joins append the players in arrival order; host, status and winner unchanged |
| Rounds.JoinsAppendInOrder | server.js:97-117 | N successful joins leave the room with N more players, in arrival order, host, status and winner unchanged |
| Rounds.AnaAndLuis | server.js:74-150 | Ana creates `K3F9P`, Luis joins via ` k3f9p `, Ana starts, Luis then Ana press: both listed with Ana host, Luis wins, one `roundEnded` |
| Rounds.AnaLeaves | server.js:52-72 | when the host disconnects, the remaining player becomes host and `hostChanged` carries the unchanged record with `isHost` false |
| Rounds.SecondRoomLeavesStalePlayer | server.js:74-95 | a bound connection that creates a second room and disconnects stays listed in its first room, which is otherwise unchanged |

## Left out

- Socket.io delivery and channel membership (`socket.join`,
  `io.to(...).emit`, `socket.emit`). Messages are returned as addressed
  records; who is in a channel and what reaches which client are not modelled.
- Express static serving, `http.createServer`, `server.listen` and
  `console.log` (server.js:1-12, 157-159): input/output plumbing.
- `public/client.js` is not part of this model: it is view code, and its name
  and code normalisation only repeats the server's.
- The `connection` event and the allocation of socket ids. Connection ids
  are handler parameters, and a connection without an entry in
  `currentRoom` stands for one whose `currentRoom` is `null`.
- Concurrency: Node's event loop runs handlers one at a time, so each is
  one atomic step.
- Destructuring a missing payload (`({ name })` of `undefined`) throws
  before the handler body runs. The model receives the fields directly.
- Server.Registry.GenerateRoomId: requires that one of the supplied attempts
  draws a free code. The source recurses until `Math.random` produces one,
  so whether the retry terminates is not modelled.
- Server.Registry.CreateRoom: carries the same free-attempt requirement,
  for a non-empty name only, when it passes it on to `generateRoomId`.
- Names.SanitizeName: `slice(0, 20)` counts UTF-16 code units. The model
  counts characters, so it differs for names with characters outside the
  Basic Multilingual Plane (it never splits a surrogate pair).
- Names.NormalizeCode: `toUpperCase` is modelled for ASCII letters only.
  Full Unicode case mapping (for example `ſ` to `S`, or ligatures that
  expand) is not modelled.
- The snapshot shares the room's `players` array by reference. The model
  copies it as a value, which matches what is serialised at emission time.
