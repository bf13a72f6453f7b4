/** The server's state and its socket handlers: the table of connected players
    (`playersGlobal`), the table of rooms (`rooms`), the handlers of
    `io.on('connection', ...)` and the game loop over all rooms.

    Sockets, emits and callbacks are left out: a handler's callback argument is
    the method's `reply`, and the values the source draws from `Math.random()`
    (a colour number, a username number, a room id suffix) are parameters. */
module Registry {
  import opened Common
  import opened WorldGen
  import opened RoomSetup
  import opened Players
  import opened Rooms

  /** An entry of `playersGlobal`. */
  datatype GlobalPlayer = GlobalPlayer(
    id: string, username: string, color: string,
    currentRoomId: Option<string>, customizations: Customizations)

  /** `playersGlobal[id].currentRoomId` is truthy: set and not the empty string. */
  predicate InRoom(g: GlobalPlayer)
  {
    g.currentRoomId.Some? && g.currentRoomId.value != ""
  }

  /** `'#' + n.toString(16)`: no padding, so small numbers give short colours. */
  function ColorFor(n: nat): (c: string)
    requires n < 16777215
    ensures 2 <= |c| <= 7 && c[0] == '#'
    ensures |c| == 7 <==> n >= 0x100000
  {
    HexDigitCount(n, 6);
    HexDigitCount(n, 5);
    assert Pow16(5) == 0x100000 && Pow16(6) == 0x1000000;
    "#" + NatToHex(n)
  }

  /** `'Gracz' + n` for `n` below 10000. */
  function UsernameFor(n: nat): (s: string)
    requires n < 10000
    ensures 6 <= |s| <= 9 && s[..5] == "Gracz"
  {
    DecimalDigitCount(n, 4);
    "Gracz" + NatToString(n)
  }

  /** The entry a new connection gets: outside any room, default customizations. */
  function NewGlobalPlayer(socketId: string, colorNumber: nat, usernameNumber: nat): (g: GlobalPlayer)
    requires colorNumber < 16777215 && usernameNumber < 10000
    ensures g.id == socketId && !InRoom(g) && g.customizations == DefaultCustomizations()
  {
    GlobalPlayer(socketId, UsernameFor(usernameNumber), ColorFor(colorNumber), None, DefaultCustomizations())
  }

  // ---------------------------------------------------------------------------
  // Replies
  // ---------------------------------------------------------------------------

  /** What a handler passes to its callback; `Thrown` is an exception escaping it. */
  datatype Reply =
    | Success
    | Created(roomId: string, roomName: string, gameData: GameData)
    | Failure(message: string)
    | Thrown

  const AlreadyInRoom: string := "Już jesteś w pokoju. Najpierw go opuść."
  const NoSuchRoom: string := "Pokój nie istnieje."
  const InAnotherRoom: string := "Już jesteś w innym pokoju."
  const UnknownError: string := "Nieznany błąd."
  const NotInRoom: string := "Nie jesteś w żadnym pokoju."

  /** The message of a refused `joinRoom`. */
  function JoinFailure(roomExists: bool, inRoom: bool): string
  {
    if !roomExists then NoSuchRoom else if inRoom then InAnotherRoom else UnknownError
  }

  /** A join is refused exactly when the room is missing or the player is in a
      room; the missing room is reported first, and the fallback message is
      never sent. */
  lemma JoinFailureCases(roomExists: bool, inRoom: bool)
    requires !(roomExists && !inRoom)
    ensures JoinFailure(roomExists, inRoom) != UnknownError
    ensures JoinFailure(roomExists, inRoom) == NoSuchRoom <==> !roomExists
    ensures JoinFailure(roomExists, inRoom) == InAnotherRoom <==> roomExists && inRoom
  {
  }

  /** `roomName || \`Pokój ${count + 1}\``. */
  function RoomNameOr(roomName: Option<string>, count: nat): (name: string)
    ensures name != ""
    ensures roomName.Some? && roomName.value != "" ==> name == roomName.value
    ensures !(roomName.Some? && roomName.value != "") ==> |name| > 6 && name[..6] == "Pokój "
  {
    if roomName.Some? && roomName.value != "" then roomName.value else "Pokój " + NatToString(count + 1)
  }

  // ---------------------------------------------------------------------------
  // Rooms as values
  // ---------------------------------------------------------------------------

  /** No id listed twice. */
  predicate Distinct(s: seq<string>)
  {
    forall i, j :: 0 <= i < j < |s| ==> s[i] != s[j]
  }

  /** `s` with `id` removed and the rest in their order, as `delete` leaves the
      keys of an object. */
  function Without(s: seq<string>, id: string): (r: seq<string>)
    ensures forall x :: x in r <==> x in s && x != id
    ensures Distinct(s) ==> Distinct(r)
  {
    if |s| == 0 then []
    else
      var rest := Without(s[1..], id);
      assert Distinct(s) ==> s[0] !in s[1..];
      if s[0] == id then rest else [s[0]] + rest
  }

  /** `rooms[roomId].players[id] = player` and `rooms[roomId].playerInputs[id] =
      { keys: {} }`: a new key goes to the end of the visiting order, an existing
      one keeps its place. */
  function AddPlayer(room: Room, id: string, player: Player): Room
  {
    room.(players := room.players[id := player],
          playerOrder := if id in room.players then room.playerOrder else room.playerOrder + [id],
          playerInputs := room.playerInputs[id := NoInput])
  }

  /** Adding a player adds its key to the entities and the inputs, appends a new
      key to the visiting order, and leaves the other players alone. */
  lemma AddPlayerFacts(room: Room, id: string, player: Player)
    ensures var r := AddPlayer(room, id, player);
      r.players.Keys == room.players.Keys + {id} && r.players[id] == player &&
      r.playerInputs.Keys == room.playerInputs.Keys + {id} && r.playerInputs[id] == NoInput &&
      (forall x :: x in room.players && x != id ==> r.players[x] == room.players[x]) &&
      (OrderMatches(room) ==> OrderMatches(r)) &&
      (OrderMatches(room) && id !in room.players ==> r.playerOrder == room.playerOrder + [id]) &&
      r.id == room.id && r.hostId == room.hostId && r.gameData == room.gameData
  {
  }

  /** `delete rooms[roomId].players[id]` and `delete rooms[roomId].playerInputs[id]`. */
  function RemovePlayer(room: Room, id: string): Room
  {
    room.(players := room.players - {id}, playerOrder := Without(room.playerOrder, id),
          playerInputs := room.playerInputs - {id})
  }

  /** Removing a player drops its key everywhere and keeps the visiting order of
      the others. */
  lemma RemovePlayerFacts(room: Room, id: string)
    ensures var r := RemovePlayer(room, id);
      r.players.Keys == room.players.Keys - {id} &&
      r.playerInputs.Keys == room.playerInputs.Keys - {id} &&
      (forall x :: x in r.players ==> r.players[x] == room.players[x]) &&
      (OrderMatches(room) ==> OrderMatches(r)) &&
      r.id == room.id && r.hostId == room.hostId && r.gameData == room.gameData
  {
  }

  /** After a player left: the room is deleted when nobody is left or the leaver
      was its host. */
  predicate Abandoned(room: Room, leaverId: string)
  {
    |room.players| == 0 || room.hostId == leaverId
  }

  /** The room `createRoom` stores: the creator is its host and only player. */
  function NewRoom(roomId: string, name: string, host: GlobalPlayer, socketId: string, data: GameData): Room
  {
    var empty := Room(roomId, name, socketId, map[], [], data, map[]);
    AddPlayer(empty, socketId, NewPlayer(socketId, host.color, host.username, host.customizations, data.groundLevel))
  }

  lemma NewRoomFacts(roomId: string, name: string, host: GlobalPlayer, socketId: string, data: GameData)
    ensures var r := NewRoom(roomId, name, host, socketId, data);
      r.id == roomId && r.name == name && r.gameData == data &&
      r.players.Keys == {socketId} && r.playerOrder == [socketId] && r.hostId == socketId &&
      OrderMatches(r) && r.playerInputs.Keys == {socketId}
  {
    var empty := Room(roomId, name, socketId, map[], [], data, map[]);
    AddPlayerFacts(empty, socketId, NewPlayer(socketId, host.color, host.username, host.customizations, data.groundLevel));
  }

  /** The room with the entry of player `id` replaced. */
  function WithPlayer(room: Room, id: string, player: Player): Room
  {
    room.(players := room.players[id := player])
  }

  /** An entry of `getPublicRoomList()`. */
  datatype RoomSummary = RoomSummary(
    id: string, name: string, hostId: string, playerCount: nat,
    biome: Option<BiomeName>, worldWidth: int, villageType: VillageType)

  function Summary(room: Room): RoomSummary
  {
    RoomSummary(room.id, room.name, room.hostId, |room.players.Keys|,
                room.gameData.biome, room.gameData.worldWidth, room.gameData.villageType)
  }

  /** `getPublicRoomList()`: one summary per room, under the room's id. */
  function PublicRoomList(rooms: map<string, Room>): map<string, RoomSummary>
  {
    map rid | rid in rooms :: Summary(rooms[rid])
  }

  /** `rooms1` is `rooms` after one pass of the game loop: the same room ids,
      each room ticked on its own. */
  ghost predicate TickedAll(rooms: map<string, Room>, rooms1: map<string, Room>, now: real, sin: real -> real, cos: real -> real)
    requires forall rid :: rid in rooms ==> OrderMatches(rooms[rid])
  {
    (forall rid :: rid in rooms1 <==> rid in rooms) &&
    forall rid {:trigger RoomAfterTick(rooms[rid], now, sin, cos)} ::
      rid in rooms ==> rid in rooms1 && rooms1[rid] == RoomAfterTick(rooms[rid], now, sin, cos)
  }

  /** The `for...in` loop of the game loop: every room is ticked on its own. */
  method TickRooms(rooms0: map<string, Room>, now: real, sin: real -> real, cos: real -> real) returns (rooms: map<string, Room>)
    requires forall rid :: rid in rooms0 ==> OrderMatches(rooms0[rid])
    ensures TickedAll(rooms0, rooms, now, sin, cos)
  {
    rooms := rooms0;
    var left := rooms.Keys;
    while left != {}
      invariant left <= rooms.Keys
      invariant forall rid :: rid in rooms <==> rid in rooms0
      invariant forall rid :: rid in left ==> rooms[rid] == rooms0[rid]
      invariant forall rid {:trigger RoomAfterTick(rooms0[rid], now, sin, cos)} ::
        rid in rooms && rid !in left ==> rooms[rid] == RoomAfterTick(rooms0[rid], now, sin, cos)
      decreases left
    {
      var rid :| rid in left;
      var r := TickRoom(rooms[rid], now, sin, cos);
      rooms := rooms[rid := r];
      left := left - {rid};
    }
  }

  // ---------------------------------------------------------------------------
  // The server
  // ---------------------------------------------------------------------------

  /** What the handlers keep true of a room stored under `rid`: it carries its own
      id, its visiting order lists its players, the host is among the players,
      and every player has an input entry. */
  predicate RoomShape(rid: string, room: Room)
  {
    room.id == rid && rid != "" && OrderMatches(room) && room.hostId in room.players &&
    forall pid :: pid in room.players ==> pid in room.playerInputs
  }

  predicate Shaped(rooms: map<string, Room>)
  {
    forall rid :: rid in rooms ==> RoomShape(rid, rooms[rid])
  }

  /** Every player of a room is connected and recorded as being in that room. */
  predicate Recorded(rooms: map<string, Room>, pg: map<string, GlobalPlayer>)
  {
    forall rid, pid :: rid in rooms && pid in rooms[rid].players ==> pid in pg && pg[pid].currentRoomId == Some(rid)
  }

  /** Every entry of `playersGlobal` is stored under its own id. */
  predicate Keyed(pg: map<string, GlobalPlayer>)
  {
    forall pid :: pid in pg ==> pg[pid].id == pid
  }

  /** A player whose recorded room is gone, or was replaced by a room that does
      not hold them. */
  predicate Stranded(g: GlobalPlayer, rooms: map<string, Room>)
  {
    InRoom(g) && (g.currentRoomId.value !in rooms || g.id !in rooms[g.currentRoomId.value].players)
  }

  class GameServer {
    var rooms: map<string, Room>
    var playersGlobal: map<string, GlobalPlayer>

    ghost predicate Valid()
      reads this
    {
      Shaped(rooms) && Recorded(rooms, playersGlobal) && Keyed(playersGlobal)
    }

    constructor()
      ensures Valid() && rooms == map[] && playersGlobal == map[]
    {
      rooms := map[];
      playersGlobal := map[];
    }

    /** A room's player entry under the player's recorded room. */
    predicate Seated(socketId: string)
      reads this
    {
      socketId in playersGlobal && InRoom(playersGlobal[socketId]) &&
      playersGlobal[socketId].currentRoomId.value in rooms &&
      socketId in rooms[playersGlobal[socketId].currentRoomId.value].players
    }

    /** `io.on('connection')`: the new socket gets a global entry outside any room. */
    method Connect(socketId: string, colorNumber: nat, usernameNumber: nat)
      requires Valid() && socketId !in playersGlobal
      requires colorNumber < 16777215 && usernameNumber < 10000
      modifies this
      ensures Valid()
      ensures playersGlobal == old(playersGlobal)[socketId := NewGlobalPlayer(socketId, colorNumber, usernameNumber)]
      ensures rooms == old(rooms)
    {
      var g := NewGlobalPlayer(socketId, colorNumber, usernameNumber);
      RecordedRecord(rooms, playersGlobal, socketId, g);
      playersGlobal := playersGlobal[socketId := g];
    }

    /** `createRoom`: refused when the player is in a room; otherwise the room
        `room_<suffix>` is generated and stored (replacing a room with the same
        id), with the creator as host and only player. An undefined building
        definition throws before anything is stored. */
    method CreateRoom(socketId: string, roomSuffix: string, roomName: Option<string>) returns (reply: Reply)
      requires Valid() && socketId in playersGlobal
      modifies this
      ensures Valid()
      ensures var g := old(playersGlobal)[socketId];
        var rid := "room_" + roomSuffix;
        var name := RoomNameOr(roomName, |old(rooms).Keys|);
        if InRoom(g) then
          reply == Failure(AlreadyInRoom) && rooms == old(rooms) && playersGlobal == old(playersGlobal)
        else match GameDataFor(rid)
          case Err(_) => reply == Thrown && rooms == old(rooms) && playersGlobal == old(playersGlobal)
          case Ok(data) =>
            reply == Created(rid, name, data) &&
            rooms == old(rooms)[rid := NewRoom(rid, name, g, socketId, data)] &&
            playersGlobal == old(playersGlobal)[socketId := g.(currentRoomId := Some(rid))]
    {
      var roomId := "room_" + roomSuffix;
      var name := RoomNameOr(roomName, |rooms.Keys|);
      var g := playersGlobal[socketId];
      if InRoom(g) {
        return Failure(AlreadyInRoom);
      }
      var generated := GenerateGameData(roomId);
      if generated.Err? {
        return Thrown;
      }
      var data := generated.value;
      var room := NewRoom(roomId, name, g, socketId, data);
      var g1 := g.(currentRoomId := Some(roomId));
      NewRoomFacts(roomId, name, g, socketId, data);
      CreateKeepsValid(rooms, playersGlobal, socketId, roomId, room, g1);
      rooms := rooms[roomId := room];
      playersGlobal := playersGlobal[socketId := g1];
      reply := Created(roomId, name, data);
    }

    /** `joinRoom`: allowed when the room exists and the player is in no room;
        the player is appended to the room with a fresh entity and input. */
    method JoinRoom(socketId: string, roomId: string) returns (reply: Reply)
      requires Valid() && socketId in playersGlobal
      modifies this
      ensures Valid()
      ensures var g := old(playersGlobal)[socketId];
        if roomId in old(rooms) && !InRoom(g) then
          var room := old(rooms)[roomId];
          reply == Success &&
          rooms == old(rooms)[roomId := AddPlayer(room, socketId,
            NewPlayer(socketId, g.color, g.username, g.customizations, room.gameData.groundLevel))] &&
          playersGlobal == old(playersGlobal)[socketId := g.(currentRoomId := Some(roomId))]
        else
          reply == Failure(JoinFailure(roomId in old(rooms), InRoom(g))) &&
          rooms == old(rooms) && playersGlobal == old(playersGlobal)
    {
      var g := playersGlobal[socketId];
      if roomId in rooms && !InRoom(g) {
        var room := rooms[roomId];
        var room1 := AddPlayer(room, socketId, NewPlayer(socketId, g.color, g.username, g.customizations, room.gameData.groundLevel));
        var g1 := g.(currentRoomId := Some(roomId));
        AddPlayerFacts(room, socketId, NewPlayer(socketId, g.color, g.username, g.customizations, room.gameData.groundLevel));
        JoinKeepsValid(rooms, playersGlobal, socketId, roomId, room1, g1);
        playersGlobal := playersGlobal[socketId := g1];
        rooms := rooms[roomId := room1];
        reply := Success;
      } else {
        reply := Failure(JoinFailure(roomId in rooms, InRoom(g)));
      }
    }

    /** `leaveRoom`: allowed when the recorded room exists; the player leaves it
        and is recorded in no room, and the room is deleted when it is left
        empty or the host left. The other players keep their recorded room, so
        when the host leaves every other member is stranded. */
    method LeaveRoom(socketId: string) returns (reply: Reply)
      requires Valid() && socketId in playersGlobal
      modifies this
      ensures Valid()
      ensures var g := old(playersGlobal)[socketId];
        if InRoom(g) && g.currentRoomId.value in old(rooms) then
          var rid := g.currentRoomId.value;
          var room1 := RemovePlayer(old(rooms)[rid], socketId);
          reply == Success &&
          playersGlobal == old(playersGlobal)[socketId := g.(currentRoomId := None)] &&
          rooms == (if Abandoned(room1, socketId) then old(rooms) - {rid} else old(rooms)[rid := room1])
        else
          reply == Failure(NotInRoom) && rooms == old(rooms) && playersGlobal == old(playersGlobal)
      ensures var g := old(playersGlobal)[socketId];
        InRoom(g) && g.currentRoomId.value in old(rooms) && old(rooms)[g.currentRoomId.value].hostId == socketId ==>
          forall pid :: pid in old(rooms)[g.currentRoomId.value].players && pid != socketId ==>
            pid in playersGlobal && Stranded(playersGlobal[pid], rooms)
    {
      var g := playersGlobal[socketId];
      if InRoom(g) && g.currentRoomId.value in rooms {
        var rid := g.currentRoomId.value;
        var room1 := RemovePlayer(rooms[rid], socketId);
        var g1 := g.(currentRoomId := None);
        RemovePlayerFacts(rooms[rid], socketId);
        var rooms1 := if Abandoned(room1, socketId) then rooms - {rid} else rooms[rid := room1];
        LeaveKeepsValid(rooms, playersGlobal, socketId, rid, room1, g1, rooms1);
        HostLeftStrands(rooms, playersGlobal, socketId, rid, playersGlobal[socketId := g1]);
        playersGlobal := playersGlobal[socketId := g1];
        rooms := rooms1;
        reply := Success;
      } else {
        reply := Failure(NotInRoom);
      }
    }

    /** `disconnect`: the player leaves its recorded room as in `leaveRoom`
        (without clearing the record) and its global entry is deleted. */
    method Disconnect(socketId: string)
      requires Valid()
      modifies this
      ensures Valid()
      ensures playersGlobal == old(playersGlobal) - {socketId}
      ensures var seated := socketId in old(playersGlobal) && InRoom(old(playersGlobal)[socketId]) &&
                            old(playersGlobal)[socketId].currentRoomId.value in old(rooms);
        if seated then
          var rid := old(playersGlobal)[socketId].currentRoomId.value;
          var room1 := RemovePlayer(old(rooms)[rid], socketId);
          rooms == (if Abandoned(room1, socketId) then old(rooms) - {rid} else old(rooms)[rid := room1])
        else rooms == old(rooms)
      ensures socketId in old(playersGlobal) && InRoom(old(playersGlobal)[socketId]) ==>
        var rid := old(playersGlobal)[socketId].currentRoomId.value;
        rid in old(rooms) && old(rooms)[rid].hostId == socketId ==>
          forall pid :: pid in old(rooms)[rid].players && pid != socketId ==>
            pid in playersGlobal && Stranded(playersGlobal[pid], rooms)
    {
      if socketId in playersGlobal && InRoom(playersGlobal[socketId]) && playersGlobal[socketId].currentRoomId.value in rooms {
        var rid := playersGlobal[socketId].currentRoomId.value;
        var room1 := RemovePlayer(rooms[rid], socketId);
        RemovePlayerFacts(rooms[rid], socketId);
        var rooms1 := if Abandoned(room1, socketId) then rooms - {rid} else rooms[rid := room1];
        DisconnectKeepsValid(rooms, playersGlobal, socketId, rid, room1, rooms1);
        HostLeftStrands(rooms, playersGlobal, socketId, rid, playersGlobal - {socketId});
        rooms := rooms1;
      } else {
        DisconnectOutsideKeepsValid(rooms, playersGlobal, socketId);
      }
      playersGlobal := playersGlobal - {socketId};
    }

    /** `getRoomList` and `getPublicRoomList()`: the `for...in` loop over the rooms. */
    method GetPublicRoomList() returns (list: map<string, RoomSummary>)
      ensures list == PublicRoomList(rooms)
    {
      list := map[];
      var left := rooms.Keys;
      while left != {}
        invariant left <= rooms.Keys
        invariant forall rid :: rid in list <==> rid in rooms && rid !in left
        invariant forall rid :: rid in list ==> list[rid] == Summary(rooms[rid])
        decreases left
      {
        var rid :| rid in left;
        list := list[rid := Summary(rooms[rid])];
        left := left - {rid};
      }
    }

    /** `playerInput`: the player's input entry, when there is one, is replaced. */
    method HandlePlayerInput(socketId: string, input: PlayerInput)
      requires Valid() && socketId in playersGlobal
      modifies this
      ensures Valid() && playersGlobal == old(playersGlobal)
      ensures var g := playersGlobal[socketId];
        if InRoom(g) && g.currentRoomId.value in old(rooms) && socketId in old(rooms)[g.currentRoomId.value].playerInputs then
          var rid := g.currentRoomId.value;
          rooms == old(rooms)[rid := old(rooms)[rid].(playerInputs := old(rooms)[rid].playerInputs[socketId := input])]
        else rooms == old(rooms)
    {
      var g := playersGlobal[socketId];
      if InRoom(g) && g.currentRoomId.value in rooms && socketId in rooms[g.currentRoomId.value].playerInputs {
        var rid := g.currentRoomId.value;
        var room := rooms[rid];
        var room1 := room.(playerInputs := room.playerInputs[socketId := input]);
        SameShapeKeepsValid(rooms, playersGlobal, rid, room1);
        rooms := rooms[rid := room1];
      }
    }

    /** `playerJump`: the player's jump, in its recorded room. */
    method PlayerJump(socketId: string)
      requires Valid() && socketId in playersGlobal
      modifies this
      ensures Valid() && playersGlobal == old(playersGlobal)
      ensures if old(Seated(socketId)) then
          var rid := playersGlobal[socketId].currentRoomId.value;
          var room := old(rooms)[rid];
          rooms == old(rooms)[rid := WithPlayer(room, socketId, Jump(room.players[socketId], room.gameData.groundLevel))]
        else rooms == old(rooms)
    {
      if Seated(socketId) {
        var rid := playersGlobal[socketId].currentRoomId.value;
        var room := rooms[rid];
        var room1 := WithPlayer(room, socketId, Jump(room.players[socketId], room.gameData.groundLevel));
        SameShapeKeepsValid(rooms, playersGlobal, rid, room1);
        rooms := rooms[rid := room1];
      }
    }

    /** `castFishingLine`: the player's cast, in its recorded room. */
    method CastFishingLine(socketId: string, data: CastData, cos: real -> real, sin: real -> real)
      requires Valid() && socketId in playersGlobal
      modifies this
      ensures Valid() && playersGlobal == old(playersGlobal)
      ensures if old(Seated(socketId)) then
          var rid := playersGlobal[socketId].currentRoomId.value;
          var room := old(rooms)[rid];
          rooms == old(rooms)[rid := WithPlayer(room, socketId, CastLine(room.players[socketId], data, cos, sin))]
        else rooms == old(rooms)
    {
      if Seated(socketId) {
        var rid := playersGlobal[socketId].currentRoomId.value;
        var room := rooms[rid];
        var room1 := WithPlayer(room, socketId, CastLine(room.players[socketId], data, cos, sin));
        SameShapeKeepsValid(rooms, playersGlobal, rid, room1);
        rooms := rooms[rid := room1];
      }
    }

    /** `reelInFishingLine`: the player's reel-in, in its recorded room. */
    method ReelInFishingLine(socketId: string)
      requires Valid() && socketId in playersGlobal
      modifies this
      ensures Valid() && playersGlobal == old(playersGlobal)
      ensures if old(Seated(socketId)) then
          var rid := playersGlobal[socketId].currentRoomId.value;
          var room := old(rooms)[rid];
          rooms == old(rooms)[rid := WithPlayer(room, socketId, ReelIn(room.players[socketId]))]
        else rooms == old(rooms)
    {
      if Seated(socketId) {
        var rid := playersGlobal[socketId].currentRoomId.value;
        var room := rooms[rid];
        var room1 := WithPlayer(room, socketId, ReelIn(room.players[socketId]));
        SameShapeKeepsValid(rooms, playersGlobal, rid, room1);
        rooms := rooms[rid := room1];
      }
    }

    /** `updateCustomization`: the changes are merged into both the global entry
        and the room's entity. */
    method UpdateCustomization(socketId: string, changes: Customizations)
      requires Valid() && socketId in playersGlobal
      modifies this
      ensures Valid()
      ensures if old(Seated(socketId)) then
          var g := old(playersGlobal)[socketId];
          var rid := g.currentRoomId.value;
          var room := old(rooms)[rid];
          var p := room.players[socketId];
          playersGlobal == old(playersGlobal)[socketId := g.(customizations := Assign(g.customizations, changes))] &&
          rooms == old(rooms)[rid := WithPlayer(room, socketId, p.(customizations := Assign(p.customizations, changes)))]
        else rooms == old(rooms) && playersGlobal == old(playersGlobal)
    {
      if Seated(socketId) {
        var g := playersGlobal[socketId];
        var rid := g.currentRoomId.value;
        var room := rooms[rid];
        var p := room.players[socketId];
        var g1 := g.(customizations := Assign(g.customizations, changes));
        var room1 := WithPlayer(room, socketId, p.(customizations := Assign(p.customizations, changes)));
        SameShapeKeepsValid(rooms, playersGlobal, rid, room1);
        RecordedRecord(rooms[rid := room1], playersGlobal, socketId, g1);
        playersGlobal := playersGlobal[socketId := g1];
        rooms := rooms[rid := room1];
      }
    }

    /** The `setInterval` callback: the `for...in` loop over the rooms, each
        ticked on its own. */
    method Tick(now: real, sin: real -> real, cos: real -> real)
      requires Valid()
      modifies this
      ensures Valid() && playersGlobal == old(playersGlobal)
      ensures forall rid :: rid in old(rooms) ==> OrderMatches(old(rooms)[rid])
      ensures TickedAll(old(rooms), rooms, now, sin, cos)
    {
      assert forall rid :: rid in rooms ==> OrderMatches(rooms[rid]);
      var ticked := TickRooms(rooms, now, sin, cos);
      TickAllKeepsValid(rooms, ticked, playersGlobal, now, sin, cos);
      rooms := ticked;
    }
  }

  // ---------------------------------------------------------------------------
  // The invariant across the handlers
  // ---------------------------------------------------------------------------

  /** Under the invariant every listed room carries its id and has at least one
      player, its host. */
  lemma PublicRoomListFacts(rooms: map<string, Room>)
    requires Shaped(rooms)
    ensures var list := PublicRoomList(rooms);
      list.Keys == rooms.Keys &&
      forall rid :: rid in list ==>
        list[rid].id == rid && list[rid].playerCount >= 1 && list[rid].hostId in rooms[rid].players &&
        list[rid].playerCount == |rooms[rid].players.Keys|
  {
    var list := PublicRoomList(rooms);
    forall rid | rid in list
      ensures list[rid].playerCount >= 1
    {
      assert RoomShape(rid, rooms[rid]);
      assert rooms[rid].hostId in rooms[rid].players.Keys;
    }
  }

  lemma ShapedUpdate(rooms: map<string, Room>, roomId: string, room1: Room)
    requires Shaped(rooms) && RoomShape(roomId, room1)
    ensures Shaped(rooms[roomId := room1])
  {
  }

  lemma ShapedRemove(rooms: map<string, Room>, roomId: string)
    requires Shaped(rooms)
    ensures Shaped(rooms - {roomId})
  {
  }

  /** A room whose players are all recorded in it may be stored. */
  lemma RecordedUpdate(rooms: map<string, Room>, pg: map<string, GlobalPlayer>, roomId: string, room1: Room)
    requires Recorded(rooms, pg)
    requires forall pid :: pid in room1.players ==> pid in pg && pg[pid].currentRoomId == Some(roomId)
    ensures Recorded(rooms[roomId := room1], pg)
  {
  }

  lemma RecordedRemove(rooms: map<string, Room>, pg: map<string, GlobalPlayer>, roomId: string)
    requires Recorded(rooms, pg)
    ensures Recorded(rooms - {roomId}, pg)
  {
  }

  /** A player's record may change as long as it still names every room holding them. */
  lemma RecordedRecord(rooms: map<string, Room>, pg: map<string, GlobalPlayer>, socketId: string, g1: GlobalPlayer)
    requires Recorded(rooms, pg)
    requires forall rid :: rid in rooms && socketId in rooms[rid].players ==> g1.currentRoomId == Some(rid)
    ensures Recorded(rooms, pg[socketId := g1])
  {
  }

  /** A player in no room may be forgotten. */
  lemma RecordedForget(rooms: map<string, Room>, pg: map<string, GlobalPlayer>, socketId: string)
    requires Recorded(rooms, pg)
    requires forall rid :: rid in rooms ==> socketId !in rooms[rid].players
    ensures Recorded(rooms, pg - {socketId})
  {
  }

  /** A player recorded in no room, or in the empty-string room, is in no room's players. */
  lemma OutsideEveryRoom(rooms: map<string, Room>, pg: map<string, GlobalPlayer>, socketId: string)
    requires Shaped(rooms) && Recorded(rooms, pg)
    requires socketId in pg && !InRoom(pg[socketId])
    ensures forall rid :: rid in rooms ==> socketId !in rooms[rid].players
  {
    forall rid | rid in rooms
      ensures socketId !in rooms[rid].players
    {
      assert RoomShape(rid, rooms[rid]);
    }
  }

  lemma CreateKeepsValid(rooms: map<string, Room>, pg: map<string, GlobalPlayer>, socketId: string,
                         roomId: string, room: Room, g1: GlobalPlayer)
    requires Shaped(rooms) && Recorded(rooms, pg) && Keyed(pg)
    requires socketId in pg && !InRoom(pg[socketId]) && roomId != ""
    requires room.id == roomId && OrderMatches(room) && room.players.Keys == {socketId} && room.hostId == socketId
    requires room.playerInputs.Keys == {socketId} && g1.currentRoomId == Some(roomId) && g1.id == socketId
    ensures var rooms1, pg1 := rooms[roomId := room], pg[socketId := g1];
      Shaped(rooms1) && Recorded(rooms1, pg1) && Keyed(pg1)
  {
    OutsideEveryRoom(rooms, pg, socketId);
    RecordedRecord(rooms, pg, socketId, g1);
    RecordedUpdate(rooms, pg[socketId := g1], roomId, room);
    ShapedUpdate(rooms, roomId, room);
  }

  lemma JoinKeepsValid(rooms: map<string, Room>, pg: map<string, GlobalPlayer>, socketId: string,
                       roomId: string, room1: Room, g1: GlobalPlayer)
    requires Shaped(rooms) && Recorded(rooms, pg) && Keyed(pg)
    requires socketId in pg && !InRoom(pg[socketId]) && roomId in rooms
    requires room1.id == roomId && OrderMatches(room1) && room1.hostId == rooms[roomId].hostId
    requires room1.players.Keys == rooms[roomId].players.Keys + {socketId}
    requires room1.playerInputs.Keys == rooms[roomId].playerInputs.Keys + {socketId}
    requires g1.currentRoomId == Some(roomId) && g1.id == socketId
    ensures var rooms1, pg1 := rooms[roomId := room1], pg[socketId := g1];
      Shaped(rooms1) && Recorded(rooms1, pg1) && Keyed(pg1)
  {
    OutsideEveryRoom(rooms, pg, socketId);
    RecordedRecord(rooms, pg, socketId, g1);
    var pg1 := pg[socketId := g1];
    forall pid | pid in room1.players
      ensures pid in pg1 && pg1[pid].currentRoomId == Some(roomId)
    {
      if pid != socketId {
        assert pid in rooms[roomId].players;
      }
    }
    RecordedUpdate(rooms, pg1, roomId, room1);
    assert RoomShape(roomId, rooms[roomId]);
    forall pid | pid in room1.players
      ensures pid in room1.playerInputs
    {
      if pid != socketId {
        assert pid in rooms[roomId].players;
      }
    }
    ShapedUpdate(rooms, roomId, room1);
  }

  lemma LeaveKeepsValid(rooms: map<string, Room>, pg: map<string, GlobalPlayer>, socketId: string,
                        roomId: string, room1: Room, g1: GlobalPlayer, rooms1: map<string, Room>)
    requires Shaped(rooms) && Recorded(rooms, pg) && Keyed(pg)
    requires socketId in pg && pg[socketId].currentRoomId == Some(roomId) && roomId in rooms
    requires room1.id == roomId && OrderMatches(room1) && room1.hostId == rooms[roomId].hostId
    requires room1.players.Keys == rooms[roomId].players.Keys - {socketId}
    requires room1.playerInputs.Keys == rooms[roomId].playerInputs.Keys - {socketId}
    requires g1.currentRoomId == None && g1.id == socketId
    requires rooms1 == if Abandoned(room1, socketId) then rooms - {roomId} else rooms[roomId := room1]
    ensures var pg1 := pg[socketId := g1];
      Shaped(rooms1) && Recorded(rooms1, pg1) && Keyed(pg1)
  {
    RoomLeft(rooms, pg, socketId, roomId, room1, rooms1);
    RecordedRecord(rooms1, pg, socketId, g1);
  }

  /** When the host leaves, the room is deleted while every other member keeps its
      recorded room id: all of them are stranded afterwards. */
  lemma HostLeftStrands(rooms: map<string, Room>, pg: map<string, GlobalPlayer>, socketId: string,
                        roomId: string, pg1: map<string, GlobalPlayer>)
    requires Recorded(rooms, pg) && Keyed(pg) && roomId in rooms && roomId != ""
    requires forall pid :: pid in pg && pid != socketId ==> pid in pg1 && pg1[pid] == pg[pid]
    ensures forall pid :: pid in rooms[roomId].players && pid != socketId ==>
      pid in pg1 && Stranded(pg1[pid], rooms - {roomId})
  {
    forall pid | pid in rooms[roomId].players && pid != socketId
      ensures pid in pg1 && Stranded(pg1[pid], rooms - {roomId})
    {
      assert pid in pg && pg[pid].currentRoomId == Some(roomId);
      assert pg1[pid] == pg[pid] && InRoom(pg1[pid]);
      assert pg1[pid].currentRoomId.value !in rooms - {roomId};
    }
  }

  lemma DisconnectKeepsValid(rooms: map<string, Room>, pg: map<string, GlobalPlayer>, socketId: string,
                             roomId: string, room1: Room, rooms1: map<string, Room>)
    requires Shaped(rooms) && Recorded(rooms, pg) && Keyed(pg)
    requires socketId in pg && pg[socketId].currentRoomId == Some(roomId) && roomId in rooms
    requires room1.id == roomId && OrderMatches(room1) && room1.hostId == rooms[roomId].hostId
    requires room1.players.Keys == rooms[roomId].players.Keys - {socketId}
    requires room1.playerInputs.Keys == rooms[roomId].playerInputs.Keys - {socketId}
    requires rooms1 == if Abandoned(room1, socketId) then rooms - {roomId} else rooms[roomId := room1]
    ensures var pg1 := pg - {socketId};
      Shaped(rooms1) && Recorded(rooms1, pg1) && Keyed(pg1)
  {
    RoomLeft(rooms, pg, socketId, roomId, room1, rooms1);
    RecordedForget(rooms1, pg, socketId);
  }

  /** The rooms after `socketId` left its room `roomId`: still shaped and
      recorded, and holding `socketId` nowhere. */
  lemma RoomLeft(rooms: map<string, Room>, pg: map<string, GlobalPlayer>, socketId: string,
                 roomId: string, room1: Room, rooms1: map<string, Room>)
    requires Shaped(rooms) && Recorded(rooms, pg)
    requires socketId in pg && pg[socketId].currentRoomId == Some(roomId) && roomId in rooms
    requires room1.id == roomId && OrderMatches(room1) && room1.hostId == rooms[roomId].hostId
    requires room1.players.Keys == rooms[roomId].players.Keys - {socketId}
    requires room1.playerInputs.Keys == rooms[roomId].playerInputs.Keys - {socketId}
    requires rooms1 == if Abandoned(room1, socketId) then rooms - {roomId} else rooms[roomId := room1]
    ensures Shaped(rooms1) && Recorded(rooms1, pg)
    ensures forall rid :: rid in rooms1 ==> socketId !in rooms1[rid].players
  {
    if Abandoned(room1, socketId) {
      ShapedRemove(rooms, roomId);
      RecordedRemove(rooms, pg, roomId);
    } else {
      KeptRoomLeft(rooms, pg, socketId, roomId, room1);
    }
    forall rid | rid in rooms1
      ensures socketId !in rooms1[rid].players
    {
      assert socketId in rooms[rid].players ==> pg[socketId].currentRoomId == Some(rid);
    }
  }

  /** The room left behind still has its host and is recorded. */
  lemma KeptRoomLeft(rooms: map<string, Room>, pg: map<string, GlobalPlayer>, socketId: string,
                     roomId: string, room1: Room)
    requires Shaped(rooms) && Recorded(rooms, pg) && roomId in rooms
    requires room1.id == roomId && OrderMatches(room1) && room1.hostId == rooms[roomId].hostId
    requires room1.hostId != socketId
    requires room1.players.Keys == rooms[roomId].players.Keys - {socketId}
    requires room1.playerInputs.Keys == rooms[roomId].playerInputs.Keys - {socketId}
    ensures Shaped(rooms[roomId := room1]) && Recorded(rooms[roomId := room1], pg)
  {
    var old1 := rooms[roomId];
    assert RoomShape(roomId, old1);
    forall pid | pid in room1.players
      ensures pid in old1.players && pid in room1.playerInputs
    {
      assert pid in room1.players.Keys;
      assert pid in old1.players.Keys;
    }
    assert room1.hostId in old1.players.Keys;
    assert room1.hostId in room1.players.Keys;
    ShapedUpdate(rooms, roomId, room1);
    RecordedUpdate(rooms, pg, roomId, room1);
  }

  lemma DisconnectOutsideKeepsValid(rooms: map<string, Room>, pg: map<string, GlobalPlayer>, socketId: string)
    requires Shaped(rooms) && Recorded(rooms, pg) && Keyed(pg)
    requires !(socketId in pg && InRoom(pg[socketId]) && pg[socketId].currentRoomId.value in rooms)
    ensures Recorded(rooms, pg - {socketId}) && Keyed(pg - {socketId})
  {
    if socketId in pg && !InRoom(pg[socketId]) {
      OutsideEveryRoom(rooms, pg, socketId);
    }
    RecordedForget(rooms, pg, socketId);
  }

  /** Replacing a room by one with the same id, order, players and host keeps the invariant. */
  lemma SameShapeKeepsValid(rooms: map<string, Room>, pg: map<string, GlobalPlayer>, roomId: string, room1: Room)
    requires Shaped(rooms) && Recorded(rooms, pg)
    requires roomId in rooms && room1.id == roomId && room1.playerOrder == rooms[roomId].playerOrder
    requires room1.hostId == rooms[roomId].hostId
    requires forall x :: x in room1.players <==> x in rooms[roomId].players
    requires forall x :: x in room1.players ==> x in room1.playerInputs
    ensures Shaped(rooms[roomId := room1]) && Recorded(rooms[roomId := room1], pg)
  {
    assert RoomShape(roomId, rooms[roomId]);
    ShapedUpdate(rooms, roomId, room1);
    RecordedUpdate(rooms, pg, roomId, room1);
  }

  /** A pass of the game loop keeps every room's shape and players. */
  lemma TickAllKeepsValid(rooms: map<string, Room>, rooms1: map<string, Room>, pg: map<string, GlobalPlayer>,
                          now: real, sin: real -> real, cos: real -> real)
    requires Shaped(rooms) && Recorded(rooms, pg)
    requires TickedAll(rooms, rooms1, now, sin, cos)
    ensures Shaped(rooms1) && Recorded(rooms1, pg)
  {
    forall rid | rid in rooms1
      ensures rid in rooms && RoomShape(rid, rooms1[rid]) && forall pid :: pid in rooms1[rid].players ==> pid in rooms[rid].players
    {
      assert RoomShape(rid, rooms[rid]);
      TickKeepsShape(rid, rooms[rid], now, sin, cos);
    }
    ShapeCarried(rooms, rooms1, pg);
  }

  /** Rooms that keep their shape and gain no player stay recorded. */
  lemma ShapeCarried(rooms: map<string, Room>, rooms1: map<string, Room>, pg: map<string, GlobalPlayer>)
    requires Recorded(rooms, pg)
    requires forall rid :: rid in rooms1 ==>
      rid in rooms && RoomShape(rid, rooms1[rid]) && forall pid :: pid in rooms1[rid].players ==> pid in rooms[rid].players
    ensures Shaped(rooms1) && Recorded(rooms1, pg)
  {
  }

  lemma TickKeepsShape(rid: string, room: Room, now: real, sin: real -> real, cos: real -> real)
    requires RoomShape(rid, room)
    ensures var r := RoomAfterTick(room, now, sin, cos);
      RoomShape(rid, r) && forall pid :: pid in r.players ==> pid in room.players
  {
    RoomAfterTickPlayers(room, now, sin, cos);
    var r := RoomAfterTick(room, now, sin, cos);
    forall pid | pid in r.players
      ensures pid in room.players
    {
      assert pid in r.players.Keys;
    }
    assert room.hostId in room.players.Keys;
  }
}
