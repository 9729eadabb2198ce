/**
 * The room session coordinator: the message handlers of one connection over the
 * shared room registry and telemetry buffer. A spin and a trap cut reveal their
 * result at once and return a `Pending` resolution; the delayed callback that
 * applies it later is `Resolve`. Nothing serialises handlers: two resolutions
 * may be pending for one room at the same time.
 */
module Server {
  import opened Wrappers
  import opened Wires
  import opened RoomTypes
  import opened GameRules
  import opened GameLogic
  import opened Database
  import opened Telemetry

  datatype JoinError = RoomNotFound | WrongPassword | RoomFull

  /** A resolution scheduled by a spin or a trap cut: the room and the revealed outcome. */
  datatype Pending = Pending(roomCode: string, hit: bool)

  // ------------------------------------------------------------ pure rules

  /** AUTH's persistent id: a supplied (non-empty) token is reused, otherwise the freshly minted one. */
  function PersistentId(token: Option<string>, minted: string): string
  {
    if token.Some? && token.value != "" then token.value else minted
  }

  /** The JOIN_ROOM checks on a room that was found: wrong password first, then full. */
  function JoinRejection(c: Config, playerCount: nat, password: Option<string>): (r: Option<JoinError>)
    ensures r != Some(RoomNotFound)
    ensures r == Some(WrongPassword) <==> PasswordRequired(c) && password != c.password
    ensures r == Some(RoomFull) <==> !(PasswordRequired(c) && password != c.password) && playerCount >= c.maxPlayers
    ensures r.None? ==> playerCount + 1 <= c.maxPlayers
  {
    if PasswordRequired(c) && c.password != password then Some(WrongPassword)
    else if playerCount >= c.maxPlayers then Some(RoomFull)
    else None
  }

  /** The room CREATE_ROOM stores: LOBBY, the creator as its only player, everything else empty. */
  function LobbyRoom(config: Config, host: Player): RoomState
  {
    RoomState(config, [host], Lobby, 0, 0, 0, NoOutcomes, Some([]), 0.0, None, false)
  }

  /** Number of players flagged host. */
  function HostCount(ps: seq<Player>): nat
  {
    if ps == [] then 0 else (if ps[0].isHost then 1 else 0) + HostCount(ps[1..])
  }

  predicate AnyHost(ps: seq<Player>)
  {
    exists k :: 0 <= k < |ps| && ps[k].isHost
  }

  /** `players.filter(p => p.socketId !== socketId)`. */
  function WithoutSocket(ps: seq<Player>, socketId: string): (r: seq<Player>)
    ensures |r| <= |ps|
    ensures forall p :: p in r <==> p in ps && p.socketId != Some(socketId)
  {
    if ps == [] then []
    else (if ps[0].socketId == Some(socketId) then [] else [ps[0]]) + WithoutSocket(ps[1..], socketId)
  }

  /** The players after LEAVE_ROOM or close: the caller's removed, and players[0] made host if none is left. */
  function AfterLeave(ps: seq<Player>, socketId: string): seq<Player>
  {
    var rest := WithoutSocket(ps, socketId);
    if rest == [] || AnyHost(rest) then rest else rest[0 := rest[0].(isHost := true)]
  }

  /** The first player of this connection (`players.find`). */
  function FirstWithSocket(ps: seq<Player>, socketId: string): (r: Option<nat>)
    ensures r.Some? ==> r.value < |ps| && ps[r.value].socketId == Some(socketId)
    ensures r.Some? ==> forall k :: 0 <= k < r.value ==> ps[k].socketId != Some(socketId)
    ensures r.None? <==> !HasSocket(ps, socketId)
  {
    if ps == [] then None
    else if ps[0].socketId == Some(socketId) then Some(0)
    else match FirstWithSocket(ps[1..], socketId)
      case None => None
      case Some(k) => Some(k + 1)
  }

  /** START_GAME's guard: the caller's first player in the room is host. */
  predicate CallerIsHost(ps: seq<Player>, socketId: string)
  {
    var k := FirstWithSocket(ps, socketId);
    k.Some? && ps[k.value].isHost
  }

  /** The ACTION_* guard: the index is in range and the player there belongs to the caller. */
  predicate IsActor(s: RoomState, socketId: string)
  {
    s.currentTurnIndex < |s.players| && s.players[s.currentTurnIndex].socketId == Some(socketId)
  }

  /** The id telemetry logs for a player: `player.userId || player.id`. */
  function LogId(p: Player): Option<string>
  {
    if p.userId.Some? && p.userId.value != "" then p.userId else p.id
  }

  function PhaseName(phase: Phase): string
  {
    match phase
    case Lobby => "LOBBY"
    case LoserRound => "GAME_LOSER_ROUND"
    case WinnerRound => "GAME_WINNER_ROUND"
    case Results => "RESULTS"
  }

  function SpinEvent(s: RoomState, timestamp: string, reactionTimeMs: int, hit: bool): Event
    requires s.currentTurnIndex < |s.players|
  {
    var p := s.players[s.currentTurnIndex];
    Event(timestamp, s.config.roomCode, LogId(p), p.nickname, PhaseName(s.phase), Spin, None,
          reactionTimeMs, if hit then Hit else SafeOutcome)
  }

  function CutEvent(s: RoomState, wireId: int, timestamp: string, reactionTimeMs: int, hit: bool): Event
    requires s.currentTurnIndex < |s.players|
  {
    var p := s.players[s.currentTurnIndex];
    Event(timestamp, s.config.roomCode, LogId(p), p.nickname, PhaseName(s.phase), CutWire, Some(wireId),
          reactionTimeMs, if hit then Hit else OddsChange)
  }

  /**
   * What ACTION_CUT_WIRE by the current actor does, from room `s` and telemetry
   * buffer `log` to room `r`, buffer `logAfter` and the returned resolution: an
   * invalid cut changes nothing and logs nothing; a valid cut logs one event; a
   * trap reveals a hit and returns the resolution for room `code`; a safe cut
   * returns none and the turn stays with the same seat.
   */
  predicate CutHandled(s: RoomState, wireId: int, timestamp: string, reactionTimeMs: int, code: string,
                       log: seq<Event>, r: RoomState, logAfter: seq<Event>, pending: Option<Pending>)
    requires s.currentTurnIndex < |s.players|
  {
    var (hit, cut) := WireCut(s, wireId);
    && (hit.None? ==> pending.None? && r == s && logAfter == log)
    && (hit.Some? ==> logAfter == Recorded(log, CutEvent(s, wireId, timestamp, reactionTimeMs, hit.value)))
    && (hit == Some(true) ==> pending == Some(Pending(code, true)) && r == cut.(turnResult := Some(true)))
    && (hit == Some(false) ==> pending.None? && r == cut && r.currentTurnIndex == s.currentTurnIndex)
  }

  // ------------------------------------------------------------ lemmas

  /** A newly created room already satisfies the engine's invariants and has exactly one host. */
  lemma LobbyRoomFacts(config: Config, host: Player)
    requires host.isHost
    ensures var s := LobbyRoom(config, host);
      Tallied(s) && Consistent(s) && HostCount(s.players) == 1 && s.players == [host] && OddsInRange(s)
  {
    assert [host][1..] == [];
  }

  lemma {:induction false} HostCountPositive(ps: seq<Player>)
    ensures AnyHost(ps) <==> HostCount(ps) > 0
  {
    if ps != [] {
      HostCountPositive(ps[1..]);
      if AnyHost(ps) && !ps[0].isHost {
        var k :| 0 <= k < |ps| && ps[k].isHost;
        assert ps[1..][k - 1].isHost;
      }
      if AnyHost(ps[1..]) {
        var k :| 0 <= k < |ps[1..]| && ps[1..][k].isHost;
        assert ps[k + 1].isHost;
      }
    }
  }

  lemma {:induction false} FilterKeepsHostCount(ps: seq<Player>, socketId: string)
    ensures HostCount(WithoutSocket(ps, socketId)) <= HostCount(ps)
  {
    if ps != [] {
      FilterKeepsHostCount(ps[1..], socketId);
      var tail := WithoutSocket(ps[1..], socketId);
      if ps[0].socketId != Some(socketId) {
        var kept := [ps[0]] + tail;
        assert WithoutSocket(ps, socketId) == kept;
        assert kept[0] == ps[0] && kept[1..] == tail;
      } else {
        assert WithoutSocket(ps, socketId) == [] + tail == tail;
      }
    }
  }

  /**
   * LEAVE_ROOM on a room with exactly one host leaves exactly one host, whoever
   * left; and any room that is not emptied has a host afterwards.
   */
  lemma LeaveKeepsOneHost(ps: seq<Player>, socketId: string)
    ensures var r := AfterLeave(ps, socketId);
      && (r != [] ==> AnyHost(r))
      && (HostCount(ps) == 1 && r != [] ==> HostCount(r) == 1)
      && !HasSocket(r, socketId)
      && |r| == |WithoutSocket(ps, socketId)|
  {
    var rest := WithoutSocket(ps, socketId);
    var r := AfterLeave(ps, socketId);
    FilterKeepsHostCount(ps, socketId);
    HostCountPositive(rest);
    if rest != [] && !AnyHost(rest) {
      assert r[1..] == rest[1..];
      assert r[0].isHost;
      assert HostCount(rest[1..]) == 0;
    }
    forall k | 0 <= k < |r| ensures r[k].socketId != Some(socketId) {
      assert r[k].socketId == rest[k].socketId;
      assert rest[k] in rest;
    }
  }

  /** A connection with no players in the room removes nobody: the filter returns the players unchanged. */
  lemma {:induction false} LeaveWithoutSeatKeepsPlayers(ps: seq<Player>, socketId: string)
    requires forall k :: 0 <= k < |ps| ==> ps[k].socketId != Some(socketId)
    ensures WithoutSocket(ps, socketId) == ps
  {
    if ps != [] {
      LeaveWithoutSeatKeepsPlayers(ps[1..], socketId);
    }
  }

  /**
   * The filter works seat by seat, so it keeps the order of what it keeps:
   * filtering `a + b` is filtering `a`, then `b`.
   */
  lemma {:induction false} WithoutSocketAppend(a: seq<Player>, b: seq<Player>, socketId: string)
    ensures WithoutSocket(a + b, socketId) == WithoutSocket(a, socketId) + WithoutSocket(b, socketId)
    decreases |a|
  {
    if a == [] {
      assert a + b == b;
    } else {
      assert (a + b)[1..] == a[1..] + b;
      WithoutSocketAppend(a[1..], b, socketId);
    }
  }

  /**
   * LEAVE_ROOM by the connection in seat `|before|` closes the gap: the players
   * before and after that seat stay, in order, so `players[0]` afterwards is the
   * first of them.
   */
  lemma {:induction false} LeaveClosesGap(before: seq<Player>, p: Player, after: seq<Player>, socketId: string)
    requires p.socketId == Some(socketId)
    requires forall k :: 0 <= k < |before| ==> before[k].socketId != Some(socketId)
    requires forall k :: 0 <= k < |after| ==> after[k].socketId != Some(socketId)
    ensures WithoutSocket(before + [p] + after, socketId) == before + after
    decreases |before|
  {
    var ps := before + [p] + after;
    if before == [] {
      assert ps[0] == p && ps[1..] == after;
      LeaveWithoutSeatKeepsPlayers(after, socketId);
    } else {
      assert ps[0] == before[0] && ps[1..] == before[1..] + [p] + after;
      calc {
        WithoutSocket(ps, socketId);
        [before[0]] + WithoutSocket(before[1..] + [p] + after, socketId);
      == { LeaveClosesGap(before[1..], p, after, socketId); }
        [before[0]] + (before[1..] + after);
        before + after;
      }
    }
  }

  /**
   * As written, LEAVE_ROOM and `close` do not rescan the turn index. When the
   * player in the last seat leaves mid-game the index is left past the end, so
   * no connection is the current actor and every ACTION_* from then on indexes
   * past the end and is absorbed by the handler's catch. The round stalls until
   * another connection joins (its player takes the stranded seat) or the host
   * restarts the game.
   */
  lemma LeaveStrandsTurn(s: RoomState, a: Player, b: Player, socketId: string)
    requires s.players == [a, b] && s.currentTurnIndex == 1
    requires b.socketId == Some(socketId) && a.socketId != Some(socketId) && a.isHost
    ensures var r := s.(players := AfterLeave(s.players, socketId));
      && r.players == [a]
      && r.currentTurnIndex >= |r.players|
      && forall sid :: !IsActor(r, sid)
  {
    assert s.players == [a] + [b] + [];
    LeaveClosesGap([a], b, [], socketId);
    assert AnyHost([a]) by {
      assert [a][0].isHost;
    }
  }

  /** The room after a leave with the index brought back to a live seat by the engine's own scan. */
  function LeftRoomRescanned(s: RoomState, socketId: string): RoomState
  {
    var r := s.(players := AfterLeave(s.players, socketId));
    if r.players == [] then r else r.(currentTurnIndex := ValidActorIndex(r.players, r.currentTurnIndex))
  }

  /**
   * With the rescan a leave removes the caller's players as before, and a
   * non-empty room keeps its index in range and on a live player whenever one
   * is left, so the game can go on.
   */
  lemma RescannedLeaveKeepsTurn(s: RoomState, socketId: string)
    ensures var r := LeftRoomRescanned(s, socketId);
      && r == s.(players := AfterLeave(s.players, socketId), currentTurnIndex := r.currentTurnIndex)
      && (r.players != [] ==> r.currentTurnIndex < |r.players|)
      && ((exists j :: 0 <= j < |r.players| && !IsTerminal(r.players[j].status)) ==>
            !IsTerminal(r.players[r.currentTurnIndex].status))
  {
    var ps := AfterLeave(s.players, socketId);
    if exists j :: 0 <= j < |ps| && !IsTerminal(ps[j].status) {
      ValidActorIndexIsLive(ps, s.currentTurnIndex);
    }
  }

  /** A join that passes the checks keeps the room within its capacity. */
  lemma JoinRespectsCapacity(c: Config, ps: seq<Player>, password: Option<string>, p: Player)
    requires JoinRejection(c, |ps|, password).None?
    ensures |ps + [p]| <= c.maxPlayers
  {
  }

  // ------------------------------------------------------------ one connection

  class Session {
    const socketId: string
    var currentPlayerId: Option<string>
    var currentNickname: string
    var persistentUserId: Option<string>
    const db: MemoryDatabase
    const telemetry: TelemetryService
    /** Whether a stats database is configured. */
    const statsEnabled: bool

    /** The registry is well formed and every room is stored under its own code. */
    ghost predicate Valid()
      reads this, db, telemetry
    {
      && db.Valid()
      && telemetry.Valid()
      && (forall c :: c in db.rooms ==> db.rooms[c].config.roomCode == c)
    }

    constructor (socketId: string, db: MemoryDatabase, telemetry: TelemetryService, statsEnabled: bool)
      requires db.Valid() && telemetry.Valid() && (forall c :: c in db.rooms ==> db.rooms[c].config.roomCode == c)
      ensures Valid()
      ensures this.socketId == socketId && this.db == db && this.telemetry == telemetry
      ensures this.statsEnabled == statsEnabled
      ensures currentPlayerId.None? && persistentUserId.None? && currentNickname == "Anonymous"
    {
      this.socketId := socketId;
      this.db := db;
      this.telemetry := telemetry;
      this.statsEnabled := statsEnabled;
      currentPlayerId := None;
      currentNickname := "Anonymous";
      persistentUserId := None;
    }

    /** The player record this connection would add to a room. */
    function NewPlayer(isHost: bool, avatarId: int): Player
      reads this
    {
      Player(currentPlayerId, persistentUserId, currentNickname, isHost, Waiting, avatarId, Some(socketId))
    }

    /** AUTH: the session id is the socket id; the persistent id is the token if one is supplied. */
    method Auth(nickname: string, token: Option<string>, freshId: string)
      modifies this
      ensures currentNickname == nickname
      ensures currentPlayerId == Some(socketId)
      ensures persistentUserId == Some(PersistentId(token, freshId))
    {
      currentNickname := nickname;
      currentPlayerId := Some(socketId);
      if token.Some? && token.value != "" {
        persistentUserId := token;
      } else {
        persistentUserId := Some(freshId);
      }
    }

    /** CREATE_ROOM: store a LOBBY room whose only player is this connection, as host. */
    method CreateRoom(config: Config, avatarId: int) returns (room: Room)
      requires Valid()
      modifies db
      ensures Valid()
      ensures fresh(room)
      ensures room.State() == LobbyRoom(config, NewPlayer(true, avatarId))
      ensures db.rooms == old(db.rooms)[config.roomCode := room]
    {
      var host := NewPlayer(true, avatarId);
      room := new Room(LobbyRoom(config, host));
      db.CreateRoom(room);
    }

    /**
     * JOIN_ROOM: reject in the order not found, wrong password, full, leaving the
     * room as it was; otherwise append this connection as a non-host WAITING player.
     */
    method JoinRoom(code: string, password: Option<string>, avatarId: int) returns (err: Option<JoinError>)
      requires Valid()
      modifies db, db.rooms.Values
      ensures Valid()
      ensures db.rooms == old(db.rooms) && db.order == old(db.order)
      ensures code !in db.rooms ==> err == Some(RoomNotFound) && unchanged(db.rooms.Values)
      ensures code in db.rooms ==>
        var room := db.rooms[code];
        && err == JoinRejection(room.config, old(|room.players|), password)
        && (err.Some? ==> unchanged(db.rooms.Values))
        && (err.None? ==> room.State() == old(room.State()).(players := old(room.players) + [NewPlayer(false, avatarId)]))
        && (err.None? ==> |room.players| <= room.config.maxPlayers)
      ensures forall c :: c in db.rooms && c != code ==> unchanged(db.rooms[c])
    {
      var room := db.GetRoom(code);
      if room == null {
        return Some(RoomNotFound);
      }
      if PasswordRequired(room.config) && room.config.password != password {
        return Some(WrongPassword);
      }
      if |room.players| >= room.config.maxPlayers {
        return Some(RoomFull);
      }
      var newPlayer := NewPlayer(false, avatarId);
      room.players := room.players + [newPlayer];
      db.UpdateRoom(code, room);
      assert db.rooms == old(db.rooms);
      return None;
    }

    /** START_GAME: only when this connection's first player in its room is host. */
    method StartGame(m: seq<real>, d: seq<nat>)
      requires Valid() && ValidMultipliers(m) && DrawsFor(LoserRound, d)
      modifies db, db.rooms.Values
      ensures Valid()
      ensures db.rooms == old(db.rooms) && db.order == old(db.order)
      ensures old(db.Holder(socketId)).None? ==> unchanged(db.rooms.Values)
      ensures old(db.Holder(socketId)).Some? ==>
        var room := db.rooms[old(db.Holder(socketId)).value];
        && (old(CallerIsHost(room.players, socketId)) ==> room.State() == StartedGame(old(room.State()), m, d))
        && (!old(CallerIsHost(room.players, socketId)) ==> unchanged(room))
      ensures forall c :: c in db.rooms && Some(c) != old(db.Holder(socketId)) ==> unchanged(db.rooms[c])
    {
      var room := HostRoom();
      if room != null {
        StartAsHost(room, m, d);
      }
    }

    /** The room START_GAME acts on: the caller's room when the caller's first player there is host, else null. */
    method HostRoom() returns (room: Room?)
      requires Valid()
      ensures room == null <==> db.Holder(socketId).None? || !CallerIsHost(db.rooms[db.Holder(socketId).value].players, socketId)
      ensures room != null ==>
        && db.Holder(socketId) == Some(room.config.roomCode) && db.rooms[room.config.roomCode] == room
        && |room.players| > 0
    {
      room := db.FindRoomByPlayerSocket(socketId);
      if room == null {
        return;
      }
      var k := FirstWithSocket(room.players, socketId);
      if !(k.Some? && room.players[k.value].isHost) {
        room := null;
      }
    }

    /** The body of START_GAME once the caller is known to be host: start and store the room. */
    method StartAsHost(room: Room, m: seq<real>, d: seq<nat>)
      requires Valid() && room.config.roomCode in db.rooms && db.rooms[room.config.roomCode] == room
      requires |room.players| > 0 && ValidMultipliers(m) && DrawsFor(LoserRound, d)
      modifies db, room
      ensures Valid()
      ensures db.rooms == old(db.rooms) && db.order == old(db.order)
      ensures room.State() == StartedGame(old(room.State()), m, d)
    {
      GameLogic.StartGame(room, m, d);
      db.UpdateRoom(room.config.roomCode, room);
      assert db.rooms == old(db.rooms);
    }

    /**
     * The room an ACTION_SPIN or ACTION_CUT_WIRE of this connection acts on: the
     * caller's room when the caller is its current actor, and null otherwise (no
     * room, another player's turn, or an index past the end, whose throw the
     * handler's catch absorbs).
     */
    method ActorRoom() returns (room: Room?)
      requires Valid()
      ensures room == null <==> db.Holder(socketId).None? || !IsActor(db.rooms[db.Holder(socketId).value].State(), socketId)
      ensures room != null ==> db.Holder(socketId) == Some(room.config.roomCode) && db.rooms[room.config.roomCode] == room
    {
      room := db.FindRoomByPlayerSocket(socketId);
      if room == null {
        return;
      }
      if room.currentTurnIndex >= |room.players| || room.players[room.currentTurnIndex].socketId != Some(socketId) {
        room := null;
      }
    }

    /**
     * ACTION_SPIN: only the current actor may spin. The outcome is revealed in
     * `turnResult` at once, logged, and returned as the resolution to apply later.
     */
    method ActionSpin(draw: real, timestamp: string, reactionTimeMs: int) returns (pending: Option<Pending>)
      requires Valid()
      modifies db, db.rooms.Values, telemetry
      ensures Valid()
      ensures db.rooms == old(db.rooms) && db.order == old(db.order)
      ensures old(db.Holder(socketId)).None? ==> pending.None? && unchanged(db.rooms.Values) && unchanged(telemetry)
      ensures old(db.Holder(socketId)).Some? ==>
        var code := old(db.Holder(socketId)).value;
        var room := db.rooms[code];
        var s := old(room.State());
        && (!IsActor(s, socketId) ==> pending.None? && unchanged(room) && unchanged(telemetry))
        && (IsActor(s, socketId) ==>
              var hit := SpinHits(s.currentProb, draw);
              && pending == Some(Pending(code, hit))
              && room.State() == s.(turnResult := Some(hit))
              && telemetry.buffer == Recorded(old(telemetry.buffer), SpinEvent(s, timestamp, reactionTimeMs, hit)))
      ensures forall c :: c in db.rooms && Some(c) != old(db.Holder(socketId)) ==> unchanged(db.rooms[c])
    {
      var room := ActorRoom();
      if room == null {
        return None;
      }
      pending := SpinAsActor(room, draw, timestamp, reactionTimeMs);
    }

    /** The body of ACTION_SPIN once the caller is known to be the current actor. */
    method SpinAsActor(room: Room, draw: real, timestamp: string, reactionTimeMs: int) returns (pending: Option<Pending>)
      requires Valid() && room.config.roomCode in db.rooms && db.rooms[room.config.roomCode] == room
      requires IsActor(room.State(), socketId)
      modifies db, room, telemetry
      ensures Valid()
      ensures db.rooms == old(db.rooms) && db.order == old(db.order)
      ensures var s := old(room.State());
        var hit := SpinHits(s.currentProb, draw);
        && pending == Some(Pending(room.config.roomCode, hit))
        && room.State() == s.(turnResult := Some(hit))
        && telemetry.buffer == Recorded(old(telemetry.buffer), SpinEvent(s, timestamp, reactionTimeMs, hit))
    {
      var s := room.State();
      var hit := GameLogic.HandleSpin(room, draw);
      room.turnResult := Some(hit);
      telemetry.RecordEvent(SpinEvent(s, timestamp, reactionTimeMs, hit));
      db.UpdateRoom(room.config.roomCode, room);
      assert db.rooms == old(db.rooms);
      pending := Some(Pending(room.config.roomCode, hit));
    }

    /**
     * ACTION_CUT_WIRE: only the current actor may cut. An invalid cut changes
     * nothing; a valid cut is logged; a trap reveals a hit and returns the
     * resolution to apply later; a safe cut schedules nothing, so the turn stays.
     */
    method ActionCutWire(wireId: int, timestamp: string, reactionTimeMs: int) returns (pending: Option<Pending>)
      requires Valid()
      modifies db, db.rooms.Values, telemetry
      ensures Valid()
      ensures db.rooms == old(db.rooms) && db.order == old(db.order)
      ensures old(db.Holder(socketId)).None? ==> pending.None? && unchanged(db.rooms.Values) && unchanged(telemetry)
      ensures old(db.Holder(socketId)).Some? ==>
        var code := old(db.Holder(socketId)).value;
        var room := db.rooms[code];
        var s := old(room.State());
        && (!IsActor(s, socketId) || WireCut(s, wireId).0.None? ==> pending.None? && unchanged(room) && unchanged(telemetry))
        && (IsActor(s, socketId) ==>
              CutHandled(s, wireId, timestamp, reactionTimeMs, code, old(telemetry.buffer), room.State(), telemetry.buffer, pending))
      ensures forall c :: c in db.rooms && Some(c) != old(db.Holder(socketId)) ==> unchanged(db.rooms[c])
    {
      var room := ActorRoom();
      if room == null {
        return None;
      }
      pending := CutAsActor(room, wireId, timestamp, reactionTimeMs);
    }

    /** The body of ACTION_CUT_WIRE once the caller is known to be the current actor. */
    method CutAsActor(room: Room, wireId: int, timestamp: string, reactionTimeMs: int) returns (pending: Option<Pending>)
      requires Valid() && room.config.roomCode in db.rooms && db.rooms[room.config.roomCode] == room
      requires IsActor(room.State(), socketId)
      modifies db, room, telemetry
      ensures Valid()
      ensures db.rooms == old(db.rooms) && db.order == old(db.order)
      ensures WireCut(old(room.State()), wireId).0.None? ==> unchanged(room) && unchanged(telemetry)
      ensures CutHandled(old(room.State()), wireId, timestamp, reactionTimeMs, room.config.roomCode,
                         old(telemetry.buffer), room.State(), telemetry.buffer, pending)
    {
      var s := room.State();
      WireCutFacts(s, wireId);
      var result := GameLogic.HandleWireCut(room, wireId);
      if result.None? {
        return None;
      }
      telemetry.RecordEvent(CutEvent(s, wireId, timestamp, reactionTimeMs, result.value));
      if result.value {
        room.turnResult := Some(true);
        db.UpdateRoom(room.config.roomCode, room);
        assert db.rooms == old(db.rooms);
        pending := Some(Pending(room.config.roomCode, true));
      } else {
        db.UpdateRoom(room.config.roomCode, room);
        assert db.rooms == old(db.rooms);
        pending := None;
      }
    }

    /**
     * The delayed callback of a spin or a trap cut: fetch the room again, apply
     * the outcome to whoever is the current actor now, clear `turnResult`, and
     * report whether the game's stats are to be handed to the stats database
     * (RESULTS reached, a stats database configured, stats not yet recorded).
     * A room that is gone is ignored; with the index out of range the engine
     * throws before touching the room.
     */
    method Resolve(p: Pending, m: seq<real>, d: seq<nat>) returns (statsHandoff: bool)
      requires Valid() && ValidMultipliers(m) && DrawsFor(WinnerRound, d)
      modifies db, db.rooms.Values
      ensures Valid()
      ensures db.rooms == old(db.rooms) && db.order == old(db.order)
      ensures p.roomCode !in db.rooms ==> !statsHandoff && unchanged(db.rooms.Values)
      ensures p.roomCode in db.rooms ==>
        var room := db.rooms[p.roomCode];
        var s := old(room.State());
        && (s.currentTurnIndex >= |s.players| ==> !statsHandoff && unchanged(room))
        && (s.currentTurnIndex < |s.players| ==>
              && room.State() == ResolvedTurn(s, p.hit, m, d).(turnResult := None)
              && (statsHandoff <==> room.phase == Results && statsEnabled && !room.statsRecorded))
      ensures forall c :: c in db.rooms && c != p.roomCode ==> unchanged(db.rooms[c])
    {
      var r := db.GetRoom(p.roomCode);
      if r == null {
        return false;
      }
      if r.currentTurnIndex >= |r.players| {
        return false;
      }
      GameLogic.ProcessTurnResult(r, p.hit, m, d);
      r.turnResult := None;
      statsHandoff := r.phase == Results && statsEnabled && !r.statsRecorded;
      db.UpdateRoom(r.config.roomCode, r);
      assert db.rooms == old(db.rooms);
    }

    /**
     * LEAVE_ROOM: remove this connection's players from its room; delete the room
     * if it is empty, otherwise make players[0] host when no host is left.
     */
    method LeaveRoom()
      requires Valid()
      modifies db, db.rooms.Values
      ensures Valid()
      ensures old(db.Holder(socketId)).None? ==> db.rooms == old(db.rooms) && unchanged(db.rooms.Values)
      ensures old(db.Holder(socketId)).Some? ==>
        var code := old(db.Holder(socketId)).value;
        var room := old(db.rooms)[code];
        && room.State() == old(room.State()).(players := AfterLeave(old(room.players), socketId))
        && (room.players == [] ==> db.rooms == old(db.rooms) - {code})
        && (room.players != [] ==> db.rooms == old(db.rooms))
      ensures forall c :: c in old(db.rooms) && Some(c) != old(db.Holder(socketId)) ==>
        c in db.rooms && db.rooms[c] == old(db.rooms)[c] && unchanged(db.rooms[c])
    {
      var room := db.FindRoomByPlayerSocket(socketId);
      if room == null {
        return;
      }
      Depart(room);
    }

    /** The body of LEAVE_ROOM and `close` once the caller's room is found. */
    method Depart(room: Room)
      requires Valid() && room.config.roomCode in db.rooms && db.rooms[room.config.roomCode] == room
      modifies db, room
      ensures Valid()
      ensures room.State() == old(room.State()).(players := AfterLeave(old(room.players), socketId))
      ensures room.players == [] ==> db.rooms == old(db.rooms) - {room.config.roomCode}
      ensures room.players != [] ==> db.rooms == old(db.rooms)
    {
      room.players := WithoutSocket(room.players, socketId);
      if |room.players| == 0 {
        db.DeleteRoom(room.config.roomCode);
      } else {
        if !AnyHost(room.players) {
          room.players := room.players[0 := room.players[0].(isHost := true)];
        }
        db.UpdateRoom(room.config.roomCode, room);
        assert db.rooms == old(db.rooms);
      }
    }

    /** The connection's `close` handler runs the same steps as LEAVE_ROOM. */
    method Close()
      requires Valid()
      modifies db, db.rooms.Values
      ensures Valid()
      ensures old(db.Holder(socketId)).None? ==> db.rooms == old(db.rooms) && unchanged(db.rooms.Values)
      ensures old(db.Holder(socketId)).Some? ==>
        var code := old(db.Holder(socketId)).value;
        var room := old(db.rooms)[code];
        && room.State() == old(room.State()).(players := AfterLeave(old(room.players), socketId))
        && (room.players == [] ==> db.rooms == old(db.rooms) - {code})
        && (room.players != [] ==> db.rooms == old(db.rooms))
    {
      LeaveRoom();
    }
  }
}
