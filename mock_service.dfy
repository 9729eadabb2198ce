/**
 * The client-side mock engine: one simulated room held by the service, played
 * against bots. It re-implements the turn rules with differences from the
 * server's engine that the lemmas at the end make explicit: a resolution has no
 * duplicate guard, a phase shift does not skip ELIMINATED or WINNER players,
 * `startGame` keeps the counters and lists of the previous game, and every turn
 * (not every phase) gets fresh wires and base odds.
 */
module MockService {
  import opened Wrappers
  import opened Wires
  import opened RoomTypes
  import opened GameRules
  import opened GameLogic
  import opened Server

  /** Turns always point into a non-empty table. */
  predicate Seated(s: RoomState)
  {
    |s.players| > 0 && s.currentTurnIndex < |s.players|
  }

  /** `initTurn`: base odds of the phase, a fresh wire row, no pending result; the actor stays. */
  function InitTurned(s: RoomState, m: seq<real>, d: seq<nat>): RoomState
    requires ValidMultipliers(m) && DrawsFor(s.phase, d)
  {
    s.(currentProb := if s.phase == LoserRound then LoserRoundProb else WinnerRoundProb,
       currentWires := Some(PhaseWires(s.phase, m, d)),
       turnResult := None)
  }

  /** `advanceTurn`: the next live player after the current one (one loop at most), then `initTurn`. */
  function MockAdvanced(s: RoomState, m: seq<real>, d: seq<nat>): RoomState
    requires |s.players| > 0 && ValidMultipliers(m) && DrawsFor(s.phase, d)
  {
    InitTurned(s.(currentTurnIndex := ValidActorIndex(s.players, (s.currentTurnIndex + 1) % |s.players|)), m, d)
  }

  /** The delayed half of `transitionPhase`: RESULTS records survivors; another phase restarts at index 0, unscanned. */
  function MockShifted(s: RoomState, phase: Phase, m: seq<real>, d: seq<nat>): RoomState
    requires ValidMultipliers(m) && (phase != Results ==> DrawsFor(phase, d))
  {
    if phase == Results then s.(phase := Results, results := s.results.(survivors := Survivors(s.players)))
    else InitTurned(s.(phase := phase, currentTurnIndex := 0), m, d)
  }

  /** `startGame`: LOSER round, everyone PLAYING, index 0, a fresh turn; counters and lists are kept. */
  function MockStarted(s: RoomState, m: seq<real>, d: seq<nat>): RoomState
    requires ValidMultipliers(m) && DrawsFor(LoserRound, d)
  {
    InitTurned(s.(phase := LoserRound, players := AllPlaying(s.players), currentTurnIndex := 0), m, d)
  }

  /**
   * A hit recorded against the actor captured at spin time: in the same room the
   * player at the captured index gets the status; if the room object was replaced
   * since, only the captured record is changed, and no seat of this room.
   */
  function Marked(s: RoomState, sameRoom: bool, index: nat, actor: Player, status: PlayerStatus): RoomState
    requires sameRoom ==> index < |s.players|
  {
    var placed := (if sameRoom then s.players[index] else actor).(status := status);
    var players := if sameRoom then s.players[index := placed] else s.players;
    if status == Eliminated then
      s.(players := players, losersFound := s.losersFound + 1, results := s.results.(losers := s.results.losers + [placed]))
    else
      s.(players := players, winnersFound := s.winnersFound + 1, results := s.results.(winners := s.results.winners + [placed]))
  }

  /**
   * The delayed half of `handleTurnResult`: clear the result, apply a hit with no
   * duplicate guard, then either schedule a phase shift or advance the turn.
   */
  function MockSettled(s: RoomState, sameRoom: bool, index: nat, actor: Player, hit: bool,
                       m: seq<real>, d: seq<nat>): (RoomState, Option<Phase>)
    requires |s.players| > 0 && (sameRoom ==> index < |s.players|)
    requires ValidMultipliers(m) && DrawsFor(s.phase, d)
  {
    var s0 := s.(turnResult := None);
    if s.phase == LoserRound then
      var s1 := if hit then Marked(s0, sameRoom, index, actor, Eliminated) else s0;
      if s1.losersFound >= s.config.numLosers then (s1, Some(WinnerRound)) else (MockAdvanced(s1, m, d), None)
    else if s.phase == WinnerRound then
      var s1 := if hit then Marked(s0, sameRoom, index, actor, Winner) else s0;
      if s1.winnersFound >= s.config.numWinners then (s1, Some(Results)) else (MockAdvanced(s1, m, d), None)
    else
      (MockAdvanced(s0, m, d), None)
  }

  /** The room `joinRoom` makes up for a code it does not hold: ADMIN as host, then the caller. */
  function FakeRoom(code: string, me: Player): RoomState
  {
    var admin := Player(Some("host"), None, "ADMIN", true, Waiting, 1, None);
    RoomState(Config(code, None, 5, 1, 1), [admin, me], Lobby, 0, 0, 0, NoOutcomes, None, 0.0, None, false)
  }

  /** A spin or trap cut waiting for its delayed resolution: where it was made, by whom, and its outcome. */
  datatype MockPending = MockPending(origin: Room, index: nat, actor: Player, hit: bool)

  // ------------------------------------------------------------ lemmas

  /** The mock keeps the counters equal to the list lengths, like the server. */
  lemma MockSettledKeepsCounts(s: RoomState, sameRoom: bool, index: nat, actor: Player, hit: bool,
                               m: seq<real>, d: seq<nat>)
    requires |s.players| > 0 && (sameRoom ==> index < |s.players|)
    requires ValidMultipliers(m) && DrawsFor(s.phase, d)
    requires s.losersFound == |s.results.losers| && s.winnersFound == |s.results.winners|
    ensures var r := MockSettled(s, sameRoom, index, actor, hit, m, d).0;
      r.losersFound == |r.results.losers| && r.winnersFound == |r.results.winners|
  {
  }

  /**
   * No duplicate guard: the same resolution applied twice in the loser round
   * lists the actor twice and counts two losers, where the server's engine
   * would refuse the second (its terminal-status and `some` checks).
   */
  lemma MockSettleTwiceListsTwice(s: RoomState, index: nat, actor: Player, m: seq<real>, d: seq<nat>)
    requires |s.players| > 0 && index < |s.players| && ValidMultipliers(m) && DrawsFor(LoserRound, d)
    requires s.phase == LoserRound && s.losersFound + 1 < s.config.numLosers
    ensures var r1 := MockSettled(s, true, index, actor, true, m, d).0;
      var r2 := MockSettled(r1, true, index, actor, true, m, d).0;
      var p := s.players[index].(status := Eliminated);
      && r2.losersFound == s.losersFound + 2
      && r2.results.losers == s.results.losers + [p, p]
  {
    var s0 := s.(turnResult := None);
    var r1 := MockSettled(s, true, index, actor, true, m, d).0;
    var p := s.players[index].(status := Eliminated);
    var m1 := Marked(s0, true, index, actor, Eliminated);
    assert r1 == MockAdvanced(m1, m, d);
    assert r1.players[index] == p;
    assert r1.results.losers == s.results.losers + [p];
    assert r1.players[index].(status := Eliminated) == p;
    assert s.results.losers + [p] + [p] == s.results.losers + [p, p];
  }

  /** The server's engine, given the same repeated hit, appends the actor only once. */
  lemma ServerSettleTwiceListsOnce(s: RoomState, m: seq<real>, d: seq<nat>)
    requires s.currentTurnIndex < |s.players| && ValidMultipliers(m) && DrawsFor(WinnerRound, d)
    requires s.phase == LoserRound && !IsTerminal(s.players[s.currentTurnIndex].status)
    requires !ListsId(s.results.losers, s.players[s.currentTurnIndex].id)
    requires s.losersFound + 1 < s.config.numLosers
    ensures var r1 := ResolvedTurn(s, true, m, d);
      var again := r1.(currentTurnIndex := s.currentTurnIndex);
      ResolvedTurn(again, true, m, d) == again
  {
    var r1 := ResolvedTurn(s, true, m, d);
    ResolvedTurnEffects(s, true, m, d);
    assert r1.players[s.currentTurnIndex].status == Eliminated;
  }

  /**
   * No skip after a phase shift: the winner round starts at seat 0 even if that
   * player is already ELIMINATED; the server's engine scans to a live player.
   */
  lemma MockShiftMayStartOnEliminated(s: RoomState, m: seq<real>, d: seq<nat>)
    requires |s.players| > 1 && ValidMultipliers(m) && DrawsFor(WinnerRound, d)
    requires s.players[0].status == Eliminated && !IsTerminal(s.players[1].status)
    ensures MockShifted(s, WinnerRound, m, d).currentTurnIndex == 0
    ensures TransitionedTo(s, WinnerRound, m, d).currentTurnIndex != 0
  {
    var t := s.(phase := WinnerRound, currentTurnIndex := 0);
    ValidActorIndexIsLive(t.players, 0);
  }

  /** `startGame` keeps the previous game's counters and lists; the server's resets them. */
  lemma MockStartKeepsCounters(s: RoomState, m: seq<real>, d: seq<nat>)
    requires |s.players| > 0 && ValidMultipliers(m) && DrawsFor(LoserRound, d)
    ensures var r := MockStarted(s, m, d);
      && r.losersFound == s.losersFound && r.winnersFound == s.winnersFound && r.results == s.results
      && r.phase == LoserRound && r.currentTurnIndex == 0
      && (forall i :: 0 <= i < |r.players| ==> r.players[i] == s.players[i].(status := Playing))
    ensures var r := StartedGame(s, m, d);
      r.losersFound == 0 && r.winnersFound == 0 && r.results == NoOutcomes
  {
    StartedGameFacts(s, m, d);
  }

  /** The mock's advance lands on a live player whenever one exists. */
  lemma MockAdvancedLandsOnLive(s: RoomState, m: seq<real>, d: seq<nat>)
    requires |s.players| > 0 && ValidMultipliers(m) && DrawsFor(s.phase, d)
    requires exists j :: 0 <= j < |s.players| && !IsTerminal(s.players[j].status)
    ensures var r := MockAdvanced(s, m, d);
      r.currentTurnIndex < |r.players| && !IsTerminal(r.players[r.currentTurnIndex].status)
  {
    ValidActorIndexIsLive(s.players, (s.currentTurnIndex + 1) % |s.players|);
  }

  // ------------------------------------------------------------ the service

  class MockGameService {
    var room: Room?
    var playerId: string
    var nickname: string

    /** A held room always has a player at the turn index (players are only ever appended). */
    predicate Valid()
      reads this, room
    {
      room != null ==> Seated(room.State())
    }

    /** The player id `'p-' + Date.now()` is an input. */
    constructor (playerId: string)
      ensures Valid() && room == null && this.playerId == playerId && nickname == "PLAYER"
    {
      room := null;
      this.playerId := playerId;
      nickname := "PLAYER";
    }

    /** This client's own player record. */
    function Me(isHost: bool, avatarId: int): Player
      reads this
    {
      Player(Some(playerId), None, nickname, isHost, Waiting, avatarId, None)
    }

    /** `createRoom`: hold a new LOBBY room with this client as its only player and host. */
    method CreateRoom(config: Config, avatarId: int)
      modifies this
      ensures Valid()
      ensures room != null && fresh(room)
      ensures room.State() == LobbyRoom(config, Me(true, avatarId))
      ensures playerId == old(playerId) && nickname == old(nickname)
    {
      var created := new Room(LobbyRoom(config, Me(true, avatarId)));
      room := created;
    }

    /**
     * `joinRoom`: for the held room's code, reject a wrong password before a full
     * table, leaving the room as it was, or append this client as a WAITING
     * non-host; for any other code, replace the held room by a made-up one.
     */
    method JoinRoom(code: string, password: Option<string>, avatarId: int) returns (err: Option<JoinError>)
      requires Valid()
      modifies this, room
      ensures Valid()
      ensures playerId == old(playerId) && nickname == old(nickname)
      ensures old(room) != null && old(room.config.roomCode) == code ==>
        && room == old(room)
        && err == JoinRejection(room.config, old(|room.players|), password)
        && (err.Some? ==> unchanged(room))
        && (err.None? ==> room.State() == old(room.State()).(players := old(room.players) + [Me(false, avatarId)]))
      ensures !(old(room) != null && old(room.config.roomCode) == code) ==>
        err.None? && room != null && fresh(room) && room.State() == FakeRoom(code, Me(false, 3))
    {
      if room != null && room.config.roomCode == code {
        if PasswordRequired(room.config) && room.config.password != password {
          return Some(WrongPassword);
        }
        if |room.players| >= room.config.maxPlayers {
          return Some(RoomFull);
        }
        room.players := room.players + [Me(false, avatarId)];
        return None;
      }
      var fake := new Room(FakeRoom(code, Me(false, 3)));
      room := fake;
      return None;
    }

    /** `leaveRoom`: drop the held room. */
    method LeaveRoom()
      modifies this
      ensures Valid() && room == null
      ensures playerId == old(playerId) && nickname == old(nickname)
    {
      room := null;
    }

    /** `startGame`: see `MockStarted`; nothing without a room. */
    method StartGame(m: seq<real>, d: seq<nat>)
      requires Valid() && ValidMultipliers(m) && DrawsFor(LoserRound, d)
      modifies room
      ensures Valid()
      ensures room != null ==> room.State() == MockStarted(old(room.State()), m, d)
    {
      if room == null {
        return;
      }
      room.phase := LoserRound;
      ghost var ps := room.players;
      var i := 0;
      while i < |room.players|
        invariant room != null && 0 <= i <= |room.players| == |ps|
        invariant forall k :: 0 <= k < i ==> room.players[k] == ps[k].(status := Playing)
        invariant forall k :: i <= k < |ps| ==> room.players[k] == ps[k]
        invariant room.State() == old(room.State()).(phase := LoserRound, players := room.players)
      {
        room.players := room.players[i := room.players[i].(status := Playing)];
        i := i + 1;
      }
      assert room.players == AllPlaying(ps);
      room.currentTurnIndex := 0;
      InitTurn(m, d);
    }

    /** `initTurn`: see `InitTurned`. */
    method InitTurn(m: seq<real>, d: seq<nat>)
      requires Valid() && ValidMultipliers(m) && (room != null ==> DrawsFor(room.phase, d))
      modifies room
      ensures Valid()
      ensures room != null ==> room.State() == InitTurned(old(room.State()), m, d)
    {
      if room == null {
        return;
      }
      room.currentProb := if room.phase == LoserRound then LoserRoundProb else WinnerRoundProb;
      var ws := PlaceTraps(room.phase, m, d);
      room.currentWires := Some(ws);
      room.turnResult := None;
    }

    /** `spin`: the trial against the current odds, handed to `handleTurnResult`. */
    method Spin(draw: real) returns (pending: Option<MockPending>)
      requires Valid()
      modifies room
      ensures Valid()
      ensures room == null ==> pending.None?
      ensures room != null ==>
        var hit := SpinHits(old(room.currentProb), draw);
        && room.State() == old(room.State()).(turnResult := Some(hit))
        && pending == Some(MockPending(room, room.currentTurnIndex, room.players[room.currentTurnIndex], hit))
    {
      if room == null {
        return None;
      }
      var hit := draw < OrDefault(room.currentProb);
      pending := HandleTurnResult(hit);
    }

    /**
     * `cutWire`: nothing for a missing room or wire row, an unknown id or a cut
     * wire; otherwise the wire is cut, and a trap goes to `handleTurnResult`
     * while a safe wire raises the odds.
     */
    method CutWire(wireId: int) returns (pending: Option<MockPending>)
      requires Valid()
      modifies room
      ensures Valid()
      ensures room == null ==> pending.None?
      ensures room != null ==>
        var (hit, cut) := WireCut(old(room.State()), wireId);
        && (hit.None? ==> pending.None? && unchanged(room))
        && (hit == Some(false) ==> pending.None? && room.State() == cut)
        && (hit == Some(true) ==>
              room.State() == cut.(turnResult := Some(true))
              && pending == Some(MockPending(room, room.currentTurnIndex, room.players[room.currentTurnIndex], true)))
    {
      if room == null || room.currentWires.None? {
        return None;
      }
      var ws := room.currentWires.value;
      var found := FindWire(ws, wireId);
      if found.None? || ws[found.value].status == Cut {
        assert CuttableAt(ws, wireId).None?;
        return None;
      }
      var j := found.value;
      assert CuttableAt(ws, wireId) == Some(j);
      room.currentWires := Some(MarkCut(ws, j));
      if ws[j].isBomb {
        pending := HandleTurnResult(true);
      } else {
        room.currentProb := RaisedProb(room.currentProb, ws[j].multiplier);
        pending := None;
      }
    }

    /** The immediate half of `handleTurnResult`: reveal the result and capture the actor. */
    method HandleTurnResult(hit: bool) returns (pending: Option<MockPending>)
      requires Valid()
      modifies room
      ensures Valid()
      ensures room == null ==> pending.None?
      ensures room != null ==>
        && room.State() == old(room.State()).(turnResult := Some(hit))
        && pending == Some(MockPending(room, room.currentTurnIndex, room.players[room.currentTurnIndex], hit))
    {
      if room == null {
        return None;
      }
      room.turnResult := Some(hit);
      pending := Some(MockPending(room, room.currentTurnIndex, room.players[room.currentTurnIndex], hit));
    }

    /**
     * The delayed half of `handleTurnResult`, against whatever room is held when
     * it fires; returns the phase shift it schedules, if any.
     */
    method Settle(p: MockPending, m: seq<real>, d: seq<nat>) returns (shift: Option<Phase>)
      requires Valid() && ValidMultipliers(m) && (room != null ==> DrawsFor(room.phase, d))
      requires room != null && room == p.origin ==> p.index < |room.players|
      modifies room
      ensures Valid()
      ensures room == null ==> shift.None?
      ensures room != null ==>
        (room.State(), shift) == MockSettled(old(room.State()), room == p.origin, p.index, p.actor, p.hit, m, d)
    {
      if room == null {
        return None;
      }
      room.turnResult := None;
      var same := room == p.origin;
      if room.phase == LoserRound {
        if p.hit {
          Mark(same, p.index, p.actor, Eliminated);
        }
        if room.losersFound >= room.config.numLosers {
          return Some(WinnerRound);
        }
      } else if room.phase == WinnerRound {
        if p.hit {
          Mark(same, p.index, p.actor, Winner);
        }
        if room.winnersFound >= room.config.numWinners {
          return Some(Results);
        }
      }
      AdvanceTurn(m, d);
      return None;
    }

    /** Give the captured actor a terminal status, count and list it. */
    method Mark(same: bool, index: nat, actor: Player, status: PlayerStatus)
      requires Valid() && room != null && (same ==> index < |room.players|)
      modifies room
      ensures Valid()
      ensures room.State() == Marked(old(room.State()), same, index, actor, status)
    {
      var placed := (if same then room.players[index] else actor).(status := status);
      if same {
        room.players := room.players[index := placed];
      }
      if status == Eliminated {
        room.losersFound := room.losersFound + 1;
        room.results := room.results.(losers := room.results.losers + [placed]);
      } else {
        room.winnersFound := room.winnersFound + 1;
        room.results := room.results.(winners := room.results.winners + [placed]);
      }
    }

    /** `advanceTurn`: see `MockAdvanced`. */
    method AdvanceTurn(m: seq<real>, d: seq<nat>)
      requires Valid() && ValidMultipliers(m) && (room != null ==> DrawsFor(room.phase, d))
      modifies room
      ensures Valid()
      ensures room != null ==> room.State() == MockAdvanced(old(room.State()), m, d)
    {
      if room == null {
        return;
      }
      var n := |room.players|;
      var nextIndex := (room.currentTurnIndex + 1) % n;
      ghost var st := nextIndex;
      var loopCount := 0;
      while IsTerminal(room.players[nextIndex].status) && loopCount < n
        invariant room.State() == old(room.State())
        invariant 0 <= loopCount <= n == |room.players| && st < n
        invariant nextIndex == Ahead(st, loopCount, n)
        invariant LiveOffset(room.players, st, loopCount) == LiveOffset(room.players, st, 0)
        decreases n - loopCount
      {
        AheadStep(st, loopCount, n);
        nextIndex := (nextIndex + 1) % n;
        loopCount := loopCount + 1;
      }
      room.currentTurnIndex := nextIndex;
      InitTurn(m, d);
    }

    /** The delayed half of `transitionPhase`: see `MockShifted`. */
    method ShiftPhase(phase: Phase, m: seq<real>, d: seq<nat>)
      requires Valid() && ValidMultipliers(m) && (phase != Results ==> DrawsFor(phase, d))
      modifies room
      ensures Valid()
      ensures room != null ==> room.State() == MockShifted(old(room.State()), phase, m, d)
    {
      if room == null {
        return;
      }
      room.phase := phase;
      if phase == Results {
        room.results := room.results.(survivors := Survivors(room.players));
      } else {
        room.currentTurnIndex := 0;
        InitTurn(m, d);
      }
    }

    /**
     * The capacity check of `botLoop`: a bot joins only in LOBBY, only while the
     * table is not full, and only when the coin `Math.random()` is at most 0.7.
     */
    method BotJoin(coin: real, bot: Player) returns (joined: bool)
      requires Valid()
      modifies room
      ensures Valid()
      ensures joined <==> room != null && old(room.phase) == Lobby && old(|room.players|) < room.config.maxPlayers && coin <= 0.7
      ensures joined ==> room.State() == old(room.State()).(players := old(room.players) + [bot])
      ensures joined ==> |room.players| <= room.config.maxPlayers
      ensures !joined ==> room == null || unchanged(room)
    {
      if room == null {
        return false;
      }
      if room.phase == Lobby && |room.players| < room.config.maxPlayers {
        if coin > 0.7 {
          return false;
        }
        room.players := room.players + [bot];
        return true;
      }
      return false;
    }
  }
}
