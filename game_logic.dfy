/**
 * The multiplayer engine as it runs: each step mutates a `Room` object in place
 * and is proved to leave exactly the value the matching function of module
 * GameRules describes, so the lemmas there apply to the live room.
 */
module GameLogic {
  import opened Wrappers
  import opened Wires
  import opened RoomTypes
  import opened GameRules

  /** `startGame`: reset the round state, set every player PLAYING, then seed the loser round. */
  method StartGame(room: Room, m: seq<real>, d: seq<nat>)
    requires |room.players| > 0 && ValidMultipliers(m) && DrawsFor(LoserRound, d)
    modifies room
    ensures room.State() == StartedGame(old(room.State()), m, d)
    ensures OddsInRange(room.State())
  {
    StartedGameOddsInRange(room.State(), m, d);
    room.phase := LoserRound;
    room.currentTurnIndex := 0;
    room.losersFound := 0;
    room.winnersFound := 0;
    room.results := NoOutcomes;
    ghost var ps := room.players;
    var i := 0;
    while i < |room.players|
      invariant 0 <= i <= |room.players| == |ps|
      invariant forall k :: 0 <= k < i ==> room.players[k] == ps[k].(status := Playing)
      invariant forall k :: i <= k < |ps| ==> room.players[k] == ps[k]
      invariant room.State() == old(room.State()).(phase := LoserRound, currentTurnIndex := 0, losersFound := 0,
                                                   winnersFound := 0, results := NoOutcomes, players := room.players)
    {
      room.players := room.players[i := room.players[i].(status := Playing)];
      i := i + 1;
    }
    assert room.players == AllPlaying(ps);
    StartPhase(room, m, d);
  }

  /** Setting the trap flag of wire i of a seeded row is seeding with one more trap. */
  lemma ArmSeeded(m: seq<real>, traps: set<nat>, i: nat)
    requires i < |m|
    ensures var ws := SeedWires(m, traps);
      ws[i := ws[i].(isBomb := true)] == SeedWires(m, traps + {i})
  {
  }

  /**
   * The wire row of a new phase: six intact wires with multipliers from `m`, and
   * traps placed from the draws `d`. In the loser round a draw that hits a
   * position already trapped is drawn again until a second trap is placed.
   */
  method PlaceTraps(phase: Phase, m: seq<real>, d: seq<nat>) returns (ws: seq<Wire>)
    requires ValidMultipliers(m) && DrawsFor(phase, d)
    ensures ws == PhaseWires(phase, m, d)
  {
    ws := seq(WireCount, i requires 0 <= i < WireCount => Wire(i, Intact, false, m[i]));
    assert ws == SeedWires(m, {});
    if phase == LoserRound {
      ghost var second := NextDistinct(d, 1);
      var placed := 0;
      var k := 0;
      while placed < 2
        invariant 0 <= placed <= 2 && 0 <= k <= |d|
        invariant placed == 0 ==> k == 0 && ws == SeedWires(m, {})
        invariant placed == 1 ==> 1 <= k <= second && ws == SeedWires(m, {d[0]})
        invariant placed == 2 ==> ws == SeedWires(m, {d[0], d[second]})
        decreases 2 - placed, |d| - k
      {
        var idx := d[k];
        if !ws[idx].isBomb {
          ArmSeeded(m, if placed == 0 then {} else {d[0]}, idx);
          ws := ws[idx := ws[idx].(isBomb := true)];
          placed := placed + 1;
          if placed == 2 {
            assert {d[0]} + {idx} == {d[0], d[second]};
          } else {
            assert {} + {idx} == {d[0]};
          }
        }
        k := k + 1;
      }
    } else {
      var trap := d[0];
      ArmSeeded(m, {}, trap);
      ws := ws[trap := ws[trap].(isBomb := true)];
      assert {} + {trap} == {d[0]};
    }
  }

  /**
   * `startPhase`: the phase's base odds, a fresh wire row, then the scan to a
   * live actor and `prepareTurn`.
   */
  method StartPhase(room: Room, m: seq<real>, d: seq<nat>)
    requires |room.players| > 0 && ValidMultipliers(m) && DrawsFor(room.phase, d)
    modifies room
    ensures room.State() == StartedPhase(old(room.State()), m, d)
  {
    room.currentProb := if room.phase == LoserRound then LoserRoundProb else WinnerRoundProb;
    var ws := PlaceTraps(room.phase, m, d);
    room.currentWires := Some(ws);
    EnsureValidPlayer(room);
    PrepareTurn(room);
  }

  /** `prepareTurn`: clear the pending result for the new actor (message and clock are not modelled). */
  method PrepareTurn(room: Room)
    requires room.currentTurnIndex < |room.players|
    modifies room
    ensures room.State() == old(room.State()).(turnResult := None)
  {
    room.turnResult := None;
  }

  /** `handleSpin`: the trial `draw < (currentProb || 0.1)` for a draw in [0, 1). */
  method HandleSpin(room: Room, draw: real) returns (hit: bool)
    ensures hit <==> draw < (if room.currentProb == 0.0 then DefaultProb else room.currentProb)
    ensures hit == SpinHits(room.currentProb, draw)
  {
    hit := draw < OrDefault(room.currentProb);
  }

  /** `handleWireCut`: None rejects the cut; otherwise whether a trap was hit. */
  method HandleWireCut(room: Room, wireId: int) returns (hit: Option<bool>)
    modifies room
    ensures (hit, room.State()) == WireCut(old(room.State()), wireId)
    ensures hit.None? ==> unchanged(room)
    ensures OddsInRange(old(room.State())) ==> OddsInRange(room.State())
  {
    if OddsInRange(room.State()) {
      WireCutOddsInRange(room.State(), wireId);
    }
    if room.currentWires.None? {
      return None;
    }
    var ws := room.currentWires.value;
    var found := FindWire(ws, wireId);
    if found.None? || ws[found.value].status == Cut {
      assert CuttableAt(ws, wireId).None?;
      return None;
    }
    var j := found.value;
    assert CuttableAt(ws, wireId) == Some(j);
    ghost var s1 := old(room.State()).(currentWires := Some(MarkCut(ws, j)));
    room.currentWires := Some(MarkCut(ws, j));
    assert room.State() == s1;
    if ws[j].isBomb {
      hit := Some(true);
    } else {
      room.currentProb := RaisedProb(room.currentProb, ws[j].multiplier);
      hit := Some(false);
      assert room.State() == s1.(currentProb := RaisedProb(old(room.currentProb), ws[j].multiplier));
    }
  }

  /** `processTurnResult`: apply the outcome to the current actor, then shift phase or advance. */
  method ProcessTurnResult(room: Room, hit: bool, m: seq<real>, d: seq<nat>)
    requires room.currentTurnIndex < |room.players| && ValidMultipliers(m) && DrawsFor(WinnerRound, d)
    modifies room
    ensures room.State() == ResolvedTurn(old(room.State()), hit, m, d)
    ensures OddsInRange(old(room.State())) ==> OddsInRange(room.State())
  {
    if OddsInRange(room.State()) {
      ResolvedTurnOddsInRange(room.State(), hit, m, d);
    }
    var i := room.currentTurnIndex;
    var player := room.players[i];
    if player.status == Eliminated || player.status == Winner {
      return;
    }
    if room.phase == LoserRound {
      if hit {
        if ListsId(room.results.losers, player.id) {
          return;
        }
        PlaceActor(room, Eliminated);
      }
      if room.losersFound >= room.config.numLosers {
        TransitionPhase(room, WinnerRound, m, d);
        return;
      }
    } else if room.phase == WinnerRound {
      if hit {
        if ListsId(room.results.winners, player.id) {
          return;
        }
        PlaceActor(room, Winner);
      }
      if room.winnersFound >= room.config.numWinners {
        TransitionPhase(room, Results, m, d);
        return;
      }
    }
    var transitioning := (room.phase == LoserRound && hit && room.losersFound >= room.config.numLosers) ||
                         (room.phase == WinnerRound && hit && room.winnersFound >= room.config.numWinners);
    if room.phase != Results && !transitioning {
      AdvanceTurn(room);
    }
  }

  /** The actor's new terminal status, its count and its entry in the results, as `processTurnResult` sets them. */
  method PlaceActor(room: Room, status: PlayerStatus)
    requires room.currentTurnIndex < |room.players| && (status == Eliminated || status == Winner)
    modifies room
    ensures room.State() == Placed(old(room.State()), status)
  {
    var i := room.currentTurnIndex;
    var placed := room.players[i].(status := status);
    room.players := room.players[i := placed];
    if status == Eliminated {
      room.losersFound := room.losersFound + 1;
      room.results := room.results.(losers := room.results.losers + [placed]);
    } else {
      room.winnersFound := room.winnersFound + 1;
      room.results := room.results.(winners := room.results.winners + [placed]);
    }
  }

  /**
   * `ensureValidPlayer`: reset an out-of-range index to 0, then step past
   * ELIMINATED and WINNER players, giving up after one full loop.
   */
  method EnsureValidPlayer(room: Room)
    requires |room.players| > 0
    modifies room
    ensures room.State() == old(room.State()).(currentTurnIndex := ValidActorIndex(old(room.players), old(room.currentTurnIndex)))
  {
    var n := |room.players|;
    var loopCount := 0;
    if room.currentTurnIndex >= n {
      room.currentTurnIndex := 0;
    }
    ghost var st := room.currentTurnIndex;
    assert st == ScanStart(room.players, old(room.currentTurnIndex));
    while IsTerminal(room.players[room.currentTurnIndex].status) && loopCount < n
      invariant room.State() == old(room.State()).(currentTurnIndex := room.currentTurnIndex)
      invariant 0 <= loopCount <= n == |room.players| && st < n
      invariant room.currentTurnIndex == Ahead(st, loopCount, n)
      invariant LiveOffset(room.players, st, loopCount) == LiveOffset(room.players, st, 0)
      decreases n - loopCount
    {
      AheadStep(st, loopCount, n);
      room.currentTurnIndex := (room.currentTurnIndex + 1) % n;
      loopCount := loopCount + 1;
    }
  }

  /** `advanceTurn`: the next index modulo the table size, the scan, then `prepareTurn`. */
  method AdvanceTurn(room: Room)
    requires |room.players| > 0
    modifies room
    ensures room.State() == AdvancedTurn(old(room.State()))
  {
    room.currentTurnIndex := (room.currentTurnIndex + 1) % |room.players|;
    EnsureValidPlayer(room);
    PrepareTurn(room);
  }

  /** `transitionPhase`: RESULTS records the survivors; another phase restarts at index 0 via `startPhase`. */
  method TransitionPhase(room: Room, phase: Phase, m: seq<real>, d: seq<nat>)
    requires |room.players| > 0 && ValidMultipliers(m) && (phase != Results ==> DrawsFor(phase, d))
    modifies room
    ensures room.State() == TransitionedTo(old(room.State()), phase, m, d)
  {
    if phase == Results {
      room.phase := phase;
      room.results := room.results.(survivors := Survivors(room.players));
    } else {
      room.phase := phase;
      room.currentTurnIndex := 0;
      StartPhase(room, m, d);
    }
  }
}
