/**
 * The turn/phase rules of the multiplayer engine as functions on room values.
 * Each function gives the room value one engine step leaves behind; the methods
 * in module GameLogic are proved to produce exactly these values, and the lemmas
 * here state what the rules guarantee.
 */
module GameRules {
  import opened Wrappers
  import opened Wires
  import opened RoomTypes

  const WireCount: nat := 6
  const LoserRoundProb: real := 0.10
  const WinnerRoundProb: real := 0.15
  /** The fallback of `room.currentProb || 0.1`: an unset or zero probability counts as 0.1. */
  const DefaultProb: real := 0.1

  function OrDefault(p: real): real
  {
    if p == 0.0 then DefaultProb else p
  }

  // ---------------------------------------------------------------- random inputs

  /** The per-wire multipliers `1.2 + Math.random() * 0.5`. */
  predicate ValidMultipliers(m: seq<real>)
  {
    |m| == WireCount && forall i :: 0 <= i < |m| ==> 1.2 <= m[i] < 1.7
  }

  /** Trap positions `Math.floor(Math.random() * 6)`, in the order they are drawn. */
  predicate DrawsInRange(d: seq<nat>)
  {
    |d| > 0 && forall i :: 0 <= i < |d| ==> d[i] < WireCount
  }

  /** The two-trap loop ends only once a position other than the first is drawn. */
  predicate HasSecondPosition(d: seq<nat>)
  {
    exists j :: 0 < j < |d| && d[j] != d[0]
  }

  /** Draws enough for seeding a phase: one position, or two distinct ones in the loser round. */
  predicate DrawsFor(phase: Phase, d: seq<nat>)
  {
    DrawsInRange(d) && (phase == LoserRound ==> HasSecondPosition(d))
  }

  /** The first draw at or after k that differs from the first draw. */
  function NextDistinct(d: seq<nat>, k: nat): (j: nat)
    requires 0 < k && |d| > 0
    requires exists j :: k <= j < |d| && d[j] != d[0]
    ensures k <= j < |d| && d[j] != d[0]
    ensures forall i :: k <= i < j ==> d[i] == d[0]
    decreases |d| - k
  {
    if d[k] != d[0] then k else NextDistinct(d, k + 1)
  }

  /** Where the traps go: the first draw, and in the loser round also the next different draw. */
  function TrapPositions(phase: Phase, d: seq<nat>): set<nat>
    requires DrawsFor(phase, d)
  {
    if phase == LoserRound then {d[0], d[NextDistinct(d, 1)]} else {d[0]}
  }

  /** The wire set a phase is seeded with. */
  function PhaseWires(phase: Phase, m: seq<real>, d: seq<nat>): seq<Wire>
    requires ValidMultipliers(m) && DrawsFor(phase, d)
  {
    SeedWires(m, TrapPositions(phase, d))
  }

  /** Six intact wires with ids 0..5, two traps at distinct positions in the loser round, one otherwise. */
  lemma PhaseWiresFacts(phase: Phase, m: seq<real>, d: seq<nat>)
    requires ValidMultipliers(m) && DrawsFor(phase, d)
    ensures var ws := PhaseWires(phase, m, d);
      && |ws| == WireCount
      && (forall i :: 0 <= i < |ws| ==> ws[i].id == i && ws[i].status == Intact && ws[i].multiplier == m[i])
      && BombCount(ws) == (if phase == LoserRound then 2 else 1)
      && (phase == LoserRound ==> exists a, b :: 0 <= a < b < |ws| && ws[a].isBomb && ws[b].isBomb)
  {
    var t := TrapPositions(phase, d);
    var ws := PhaseWires(phase, m, d);
    if phase == LoserRound {
      var a, b := d[0], d[NextDistinct(d, 1)];
      assert t == {a, b} && a != b;
      assert |t| == 2;
      if a < b {
        assert ws[a].isBomb && ws[b].isBomb;
      } else {
        assert ws[b].isBomb && ws[a].isBomb;
      }
    } else {
      assert |t| == 1;
    }
    SeededBombCount(m, t);
  }

  // ---------------------------------------------------------------- the turn scan

  /** The index t steps after `start` around a table of n seats: `(start + t) % n`, written without `%`. */
  function Ahead(start: nat, t: nat, n: nat): (r: nat)
    requires start < n && t <= n
    ensures r < n
  {
    if start + t < n then start + t else start + t - n
  }

  /** One more step around the table is one more `(i + 1) % n`. */
  lemma AheadStep(start: nat, t: nat, n: nat)
    requires start < n && t < n
    ensures (Ahead(start, t, n) + 1) % n == Ahead(start, t + 1, n)
  {
    var a := Ahead(start, t, n);
    if a + 1 < n {
      assert (a + 1) % n == a + 1;
    } else {
      assert a + 1 == n;
      assert (a + 1) % n == 0;
    }
  }

  /** Every seat is some number of steps ahead of `start`. */
  lemma AheadCovers(start: nat, j: nat, n: nat)
    requires start < n && j < n
    ensures var t := if j >= start then j - start else j + n - start;
      t < n && Ahead(start, t, n) == j
  {
  }

  /**
   * The bounded scan of `ensureValidPlayer`: the number of steps taken from `start`,
   * stopping at the first player who is not terminal or after one full loop.
   */
  function LiveOffset(ps: seq<Player>, start: nat, k: nat): (r: nat)
    requires start < |ps| && k <= |ps|
    ensures k <= r <= |ps|
    ensures forall t :: k <= t < r ==> IsTerminal(ps[Ahead(start, t, |ps|)].status)
    ensures r < |ps| ==> !IsTerminal(ps[Ahead(start, r, |ps|)].status)
    decreases |ps| - k
  {
    if k == |ps| || !IsTerminal(ps[Ahead(start, k, |ps|)].status) then k
    else LiveOffset(ps, start, k + 1)
  }

  /** An out-of-range index is first reset to 0. */
  function ScanStart(ps: seq<Player>, i: nat): (st: nat)
    requires |ps| > 0
    ensures st < |ps|
    ensures i < |ps| ==> st == i
  {
    if i >= |ps| then 0 else i
  }

  /** The index `ensureValidPlayer` leaves `currentTurnIndex` at. */
  function ValidActorIndex(ps: seq<Player>, i: nat): (r: nat)
    requires |ps| > 0
    ensures r < |ps|
  {
    var st := ScanStart(ps, i);
    Ahead(st, LiveOffset(ps, st, 0), |ps|)
  }

  /** The scan stops after at most |ps| steps, skipping only terminal players. */
  lemma ValidActorIndexSkipsOnlyTerminal(ps: seq<Player>, i: nat)
    requires |ps| > 0
    ensures var st := ScanStart(ps, i);
      exists steps :: 0 <= steps <= |ps|
        && ValidActorIndex(ps, i) == Ahead(st, steps, |ps|)
        && (forall t :: 0 <= t < steps ==> IsTerminal(ps[Ahead(st, t, |ps|)].status))
  {
    var st := ScanStart(ps, i);
    var steps := LiveOffset(ps, st, 0);
    assert ValidActorIndex(ps, i) == Ahead(st, steps, |ps|);
  }

  /** Whenever some player is not terminal, the scan ends on a player who is not terminal. */
  lemma ValidActorIndexIsLive(ps: seq<Player>, i: nat)
    requires |ps| > 0
    requires exists j :: 0 <= j < |ps| && !IsTerminal(ps[j].status)
    ensures !IsTerminal(ps[ValidActorIndex(ps, i)].status)
  {
    var st := ScanStart(ps, i);
    var j :| 0 <= j < |ps| && !IsTerminal(ps[j].status);
    // j lies fewer than |ps| steps ahead, so the scan stops before a full loop
    AheadCovers(st, j, |ps|);
  }

  /** A scan that starts on a live player does not move. */
  lemma ValidActorIndexStaysOnLive(ps: seq<Player>, i: nat)
    requires i < |ps| && !IsTerminal(ps[i].status)
    ensures ValidActorIndex(ps, i) == i
  {
  }

  // ---------------------------------------------------------------- engine steps

  /** `startPhase`: phase base probability, fresh wires, scan to a live actor, clear the turn result. */
  function StartedPhase(s: RoomState, m: seq<real>, d: seq<nat>): RoomState
    requires |s.players| > 0 && ValidMultipliers(m) && DrawsFor(s.phase, d)
  {
    s.(currentProb := if s.phase == LoserRound then LoserRoundProb else WinnerRoundProb,
       currentWires := Some(PhaseWires(s.phase, m, d)),
       currentTurnIndex := ValidActorIndex(s.players, s.currentTurnIndex),
       turnResult := None)
  }

  function AllPlaying(ps: seq<Player>): seq<Player>
  {
    seq(|ps|, i requires 0 <= i < |ps| => ps[i].(status := Playing))
  }

  /** `startGame`: reset phase, index, counters, results and statuses, then seed the loser round. */
  function StartedGame(s: RoomState, m: seq<real>, d: seq<nat>): RoomState
    requires |s.players| > 0 && ValidMultipliers(m) && DrawsFor(LoserRound, d)
  {
    StartedPhase(s.(phase := LoserRound, currentTurnIndex := 0, losersFound := 0, winnersFound := 0,
                    results := NoOutcomes, players := AllPlaying(s.players)), m, d)
  }

  /** `advanceTurn`: step to the next index, scan to a live actor, clear the turn result. */
  function AdvancedTurn(s: RoomState): RoomState
    requires |s.players| > 0
  {
    s.(currentTurnIndex := ValidActorIndex(s.players, (s.currentTurnIndex + 1) % |s.players|),
       turnResult := None)
  }

  /** `players.filter(...)` keeping PLAYING, SAFE and WAITING players, in order. */
  function Survivors(ps: seq<Player>): (r: seq<Player>)
    ensures |r| <= |ps|
    ensures forall p :: p in r <==> p in ps && IsSurvivorStatus(p.status)
  {
    if ps == [] then []
    else (if IsSurvivorStatus(ps[0].status) then [ps[0]] else []) + Survivors(ps[1..])
  }

  /** `transitionPhase`: RESULTS records the survivors; any other phase restarts at index 0. */
  function TransitionedTo(s: RoomState, phase: Phase, m: seq<real>, d: seq<nat>): RoomState
    requires |s.players| > 0 && ValidMultipliers(m) && (phase != Results ==> DrawsFor(phase, d))
  {
    if phase == Results then
      s.(phase := Results, results := s.results.(survivors := Survivors(s.players)))
    else
      StartedPhase(s.(phase := phase, currentTurnIndex := 0), m, d)
  }

  /** The actor given a terminal status, counted and appended to the matching list. */
  function Placed(s: RoomState, status: PlayerStatus): RoomState
    requires s.currentTurnIndex < |s.players|
  {
    var i := s.currentTurnIndex;
    var p := s.players[i].(status := status);
    if status == Eliminated then
      s.(players := s.players[i := p], losersFound := s.losersFound + 1,
         results := s.results.(losers := s.results.losers + [p]))
    else
      s.(players := s.players[i := p], winnersFound := s.winnersFound + 1,
         results := s.results.(winners := s.results.winners + [p]))
  }

  /** `processTurnResult`: apply a hit or a miss to the current actor. */
  function ResolvedTurn(s: RoomState, hit: bool, m: seq<real>, d: seq<nat>): RoomState
    requires s.currentTurnIndex < |s.players| && ValidMultipliers(m) && DrawsFor(WinnerRound, d)
  {
    var p := s.players[s.currentTurnIndex];
    if IsTerminal(p.status) then s
    else if s.phase == LoserRound then
      if hit && ListsId(s.results.losers, p.id) then s
      else
        var s1 := if hit then Placed(s, Eliminated) else s;
        if s1.losersFound >= s.config.numLosers then TransitionedTo(s1, WinnerRound, m, d)
        else AdvancedTurn(s1)
    else if s.phase == WinnerRound then
      if hit && ListsId(s.results.winners, p.id) then s
      else
        var s1 := if hit then Placed(s, Winner) else s;
        if s1.winnersFound >= s.config.numWinners then TransitionedTo(s1, Results, m, d)
        else AdvancedTurn(s1)
    else if s.phase == Results then s
    else AdvancedTurn(s)
  }

  /** `handleSpin`: one Bernoulli trial of the draw against the current probability. */
  function SpinHits(prob: real, draw: real): bool
  {
    draw < OrDefault(prob)
  }

  /** Safe cut: the odds multiplied by the wire's multiplier, capped at 0.99. */
  function RaisedProb(prob: real, multiplier: real): real
  {
    CapProb(OrDefault(prob) * multiplier)
  }

  /** `handleWireCut`: None for a rejected cut, otherwise whether a trap was hit, and the room after. */
  function WireCut(s: RoomState, wireId: int): (Option<bool>, RoomState)
  {
    if s.currentWires.None? then (None, s)
    else
      var ws := s.currentWires.value;
      match CuttableAt(ws, wireId)
      case None => (None, s)
      case Some(j) =>
        var s1 := s.(currentWires := Some(MarkCut(ws, j)));
        if ws[j].isBomb then (Some(true), s1)
        else (Some(false), s1.(currentProb := RaisedProb(s.currentProb, ws[j].multiplier)))
  }

  // ---------------------------------------------------------------- properties

  /** Counters equal the list lengths, and neither list names an id twice. */
  predicate Tallied(s: RoomState)
  {
    && s.losersFound == |s.results.losers|
    && s.winnersFound == |s.results.winners|
    && DistinctIds(s.results.losers)
    && DistinctIds(s.results.winners)
  }

  /**
   * Results agree with the players still in the room: ids are unique, a listed
   * loser (winner) still present is ELIMINATED (WINNER), and no id is in both lists.
   */
  predicate Consistent(s: RoomState)
  {
    && DistinctIds(s.players)
    && (forall l, k ::
          (0 <= l < |s.results.losers| && 0 <= k < |s.players| && s.players[k].id == s.results.losers[l].id)
          ==> s.players[k].status == Eliminated)
    && (forall w, k ::
          (0 <= w < |s.results.winners| && 0 <= k < |s.players| && s.players[k].id == s.results.winners[w].id)
          ==> s.players[k].status == Winner)
    && (forall l, w :: 0 <= l < |s.results.losers| && 0 <= w < |s.results.winners| ==>
          s.results.losers[l].id != s.results.winners[w].id)
  }

  /** After startGame: loser round, index on the first player, everything reset, everyone PLAYING. */
  lemma StartedGameFacts(s: RoomState, m: seq<real>, d: seq<nat>)
    requires |s.players| > 0 && ValidMultipliers(m) && DrawsFor(LoserRound, d)
    ensures var r := StartedGame(s, m, d);
      && r.config == s.config
      && r.phase == LoserRound
      && r.currentTurnIndex == 0
      && r.losersFound == 0 && r.winnersFound == 0
      && r.results == NoOutcomes
      && |r.players| == |s.players|
      && (forall i :: 0 <= i < |r.players| ==> r.players[i] == s.players[i].(status := Playing))
      && r.currentProb == LoserRoundProb
      && r.currentWires == Some(PhaseWires(LoserRound, m, d))
      && r.turnResult == None
      && Tallied(r)
      && (DistinctIds(s.players) ==> Consistent(r))
  {
    ValidActorIndexStaysOnLive(AllPlaying(s.players), 0);
  }

  /** Every engine step keeps the counters equal to the list lengths and the lists free of repeats. */
  lemma ResolvedTurnKeepsTally(s: RoomState, hit: bool, m: seq<real>, d: seq<nat>)
    requires s.currentTurnIndex < |s.players| && ValidMultipliers(m) && DrawsFor(WinnerRound, d)
    requires Tallied(s)
    ensures Tallied(ResolvedTurn(s, hit, m, d))
  {
    var p := s.players[s.currentTurnIndex];
    if !IsTerminal(p.status) && hit {
      if s.phase == LoserRound && !ListsId(s.results.losers, p.id) {
        AppendKeepsDistinct(s.results.losers, p.(status := Eliminated));
      } else if s.phase == WinnerRound && !ListsId(s.results.winners, p.id) {
        AppendKeepsDistinct(s.results.winners, p.(status := Winner));
      }
    }
  }

  lemma AppendKeepsDistinct(ps: seq<Player>, p: Player)
    requires DistinctIds(ps) && !ListsId(ps, p.id)
    ensures DistinctIds(ps + [p])
  {
    var qs := ps + [p];
    forall j, k | 0 <= j < k < |qs| ensures qs[j].id != qs[k].id {
      if k == |ps| {
        assert qs[j] == ps[j];
      }
    }
  }

  /** A resolution for an actor already ELIMINATED or WINNER changes nothing. */
  lemma ResolvedTurnIgnoresTerminalActor(s: RoomState, hit: bool, m: seq<real>, d: seq<nat>)
    requires s.currentTurnIndex < |s.players| && ValidMultipliers(m) && DrawsFor(WinnerRound, d)
    requires IsTerminal(s.players[s.currentTurnIndex].status)
    ensures ResolvedTurn(s, hit, m, d) == s
  {
  }

  /**
   * What one resolution does to statuses, counters and lists: a hit in a round
   * places the actor (ELIMINATED in the loser round, WINNER in the winner round),
   * counts and appends them in the same step; a miss changes none of these.
   */
  lemma ResolvedTurnEffects(s: RoomState, hit: bool, m: seq<real>, d: seq<nat>)
    requires s.currentTurnIndex < |s.players| && ValidMultipliers(m) && DrawsFor(WinnerRound, d)
    ensures var r := ResolvedTurn(s, hit, m, d);
      var i := s.currentTurnIndex;
      var p := s.players[i];
      && r.config == s.config
      && (!hit ==> r.players == s.players && r.losersFound == s.losersFound && r.winnersFound == s.winnersFound
                   && r.results.losers == s.results.losers && r.results.winners == s.results.winners)
      && (hit && !IsTerminal(p.status) && s.phase == LoserRound && !ListsId(s.results.losers, p.id) ==>
            r.players == s.players[i := p.(status := Eliminated)]
            && r.losersFound == s.losersFound + 1 && r.winnersFound == s.winnersFound
            && r.results.losers == s.results.losers + [p.(status := Eliminated)]
            && r.results.winners == s.results.winners)
      && (hit && !IsTerminal(p.status) && s.phase == WinnerRound && !ListsId(s.results.winners, p.id) ==>
            r.players == s.players[i := p.(status := Winner)]
            && r.winnersFound == s.winnersFound + 1 && r.losersFound == s.losersFound
            && r.results.winners == s.results.winners + [p.(status := Winner)]
            && r.results.losers == s.results.losers)
      && ((hit && (IsTerminal(p.status) || s.phase == Results ||
                   (s.phase == LoserRound && ListsId(s.results.losers, p.id)) ||
                   (s.phase == WinnerRound && ListsId(s.results.winners, p.id)))) ==> r == s)
  {
  }

  /**
   * Phase changes: reaching numLosers starts the winner round at the first live
   * player with fresh wires and no extra advance; reaching numWinners ends in
   * RESULTS with the PLAYING/SAFE/WAITING players as survivors; otherwise the
   * phase stays and the turn moves to the next live player.
   */
  lemma ResolvedTurnPhase(s: RoomState, hit: bool, m: seq<real>, d: seq<nat>)
    requires s.currentTurnIndex < |s.players| && ValidMultipliers(m) && DrawsFor(WinnerRound, d)
    requires !IsTerminal(s.players[s.currentTurnIndex].status)
    requires s.phase == LoserRound || s.phase == WinnerRound
    ensures var r := ResolvedTurn(s, hit, m, d);
      var p := s.players[s.currentTurnIndex];
      var listed := if s.phase == LoserRound then ListsId(s.results.losers, p.id) else ListsId(s.results.winners, p.id);
      && (hit && listed ==> r == s)
      && (s.phase == LoserRound && !(hit && listed) && r.losersFound >= s.config.numLosers ==>
            r.phase == WinnerRound
            && r.currentTurnIndex == ValidActorIndex(r.players, 0)
            && r.currentWires == Some(PhaseWires(WinnerRound, m, d))
            && r.currentProb == WinnerRoundProb && r.turnResult == None)
      && (s.phase == WinnerRound && !(hit && listed) && r.winnersFound >= s.config.numWinners ==>
            r.phase == Results
            && r.results.survivors == Survivors(r.players)
            && r.currentTurnIndex == s.currentTurnIndex)
      && (!(hit && listed) && r.phase == s.phase ==>
            r.currentTurnIndex == ValidActorIndex(r.players, (s.currentTurnIndex + 1) % |s.players|)
            && r.turnResult == None && r.currentWires == s.currentWires && r.currentProb == s.currentProb)
  {
  }

  /** After a resolution in a round, the turn index is on a live player whenever one exists. */
  lemma ResolvedTurnLandsOnLive(s: RoomState, hit: bool, m: seq<real>, d: seq<nat>)
    requires s.currentTurnIndex < |s.players| && ValidMultipliers(m) && DrawsFor(WinnerRound, d)
    requires !IsTerminal(s.players[s.currentTurnIndex].status)
    ensures var r := ResolvedTurn(s, hit, m, d);
      r.currentTurnIndex < |r.players| &&
      ((r.phase == LoserRound || r.phase == WinnerRound) &&
       (exists j :: 0 <= j < |r.players| && !IsTerminal(r.players[j].status)) ==>
         !IsTerminal(r.players[r.currentTurnIndex].status))
  {
    var r := ResolvedTurn(s, hit, m, d);
    if r != s && (r.phase == LoserRound || r.phase == WinnerRound) &&
       (exists j :: 0 <= j < |r.players| && !IsTerminal(r.players[j].status)) {
      ResolvedTurnPhase(s, hit, m, d);
      if r.phase == s.phase {
        ValidActorIndexIsLive(r.players, (s.currentTurnIndex + 1) % |s.players|);
      } else {
        ValidActorIndexIsLive(r.players, 0);
      }
    }
  }

  /** Resolutions keep `Consistent`: nobody is listed as both a loser and a winner. */
  lemma ResolvedTurnKeepsConsistent(s: RoomState, hit: bool, m: seq<real>, d: seq<nat>)
    requires s.currentTurnIndex < |s.players| && ValidMultipliers(m) && DrawsFor(WinnerRound, d)
    requires Consistent(s)
    ensures Consistent(ResolvedTurn(s, hit, m, d))
  {
    var i := s.currentTurnIndex;
    var p := s.players[i];
    var r := ResolvedTurn(s, hit, m, d);
    ResolvedTurnEffects(s, hit, m, d);
    if hit && !IsTerminal(p.status) &&
       ((s.phase == LoserRound && !ListsId(s.results.losers, p.id)) ||
        (s.phase == WinnerRound && !ListsId(s.results.winners, p.id))) {
      var st := if s.phase == LoserRound then Eliminated else Winner;
      var q := p.(status := st);
      assert r.players == s.players[i := q];
      // the actor is live, so no listed player shares the actor's id
      assert forall l :: 0 <= l < |s.results.losers| ==> s.results.losers[l].id != p.id;
      assert forall w :: 0 <= w < |s.results.winners| ==> s.results.winners[w].id != p.id;
      assert DistinctIds(r.players) by {
        forall j, k | 0 <= j < k < |r.players| ensures r.players[j].id != r.players[k].id {
          assert r.players[j].id == s.players[j].id && r.players[k].id == s.players[k].id;
        }
      }
    }
  }

  /**
   * There is no lock: a second resolution that arrives after the first one moved
   * the turn on is applied to the new current actor. With two live players A and B
   * and room for two losers, two back-to-back trap hits by A eliminate A and then B.
   */
  lemma SecondResolutionHitsNextActor(s: RoomState, m: seq<real>, d: seq<nat>)
    requires ValidMultipliers(m) && DrawsFor(WinnerRound, d)
    requires |s.players| == 2 && s.currentTurnIndex == 0 && s.phase == LoserRound
    requires !IsTerminal(s.players[0].status) && !IsTerminal(s.players[1].status)
    requires s.players[0].id != s.players[1].id
    requires s.results.losers == [] && s.losersFound == 0 && s.config.numLosers == 2
    ensures var r1 := ResolvedTurn(s, true, m, d);
      var r2 := ResolvedTurn(r1, true, m, d);
      && r1.currentTurnIndex == 1
      && r2.results.losers == [s.players[0].(status := Eliminated), s.players[1].(status := Eliminated)]
      && r2.losersFound == 2 && r2.phase == WinnerRound
  {
    var r1 := ResolvedTurn(s, true, m, d);
    var s1 := Placed(s, Eliminated);
    assert r1 == AdvancedTurn(s1);
    assert (0 + 1) % 2 == 1;
    ValidActorIndexStaysOnLive(s1.players, 1);
    assert r1.currentTurnIndex == 1;
    assert !ListsId(r1.results.losers, r1.players[1].id);
  }

  /** `handleWireCut`: rejections change nothing; a valid cut marks only that wire cut and sets the odds. */
  lemma WireCutFacts(s: RoomState, wireId: int)
    ensures var (hit, r) := WireCut(s, wireId);
      && (hit.None? <==> s.currentWires.None? || CuttableAt(s.currentWires.value, wireId).None?)
      && (hit.None? ==> r == s)
      && (hit.Some? ==>
            var ws := s.currentWires.value;
            var j := CuttableAt(ws, wireId).value;
            && ws[j].id == wireId && ws[j].status == Intact
            && r.currentWires == Some(MarkCut(ws, j))
            && hit.value == ws[j].isBomb
            && r == s.(currentWires := r.currentWires, currentProb := r.currentProb)
            && (ws[j].isBomb ==> r.currentProb == s.currentProb)
            && (!ws[j].isBomb ==> r.currentProb == CapProb(OrDefault(s.currentProb) * ws[j].multiplier))
            && (!ws[j].isBomb ==> r.currentProb <= ProbCap))
  {
  }

  /** A safe cut never lowers odds that were at most the cap, given a multiplier of at least 1. */
  lemma SafeCutRaisesOdds(prob: real, multiplier: real)
    requires 0.0 <= prob <= ProbCap && multiplier >= 1.0
    ensures OrDefault(prob) <= RaisedProb(prob, multiplier) <= ProbCap
  {
    var p := OrDefault(prob);
    assert p >= 0.0;
    assert p * (multiplier - 1.0) >= 0.0;
  }

  /**
   * The odds invariant: the room's probability lies in [0, 0.99] and every wire
   * of its row has a multiplier of at least 1, so a safe cut cannot lower it.
   */
  predicate OddsInRange(s: RoomState)
  {
    && 0.0 <= s.currentProb <= ProbCap
    && (s.currentWires.Some? ==>
          forall i :: 0 <= i < |s.currentWires.value| ==> s.currentWires.value[i].multiplier >= 1.0)
  }

  /** A freshly seeded phase has its base odds and a row of multipliers of at least 1.2. */
  lemma StartedPhaseOddsInRange(s: RoomState, m: seq<real>, d: seq<nat>)
    requires |s.players| > 0 && ValidMultipliers(m) && DrawsFor(s.phase, d)
    ensures OddsInRange(StartedPhase(s, m, d))
  {
    PhaseWiresFacts(s.phase, m, d);
  }

  /** `startGame` leaves the odds in range, whatever they were before. */
  lemma StartedGameOddsInRange(s: RoomState, m: seq<real>, d: seq<nat>)
    requires |s.players| > 0 && ValidMultipliers(m) && DrawsFor(LoserRound, d)
    ensures OddsInRange(StartedGame(s, m, d))
  {
    StartedPhaseOddsInRange(s.(phase := LoserRound, currentTurnIndex := 0, losersFound := 0, winnersFound := 0,
                               results := NoOutcomes, players := AllPlaying(s.players)), m, d);
  }

  /** A phase change keeps the odds in range: RESULTS keeps them, another phase reseeds. */
  lemma TransitionedToOddsInRange(s: RoomState, phase: Phase, m: seq<real>, d: seq<nat>)
    requires |s.players| > 0 && ValidMultipliers(m) && (phase != Results ==> DrawsFor(phase, d))
    requires OddsInRange(s)
    ensures OddsInRange(TransitionedTo(s, phase, m, d))
  {
    if phase != Results {
      StartedPhaseOddsInRange(s.(phase := phase, currentTurnIndex := 0), m, d);
    }
  }

  /** Every resolution keeps the odds in range. */
  lemma ResolvedTurnOddsInRange(s: RoomState, hit: bool, m: seq<real>, d: seq<nat>)
    requires s.currentTurnIndex < |s.players| && ValidMultipliers(m) && DrawsFor(WinnerRound, d)
    requires OddsInRange(s)
    ensures OddsInRange(ResolvedTurn(s, hit, m, d))
  {
    var p := s.players[s.currentTurnIndex];
    if !IsTerminal(p.status) && s.phase == LoserRound && !(hit && ListsId(s.results.losers, p.id)) {
      var s1 := if hit then Placed(s, Eliminated) else s;
      assert OddsInRange(s1);
      if s1.losersFound >= s.config.numLosers {
        TransitionedToOddsInRange(s1, WinnerRound, m, d);
      } else {
        assert OddsInRange(AdvancedTurn(s1));
      }
    } else if !IsTerminal(p.status) && s.phase == WinnerRound && !(hit && ListsId(s.results.winners, p.id)) {
      var s1 := if hit then Placed(s, Winner) else s;
      assert OddsInRange(s1);
      if s1.winnersFound >= s.config.numWinners {
        TransitionedToOddsInRange(s1, Results, m, d);
      } else {
        assert OddsInRange(AdvancedTurn(s1));
      }
    }
  }

  /** Every cut keeps the odds in range: a trap keeps them, a safe cut raises them at most to the cap. */
  lemma WireCutOddsInRange(s: RoomState, wireId: int)
    requires OddsInRange(s)
    ensures var (hit, r) := WireCut(s, wireId);
      && OddsInRange(r)
      && (hit == Some(false) ==> s.currentProb <= r.currentProb)
  {
    if s.currentWires.Some? && CuttableAt(s.currentWires.value, wireId).Some? {
      var ws := s.currentWires.value;
      var j := CuttableAt(ws, wireId).value;
      assert forall i :: 0 <= i < |MarkCut(ws, j)| ==> MarkCut(ws, j)[i].multiplier == ws[i].multiplier;
      if !ws[j].isBomb {
        SafeCutRaisesOdds(s.currentProb, ws[j].multiplier);
      }
    }
  }

  /**
   * In a room whose odds are in range no spin outcome is certain: a draw of
   * 0.995 always misses, and a draw of 0 always hits (zero odds count as 0.1).
   */
  lemma SpinNeverCertain(s: RoomState)
    requires OddsInRange(s)
    ensures !SpinHits(s.currentProb, 0.995)
    ensures SpinHits(s.currentProb, 0.0)
  {
  }
}
