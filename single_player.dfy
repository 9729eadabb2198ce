/**
 * The single-player game: climb the 51-stage ladder by spinning for a jackpot,
 * cutting wires to raise the odds, and avoiding the one bomb wire of each stage.
 * The component's state lives in the fields of `SinglePlayerGame`; each delayed
 * step of a spin (the reveal of a jackpot or of a miss) is a method of its own,
 * and every random draw is an input.
 */
module SinglePlayer {
  import opened Wrappers
  import opened Wires
  import opened StageTable

  datatype GameState = Idle | Spinning | Jackpot | GameOver | Victory

  /** The component's game state (the UI-only state is not modelled). */
  datatype PlayState = PlayState(
    stageIndex: nat,
    totalPoints: nat,
    jackpotProb: real,
    wires: seq<Wire>,
    hasRevived: bool,
    gameState: GameState)

  /** The stage on screen: `STAGES[stageIndex] || STAGES[0]`. */
  function CurrentStage(s: PlayState): Stage
  {
    if s.stageIndex < |Stages| then Stages[s.stageIndex] else Stages[0]
  }

  /** The stage is on the ladder, the odds are a probability within the cap, and every multiplier raises them. */
  predicate PlayValid(s: PlayState)
  {
    && s.stageIndex < |Stages|
    && 0.0 <= s.jackpotProb <= ProbCap
    && (forall i :: 0 <= i < |s.wires| ==> s.wires[i].multiplier >= 1.0)
  }

  /** Draws for a stage's wires: one multiplier `1.5 + Math.random()` per wire and a bomb position. */
  predicate StageDraws(stage: Stage, m: seq<real>, bomb: nat)
  {
    && |m| == stage.wireCount
    && (forall i :: 0 <= i < |m| ==> 1.5 <= m[i] < 2.5)
    && bomb < |m|
  }

  /** `initStage`: the stage's base odds and a fresh row of wires with one bomb. */
  function Inited(s: PlayState, stage: Stage, m: seq<real>, bomb: nat): PlayState
    requires StageDraws(stage, m, bomb)
  {
    s.(jackpotProb := stage.baseProb, wires := SeedWires(m, {bomb}))
  }

  /** `advanceStage`: the next stage, fresh and IDLE, or VICTORY after the last one. */
  function Advanced(s: PlayState, m: seq<real>, bomb: nat): PlayState
    requires s.stageIndex + 1 < |Stages| ==> StageDraws(Stages[s.stageIndex + 1], m, bomb)
  {
    if s.stageIndex + 1 < |Stages| then
      Inited(s.(stageIndex := s.stageIndex + 1, gameState := Idle), Stages[s.stageIndex + 1], m, bomb)
    else s.(gameState := Victory)
  }

  /** `handleSpin`: only from IDLE; the spin decides `draw < jackpotProb` up front. */
  function SpinStarted(s: PlayState, draw: real): (PlayState, Option<bool>)
  {
    if s.gameState != Idle then (s, None)
    else (s.(gameState := Spinning), Some(draw < s.jackpotProb))
  }

  /** The delayed jackpot step: JACKPOT and the stage's reward. */
  function JackpotShown(s: PlayState): PlayState
  {
    s.(gameState := Jackpot, totalPoints := s.totalPoints + CurrentStage(s).jackpotReward)
  }

  /** The delayed miss step: back to IDLE with one compensation point. */
  function MissShown(s: PlayState): PlayState
  {
    s.(gameState := Idle, totalPoints := s.totalPoints + 1)
  }

  /** The `map` of a cut: every wire with that id is marked cut. */
  function CutById(ws: seq<Wire>, id: int): seq<Wire>
  {
    seq(|ws|, i requires 0 <= i < |ws| => if ws[i].id == id then ws[i].(status := Cut) else ws[i])
  }

  /**
   * `handleCutWire`: nothing for an unknown or already cut wire; the bomb ends the
   * game, a safe wire multiplies the odds up to the cap. There is no check of the
   * game state.
   */
  function CutWire(s: PlayState, wireId: int): PlayState
  {
    match CuttableAt(s.wires, wireId)
    case None => s
    case Some(j) =>
      if s.wires[j].isBomb then s.(wires := CutById(s.wires, wireId), gameState := GameOver)
      else s.(wires := CutById(s.wires, wireId), jackpotProb := CapProb(s.jackpotProb * s.wires[j].multiplier))
  }

  /** `startNewGame`: stage 0, no points, revive available, IDLE, fresh wires. */
  function NewGame(s: PlayState, m: seq<real>, bomb: nat): PlayState
    requires StageDraws(Stages[0], m, bomb)
  {
    Inited(s.(stageIndex := 0, totalPoints := 0, hasRevived := false, gameState := Idle), Stages[0], m, bomb)
  }

  /** `handleRevive`: once per game, half the points (rounded down), IDLE, the current stage afresh. */
  function Revived(s: PlayState, m: seq<real>, bomb: nat): PlayState
    requires StageDraws(CurrentStage(s), m, bomb)
  {
    if s.hasRevived then s
    else Inited(s.(totalPoints := s.totalPoints / 2, hasRevived := true, gameState := Idle), CurrentStage(s), m, bomb)
  }

  /** The reel symbols of the stage on screen: `SYMBOL_SETS[symbolSetId] || SYMBOL_SETS['CLASSIC']`. */
  function CurrentSymbols(s: PlayState): (r: seq<SlotSymbol>)
    ensures |r| > 0
  {
    SymbolsOf(CurrentStage(s).symbolSetId)
  }

  /** Three reel positions drawn by `Math.floor(Math.random() * symbols.length)`. */
  datatype Roll = Roll(a: nat, b: nat, c: nat)

  predicate RollIn(r: Roll, n: nat)
  {
    r.a < n && r.b < n && r.c < n
  }

  /** All three reels would show the jackpot (last) symbol. */
  predicate AllJackpot(syms: seq<SlotSymbol>, r: Roll)
    requires |syms| > 0 && RollIn(r, |syms|)
  {
    var jackpotId := syms[|syms| - 1].id;
    syms[r.a].id == jackpotId && syms[r.b].id == jackpotId && syms[r.c].id == jackpotId
  }

  /** The re-roll loop ends once some roll is not all jackpot. */
  predicate RollsEnd(syms: seq<SlotSymbol>, rolls: seq<Roll>)
  {
    && |syms| > 0
    && (forall k :: 0 <= k < |rolls| ==> RollIn(rolls[k], |syms|))
    && exists k :: 0 <= k < |rolls| && !AllJackpot(syms, rolls[k])
  }

  // ------------------------------------------------------------ lemmas

  /** A new stage: its base odds, `wireCount` intact wires with ids 0..n-1, exactly one of them the bomb. */
  lemma InitedFacts(s: PlayState, stage: Stage, m: seq<real>, bomb: nat)
    requires StageDraws(stage, m, bomb)
    ensures var r := Inited(s, stage, m, bomb);
      && r.jackpotProb == stage.baseProb
      && |r.wires| == stage.wireCount
      && (forall i :: 0 <= i < |r.wires| ==> r.wires[i].id == i && r.wires[i].status == Intact)
      && (forall i :: 0 <= i < |r.wires| ==> (r.wires[i].isBomb <==> i == bomb))
      && BombCount(r.wires) == 1
      && r.stageIndex == s.stageIndex && r.totalPoints == s.totalPoints
      && r.hasRevived == s.hasRevived && r.gameState == s.gameState
  {
    SeededBombCount(m, {bomb});
  }

  /** Initialising a ladder stage keeps the state valid. */
  lemma InitedKeepsValid(s: PlayState, k: nat, m: seq<real>, bomb: nat)
    requires PlayValid(s) && k < |Stages| && StageDraws(Stages[k], m, bomb)
    ensures PlayValid(Inited(s, Stages[k], m, bomb))
  {
    StageFacts(k);
  }

  /** A spin starts only from IDLE, and then it is a jackpot exactly when the draw is below the odds. */
  lemma SpinOnlyFromIdle(s: PlayState, draw: real)
    ensures SpinStarted(s, draw).1.Some? <==> s.gameState == Idle
    ensures s.gameState != Idle ==> SpinStarted(s, draw).0 == s
    ensures s.gameState == Idle ==>
      SpinStarted(s, draw).1 == Some(draw < s.jackpotProb) && SpinStarted(s, draw).0.gameState == Spinning
  {
  }

  /** A jackpot pays the stage's reward, at least 500, and a miss pays exactly 1; neither changes the stage. */
  lemma RevealsPay(s: PlayState)
    requires PlayValid(s)
    ensures JackpotShown(s).totalPoints == s.totalPoints + Stages[s.stageIndex].jackpotReward
    ensures JackpotShown(s).totalPoints >= s.totalPoints + 500
    ensures MissShown(s).totalPoints == s.totalPoints + 1 && MissShown(s).gameState == Idle
    ensures JackpotShown(s).stageIndex == s.stageIndex == MissShown(s).stageIndex
  {
    StageFacts(s.stageIndex);
  }

  /** Advancing moves one stage up and returns to IDLE, or ends in VICTORY at the top. */
  lemma AdvancedFacts(s: PlayState, m: seq<real>, bomb: nat)
    requires PlayValid(s)
    requires s.stageIndex + 1 < |Stages| ==> StageDraws(Stages[s.stageIndex + 1], m, bomb)
    ensures var r := Advanced(s, m, bomb);
      && PlayValid(r)
      && (s.stageIndex + 1 < |Stages| ==> r.stageIndex == s.stageIndex + 1 && r.gameState == Idle
                                          && r.jackpotProb == Stages[r.stageIndex].baseProb)
      && (s.stageIndex + 1 >= |Stages| ==> r == s.(gameState := Victory) && s.stageIndex == 50)
      && r.totalPoints == s.totalPoints
  {
    if s.stageIndex + 1 < |Stages| {
      InitedKeepsValid(s.(stageIndex := s.stageIndex + 1, gameState := Idle), s.stageIndex + 1, m, bomb);
    }
  }

  /** In a freshly seeded row, cutting by id is cutting the one wire at that position. */
  lemma CutByIdOnSeeded(m: seq<real>, bombs: set<nat>, id: int)
    requires 0 <= id < |m|
    ensures CutById(SeedWires(m, bombs), id) == MarkCut(SeedWires(m, bombs), id)
  {
  }

  /**
   * A cut of an intact wire marks it cut; the bomb ends the game, and a safe wire
   * raises the odds by its multiplier, up to the cap and never down. Any other cut
   * changes nothing.
   */
  lemma CutWireFacts(s: PlayState, wireId: int)
    requires PlayValid(s)
    ensures PlayValid(CutWire(s, wireId))
    ensures CuttableAt(s.wires, wireId).None? ==> CutWire(s, wireId) == s
    ensures CuttableAt(s.wires, wireId).Some? ==>
      var j := CuttableAt(s.wires, wireId).value;
      var r := CutWire(s, wireId);
      && r.wires[j].status == Cut
      && r.stageIndex == s.stageIndex && r.totalPoints == s.totalPoints && r.hasRevived == s.hasRevived
      && (s.wires[j].isBomb ==> r.gameState == GameOver && r.jackpotProb == s.jackpotProb)
      && (!s.wires[j].isBomb ==> r.gameState == s.gameState
                                 && s.jackpotProb <= r.jackpotProb <= ProbCap
                                 && r.jackpotProb == CapProb(s.jackpotProb * s.wires[j].multiplier))
  {
    match CuttableAt(s.wires, wireId)
    case None =>
    case Some(j) =>
      if s.wires[j].isBomb {
        CutBombFacts(s, wireId, j);
      } else {
        CutSafeFacts(s, wireId, j);
      }
  }

  /** Cutting by id keeps every multiplier, so valid odds multipliers stay valid. */
  lemma CutByIdKeepsMultipliers(ws: seq<Wire>, id: int)
    requires forall i :: 0 <= i < |ws| ==> ws[i].multiplier >= 1.0
    ensures forall i :: 0 <= i < |CutById(ws, id)| ==> CutById(ws, id)[i].multiplier >= 1.0
  {
    var r := CutById(ws, id);
    forall i | 0 <= i < |r| ensures r[i].multiplier >= 1.0 {
      assert r[i].multiplier == ws[i].multiplier;
    }
  }

  /** Multiplying odds by at least 1 and capping never lowers odds that were within the cap. */
  lemma RaisedWithinCap(p: real, k: real)
    requires 0.0 <= p <= ProbCap && k >= 1.0
    ensures p <= CapProb(p * k) <= ProbCap
  {
    assert p * (k - 1.0) >= 0.0;
  }

  /** The bomb case of `CutWireFacts`. */
  lemma CutBombFacts(s: PlayState, wireId: int, j: nat)
    requires PlayValid(s) && CuttableAt(s.wires, wireId) == Some(j) && s.wires[j].isBomb
    ensures var r := CutWire(s, wireId);
      && r == s.(wires := CutById(s.wires, wireId), gameState := GameOver)
      && r.wires[j].status == Cut
      && PlayValid(r)
  {
    CutByIdKeepsMultipliers(s.wires, wireId);
  }

  /** The safe-wire case of `CutWireFacts`. */
  lemma CutSafeFacts(s: PlayState, wireId: int, j: nat)
    requires PlayValid(s) && CuttableAt(s.wires, wireId) == Some(j) && !s.wires[j].isBomb
    ensures var r := CutWire(s, wireId);
      && r == s.(wires := CutById(s.wires, wireId), jackpotProb := CapProb(s.jackpotProb * s.wires[j].multiplier))
      && r.wires[j].status == Cut
      && s.jackpotProb <= r.jackpotProb <= ProbCap
      && PlayValid(r)
  {
    CutByIdKeepsMultipliers(s.wires, wireId);
    RaisedWithinCap(s.jackpotProb, s.wires[j].multiplier);
  }

  /** A new game starts at stage 0 with no points and a revive available. */
  lemma NewGameFacts(s: PlayState, m: seq<real>, bomb: nat)
    requires StageDraws(Stages[0], m, bomb)
    ensures var r := NewGame(s, m, bomb);
      && PlayValid(r)
      && r.stageIndex == 0 && r.totalPoints == 0 && !r.hasRevived && r.gameState == Idle
      && r.jackpotProb == Stages[0].baseProb && BombCount(r.wires) == 1
  {
    var t := s.(stageIndex := 0, totalPoints := 0, hasRevived := false, gameState := Idle);
    InitedFacts(t, Stages[0], m, bomb);
    StageFacts(0);
  }

  /**
   * A revive halves the points (rounding down) and restarts the stage in IDLE,
   * once: a second revive changes nothing, whatever its draws.
   */
  lemma RevivedAtMostOnce(s: PlayState, m: seq<real>, bomb: nat, m2: seq<real>, bomb2: nat)
    requires PlayValid(s) && StageDraws(CurrentStage(s), m, bomb) && StageDraws(CurrentStage(s), m2, bomb2)
    ensures var r := Revived(s, m, bomb);
      && PlayValid(r)
      && r.hasRevived
      && (!s.hasRevived ==> r.totalPoints * 2 <= s.totalPoints < r.totalPoints * 2 + 2
                            && r.gameState == Idle && r.stageIndex == s.stageIndex)
      && (s.hasRevived ==> r == s)
      && Revived(r, m2, bomb2) == r
  {
    if !s.hasRevived {
      InitedKeepsValid(s.(totalPoints := s.totalPoints / 2, hasRevived := true, gameState := Idle), s.stageIndex, m, bomb);
    }
  }

  /**
   * The do-while re-roll of a missed spin: draw three reel positions until they
   * are not all the jackpot symbol. The rolls are the successive draws; the
   * result is the first one that stops the loop, so a miss never shows three
   * jackpots.
   */
  method Reroll(syms: seq<SlotSymbol>, rolls: seq<Roll>) returns (shown: Roll, tries: nat)
    requires RollsEnd(syms, rolls)
    ensures tries < |rolls| && shown == rolls[tries]
    ensures !AllJackpot(syms, shown)
    ensures forall k :: 0 <= k < tries ==> AllJackpot(syms, rolls[k])
  {
    ghost var stop :| 0 <= stop < |rolls| && !AllJackpot(syms, rolls[stop]);
    tries := 0;
    shown := rolls[0];
    while AllJackpot(syms, shown)
      invariant tries <= stop && shown == rolls[tries]
      invariant forall k :: 0 <= k < tries ==> AllJackpot(syms, rolls[k])
      decreases stop - tries
    {
      tries := tries + 1;
      shown := rolls[tries];
    }
  }

  // ------------------------------------------------------------ the component

  class SinglePlayerGame {
    var stageIndex: nat
    var totalPoints: nat
    var jackpotProb: real
    var wires: seq<Wire>
    var hasRevived: bool
    var gameState: GameState

    function State(): PlayState
      reads this
    {
      PlayState(stageIndex, totalPoints, jackpotProb, wires, hasRevived, gameState)
    }

    predicate Valid()
      reads this
    {
      PlayValid(State())
    }

    /** The initial state (odds 0.15, no wires), then the mount effect's `initStage(STAGES[0])`. */
    constructor (m: seq<real>, bomb: nat)
      requires StageDraws(Stages[0], m, bomb)
      ensures Valid()
      ensures State() == Inited(PlayState(0, 0, 0.15, [], false, Idle), Stages[0], m, bomb)
    {
      stageIndex := 0;
      totalPoints := 0;
      jackpotProb := 0.15;
      wires := [];
      hasRevived := false;
      gameState := Idle;
      new;
      InitedKeepsValid(State(), 0, m, bomb);
      InitStage(Stages[0], m, bomb);
    }

    /** `initStage`. */
    method InitStage(stage: Stage, m: seq<real>, bomb: nat)
      requires StageDraws(stage, m, bomb)
      modifies this
      ensures State() == Inited(old(State()), stage, m, bomb)
    {
      jackpotProb := stage.baseProb;
      wires := SeedWires(m, {bomb});
    }

    /** `advanceStage`. */
    method AdvanceStage(m: seq<real>, bomb: nat)
      requires Valid()
      requires stageIndex + 1 < |Stages| ==> StageDraws(Stages[stageIndex + 1], m, bomb)
      modifies this
      ensures Valid()
      ensures State() == Advanced(old(State()), m, bomb)
    {
      AdvancedFacts(State(), m, bomb);
      if stageIndex + 1 < |Stages| {
        stageIndex := stageIndex + 1;
        InitStage(Stages[stageIndex], m, bomb);
        gameState := Idle;
      } else {
        gameState := Victory;
      }
    }

    /** `handleSpin`: returns whether a spin started and, if so, whether it is a jackpot. */
    method HandleSpin(draw: real) returns (started: bool, isJackpot: bool)
      requires Valid()
      modifies this
      ensures Valid()
      ensures (State(), if started then Some(isJackpot) else None) == SpinStarted(old(State()), draw)
    {
      if gameState != Idle {
        return false, false;
      }
      gameState := Spinning;
      isJackpot := draw < jackpotProb;
      started := true;
    }

    /** The delayed step of a jackpot spin. */
    method RevealJackpot()
      requires Valid()
      modifies this
      ensures Valid()
      ensures State() == JackpotShown(old(State()))
    {
      gameState := Jackpot;
      totalPoints := totalPoints + Stages[stageIndex].jackpotReward;
    }

    /**
     * The delayed steps of a missed spin: the reels are re-rolled (see `Reroll`),
     * then the game returns to IDLE with one point.
     */
    method RevealMiss(rolls: seq<Roll>) returns (shown: Roll, tries: nat)
      requires Valid() && RollsEnd(CurrentSymbols(State()), rolls)
      modifies this
      ensures Valid()
      ensures State() == MissShown(old(State()))
      ensures tries < |rolls| && shown == rolls[tries]
      ensures !AllJackpot(CurrentSymbols(old(State())), shown)
    {
      shown, tries := Reroll(CurrentSymbols(State()), rolls);
      gameState := Idle;
      totalPoints := totalPoints + 1;
    }

    /** `handleCutWire`. */
    method HandleCutWire(wireId: int)
      requires Valid()
      modifies this
      ensures Valid()
      ensures State() == CutWire(old(State()), wireId)
    {
      var found := FindWire(wires, wireId);
      if found.None? || wires[found.value].status == Cut {
        assert CuttableAt(wires, wireId).None?;
        return;
      }
      var j := found.value;
      assert CuttableAt(wires, wireId) == Some(j);
      var wire := wires[j];
      if wire.isBomb {
        CutBombFacts(State(), wireId, j);
        wires, gameState := CutById(wires, wireId), GameOver;
      } else {
        CutSafeFacts(State(), wireId, j);
        wires, jackpotProb := CutById(wires, wireId), CapProb(jackpotProb * wire.multiplier);
      }
    }

    /** `startNewGame`. */
    method StartNewGame(m: seq<real>, bomb: nat)
      requires StageDraws(Stages[0], m, bomb)
      modifies this
      ensures Valid()
      ensures State() == NewGame(old(State()), m, bomb)
    {
      NewGameFacts(State(), m, bomb);
      stageIndex := 0;
      totalPoints := 0;
      hasRevived := false;
      gameState := Idle;
      InitStage(Stages[0], m, bomb);
    }

    /** `handleRevive`. */
    method HandleRevive(m: seq<real>, bomb: nat)
      requires Valid() && StageDraws(Stages[stageIndex], m, bomb)
      modifies this
      ensures Valid()
      ensures State() == Revived(old(State()), m, bomb)
    {
      RevivedAtMostOnce(State(), m, bomb, m, bomb);
      if hasRevived {
        return;
      }
      totalPoints := totalPoints / 2;
      hasRevived := true;
      gameState := Idle;
      InitStage(Stages[stageIndex], m, bomb);
    }
  }
}
