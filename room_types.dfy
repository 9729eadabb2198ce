/**
 * The multiplayer data model: players, room configuration, the room aggregate.
 * `RoomState` is the value of a room at one moment; class `Room` is the mutable
 * object the engine, the registry and the session handlers share.
 */
module RoomTypes {
  import opened Wrappers
  import opened Wires

  datatype PlayerStatus = Waiting | Playing | Safe | Eliminated | Winner

  /** Players the turn scan skips: already placed in losers or winners. */
  predicate IsTerminal(s: PlayerStatus)
  {
    s == Eliminated || s == Winner
  }

  /** Players counted as survivors when the game reaches RESULTS. */
  predicate IsSurvivorStatus(s: PlayerStatus)
  {
    s == Playing || s == Safe || s == Waiting
  }

  /**
   * A player record. `id` is the session id (null on the server before AUTH),
   * `userId` the persistent id, `socketId` the connection that owns the record
   * (absent for players made by the client-side mock).
   */
  datatype Player = Player(
    id: Option<string>,
    userId: Option<string>,
    nickname: string,
    isHost: bool,
    status: PlayerStatus,
    avatarId: int,
    socketId: Option<string>)

  datatype Phase = Lobby | LoserRound | WinnerRound | Results

  /** Room settings as the creator sends them; nothing here is validated by the server. */
  datatype Config = Config(
    roomCode: string,
    password: Option<string>,
    maxPlayers: int,
    numLosers: int,
    numWinners: int)

  /** A password gates a join only when it is set and non-empty (JavaScript truthiness). */
  predicate PasswordRequired(c: Config)
  {
    c.password.Some? && c.password.value != ""
  }

  datatype Outcomes = Outcomes(losers: seq<Player>, winners: seq<Player>, survivors: seq<Player>)

  const NoOutcomes: Outcomes := Outcomes([], [], [])

  datatype RoomState = RoomState(
    config: Config,
    players: seq<Player>,
    phase: Phase,
    currentTurnIndex: nat,
    losersFound: nat,
    winnersFound: nat,
    results: Outcomes,
    currentWires: Option<seq<Wire>>,
    currentProb: real,
    turnResult: Option<bool>,
    statsRecorded: bool)

  /** Does some player in `ps` carry this id (`ps.some(q => q.id === id)`)? */
  predicate ListsId(ps: seq<Player>, id: Option<string>)
  {
    exists k :: 0 <= k < |ps| && ps[k].id == id
  }

  /** Does some player in `ps` belong to this connection? */
  predicate HasSocket(ps: seq<Player>, socketId: string)
  {
    exists k :: 0 <= k < |ps| && ps[k].socketId == Some(socketId)
  }

  /** No id is listed twice. */
  predicate DistinctIds(ps: seq<Player>)
  {
    forall j, k :: 0 <= j < k < |ps| ==> ps[j].id != ps[k].id
  }

  /** The mutable room object. */
  class Room {
    const config: Config
    var players: seq<Player>
    var phase: Phase
    var currentTurnIndex: nat
    var losersFound: nat
    var winnersFound: nat
    var results: Outcomes
    var currentWires: Option<seq<Wire>>
    var currentProb: real
    var turnResult: Option<bool>
    var statsRecorded: bool

    /** The room's value now. */
    function State(): RoomState
      reads this
    {
      RoomState(config, players, phase, currentTurnIndex, losersFound, winnersFound,
                results, currentWires, currentProb, turnResult, statsRecorded)
    }

    /** A room object holding the given value (an object literal in the source). */
    constructor (s: RoomState)
      ensures State() == s
    {
      config := s.config;
      players := s.players;
      phase := s.phase;
      currentTurnIndex := s.currentTurnIndex;
      losersFound := s.losersFound;
      winnersFound := s.winnersFound;
      results := s.results;
      currentWires := s.currentWires;
      currentProb := s.currentProb;
      turnResult := s.turnResult;
      statsRecorded := s.statsRecorded;
    }
  }
}
