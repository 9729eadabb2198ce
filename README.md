# A verified model of the elimination/reward room game

The game is a slot-machine party game. Players sit at a table. On their turn a
player either spins (a Bernoulli trial against the room's current odds) or cuts
one of the wires on the table. A safe wire raises the odds by its multiplier,
capped at 0.99. A trap counts as a hit at once.

- The **loser round** runs until `numLosers` players are ELIMINATED.
- The **winner round** then runs until `numWinners` players are WINNER.
- **RESULTS** lists the losers, the winners and the remaining survivors.

This project models the rules of that game in Dafny and proves what they
guarantee. It covers:

- **the server's turn/phase engine** (`backend/gameLogic.ts`) and its room
  session handlers (`backend/server.ts`);
- **the in-memory room registry** (`backend/database.ts`);
- **the telemetry buffer** (`backend/telemetry.ts`);
- **the client-side mock engine** (`services/MockGameService.ts`), which has
  its own copy of the rules;
- **the single-player ladder game** (`components/SinglePlayerGame.tsx`, handlers
  only) and its tables (`constants.ts`).

Structure:

- Every source object that is updated in place is a Dafny `class` whose fields
  the methods update under `modifies` clauses. These are the room, the
  registry, the telemetry service, one server connection, the mock service and
  the single-player component.
- Every engine step is also a function on values (`GameRules`, `MockService`,
  `SinglePlayer`). Each method is proved to leave exactly that function's value,
  and the lemmas about the functions state what the rules promise.
- Randomness is an input throughout:
  - wire multipliers are `m`;
  - trap positions are the draws `d`, in the order the source draws them;
  - a spin has its draw;
  - reel re-rolls are `rolls`.

  Clocks, UUIDs and socket ids are inputs too.
- Each `setTimeout` continuation is a method of its own:
  - `Session.Resolve` for the server's delayed resolution;
  - `MockGameService.Settle` and `ShiftPhase` for the mock's resolution and phase shift;
  - `RevealJackpot`, `RevealMiss` and `AdvanceStage` in the single-player game.

How the code paths are read:

- Nothing serialises the server's handlers, and the model adds no lock. Two
  resolutions can be pending for one room; see
  `GameRules.SecondResolutionHitsNextActor` for what that does.
- An ACTION_* message whose room has its turn index out of range makes the
  source index past the end of `players`. The handler's `catch` absorbs that,
  so the model treats it as a no-op.
- `processTurnResult` takes an in-range index as a precondition. The source's
  delayed callback has no such check: with the index out of range,
  `processTurnResult` throws on its first read of the player, before anything
  is written. The model's index check in `Session.Resolve` stands for that
  throw, so the room is left exactly as the throw leaves it.

## Model

| member | source | states |
|---|---|---|
| Wires.CapProb | backend/gameLogic.ts:97 | the clamp `min(0.99, p)`: the result never exceeds 0.99, is p or 0.99, and is p whenever p is at most the cap |
| Wires.SeededBombCount | backend/gameLogic.ts:51-65 | a row seeded with a set of in-range trap positions has exactly as many trap wires as the set has positions |
| Wires.FindWire | backend/gameLogic.ts:89 | `find` by id: a found position holds that id and no earlier wire does; nothing is found exactly when no wire has the id |
| Wires.FindSeededWire | backend/gameLogic.ts:42-48 | in a freshly built row the wire with id k is at position k, and an id outside 0..n-1 is not found |
| Wires.CuttableAt | backend/gameLogic.ts:88-90 | a cut acts on a position whose wire has the id and is intact; there is none exactly when the id is unknown or that wire is already cut |
| RoomTypes.Room.constructor | backend/types.ts:41-63 | the new room object holds exactly the given room value |
| GameRules.NextDistinct | backend/gameLogic.ts:53-60 | the two-trap loop stops at the first later draw that differs from the first draw, and every draw it skipped repeated the first |
| GameRules.PhaseWiresFacts | backend/gameLogic.ts:36-66 | a phase gets 6 intact wires with ids 0..5 and the drawn multipliers; the loser round has exactly 2 traps at distinct positions and any other phase exactly 1 |
| GameRules.Ahead | backend/gameLogic.ts:181 | the seat t steps after `start` is a valid index |
| GameRules.AheadStep | backend/gameLogic.ts:181 | one more `(i + 1) % n` is one more step around the table |
| GameRules.LiveOffset | backend/gameLogic.ts:177-183 | the bounded scan takes at most n steps, every seat it passes is ELIMINATED or WINNER, and if it stops early it stops on a seat that is neither |
| GameRules.ScanStart | backend/gameLogic.ts:173-175 | an out-of-range index is reset to 0, and an in-range one is kept |
| GameRules.ValidActorIndex | backend/gameLogic.ts:167-189 | `ensureValidPlayer` always leaves an in-range index |
| GameRules.ValidActorIndexSkipsOnlyTerminal | backend/gameLogic.ts:177-183 | the final index is at most n steps ahead of the start, and every seat skipped on the way is ELIMINATED or WINNER |
| GameRules.ValidActorIndexIsLive | backend/gameLogic.ts:167-189 | when some player is neither ELIMINATED nor WINNER, the scan ends on such a player |
| GameRules.ValidActorIndexStaysOnLive | backend/gameLogic.ts:177-179 | a scan that starts on a live player does not move |
| GameRules.Survivors | backend/gameLogic.ts:207 | the survivors are exactly the players whose status is PLAYING, SAFE or WAITING |
| GameRules.StartedGameFacts | backend/gameLogic.ts:11-34 | after `startGame`: loser round, index 0, both counters 0, all three result lists empty, every player PLAYING with nothing else changed, odds 0.10, fresh loser-round wires, no turn result; the counters match the lists, and with distinct ids the results are consistent |
| GameRules.ResolvedTurnKeepsTally | backend/gameLogic.ts:102-165 | a resolution keeps `losersFound` equal to the number of listed losers and `winnersFound` equal to the number of listed winners, and keeps both lists free of repeated ids |
| GameRules.ResolvedTurnIgnoresTerminalActor | backend/gameLogic.ts:107-112 | a resolution for an actor who is already ELIMINATED or WINNER changes nothing |
| GameRules.ResolvedTurnEffects | backend/gameLogic.ts:114-153 | in the loser round a hit makes the actor ELIMINATED, adds one to `losersFound` and appends the actor, all in one step; in the winner round it does the same with WINNER and `winnersFound`; a miss changes no status, counter or list; a hit on an actor already listed, or in RESULTS, changes nothing |
| GameRules.ResolvedTurnPhase | backend/gameLogic.ts:130-133 | reaching `numLosers` starts the winner round on the first live seat from 0, with fresh wires and 0.15 odds and no extra advance; reaching `numWinners` ends in RESULTS with the survivors filled in and the index kept; otherwise the turn moves to the next live seat after `(i+1) mod n` and the wires and odds stay |
| GameRules.ResolvedTurnLandsOnLive | backend/gameLogic.ts:156-164 | after a resolution the index is in range, and while a round is on and some player is live, it is on a live player |
| GameRules.ResolvedTurnKeepsConsistent | backend/gameLogic.ts:114-153 | resolutions keep the results consistent with the table: a listed loser still seated is ELIMINATED, a listed winner still seated is WINNER, and no id is both a loser and a winner |
| GameRules.SecondResolutionHitsNextActor | backend/server.ts:213-226 | with no lock, two trap resolutions issued for A in a two-player loser round eliminate A and then B, and the second one moves the game to the winner round |
| GameRules.WireCutFacts | backend/gameLogic.ts:87-100 | a cut is rejected (None, room unchanged) exactly when there are no wires, the id is unknown or the wire is cut; a valid cut marks only that wire cut and reports whether it was a trap; a trap leaves the odds alone, and a safe wire sets them to `min(0.99, (p or 0.1) * multiplier)`, which is at most 0.99 |
| GameRules.SafeCutRaisesOdds | backend/gameLogic.ts:97 | a safe cut never lowers odds at or below the cap, and never lifts them above 0.99 |
| GameRules.StartedPhaseOddsInRange | backend/gameLogic.ts:36-73 | a freshly seeded phase has its odds in [0, 0.99] (0.10 or 0.15) and a row whose multipliers are all at least 1 |
| GameRules.StartedGameOddsInRange | backend/gameLogic.ts:11-34 | `startGame` leaves the odds in range whatever they were before |
| GameRules.TransitionedToOddsInRange | backend/gameLogic.ts:201-214 | a phase change keeps the odds in range: RESULTS keeps odds and row, another phase reseeds |
| GameRules.ResolvedTurnOddsInRange | backend/gameLogic.ts:102-165 | every resolution keeps the odds in range |
| GameRules.WireCutOddsInRange | backend/gameLogic.ts:87-100 | every cut keeps the odds in range, and a safe cut never lowers them |
| GameRules.SpinNeverCertain | backend/gameLogic.ts:82-85 | in a room whose odds are in range no spin outcome is certain: a draw of 0.995 always misses and a draw of 0 always hits, zero odds counting as 0.1 |
| GameLogic.StartGame | backend/gameLogic.ts:11-34 | the room ends up as `StartedGame` of its old value (the reset, every status set to PLAYING in a loop, then `startPhase`), with its odds in range |
| GameLogic.ArmSeeded | backend/gameLogic.ts:56-57 | setting the trap flag of one wire in a seeded row is the same as seeding with one more trap position |
| GameLogic.PlaceTraps | backend/gameLogic.ts:41-65 | the loop over the draws builds exactly `PhaseWires`: 2 distinct traps in the loser round, 1 otherwise |
| GameLogic.StartPhase | backend/gameLogic.ts:36-73 | the room ends up as `StartedPhase`: the phase's base odds, a fresh row, the index scanned to a live actor, the turn result cleared |
| GameLogic.PrepareTurn | backend/gameLogic.ts:75-80 | the turn result is cleared and nothing else changes |
| GameLogic.HandleSpin | backend/gameLogic.ts:82-85 | the spin hits exactly when the draw is below the current odds, where odds of 0 count as 0.1 |
| GameLogic.HandleWireCut | backend/gameLogic.ts:87-100 | the returned outcome and the new room are exactly `WireCut` of the old room, a rejected cut leaves the room object unchanged, and odds in range stay in range |
| GameLogic.ProcessTurnResult | backend/gameLogic.ts:102-165 | the room ends up as `ResolvedTurn` of its old value, so the lemmas on `ResolvedTurn` hold of the live room, and odds in range stay in range |
| GameLogic.PlaceActor | backend/gameLogic.ts:122-124 | the actor gets the terminal status, the matching count goes up by one and the actor is appended to the matching results list, as `Placed` (the WINNER case is lines 142-144) |
| GameLogic.EnsureValidPlayer | backend/gameLogic.ts:167-189 | only the index changes, and it becomes `ValidActorIndex` of the old index: reset if out of range, then moved past terminal players for at most n steps |
| GameLogic.AdvanceTurn | backend/gameLogic.ts:191-199 | the index becomes the scan from `(i+1) mod n` and the turn result is cleared |
| GameLogic.TransitionPhase | backend/gameLogic.ts:201-214 | RESULTS records the survivors; any other phase restarts at index 0 through `startPhase` |
| Database.WithoutCode | backend/database.ts:29-31 | removing a code keeps exactly the other codes, without repeats when there were none |
| Database.WithoutCodeAppend | backend/database.ts:29-31 | the removal works code by code: removing from `a + b` is removing from `a`, then from `b`, so the kept codes stay in their order |
| Database.WithoutAbsentCode | backend/database.ts:29-31 | removing a code that is not there changes nothing |
| Database.WithoutCodeClosesGap | backend/database.ts:29-31 | deleting a code that occurs once leaves the codes before and after it, in order |
| Database.MemoryDatabase.constructor | backend/database.ts:14-15 | a new registry is empty |
| Database.MemoryDatabase.Put | backend/database.ts:17-27 | `Map.set`: that entry is overwritten or inserted, a new code goes last in the iteration order, and an existing code keeps its place |
| Database.MemoryDatabase.CreateRoom | backend/database.ts:17-19 | the room is stored under its own code, and any room with that code is replaced (there is no uniqueness check) |
| Database.MemoryDatabase.GetRoom | backend/database.ts:21-23 | the stored room for the code, or null when the code is absent |
| Database.MemoryDatabase.UpdateRoom | backend/database.ts:25-27 | only the entry for the code changes; every other entry stays as it was |
| Database.MemoryDatabase.DeleteRoom | backend/database.ts:29-31 | the code is gone, and every other entry and its place in the order stay |
| Database.MemoryDatabase.HolderFrom | backend/database.ts:33-40 | the first room from position i of the insertion order on holding one of this connection's players; there is none exactly when no later room holds one |
| Database.MemoryDatabase.FindRoomByPlayerSocket | backend/database.ts:33-40 | the loop returns the first room in insertion order that holds a player of this connection, and null exactly when no stored room holds one |
| Database.CreateThenGet | backend/database.ts:17-23 | after `createRoom(r)`, `getRoom(r.config.roomCode)` returns r, and a lookup of any other code gives what it gave before |
| Database.DeleteThenGet | backend/database.ts:21-31 | after `deleteRoom(code)`, `getRoom(code)` is null |
| Telemetry.Recorded | backend/telemetry.ts:21-32 | the event lands at the end; below 1000 it is just appended; at 1000 the 100 oldest events are dropped first; a buffer within 1000 stays within 1000 |
| Telemetry.RecordedKeepsSuffix | backend/telemetry.ts:26-30 | dropping removes only a prefix, so what remains is a suffix of the old buffer plus the new event, in order |
| Telemetry.RecordAll | backend/telemetry.ts:21-32 | after any run of recordings the buffer is the tail of everything recorded, after exactly the dropped count, and it never grows past 1000 |
| Telemetry.CommitAsWrittenLosesEvent | backend/telemetry.ts:41-53 | as written: with 1000 events snapshotted and one more recorded during the write, the buffer holds 901 events including the new one, and the successful `splice(0, 1000)` empties it |
| Telemetry.CommitKeepsUnwritten | backend/telemetry.ts:41-53 | corrected commit: after a successful write, the buffer holds exactly the events that arrived during the write and were not dropped, in order |
| Telemetry.CommitAgreesWithoutOverflow | backend/telemetry.ts:53 | when nothing was dropped during the write, the corrected commit equals the `splice` as written |
| Telemetry.TelemetryService.constructor | backend/telemetry.ts:12-19 | the buffer starts empty and no flush is in flight |
| Telemetry.TelemetryService.RecordEvent | backend/telemetry.ts:21-32 | the buffer becomes `Recorded` of the old buffer, the flush bookkeeping is kept, and the 1000 bound holds |
| Telemetry.TelemetryService.BeginFlush | backend/telemetry.ts:34-42 | a write starts exactly when the buffer is non-empty and no flush is in flight; it then snapshots the whole buffer and marks the flush in flight; otherwise nothing changes |
| Telemetry.TelemetryService.EndFlushAsWritten | backend/telemetry.ts:44-61 | as written: success splices off the snapshot's count, failure keeps the buffer, and the flush ends either way |
| Telemetry.TelemetryService.EndFlush | backend/telemetry.ts:44-61 | corrected: failure keeps the buffer; success leaves exactly the events recorded during the write that an overflow did not drop; the flush ends either way |
| Server.JoinRejection | backend/server.ts:154-161 | for a room that was found: WRONG PASSWORD exactly when a non-empty password is set and differs; otherwise ROOM FULL exactly when the table is full; passing both leaves room for one more |
| Server.WithoutSocket | backend/server.ts:286 | the filter keeps exactly the players that belong to another connection |
| Server.FirstWithSocket | backend/server.ts:180 | `find` by socket: the first of this connection's players, or none exactly when the connection has none |
| Server.LobbyRoomFacts | backend/server.ts:121-143 | a created room has the creator as its single player and host, counters matching empty lists, consistent results, and odds in range (0, with no wires) |
| Server.LeaveKeepsOneHost | backend/server.ts:286-292 | after a leave no player of the caller is left; a non-empty room has a host; and a room that had exactly one host still has exactly one |
| Server.LeaveWithoutSeatKeepsPlayers | backend/server.ts:286 | a leave by a connection with no players in the room removes nobody |
| Server.WithoutSocketAppend | backend/server.ts:286 | the filter works seat by seat: filtering `a + b` is filtering `a`, then `b`, so the kept players stay in their order |
| Server.LeaveClosesGap | backend/server.ts:286 | a leave by the connection in one seat leaves the players before and after that seat, in order, so the next `players[0]` is the first of them |
| Server.LeaveStrandsTurn | backend/server.ts:286-292 | as written: when the last seat leaves mid-game the index is left past the end and no connection is the current actor any more |
| Server.RescannedLeaveKeepsTurn | backend/server.ts:286-292 | corrected: with the rescan a leave removes the same players, and a non-empty room keeps its index in range and on a live player whenever one is left |
| Server.JoinRespectsCapacity | backend/server.ts:158-172 | a join that passes the checks never pushes the table above `maxPlayers` |
| Server.Session.constructor | backend/server.ts:84-89 | a new connection has no session id, no persistent id and the nickname "Anonymous" |
| Server.Session.Auth | backend/server.ts:99-119 | the nickname is taken, the session id becomes the socket id, and the persistent id is `PersistentId` of the token |
| Server.Session.CreateRoom | backend/server.ts:121-145 | a fresh LOBBY room whose only player is this connection as host is stored under the configured code |
| Server.Session.JoinRoom | backend/server.ts:147-175 | rejection comes in the order ROOM NOT FOUND, WRONG PASSWORD, ROOM FULL, and no room changes; otherwise exactly one WAITING non-host player for this connection is appended, and no other room changes |
| Server.Session.StartGame | backend/server.ts:177-186 | the caller's room is started as `StartedGame` exactly when the caller's first player there is host; otherwise no room changes |
| Server.Session.HostRoom | backend/server.ts:179-180 | the room is returned exactly when the caller holds a room and its first player there is host, and it is the caller's room in the registry |
| Server.Session.StartAsHost | backend/server.ts:181-182 | the host's start leaves the room as `StartedGame` and the registry holding the same rooms in the same order |
| Server.Session.ActorRoom | backend/server.ts:190-191 | the room is returned exactly when the caller holds a room and is its current actor, and it is the caller's room in the registry; the cut handler uses the same guard at lines 232-233 |
| Server.Session.ActionSpin | backend/server.ts:188-228 | only the current actor's spin has an effect; it reveals `turnResult` at once, logs one SPIN event and returns the pending resolution; anyone else's spin, or a room with the index out of range, changes nothing |
| Server.Session.SpinAsActor | backend/server.ts:193-211 | the actor's spin reveals `turnResult` as the trial of the draw against the odds, logs one SPIN event and returns the resolution for this room |
| Server.Session.ActionCutWire | backend/server.ts:230-280 | only the current actor's cut has an effect; an invalid cut changes nothing and logs nothing; a valid cut is logged; a trap reveals a hit and returns a pending resolution; a safe cut raises the odds, schedules nothing and keeps the turn with the same player |
| Server.Session.CutAsActor | backend/server.ts:238-277 | the cut handler's body for the current actor, with the same outcomes as `ActionCutWire` |
| Server.Session.Resolve | backend/server.ts:213-226 | the delayed callback: a missing room is ignored; an out-of-range index leaves the room as the throw of `processTurnResult` does; otherwise the outcome is applied as `ResolvedTurn` and `turnResult` is cleared; stats are handed off exactly when the room reached RESULTS, a stats database is configured and stats were not yet recorded |
| Server.Session.LeaveRoom | backend/server.ts:282-298 | the caller's players are removed from the caller's room; an emptied room is deleted, otherwise `players[0]` becomes host if no host is left; other rooms stay |
| Server.Session.Depart | backend/server.ts:286-295 | the removal and host reassignment as `AfterLeave`, with the delete-or-update of the registry |
| Server.Session.Close | backend/server.ts:306-321 | disconnecting has the same effect as LEAVE_ROOM |
| MockService.MockSettledKeepsCounts | services/MockGameService.ts:223-258 | the mock's resolution keeps both counters equal to their list lengths |
| MockService.MockSettleTwiceListsTwice | services/MockGameService.ts:227-241 | the mock has no duplicate guard: the same hit applied twice in the loser round counts two losers and lists the actor twice |
| MockService.ServerSettleTwiceListsOnce | backend/gameLogic.ts:107-120 | the server's engine, given the same repeated hit on the same seat, refuses the second one |
| MockService.MockShiftMayStartOnEliminated | services/MockGameService.ts:286-288 | a mock shift to the winner round starts at seat 0 even when that player is ELIMINATED, while the server's engine scans past them |
| MockService.MockStartKeepsCounters | services/MockGameService.ts:147-154 | the mock's `startGame` keeps the old counters and results, with loser round, index 0 and everyone PLAYING, while the server's resets counters and lists |
| MockService.MockAdvancedLandsOnLive | services/MockGameService.ts:261-274 | the mock's advance lands on a live player whenever one exists, after at most n skips |
| MockService.MockGameService.constructor | services/MockGameService.ts:10-18 | no room is held, the id is the given one, and the nickname is "PLAYER" |
| MockService.MockGameService.CreateRoom | services/MockGameService.ts:69-93 | a new LOBBY room is held, with this client as its only player and host |
| MockService.MockGameService.JoinRoom | services/MockGameService.ts:95-139 | for the held room's code it rejects INVALID PASSWORD before LOBBY FULL with the room unchanged, or appends one WAITING non-host player; for any other code the held room is replaced by a made-up room with ADMIN as host and this client second |
| MockService.MockGameService.LeaveRoom | services/MockGameService.ts:141-145 | the held room is dropped |
| MockService.MockGameService.StartGame | services/MockGameService.ts:147-154 | the held room becomes `MockStarted`: loser round, every status set to PLAYING in a loop, index 0, a fresh turn, and the counters left alone |
| MockService.MockGameService.InitTurn | services/MockGameService.ts:182-214 | the held room becomes `InitTurned`: the phase's base odds, a fresh row with 2 distinct traps in the loser round or 1 otherwise, no turn result |
| MockService.MockGameService.Spin | services/MockGameService.ts:158-162 | the trial `draw < (odds or 0.1)` is revealed and handed on with the actor of the moment |
| MockService.MockGameService.CutWire | services/MockGameService.ts:164-178 | a missing room or row, an unknown id or a cut wire change nothing; a trap is cut and handed on as a hit; a safe wire is cut and raises the odds to `min(0.99, (p or 0.1) * multiplier)` |
| MockService.MockGameService.HandleTurnResult | services/MockGameService.ts:216-222 | the result is revealed at once, and the seat and the actor are captured for the delayed step |
| MockService.MockGameService.Settle | services/MockGameService.ts:223-258 | the delayed step against whatever room is held then, as `MockSettled`: the hit is applied with no duplicate guard, and reaching a target schedules a phase shift, otherwise the turn advances |
| MockService.MockGameService.Mark | services/MockGameService.ts:227-246 | the captured actor gets the status and is counted and listed; the seat changes only if the room is still the same object |
| MockService.MockGameService.AdvanceTurn | services/MockGameService.ts:261-274 | the scan loop moves to the next live seat after the current one, at most n skips, then a fresh turn |
| MockService.MockGameService.ShiftPhase | services/MockGameService.ts:276-292 | RESULTS records the PLAYING/SAFE/WAITING survivors; another phase restarts at index 0 with a fresh turn and no scan |
| MockService.MockGameService.BotJoin | services/MockGameService.ts:303-317 | a bot joins exactly when a room is held, it is in LOBBY, it is not full and the coin is at most 0.7; the table never passes `maxPlayers` |
| StageTable.SymbolsOf | components/SinglePlayerGame.tsx:49-51 | a known set key gives that set and an unknown key falls back to CLASSIC; the result is never empty |
| StageTable.JackpotIsLastOnly | constants.ts:132-178 | every symbol set has at least four symbols, and its last symbol, the jackpot, occurs nowhere else in it |
| StageTable.SpeedsOrdered | constants.ts:180-184 | each SPEED_CONFIG field is strictly larger for SLOW than for NORMAL and for NORMAL than for FAST, and in every setting the spin interval is below the reel delay, which is below the total duration |
| StageTable.BaseProbsInRange | constants.ts:201 | the table has 51 odds values, and every one lies in (0, 0.99] |
| StageTable.NatToString | constants.ts:203-205 | a number prints as a non-empty string of decimal digits |
| StageTable.ParsePrinted | constants.ts:203-205 | reading back the printed decimal gives the number |
| StageTable.NameShowsNumber | constants.ts:203-205 | stage 51 is "PENTHOUSE", any other stage is "FLOOR n" with " [VIP]" when n is divisible by 5, and the number reads back from the name |
| StageTable.StageFacts | constants.ts:195-219 | `STAGES` has 51 entries; entry i has id i+1, 3 to 8 wires, odds in (0, 0.99], reward 500 + 250·i and theme `THEMES[i mod 4]`, which is a key of SYMBOL_SETS |
| StageTable.StagesMonotone | constants.ts:215-216 | a later stage never has fewer wires and always pays a strictly larger jackpot |
| StageTable.StageNamesDistinct | constants.ts:203-205 | no two stages share a name |
| SinglePlayer.CurrentSymbols | components/SinglePlayerGame.tsx:49-51 | the reel symbols on screen are never empty |
| SinglePlayer.InitedFacts | components/SinglePlayerGame.tsx:94-112 | a new stage has its base odds and `wireCount` intact wires with ids 0..n-1, exactly one of them the bomb at the drawn position; nothing else changes |
| SinglePlayer.InitedKeepsValid | components/SinglePlayerGame.tsx:94-112 | starting a ladder stage keeps the stage on the ladder, the odds within the cap and every multiplier at least 1 |
| SinglePlayer.SpinOnlyFromIdle | components/SinglePlayerGame.tsx:167-178 | a spin starts exactly from IDLE, and then moves to SPINNING and is a jackpot exactly when the draw is below the odds; from any other state nothing changes |
| SinglePlayer.RevealsPay | components/SinglePlayerGame.tsx:186-225 | a jackpot adds the stage's reward (at least 500), a miss adds exactly 1 and returns to IDLE, and neither changes the stage |
| SinglePlayer.AdvancedFacts | components/SinglePlayerGame.tsx:149-165 | below the top the stage goes up by one, back to IDLE with the new stage's odds; at stage 51 the game is VICTORY; the points are kept |
| SinglePlayer.CutByIdOnSeeded | components/SinglePlayerGame.tsx:245 | in a freshly built row, cutting by id cuts the one wire at that position |
| SinglePlayer.CutWireFacts | components/SinglePlayerGame.tsx:229-259 | an unknown or cut wire changes nothing; a valid cut marks the wire cut; the bomb sets GAME_OVER with the odds kept; a safe wire raises the odds to `min(0.99, p * multiplier)`, never lower; stage, points and revive stay |
| SinglePlayer.CutBombFacts | components/SinglePlayerGame.tsx:244-250 | cutting the bomb marks it cut, sets GAME_OVER and keeps the odds and the validity of the game |
| SinglePlayer.CutSafeFacts | components/SinglePlayerGame.tsx:251-256 | cutting a safe wire marks it cut and multiplies the odds by its multiplier capped at 0.99, so the odds never fall and never pass the cap |
| SinglePlayer.CutByIdKeepsMultipliers | components/SinglePlayerGame.tsx:245 | marking a wire cut keeps every multiplier at least 1 |
| SinglePlayer.RaisedWithinCap | components/SinglePlayerGame.tsx:254 | odds within the cap multiplied by a factor of at least 1 and capped do not fall and stay within the cap |
| SinglePlayer.NewGameFacts | components/SinglePlayerGame.tsx:268-281 | a new game is at stage 0 with 0 points, a revive available, IDLE, stage 0's odds and one bomb |
| SinglePlayer.RevivedAtMostOnce | components/SinglePlayerGame.tsx:283-294 | the first revive halves the points rounding down, sets the revive flag and restarts the current stage in IDLE; once revived, another revive changes nothing |
| SinglePlayer.Reroll | components/SinglePlayerGame.tsx:209-215 | the do-while loop stops at the first roll that is not three jackpots, and every earlier roll was three jackpots, so a miss never shows three jackpots |
| SinglePlayer.SinglePlayerGame.constructor | components/SinglePlayerGame.tsx:23-30 | the initial state (odds 0.15, no wires, stage 0), followed by the mount effect's `initStage(STAGES[0])` |
| SinglePlayer.SinglePlayerGame.InitStage | components/SinglePlayerGame.tsx:94-112 | the state becomes `Inited` with the stage and the draws |
| SinglePlayer.SinglePlayerGame.AdvanceStage | components/SinglePlayerGame.tsx:149-165 | the state becomes `Advanced` and stays valid |
| SinglePlayer.SinglePlayerGame.HandleSpin | components/SinglePlayerGame.tsx:167-184 | the state and the outcome are `SpinStarted`: nothing unless IDLE, otherwise SPINNING with the jackpot decided by the draw |
| SinglePlayer.SinglePlayerGame.RevealJackpot | components/SinglePlayerGame.tsx:186-194 | JACKPOT, with the stage's reward added |
| SinglePlayer.SinglePlayerGame.RevealMiss | components/SinglePlayerGame.tsx:208-225 | the shown roll is never three jackpots, and the game returns to IDLE with one more point |
| SinglePlayer.SinglePlayerGame.HandleCutWire | components/SinglePlayerGame.tsx:229-259 | the state becomes `CutWire` of the old state and stays valid |
| SinglePlayer.SinglePlayerGame.StartNewGame | components/SinglePlayerGame.tsx:268-281 | the state becomes `NewGame` and is valid |
| SinglePlayer.SinglePlayerGame.HandleRevive | components/SinglePlayerGame.tsx:283-294 | the state becomes `Revived` and stays valid |

## Left out

- I/O and the transport are not modelled. This covers HTTP static serving, the WebSocket connection, JSON framing and parsing, `ws.send` replies and error messages, `broadcastRoomUpdate`, and the mock's listeners, `subscribe` and `connect`.
- Timers, delays and clocks are steps without time. This covers the `setTimeout` durations, the periodic flush and bot intervals, `Date.now` reaction times, `turnStartTime` and ISO timestamps (an input string).
- `lastActionMessage`, the single-player `message`, wire colours and all sound are display-only and are not modelled.
- Statistics recording is a foreign call into an SQL database. Only the hand-off decision is modelled (`Server.Session.Resolve`). `statsRecorded` is set by that code, which is not part of this model.
- The Redis registry stub only throws and is not modelled. The archiver, the socket-backed client service, the React context, the configuration and the service interface are also left out.
- The presentation components and the unmounted multiplayer component are not modelled.
- Single-player localStorage save and resume are not modelled. Neither are `handleGameOver` (score submission, result theme), `toggleView`, the story and view flags, `handleStoryClick`, which hides the story and then calls `advanceStage`, or `sendTelemetry`.
- StageTable.BaseProbsInRange: `baseProb` comes from a `Math.sin` formula and `toFixed` rounding. Floating point is not modelled, so the table holds the resulting values written out.
- The reel symbols' colours and pixel shapes are not modelled.
- MockService.MockGameService.BotJoin covers only the capacity check of `botLoop`. The bot turn-taking half of the loop (lines 318-325) is left out because it plays through the same `spin`/`cutWire` steps on a timer.
- Telemetry.Event: `targetId` is the wire id as a number, not its decimal string, and the file write in `flush` is the success/failure input of `EndFlush`.
- The single-player `sendTelemetry` events are not modelled.
- Aliasing of result entries is not modelled. In the source, `results.losers` and `results.winners` hold the very player objects in `players`, so a later in-place change to a seated player shows in the lists too. The changes affected are LEAVE_ROOM's `isHost = true` on `players[0]` and the mock `startGame` status reset. The model keeps value copies, so those lists keep the status and host flag the player had when listed.
- Closure staleness in the single-player component is not modelled. A spin's delayed steps use the `stageIndex` and `currentStage` captured at spin time. The model reads the current state when each step runs, which is the same unless the stage changed between the spin and its reveal.
- SinglePlayer.SinglePlayerGame.HandleCutWire has no game-state check, as in the source. A wire cut while a spin is pending is therefore possible, and a miss's reveal after GAME_OVER returns the game to IDLE. The model shows this; it does not forbid it.
- The "no valid players left" log in `ensureValidPlayer` is not modelled. The scan ends after one full loop on whatever seat it reached, and proofs assume nothing about that seat.
- Random draws are method parameters, constrained to the ranges the source produces. These are multipliers in [1.2, 1.7) or [1.5, 2.5), trap positions in 0..5, bomb positions below `wireCount`, reel positions, spin draws, the bot coin, avatar ids and UUIDs. Distributions are not modelled.
- Server.Session.Resolve: the unhandled promise rejection of the source's callback is not modelled. The throw of `processTurnResult` on an out-of-range index happens inside an `async` timer callback, outside the message handler's try/catch, so `turnResult = undefined` never runs and the rejection reaches the runtime, which on current Node versions ends the process. The model covers only that the room is left as it was.
- The odds invariant `GameRules.OddsInRange` is proved for the engine steps (`GameLogic.StartGame`, `HandleWireCut`, `ProcessTurnResult`) and for a created room. The other handlers change only players, the turn result and the stored registry, which it does not read; no separate lemma states that.
- The draw loops that stop only almost surely are modelled for runs that stop: `PlaceTraps` for the loser round and the mock's `InitTurn` require a draw that differs from the first trap position (`GameRules.HasSecondPosition`), and `SinglePlayer.Reroll` and `RevealMiss` require a roll that is not three jackpots (`SinglePlayer.RollsEnd`). Draw sequences on which the source's loop would never stop are excluded.
- Server.Session.CreateRoom does not validate the configuration, as in the source; the menu's client-side check on it is not part of this model.

## Findings

| source | as written | input that shows it | evidently intended | confidence | as-written member | corrected member |
|---|---|---|---|---|---|---|
| backend/telemetry.ts:41-53 | a successful flush runs `buffer.splice(0, pendingCount)` with the count taken at the snapshot, even if an overflow dropped the oldest 100 events during the write | 1000 events buffered, the flush snapshots all 1000, one event is recorded during the write (the overflow drops 100, leaving 901), the write succeeds, and the splice of 1000 empties the buffer, losing the new event that was never written | remove only the written events that are still buffered, so every event recorded during the write and not dropped survives (the comment at line 52 says so) | not executed | Telemetry.CommitAsWrittenLosesEvent | Telemetry.CommitKeepsUnwritten |
| backend/server.ts:286-292 | LEAVE_ROOM (and `close`, lines 310-316) filters out the caller's players without rescanning `currentTurnIndex` | a LOSER_ROUND room with players A and B, index 1, and B leaves: one player is left and the index stays 1, so no connection is the current actor and every ACTION_SPIN and ACTION_CUT_WIRE indexes past the end and is absorbed by the catch (lines 191 and 233); the round stalls until another connection joins or the host restarts the game | bring the index back to a live seat, as `ensureValidPlayer` does after every other change of seat | not executed | Server.LeaveStrandsTurn | Server.RescannedLeaveKeepsTurn |
