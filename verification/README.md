# The game room, verified

A Dafny model of what the HxH RPG backend's game room keeps true while the match runs: in memory under one
lock, on disk through writes that may all fail, and on the screens of players who may see only part of the
board. The model follows the code branch by branch; every operation that changes state in place is a method
of a class, proved equal to a function, and the theorems are about every run of those functions.

| module | what it models |
|---|---|
| `Store` | the rows, every repository call as one atomic transaction, and the query a restart resumes from |
| `Session` | the live session and the three use cases that close a turn |
| `RoomSpec`, `Room` | the room's routines as functions on one value, and as the object that carries them out |
| `Commands` | what each command leaves on disk, exactly, as the database answers |
| `RoundInvariant`, `RoundRuns`, `RoundHistory`, `RoundEnds`, `Openings`, `Stranding`, `RoundExamples` | rounds on disk: which may be open, which are never lost, which had a turn, and where each guarantee stops |
| `LiveView`, `SheetInvariant`, `TurnInvariant`, `TurnLog`, `BoardInvariant` | HP, records and board: durable with their turn, or healed by the next one |
| `Pumps`, `PumpRounds`, `PumpEnds`, `PumpScenes`, `PumpHolds`, `PumpRows`, `PumpCommits`, `PumpExamples` | the same protocol between lock sections, any number of pumps interleaved |
| `BarsCache` | the cache that spares players a `bars_updated`, with messages delivered in any order |
| `Speeds`, `Ledger` | a resource bar's public speeds; the modifier ledger compacted in place |
| `Tabletop`, `Sight` | where pieces stand, and who may know where one went: relay, wire and history |
| `Stitch` | hanging records on the history tree |
| `Snapshot`, `MapAttach` | saving and loading a board; the map attached to a match |

**Granularity.** `RoomSpec`, `Room` and everything built on them work at *command* level: one command's
memory transition and its writes are one step, as the one master read pump makes them; every repository call
may fail. `Pumps` and the modules built on it work at *lock-section* level: each critical section and each
transaction is a step, and pumps interleave freely. A restart is a command: the session is rebuilt from the
disk, and everything the room only remembered is gone.

**What is observed.** A theorem about a run does not take the model's word for what happened in it. Which turns
opened and closed, what each accepted, which rounds ended and which of them a scene change forgot, which speeds
everybody has heard: each is a function of the commands or moves and of the states between them (`Openings`,
`TurnLog`, `PumpHolds.AcceptedIn`, `PumpEnds.Ended`, `Speeds.Known`), and the theorems compare the model with that.

**Parameters.** What the scheduler, the dice and the combat rules decide arrives as a command's parameter
(which action opens, who is hit for how much, whether anything can still pay). Cell centres, lines of sight
and a player's bars view are arbitrary functions or values. Clocks and fresh ids are one growing counter.

## What was found

- **A round can be forgotten.** `change_scene` closes the old pair with two UPDATEs whenever the *scene* is
  a row; if the round is not a row yet, its end goes nowhere and it never becomes one. `RoundHistory.RoundIsForgottenIff`
  proves this is the only case; `RoundExamples.ARoundCanBeForgotten` reaches it.
- **A restart can strand an open round.** A command leaves a new open round in a finished scene iff it is a
  `change_scene` whose close got through and whose next pair's birth did not, over a waiting end of that scene
  whose round is an open row (`Stranding.NewlyStrandedIff`). A restart then finds no open scene and starts
  beside it (`RoundRuns.RestartStrands`); over any run without such a command the disk never holds two open
  rounds, restarts included (`Stranding.OneOpenAcrossRestarts`). No scene ever holds two all the same.
- **A player's cancel can break the open-round rule.** While the master's pump is between ending a round in
  memory and writing that end, a cancel can make the new round a row beside the old one, still open; if the
  write of the end then fails, both stay open in one scene (`PumpExamples.TwoPumpsTwoOpenRounds`). Over every
  interleaving the rule holds iff no commit writes its pair open beside an open row that is neither among the
  ends it read before the write nor its own pair (`PumpCommits.RuleHoldsIff`).
- **A late write can leave a round nobody closes.** With a scene change in between, the same cancel writes a
  round whose end was forgotten (`PumpExamples.ARoundNobodyCloses`); while the room
  lives, a forgotten end is the only way a row is left with nobody to close it (`PumpEnds.NoEndIsLost`).
- **A landing's gate is not always the relay's.** The comment at `internal/app/game/room.go:2118-2119` says a
  landing is shown exactly when the move was relayed as `piece_moved`. For a player who does not own the piece
  that holds, for every line of sight, iff no later displacement of the same close moves a piece of theirs:
  `Sight.LandingIsRelayForOthers`, and `Sight.LandingIsRelayIff` for everyone.
- **A reconnect can name a stale origin.** It judges the opened move from `move.from`, and shows something else
  than `turn_opened` did iff, for a piece on show, that is not the cell it left while the reader sees it and
  not the destination: `Sight.ReconnectAgreesIff`, `Sight.ReconnectMayTellMore`.
- **A slot kind other than hex or square does not survive a reload**: `Snapshot.SurvivesReloadIff`.

One guard has a limit worth knowing, though nothing found in the code builds such a sheet: `statusBarsLocked`
leaves out a sheet that misses a bar, and a close that commits forgets it all the same, so a differing sheet
reaches its row iff it has all three bars (`SheetInvariant.CommittedIffComplete`).

## Model

| member | source | states |
|---|---|---|
| Store.NewestIsUnique | internal/gateway/pg/round/find_active_session.go:17-43 | the ordered query names at most one round |
| Store.ResumesTheLast | internal/gateway/pg/round/find_active_session.go:17-43 | of any number of open rounds in open scenes the query answers the one born last, and none only when there is none |
| Store.Database.EnsureSceneAndRound | internal/gateway/pg/round/ensure_scene_and_round.go:41-76 | both rows upserted, a finish only ever filled in, or nothing written |
| Store.Database.FindActiveSession | internal/gateway/pg/round/find_active_session.go:17-43 | the open round, in an open scene, born last |
| Store.Database.WriteRoundEnds | internal/gateway/pg/round/persist_round_close.go:74-81 | the loop over the ends is one fold of upserts |
| Store.Database.PersistRoundClose | internal/gateway/pg/round/persist_round_close.go:27-71 | ends and successor in one transaction; an end without a finish refuses it all |
| Store.Database.CloseSceneAndRound | internal/gateway/pg/round/close_scene_and_round.go:12-43 | only rows that are there are finished |
| Store.Database.PersistTurnClose | internal/gateway/pg/round/persist_turn_close.go:33-200 | everything a turn changed, or nothing; refused without the predecessor's finish, with an invalid end, or for a turn already written |
| Store.Database.InsertMasterAction | internal/app/game/master_action_record.go:183-189 | a row only when its scene and round are rows |
| Store.Database.InsertCancelledAction | internal/app/game/cancelled_action_record.go:79-81 | a row only when its scene and round are rows |
| Store.Database.SaveBoard | internal/application/matchboard/save_match_board.go:58-71 | the board row replaced, or kept |
| Session.MatchSession.ApplyResolution | internal/domain/match/matchsession/match_session.go:1239-1286 | damage lands once, hit by hit, and is reported for exactly who was hurt |
| Session.MatchSession.CloseOpenTurn | internal/domain/match/matchsession/match_session.go:1186-1204 | the open turn closes with its damage, or nothing happens |
| Session.MatchSession.OpenNextAction | internal/domain/match/matchsession/match_session.go:1012-1063 | close first; then open, run out of payers, or fail |
| Session.MatchSession.CloseRound | internal/domain/match/matchsession/match_session.go:1665-1678 | refused over an open turn; else the round ends and an unwritten successor in the same regime, with no turn, is active |
| Session.MatchSession.ChangeScene | internal/domain/match/matchsession/match_session.go:203-220 | refused over an open turn; else a fresh pair, its round free and with no turn, both flags down |
| Session.MatchSession.ExecuteOpenNext | internal/application/match/open_next_action.go:45-101 | the use case's three exits and half-successes are OpenNextOutcome |
| Session.MatchSession.ExecutePull | internal/application/match/pull_action.go:41-71 | a blocked pull closes nothing; a failed one still hands over the closed turn |
| Session.MatchSession.ExecuteClose | internal/application/match/close_turn.go:45-68 | refused while reactions wait, an error with no open turn, else closed |
| Session.OpenNextNeverDropsAClosedTurn | internal/application/match/open_next_action.go:53-101 | whatever else happens, a turn it closed and its damage reach the caller; a round it ends had a turn and opens none |
| Session.OpenNextDecides | internal/application/match/open_next_action.go:45-101 | the round ends iff it is a race with a turn in it, nobody can pay and it can be closed; a turn opens iff one can; an error iff neither, nor a closed turn to show |
| Session.PullDecides | internal/application/match/pull_action.go:41-71 | a blocked pull changes nothing; any other opens iff its action is found and closes the open turn all the same |
| Session.CloseDecides | internal/application/match/close_turn.go:45-68 | an unconfirmed close over a waiting reaction is refused and leaves the turn open; without an open turn it fails; else the turn is closed |
| Room.Room.constructor | internal/app/game/room.go:254-288 | a new room resumes the round the query finds, or starts a pair and writes it |
| Room.Room.SheetsToWrite | internal/app/game/unwritten.go:34-45 | the damaged and the still unwritten, no other |
| Room.Room.MarkSheetsUnwritten | internal/app/game/unwritten.go:49-59 | every damaged sheet is remembered |
| Room.Room.ForgetSheetsWritten | internal/app/game/unwritten.go:63-67 | exactly the written ones are dropped |
| Room.Room.StatusBarsOf | internal/app/game/unwritten.go:73-99 | one entry a complete sheet, in id order |
| Room.Room.MarkRoundEndUnwritten | internal/app/game/unwritten.go:109-116 | remembered once |
| Room.Room.ForgetRoundEndsWritten | internal/app/game/unwritten.go:120-135 | the in-place filter drops the written ids and keeps the rest in order |
| RoundRuns.MarkedOnce | internal/app/game/unwritten.go:109-116 | an end joins the waiting ones last, and no round waits twice |
| RoundRuns.WithoutSplits | internal/app/game/unwritten.go:120-135 | forgetting decides end by end, and the rest keep their order |
| Room.Room.MarkRoundPersistedIfActive | internal/app/game/unwritten.go:140-144 | the flag rises only for the round still active |
| Room.Room.EnsureSceneAndRoundRows | internal/app/game/history_record.go:58-87 | the pair becomes rows with every waiting end, or nothing changes |
| Room.Room.EnsureActiveSceneAndRound | internal/app/game/history_record.go:101-116 | a pair known to be rows is not written again |
| Room.Room.WriteRoundClose | internal/app/game/history_record.go:138-166 | end and birth together, or the end is remembered |
| Room.Room.PersistRoundClose | internal/app/game/history_record.go:122-130 | the same, for the session's own successor |
| Room.Room.OpenTurnId | internal/app/game/turn_writes.go:42-51 | open is open, not merely last |
| Room.Room.TakeTurnWrites | internal/app/game/turn_writes.go:71-78 | hands over one turn's records and forgets them, no other's |
| Room.Room.RecordMasterAction | internal/app/game/master_action_record.go:146-191 | held for the open turn, or written now with its pair |
| Room.Room.WriteCancelledAction | internal/app/game/cancelled_action_record.go:71-82 | the pair first if it was not rows when cancelled, then the record |
| Room.Room.CancelActions | internal/app/game/cancelled_action_record.go:41-97 | a cascade is held whole or written one by one |
| Room.Room.BoardSnapshot | internal/app/game/board.go:186-189 | no board without a map |
| Room.Room.PersistBoardOutsideTurn | internal/app/game/board.go:144-178 | writes nothing while a turn is open |
| Room.Room.PersistClosedTurn | internal/app/game/room.go:2277-2382 | drain, one transaction, then forget; or mark the sheets and salvage the round's end |
| Room.Room.OpenNextAction | internal/app/game/room.go:881-986 | the whole command, closed half before the error |
| Room.Room.PullAction | internal/app/game/room.go:1037-1120 | the whole command |
| Room.Room.CloseTurn | internal/app/game/room.go:1397-1465 | the whole command |
| Room.Room.ChangeScene | internal/app/game/room.go:1467-1571 | the whole command: mark or close the old pair, then write the new one |
| Room.Room.ChangeRoundMode | internal/app/game/history_record.go:178-201 | the round's row refreshed, the change recorded only when the mode changed |
| Room.Room.MasterAction | internal/app/game/master_board.go:66-90 | the board, then its save, then the record |
| Room.Room.Handle | internal/app/game/room.go:848-1578 | every command the room handles is one step of RoomSpec, so every theorem about runs is about this object |
| RoundInvariant.SettledHasShape | internal/app/game/unwritten.go:25-30 | writing the waiting ends with the active pair leaves that pair the only open one but for orphans, and keeps the invariant |
| RoundInvariant.HandoverKeeps | internal/app/game/history_record.go:94-98 | a round, or a scene, ending in memory keeps the invariant |
| RoundInvariant.SceneClosedKeeps | internal/app/game/room.go:1537-1564 | closing the old pair on disk before the new one is written keeps it |
| RoundInvariant.OneOpenScene | internal/app/game/room.go:1537-1542 | the disk never holds two open scenes |
| RoundRuns.PersistClosedTurnRounds | internal/app/game/room.go:2293-2382 | a turn's close keeps the invariant on each of its four exits |
| RoundRuns.ChangeSceneRounds | internal/app/game/room.go:1498-1571 | a change of scene keeps it, whichever write fails |
| RoundRuns.RehydratedRounds | internal/gateway/pg/round/find_active_session.go:17-43 | a restart keeps it, with the stranded rounds as orphans |
| RoundRuns.StepRounds | internal/app/game/unwritten.go:16-30 | every command keeps it, with any write failing |
| RoundRuns.OneLife | internal/app/game/unwritten.go:25-30 | in one room's life every open row is the active round or waits to be closed, at most one is open, and the flag is the truth |
| RoundRuns.AnyRun | internal/app/game/history_record.go:58-87 | over any run with restarts no scene has two open rounds, one scene at most is open, and the query finds its round |
| RoundRuns.RestartStrands | internal/gateway/pg/round/find_active_session.go:17-43 | a restart strands an open round iff its scene is finished on disk |
| RoundHistory.StepFollows | internal/gateway/pg/round/ensure_scene_and_round.go:47-76 | no finish moves and no row goes, over every command |
| RoundHistory.RoundIsForgottenIff | internal/app/game/room.go:1508-1564 | a known round stays known, iff the command is not a scene change over an unwritten round of a written scene |
| Stranding.NewlyStrandedIff | internal/app/game/room.go:1537-1571 | which command leaves a new open round in a finished scene, exactly |
| Stranding.OneOpenAcrossRestarts | internal/app/game/unwritten.go:16-30 | over any run with restarts and no such command, at most one round is open on disk |
| RoundExamples.ARoundCanBeForgotten | internal/app/game/room.go:1543-1564 | a run that reaches that case |
| RoundExamples.ARestartCanStrandARound | internal/gateway/pg/round/close_scene_and_round.go:12-43 | a run that ends with an open round in a finished scene beside the active one |
| RoundExamples.EndedUnwritten | internal/app/game/room.go:2360-2369 | the state both start from is reachable: a close and its salvage both failed |
| RoundEnds.OpenNextEnds | internal/app/game/room.go:956-973 | the end is on disk iff the turn's transaction or its own got through, carried by exactly one of them, the own never called when the turn's committed; else it is not on disk and waits |
| Openings.TheCountIsTheTable | internal/domain/match/matchsession/match_session.go:1012-1063 | over any run the session's count of a round's turns is the turns seen to open in it, each once, and the open turn is the last of them |
| Openings.OpeningIsSeen | internal/domain/match/matchsession/match_session.go:1040-1063 | a verb asked to open a turn opens one nobody has seen, in the active round |
| Openings.RoundEndReachesDisk | internal/application/match/open_next_action.go:62-88 | over any run a round that open_next_action ends had a turn seen to open in it, its successor has none, and its end is on disk through exactly one of the two writes, or waits |
| Commands.MasterActionBetweenTurns | internal/app/game/master_action_record.go:174-191 | between turns the board takes the change, and the record and the board are rows iff the database answers, whatever failed before |
| Commands.MasterActionInsideTurn | internal/app/game/master_action_record.go:166-173 | inside a turn nothing is written and the record waits last in line |
| Commands.CancelWrites | internal/app/game/cancelled_action_record.go:64-82 | a cascade's records become rows in order, each on its own answers |
| Commands.ChangeModeWrites | internal/app/game/history_record.go:168-201 | the row carries the new regime iff written; one event iff that was written too and the regime changed |
| Commands.ChangeSceneWrites | internal/app/game/room.go:1508-1571 | the old pair is finished on disk at its moment, or waits; the new one is a free round with no turn, and an open row of its scene iff its birth got through |
| Commands.TurnRowUnderItsRound | internal/app/game/room.go:2271-2276 | a turn's row belongs to the round it closed in, not to the successor |
| Commands.RestartResumes | internal/app/game/room.go:254-288 | a new room resumes the last round in the regime its row has, or a fresh pair; sheets and board are the rows', and nothing an earlier room held is left |
| LiveView.VerbLive | internal/app/game/room.go:904-979 | each verb that closes turns over in memory, makes one PersistTurnClose, and only then touches the board for the opened turn |
| LiveView.StepLive | internal/app/game/room.go:2293-2316 | the writes of rounds change no sheet, record or board |
| SheetInvariant.StatusBarsWritten | internal/app/game/unwritten.go:69-99 | row by row, exactly the complete sheets asked for are written |
| SheetInvariant.StatusBarsAre | internal/app/game/unwritten.go:73-99 | one entry for each complete sheet asked for, with its own bars, ids rising |
| SheetInvariant.HealthAfter | internal/domain/entity/character_sheet/status/status_bar.go:26-30 | over any hits a character loses what the positive ones add up to, down to the floor; nothing else of its bars moves |
| SheetInvariant.DamagedIff | internal/domain/match/matchsession/match_session.go:1267-1286 | reported as damaged iff some positive hit named the character and it has health |
| SheetInvariant.SheetAfter | internal/domain/match/matchsession/match_session.go:1186-1204 | the command that closes a turn, and no other, takes the turn's damage from the sheets in memory |
| SheetInvariant.DamageReported | internal/domain/match/matchsession/match_session.go:1239-1286 | who is not reported is not changed, and no sheet's bars appear or go |
| SheetInvariant.HealthIsNeverLost | internal/app/game/unwritten.go:20-24 | after every command a complete sheet nobody edited that differs from its row is still to be written |
| SheetInvariant.CloseWritesExactly | internal/app/game/unwritten.go:32-67 | a close that commits writes what it or an earlier failed close damaged, no other sheet, and leaves none marked |
| SheetInvariant.CommittedIffComplete | internal/app/game/unwritten.go:69-99 | a differing sheet of a committed close reached its row iff it has all three bars |
| TurnLog.InsideTurnsIsAtomic | internal/app/game/turn_writes.go:67-78 | over any run the turns seen to close are each tried once, in order, with exactly the records the commands made while they were open; those are on disk, in order, iff the turn is |
| TurnLog.OnlyTheOpenTurnHolds | internal/app/game/turn_writes.go:39-65 | records are held for the open turn alone, and they are all those the commands made in it so far |
| TurnInvariant.CloseCommitsIffUp | internal/gateway/pg/round/persist_turn_close.go:33-46 | the transaction's own checks never refuse a close the room builds |
| TurnInvariant.DrainedRows | internal/app/game/room.go:2308-2313 | a close adds a turn's records to its own rows and no other turn's |
| BoardInvariant.TheRowWaitsForTheTurn | internal/app/game/board.go:132-178 | over any run the row shows no change of the open turn, only of turns seen to close; it is memory less its last changes; and if every close was answered, every turn it shows is on disk |
| BoardInvariant.CloseSavesTheBoard | internal/app/game/room.go:2270-2316 | a close makes its own change, then the board as it stands is the row iff it commits, then the opened turn makes its own |
| BoardInvariant.OpeningMovesTheBoard | internal/app/game/room.go:904-979 | with no turn to close, the opened turn makes its own change and no board is written |
| BoardInvariant.VerbKeepsBoard | internal/app/game/room.go:2270-2274 | the closed turn's write comes after its escapes and before the next turn's move |
| PumpRounds.TheFlagsNeverLie | internal/app/game/unwritten.go:137-144 | under every interleaving a raised flag means a row |
| PumpEnds.NoEndIsLost | internal/app/game/unwritten.go:118-135 | under every interleaving the end of any round that was active once waits, is closed, is in some pump's hands, or was forgotten by a scene change; so an open row is one of these or active |
| PumpEnds.WaitingEndsAreWritten | internal/app/game/history_record.go:58-87 | a write takes every end that waited when its pump read the room, and its own: whatever the others do meanwhile, its commit closes them all |
| PumpEnds.SnapshotBecomesRow | internal/app/game/history_record.go:150-165 | whatever the others do meanwhile, a snapshot that gets written makes its round a row, and the session learns it if that round is still active |
| PumpScenes.TheActiveSceneIsOpen | internal/app/game/room.go:1498-1571 | under every interleaving the active scene's row is open |
| PumpRounds.ForgetDropsOnlyTheWritten | internal/app/game/unwritten.go:118-119 | an end marked during a write survives its forget |
| PumpRounds.StepKeeps | internal/app/game/history_record.go:150-165 | one pump's step keeps every other pump's promises |
| PumpHolds.OpenTurnAfter | internal/domain/match/matchsession/match_session.go:1012-1063 | move by move: a verb closes the open turn, hands it to its pump, and opens a new one exactly when it is to; nothing else opens or closes one |
| PumpHolds.NoHeldRecordIsOrphaned | internal/app/game/turn_writes.go:42-78 | every key of pendingTurns is the open turn or one somebody is about to drain, and holds every record the moves made while it was open, in order |
| PumpHolds.EachCloseIsTriedOnce | internal/app/game/room.go:2308-2340 | under every interleaving a closed turn is in one pump or one attempt, with exactly the records the moves made while it was open |
| PumpRows.InsideTurnsIsAtomic | internal/app/game/room.go:2308-2340 | under every interleaving a turn is a row iff its PersistTurnClose got through, and the rows of its records are then all those made while it was open, in order; else it has none |
| PumpCommits.CommitOpens | internal/gateway/pg/round/persist_round_close.go:27-60 | the open rows after any commit, exactly: those it does not close, and its own pair unless closed already |
| PumpCommits.CommitBreaksIff | internal/app/game/history_record.go:71-79 | from at most one open row, a commit leaves two iff an open row is neither among the ends it read nor its pair, and the pair is born open |
| PumpCommits.RuleHoldsIff | internal/app/game/unwritten.go:25-30 | over every interleaving the disk never holds two open rounds iff no commit was such a step |
| PumpExamples.TwoPumpsTwoOpenRounds | internal/app/game/room.go:1202-1238 | the master's pump and one cancel reach two open rounds in one scene, with both pumps done and no scene changed |
| PumpExamples.TheCancelBrokeIt | internal/app/game/history_record.go:71-79 | the step that did it is the cancel's commit, from a state with one open row |
| PumpExamples.ARoundNobodyCloses | internal/app/game/room.go:1543-1571 | the same two pumps and a scene change reach an open row nobody has to close |
| BarsCache.Bars.NotePlayerBarsSent | internal/app/game/room.go:2658-2666 | sent iff stale or different, and then it is what everyone holds |
| BarsCache.Bars.NotePlayerBarsHanded | internal/app/game/room.go:2670-2679 | the first view handed seeds the cache; a different one makes it stale |
| BarsCache.Bars.DispatchToPlayers | internal/app/game/room.go:2646-2653 | every connected player, in any order |
| BarsCache.Bars.BroadcastBars | internal/app/game/room.go:2626-2654 | number, decision and message in one section |
| BarsCache.Bars.SendMatchFullState | internal/app/game/room.go:3082-3096 | the current number, not a new one |
| BarsCache.NobodyIsOutdated | internal/app/game/room.go:148-161 | after a broadcast and every delivery, in any order, whoever holds a view holds the current one |
| BarsCache.TheSparedAreCurrent | internal/app/game/room.go:148-161 | a player a broadcast skips, with nothing on the way, holds the current view already |
| BarsCache.TheRoomIs | internal/app/game/room.go:2626-2654 | who is connected, whether the room is live and what there is to show, read off the events |
| BarsCache.HandedIsSent | internal/app/game/room.go:3082-3097 | who is handed the full state of a live room is sent the view of that instant, and nobody else anything |
| BarsCache.BroadcastIsSent | internal/app/game/room.go:2626-2654 | everyone is sent the view under a new number iff it is stale or different; the number moves on regardless |
| BarsCache.DeliveredIsHeld | internal/app/game/room.go:148-161 | a delivered message is held unless a higher number already is |
| BarsCache.TheHandedHold | internal/app/game/room.go:3082-3097 | whoever a live room hands its state to holds the current view once it broadcasts and every message has arrived |
| Speeds.ResourceBar.PublicSpeeds | internal/domain/match/resource_bar.go:61-76 | whatever order the map is walked in, the one view |
| Speeds.ResourceBar.RecordSpeed | internal/domain/match/resource_bar.go:37-40 | appended; the secrets stay among the speeds |
| Speeds.ResourceBar.RecordSecretSpeed | internal/domain/match/resource_bar.go:43-49 | secrets stay among the speeds, and a new secret changes nothing a player sees |
| Speeds.ResourceBar.Reveal | internal/domain/match/resource_bar.go:51-54 | gives back exactly that value |
| Speeds.ResourceBar.RevealAll | internal/domain/match/resource_bar.go:56-59 | everything is public |
| Speeds.ResourceBar.ResetRound | internal/domain/match/resource_bar.go:78-83 | no speed and no secret is left; the balance is not touched |
| Speeds.HideOneMore | internal/domain/match/resource_bar.go:67-74 | one pass of the loop is one more value hidden |
| Speeds.VisiblePositions | internal/domain/match/resource_bar.go:61-63 | which positions are seen: those with enough later equals |
| Speeds.PublicLength | internal/domain/match/resource_bar.go:61-63 | each secret removes exactly one element, and nothing else goes |
| Speeds.PublicIsTheTable | internal/domain/match/matchsession/match_session.go:1080-1091 | over every sequence of session events the public speeds are those of the actions opened since the last round of prices, and of the reactions opened themselves or with their turn ended, each in its place |
| Ledger.ModifierLedger.Add | internal/domain/match/modifier.go:131-131 | appended |
| Ledger.ModifierLedger.Expire | internal/domain/match/modifier.go:164-172 | compaction in place is the filter |
| Ledger.ModifierLedger.AdvanceTurn | internal/domain/match/modifier.go:180-192 | compaction in place is the demotion |
| Ledger.ModifierLedger.TotalAmount | internal/domain/match/modifier.go:141-149 | the sum over what applies |
| Ledger.ModifierLedger.TotalBias | internal/domain/match/modifier.go:153-161 | the sum over what applies |
| Ledger.CompactionRefinesLog | internal/domain/match/modifier.go:131-192 | after any history the slice is the full log's survivors, in insertion order |
| Ledger.LifetimeInTurns | internal/domain/match/modifier.go:24-36 | end_of_turn survives no close, next_turn exactly one, end_of_round all, each until its Expire |
| Ledger.TotalsAdd | internal/domain/match/modifier.go:92-101 | a modifier of the dimension adds its amount and its bias exactly when it counts against the target: anyone's always, one against x for x, one against all but x for any other or none |
| Ledger.TotalsSplit | internal/domain/match/modifier.go:141-161 | two halves of a ledger add up to the whole |
| Tabletop.Board.PieceOfLocked | internal/app/game/room.go:3783-3791 | the lowest id, in any map order |
| Tabletop.Board.ApplyMove | internal/app/game/room.go:3735-3776 | that piece's cell and nothing else; the cell it left is returned |
| Tabletop.Board.ApplyClosedEscapes | internal/app/game/room.go:3644-3664 | the outcomes in order |
| Tabletop.Board.MasterRemovePiece | internal/app/game/master_board.go:102-121 | the piece applyMove would move, or a refusal |
| Tabletop.Board.MasterMoveOrPlacePiece | internal/app/game/master_board.go:126-192 | a drag; or a new visible piece in the grid's shape, refused to a character that is not admitted or was placed meanwhile |
| Tabletop.NobodyGetsASecondPiece | internal/app/game/master_board.go:172-187 | no move, close or placement gives a character a second piece |
| Tabletop.SlotAt | internal/app/game/room.go:3913-3920 | a moved slot keeps its kind and reads back as the move's cell |
| Tabletop.MoveIs | internal/app/game/room.go:3735-3791 | the character's lowest piece stands at the cell in its own shape, every other piece is as it was, and nobody's piece moves nothing |
| Tabletop.PlacedAt | internal/app/game/master_board.go:196-202 | a placed piece has the grid's shape and reads back at the cell asked for |
| Tabletop.ReadsBack | internal/app/game/room.go:2934-2951 | a slot reads as its own shape's coordinates, 0 where one is missing |
| Tabletop.EscapedOnlySlots | internal/app/game/room.go:3757-3767 | no close changes a height, a flag, an owner, a kind or who moves by what |
| Tabletop.EscapedPiece | internal/app/game/room.go:3670-3690 | the piece of an escaping character ends at its reaction's destination if it escaped, at the master's landing if it failed with one: the last such outcome decides |
| Tabletop.UntouchedPiece | internal/app/game/room.go:3644-3664 | a piece nobody with an outcome moves by, or whose outcomes name no place, is the piece it was |
| Tabletop.JudgedWhereItStands | internal/app/game/room.go:2126-2165 | the cell the recorded verdict judged is the one the piece is on |
| Sight.GateIsRelay | internal/app/game/room.go:2065-2092 | the wire's gate is the relay's decision, hex or square, piece or none |
| Sight.HiddenIsNobodysNews | internal/app/game/room.go:2065-2092 | a piece with visible:false gives no relay, no removal, no landing, and nothing on the wire or in the history, to anyone who does not see all of it |
| Sight.ShownIsNewsToWhoSees | internal/app/game/room.go:2065-2092 | any other piece: in full iff the destination is in sight, as leaving iff only the cell left is; a removal and a landing to who sees the cell |
| Sight.WhoSeesAllOfItIsToldAll | internal/app/game/room.go:1926-2009 | the master and the owner get the whole move and every landing, hidden or not |
| Sight.NoPieceNoNews | internal/app/game/room.go:2065-2092 | a character with no piece makes no news |
| Sight.ThreeSurfacesAgree | internal/app/game/room.go:1926-2009 | piece_moved iff turn_opened shows the destination iff the history does; the origin alone is shown live iff in the history |
| Sight.ReconnectAgreesIff | internal/app/game/room.go:1910-1921 | a reconnect shows what turn_opened did iff no stale origin is in the reader's sight while the destination is not |
| Sight.ReconnectMayTellMore | internal/app/game/room.go:1910-1921 | and then it names that origin to a reader the relay told nothing |
| Sight.LiveWireNeverTellsMore | internal/app/game/room.go:1913-1916 | on the live wire a stale origin only ever withholds |
| Sight.LandingIsRelayIff | internal/app/game/room.go:2115-2124 | a landing's verdict is the relay's for every line of sight iff nobody may see the piece or the player's sight is the same at the landing and at the end |
| Sight.LandingIsRelayForOthers | internal/app/game/room.go:2115-2124 | for a player the gate is asked about: iff no later displacement moves a piece of theirs |
| Sight.LandingMayDifferFromRelay | internal/app/game/room.go:2115-2124 | one close where they differ |
| Sight.LandingsAgree | internal/app/game/room.go:2101-2165 | the history shows a landing iff the settled resolution did |
| Sight.ReactionMoveAsSeenLive | internal/application/match/get_match_history.go:230-265 | a reaction's destination is in the history iff its opening showed it or, its escape down, the reader sees it there once the close is over; which is the relay's news iff their sight is the same at both moments, and otherwise the end decides |
| Sight.RecordOpenedMoveViews | internal/app/game/master_action_record.go:105-116 | the recorded verdicts are the gate's, for everyone but master and owner |
| Sight.DragAsSeenLive | internal/domain/masteraction/record.go:91-123 | a drag in the history is what each player was relayed |
| Sight.RemovalAsSeenLive | internal/app/game/room.go:3977-4046 | a removed piece is in the history of exactly who was sent piece_removed: who saw the cell it stood on |
| Stitch.Tree.Stitch | internal/application/match/get_match_history.go:287-393 | every list is the stable sort of exactly what belongs there |
| Stitch.SortIsStable | internal/application/match/get_match_history.go:378-391 | sorted by time, nothing added or lost, ties in source order |
| Stitch.EachInExactlyOneList | internal/application/match/get_match_history.go:267-285 | an entry is in its one home as often as in the sources, and nowhere else |
| Stitch.TurnListIs | internal/application/match/get_match_history.go:345-362 | a turn's list is exactly the master actions recorded with it, each as this reader may be shown it |
| Stitch.RoundListIs | internal/application/match/get_match_history.go:345-412 | a round's list is exactly its regime changes, its cancelled actions cut for the reader, and its master actions with no turn of the tree |
| Stitch.TiesKeepSourceOrder | internal/application/match/get_match_history.go:378-380 | within one instant: regime changes, master actions, cancellations |
| Stitch.OnlyItsOwn | internal/application/match/get_match_history.go:345-362 | a turn's list holds its own master actions alone |
| Stitch.UnseenIsAbsent | internal/application/match/get_match_history.go:341-344 | every entry shown is a record projected for this reader |
| Snapshot.SortedById | internal/app/game/board.go:212-215 | in any map order, one row in id order |
| Snapshot.BoardSnapshot | internal/app/game/board.go:186-217 | pieces and walls each in their one row, grid and background as they are |
| Snapshot.LoadBoard | internal/app/game/room.go:614-632 | each known piece under its id, the others skipped; walls, grid and background as stored |
| Snapshot.RowContents | internal/app/game/board.go:194-196 | one entry a piece, its own |
| Snapshot.RowAscends | internal/app/game/board.go:212-215 | ids rise |
| Snapshot.PieceRoundTrip | internal/app/game/board.go:37-107 | a piece of known kind reads back normalised |
| Snapshot.SaveThenLoad | internal/app/game/board.go:37-107 | the pieces read back normalised, less unknown kinds |
| Snapshot.WallsRoundTrip | internal/app/game/room.go:625-628 | walls read back as they were |
| Snapshot.SurvivesReloadIff | internal/app/game/board.go:50-57 | a piece survives iff its slot is hex or square, standing where it stood |
| Snapshot.SavedAgainIsTheSame | internal/app/game/board.go:179-217 | saving what was loaded writes the same row |
| Snapshot.MatchKeepsKinds | internal/app/game/room.go:3908-3920 | nothing a match does makes a kind unknown |
| MapAttach.MapUseCases.Attach | internal/application/matchmap/attach_match_map.go:38-120 | every refusal, and every half-done failure |
| MapAttach.MapUseCases.Detach | internal/application/matchmap/detach_match_map.go:29-51 | the attachment goes, the row stays |
| MapAttach.AttachedIff | internal/application/matchmap/attach_match_map.go:38-120 | an attach goes through iff the match's master asks before it starts, for an existing map, inheriting only from another match of the campaign with a board of that map; a late failure leaves the map attached |
| MapAttach.RefusedWith | internal/application/matchmap/attach_match_map.go:38-120 | which refusal each caller gets, in order |
| MapAttach.AttachTouches | internal/application/matchmap/attach_match_map.go:38-120 | an attach touches its own match alone, and nothing when refused |
| MapAttach.FrozenOnceStarted | internal/application/matchmap/attach_match_map.go:38-51 | over any run, from a match's start on its attachment never changes |
| MapAttach.DetachedIff | internal/application/matchmap/detach_match_map.go:29-51 | a detach goes through iff the match's master asks before it starts with a map attached; it takes only that, and each refusal has its own case |
| MapAttach.MapUseCases.Load | internal/application/matchboard/load_match_board.go:47-87 | the saved row of the attached map, or a portrait of that map |
| MapAttach.LoadShowsTheAttachedMap | internal/application/matchboard/load_match_board.go:37-46 | over every run, deletions of maps included, no board iff nothing is attached, and only ever a board of the map attached now |
| MapAttach.MapUseCases.Save | internal/application/matchboard/save_match_board.go:58-62 | the match's row is the board saved, no other row moves |
| MapAttach.WaysBack | internal/application/matchmap/attach_match_map.go:53-117 | detaching and re-attaching a map brings the divergence back; going through another map loses it |
| MapAttach.DivergenceSurvives | internal/application/matchboard/load_match_board.go:42-46 | a saved divergence survives detaching, re-attaching the same map and redrawing it |

## Left out

- The WebSocket pumps, buffers, hub and HTTP handlers, JSON and logging: delivery is what each player holds.
- Combat resolution, the queue and its prices, dice, walls and the geometry of sight: their results are parameters.
- `ProjectAction` and `actionwire.From`: taken to keep a move's from and position, so only the gates decide them.
- The register branch, `StartMatch` and `loadBoard`'s decision of when to load: only the load itself is modelled.
- Rooms built without a repository or use case (the nil checks): every capability is present.
- Overridden action values and the move views a turn holds: drained and written like the records that are modelled.
- The balance, prices and round settling of a resource bar: arithmetic in packages this project does not follow.
- Guarded CRUD around campaigns, enrolments, sheets and users: nothing there spans operations.
- Store.Database.PersistTurnClose: omits the action, reaction, override and fog-memory rows of the same transaction; they are written and lost with the rows it has.
- Store.Database.SaveBoard: omits the player memories upserted after the board row and their joined errors.
- Session.MatchSession.ApplyResolution: omits the payouts a resolution adds to its targets' ledgers.
- Session.MatchSession.CloseOpenTurn: omits revealing the secret speeds and advancing the ledgers; `Speeds.After` has the first, `Ledger.After` the second.
- Session.MatchSession.CloseRound: omits settling the bars and expiring end-of-round modifiers; `Speeds.After` has the bar's reset, `Ledger.After` the expiry.
- Snapshot.BoardSnapshot: omits the players' fog memories copied in the same section.
- Room.Room.PersistClosedTurn: does not model persistMu, because at command level nobody else writes and the interleaved model allows more orders, not fewer.
- Pumps.Moved: sheets and the board are not in the interleaved model; their theorems are at command level, as the code's own one-master-pump argument is.
- BarsCache.NobodyIsOutdated: recipients are the players connected when the snapshot is taken; a send dropped by a full buffer is not modelled.
- Sight.ThreeSurfacesAgree: relay, record and wire read the same board and polygons, as the code argues for one master pump.
- Sight.ReconnectAgreesIff: the reconnect is judged on the board and the sight as the turn opened, not on what may have moved since.
