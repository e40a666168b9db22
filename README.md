# A verified model of the tablet/board climate game core

The game is a Unity multiplayer game. A host machine shows a hex **game board**. Each player joins from a tablet. The host hands each tablet one of four sector **roles** (Farming, Industry, Housing, Nature) from a first-in-first-out pool. The host gives a role back to the pool when that tablet disconnects.

On the board:
- hexagonal tiles are generated in rings around a centre;
- **risks** are placed on free cells and take them over;
- risk and disaster turns roll for new risks.

On the tablets, players:
- draw and play **cards**, and vote on proposals;
- design new cards, risks and effects in creation screens;
- browse a card library;
- track their points on a row of knobs.

This project models that core in Dafny. It proves the properties the code promises, or that the game relies on. Each source file becomes one module. Components whose fields are updated in place become classes with `modifies`/`reads` frames. Value logic becomes datatypes, functions and lemmas.

| module (file) | source |
|---|---|
| `RoleAssignment` (game_manager.dfy) | `Game/GameManager.cs`: role pool, connect/disconnect, turn advance |
| `PlayerClient` (player_role_controller.dfy) | `Game/PlayerRoleController.cs`: the tablet's role, card submission, ballots |
| `BoardSync` (board_sync.dfy) | `GameScreenToGameBoardSync.cs`: played cards and readiness |
| `Voting` (voting_manager.dfy) | `VotingSystem/VotingManager.cs`: proposals and the vote table |
| `GameScreenFlow` (game_screen.dfy) | `GameScreenController.cs`: draw, play and the voting panel |
| `GameFlow` (game_flow.dfy) | `GameFlowManager.cs`: the gameplay scene sequence |
| `ScreenFlow` (screen_flow.dfy) | `ScreenFlowController.cs`: the tablet's screen stack |
| `HexTiles`, `HexBoard`, `BoardRisks` | `Game/HexTile.cs`, `Game/HexBoardGenerator.cs`, `Game/BoardRiskManager.cs` |
| `RiskTiles`, `RiskTurns`, `Disasters`, `RiskRegistry` | `RiskDisasterSystem/*.cs` |
| `CardCreation`, `RiskCreation`, `EffectCreation` | `CardCreationController.cs`, `RiskCreationManager.cs`, `CreationUI/EffectManager.cs` |
| `DisplayEffects` | `EffectScripts/DisplayEffectManager.cs`: timed effects on a card |
| `Decks`, `Cards`, `CardLibrary` | `CardDeckScripts/DeckManager.cs`, `CardLibrary/CardData.cs`, `CardLibrary/CardLibraryUI.cs` |
| `PlayerPoints` | `PlayerScripts/PlayerPointsUI.cs`: the knob row |
| `Seqs`, `Strings`, `GameTypes`, `Risks`, `Wrappers` | shared vocabulary: the list and string operations the code calls (`Contains`/`Add`, `Where`, `RemoveAt`, `Split`, `Trim`, `IsNullOrWhiteSpace`) and the shared enums and records |

How the model represents the program:
- `null` becomes `Option`.
- `Random.Range(a, b)` becomes a choice `:|` of any value in the range. A probability roll (`Random.value < p`) becomes an oracle parameter: the k-th roll is given as input.
- A remote procedure call is recorded in an output log field on the object that sends it.
- A coroutine or animation becomes a begin step and a complete step, or it completes at once.
- An exception the code would throw becomes an explicit failed outcome. The state changes the code makes before the exception are kept.
- Unity object identity (two risks with the same fields that are still different objects) becomes a `handle` field on the record.

## How the code differs from the game's design description

The game's design describes a phase machine: Lobby, Draw, Play, Vote, Resolve. In it, a round ledger is cleared each round, quorum checks advance the phases on their own, and a tally resolves the votes. The code implements much less, and the model follows the code:
- `GameManager.AdvanceTurnServerRpc` adds one to both the turn number and the crisis level. There is no phase field and no Resolve step. Any client may call it.
- A disconnect gives the role back to the end of the queue. It does not remove any played cards or votes.
- A second connect by a client that already holds an entry overwrites that entry. The role it held is lost from the pool (`RoleAssignment.ReconnectLosesRole`).
- `VotingManager` records votes and overwrites a repeat vote. It never tallies them, so the design's accept-on-tie policy is not in the code.
- Play-phase auto-advance is `GameScreenToGameBoardSync.CheckIfAllPlayersReady`. Its test is `playedCards.Count >= expectedPlayers && expectedPlayers > 0`. It sets a readiness flag; it does not move a phase.

## Model

| member | source | states |
|---|---|---|
| RoleAssignment.InitialPoolConserved | Assets/Scripts/Game/GameManager.cs:27-31 | the four roles queued by `Awake` are each accounted for exactly once (queued once, held by nobody) |
| RoleAssignment.ConnectConserves | Assets/Scripts/Game/GameManager.cs:55-84 | a connect by a client without an entry keeps every real role either queued once or held by exactly one client |
| RoleAssignment.ConnectKeepsRole | Assets/Scripts/Game/GameManager.cs:64-70 | the per-role form of the connect invariant: dequeuing a role and recording it for the new client keeps that role accounted for once |
| RoleAssignment.DisconnectConserves | Assets/Scripts/Game/GameManager.cs:86-98 | every disconnect, of a known or an unknown client, keeps every real role accounted for exactly once |
| RoleAssignment.DisconnectKeepsRole | Assets/Scripts/Game/GameManager.cs:88-96 | the per-role form: removing the entry and re-queuing a real role keeps that role accounted for once |
| RoleAssignment.HoldersAfterAdd | Assets/Scripts/Game/GameManager.cs:70 | recording a role for a new client adds that client to the holders of that role and to no other role's holders |
| RoleAssignment.HoldersAfterRemove | Assets/Scripts/Game/GameManager.cs:91 | removing a client's entry removes it from the holders of its role only |
| RoleAssignment.OnlyHolder | Assets/Scripts/Game/GameManager.cs:10-11 | under the invariant, a client holding a real role is the only holder of that role |
| RoleAssignment.RolesExclusive | Assets/Scripts/Game/GameManager.cs:10-11 | under the invariant, two different clients never hold the same real role |
| RoleAssignment.QueuedNotHeld | Assets/Scripts/Game/GameManager.cs:10-11 | under the invariant, a queued role is held by nobody and queued exactly once |
| RoleAssignment.ConnectOrder | Assets/Scripts/Game/GameManager.cs:27-31 | roles are handed out first in, first out: four distinct clients get Farming, Industry, Housing and Nature in that order, and the fifth client gets `None` |
| RoleAssignment.ConnectThenDisconnect | Assets/Scripts/Game/GameManager.cs:55-98 | a new client that connects and then disconnects leaves the role map as it was and moves the role it took to the back of the queue |
| RoleAssignment.ReconnectLosesRole | Assets/Scripts/Game/GameManager.cs:64-70 | a client id that connects twice without disconnecting overwrites its first role, so Farming is then neither queued nor held |
| RoleAssignment.GameManager.constructor | Assets/Scripts/Game/GameManager.cs:15-34 | starts with the queue Farming, Industry, Housing, Nature, no role entries, turn 1, crisis 0 and the role invariant holding |
| RoleAssignment.GameManager.OnClientConnected | Assets/Scripts/Game/GameManager.cs:55-84 | the host's own connect changes nothing; any other client gets the front role (or `None`), is sent that role and then the board state, and the invariant is kept |
| RoleAssignment.GameManager.OnClientDisconnected | Assets/Scripts/Game/GameManager.cs:86-98 | the client's entry is dropped, a real role goes back to the end of the queue, and nothing is sent |
| RoleAssignment.GameManager.AdvanceTurnServerRpc | Assets/Scripts/Game/GameManager.cs:139-149 | turn number and crisis level each go up by one, roles are untouched, and the new values are broadcast to all clients |
| PlayerClient.ParseCards | Assets/Scripts/Game/PlayerRoleController.cs:88-98 | a null or empty list gives no pending cards; otherwise the pending cards are the '\|'-separated pieces, none of which contains '\|' |
| PlayerClient.ParseCardsRoundTrip | Assets/Scripts/Game/PlayerRoleController.cs:94-97 | joining the parsed ids again with '\|' gives back any non-empty input string |
| PlayerClient.JoinedCardsParse | Assets/Scripts/Game/PlayerRoleController.cs:87-97 | a list of '\|'-free card ids sent as "id1\|id2\|..." is received as exactly that list |
| PlayerClient.Ballot | Assets/Scripts/Game/PlayerRoleController.cs:149-153 | voting on all cards sends one vote per pending card, in order, each with the same yes/no value |
| PlayerClient.PlayerRoleController.constructor | Assets/Scripts/Game/PlayerRoleController.cs:12-18 | starts with role `None`, resource level 0, phase Lobby, nothing pending and nothing sent |
| PlayerClient.PlayerRoleController.SetRole | Assets/Scripts/Game/PlayerRoleController.cs:41-52 | only the owning instance stores the role; nothing else changes |
| PlayerClient.PlayerRoleController.OnSectorStateUpdated | Assets/Scripts/Game/PlayerRoleController.cs:54-65 | only the owning instance stores the resource level; the role argument changes nothing |
| PlayerClient.PlayerRoleController.OnBoardStateUpdated | Assets/Scripts/Game/PlayerRoleController.cs:67-84 | the owner takes the new phase, and leaving the Vote phase clears the pending cards; a non-owner changes nothing |
| PlayerClient.PlayerRoleController.OnCardsToVoteOn | Assets/Scripts/Game/PlayerRoleController.cs:88-106 | the owner's pending cards become exactly the parsed list, replacing the old one |
| PlayerClient.PlayerRoleController.Update | Assets/Scripts/Game/PlayerRoleController.cs:108-119 | the P key sends a play request for the placeholder card only for the owner in the Play phase |
| PlayerClient.PlayerRoleController.RequestPlayCard | Assets/Scripts/Game/PlayerRoleController.cs:122-132 | a play request is sent in the Play phase and in no other phase |
| PlayerClient.PlayerRoleController.VoteOnAllCardsFromUI | Assets/Scripts/Game/PlayerRoleController.cs:135-161 | in the Vote phase with cards pending, the ballot for all of them is sent and the pending list is emptied; otherwise nothing changes |
| BoardSync.HostAloneNeverReady | Assets/Scripts/GameScreenToGameBoardSync.cs:82-87 | with only the host (the shared screen) connected there are no expected players, so no number of played cards makes the game ready |
| BoardSync.QuorumCountsRecords | Assets/Scripts/GameScreenToGameBoardSync.cs:85-87 | readiness is reached with exactly one record per connected client except the host and not with one fewer; records are counted, not distinct players |
| BoardSync.QuorumMonotone | Assets/Scripts/GameScreenToGameBoardSync.cs:87 | once enough cards have been played, more played cards keep the condition met |
| BoardSync.GameScreenToGameBoardSync.constructor | Assets/Scripts/GameScreenToGameBoardSync.cs:16-30 | starts with no played cards, not ready and no notification sent |
| BoardSync.GameScreenToGameBoardSync.ReportCardPlayed | Assets/Scripts/GameScreenToGameBoardSync.cs:54-63 | called on any peer; an unspawned object drops the report; from a spawned one the report acts on the server's instance, which gains the record, applies the readiness rule and sends the board-ready notice when the quorum is met |
| BoardSync.GameScreenToGameBoardSync.ReportCardPlayedServerRpc | Assets/Scripts/GameScreenToGameBoardSync.cs:65-75 | runs on the server's instance: the record (id, title, player, time) is appended last, and readiness is set and the board notified exactly when the record count meets the rule |
| BoardSync.GameScreenToGameBoardSync.CheckIfAllPlayersReady | Assets/Scripts/GameScreenToGameBoardSync.cs:77-93 | on the server, readiness becomes true (and is never cleared here) and one notification goes out exactly when the rule is met |
| BoardSync.GameScreenToGameBoardSync.GetPlayedCards | Assets/Scripts/GameScreenToGameBoardSync.cs:130-138 | returns every played card, in report order |
| BoardSync.GameScreenToGameBoardSync.ClearPlayedCardsServerRpc | Assets/Scripts/GameScreenToGameBoardSync.cs:143-151 | runs on the server's instance, whoever sends it: the list becomes empty and readiness false, with no notification |
| Voting.RecordVote | Assets/Scripts/VotingSystem/VotingManager.cs:45-55 | after a vote the proposal has a bucket holding that voter's vote; every other proposal's bucket and every other voter's vote is unchanged, and no other key appears |
| Voting.RepeatVoteOverwrites | Assets/Scripts/VotingSystem/VotingManager.cs:52 | a second vote by the same voter on the same proposal replaces the first one |
| Voting.VotesCommute | Assets/Scripts/VotingSystem/VotingManager.cs:47-52 | votes by different voters or on different proposals give the same table in either arrival order |
| Voting.VotingManager.constructor | Assets/Scripts/VotingSystem/VotingManager.cs:13-17 | starts with no proposals and no votes |
| Voting.VotingManager.OnNetworkSpawn | Assets/Scripts/VotingSystem/VotingManager.cs:19-25 | only the server seeds the two placeholder proposals; votes are untouched |
| Voting.VotingManager.CreatePlaceholderProposals | Assets/Scripts/VotingSystem/VotingManager.cs:27-42 | appends proposal 0 "Build Water Plant" by client 0 and then proposal 1 "Subsidize Farmers" by client 1 |
| Voting.VotingManager.SubmitVoteServerRpc | Assets/Scripts/VotingSystem/VotingManager.cs:45-55 | the vote table becomes the recorded-vote table for that proposal, voter and value; proposals are untouched |
| GameScreenFlow.GameScreen.constructor | Assets/Scripts/GameScreenController.cs:7-30 | the inspector references and options as given, no draw started, no card played, nothing requested |
| GameScreenFlow.GameScreen.Start | Assets/Scripts/GameScreenController.cs:32-38 | with auto-start on, the call has exactly the effect of `StartDrawPhase` (the `DrawPhaseStarted` step); with it off, none of the screen's state changes |
| GameScreenFlow.GameScreen.StartDrawPhase | Assets/Scripts/GameScreenController.cs:40-58 | runs at most once: the first call clears the played flag, shows the deck canvas, hides the voting panel and asks the deck for its draw sequence when a deck is assigned; later calls change nothing |
| GameScreenFlow.GameScreen.OnCardPlayed | Assets/Scripts/GameScreenController.cs:63-84 | accepts one card only: the first call syncs a card with a non-empty id, hides the deck canvas, shows the voting panel and schedules the end of voting when auto-finish is on; later calls change nothing |
| GameScreenFlow.GameScreen.FinishVoting | Assets/Scripts/GameScreenController.cs:89-103 | asks the flow manager for the next phase when one exists, and changes no screen state |
| GameFlow.NextIndex | Assets/Scripts/GameFlowManager.cs:55-67 | one step moves to the next scene, wrapping to the first when looping; without looping the index runs past the end exactly when leaving the last scene |
| GameFlow.StepsFrom | Assets/Scripts/GameFlowManager.cs:55-67 | while looping, the scene index after any number of steps stays inside the scene list |
| GameFlow.StepsForward | Assets/Scripts/GameFlowManager.cs:55 | before the end of the list is reached, each step advances the index by exactly one |
| GameFlow.StepsCompose | Assets/Scripts/GameFlowManager.cs:45-70 | `a` steps followed by `b` steps land on the same scene as `a + b` steps |
| GameFlow.LoopingCycles | Assets/Scripts/GameFlowManager.cs:57-67 | with looping on, a full round of as many steps as there are scenes returns to the same scene, and the first rounds visit the scenes in list order |
| GameFlow.GameFlowManager.constructor | Assets/Scripts/GameFlowManager.cs:8-30 | the inspector's scene list, or the field's initial list "GameScreen", "GameBoard" when none is set; the loop flag; index 0, not running, nothing loaded |
| GameFlow.GameFlowManager.StartGameplayFlow | Assets/Scripts/GameFlowManager.cs:32-43 | with an empty scene list nothing changes; otherwise the flow runs from index 0 and the first scene is loaded |
| GameFlow.GameFlowManager.GoNext | Assets/Scripts/GameFlowManager.cs:45-70 | ignored when not running; otherwise the index takes one step, the flow stops (loading nothing) when it ran off the end without looping, and the scene at the new index is loaded otherwise |
| GameFlow.GameFlowManager.LoadCurrent | Assets/Scripts/GameFlowManager.cs:72-77 | loads exactly the scene at the current index |
| ScreenFlow.GetNextScene | Assets/Scripts/ScreenFlowController.cs:147-154 | Screens leads to GameLibrary, GameLibrary to CardLibraryUI and CardLibraryUI to GameScreen (by the configured names, first match wins); any other scene has no successor |
| ScreenFlow.GetSharedScreenSceneFor | Assets/Scripts/ScreenFlowController.cs:159-170 | the shared screen follows the tablet only into the game screen, which maps to itself; every other scene gives null |
| ScreenFlow.DefaultChain | Assets/Scripts/ScreenFlowController.cs:8 | with the default names the tablet flow is Screens, GameLibrary, CardLibraryUI, GameScreen, and GameScreen is final |
| ScreenFlow.DefaultChainEnds | Assets/Scripts/ScreenFlowController.cs:147-154 | with the default names, following the successor from any scene ends within three steps: the flow has no cycle |
| ScreenFlow.ScreenFlowController.constructor | Assets/Scripts/ScreenFlowController.cs:15-34 | the given scene names and network mode, no current scene, not transitioning, nothing loading or sent |
| ScreenFlow.ScreenFlowController.Start | Assets/Scripts/ScreenFlowController.cs:36-41 | records the active scene as the current one and changes nothing else |
| ScreenFlow.ScreenFlowController.NavigateToNextScreen | Assets/Scripts/ScreenFlowController.cs:47-80 | ignored while transitioning or when the current scene has no (or an empty) successor; otherwise the successor is loaded locally when offline, broadcast by the server, or requested from the server by a client |
| ScreenFlow.ScreenFlowController.NavigateToScene | Assets/Scripts/ScreenFlowController.cs:85-109 | ignored while transitioning; otherwise the given scene is loaded locally when offline, broadcast by the server, or requested by a client |
| ScreenFlow.ScreenFlowController.Navigate | Assets/Scripts/ScreenFlowController.cs:62-79 | the three routes by network mode that both navigation methods share after their guards |
| ScreenFlow.ScreenFlowController.RequestSceneTransitionServerRpc | Assets/Scripts/ScreenFlowController.cs:111-115 | the server treats a client's request exactly as its own transition request |
| ScreenFlow.ScreenFlowController.TransitionToSceneServerRpc | Assets/Scripts/ScreenFlowController.cs:117-124 | unless already transitioning, tells every client to load the scene |
| ScreenFlow.ScreenFlowController.TransitionToSceneClientRpc | Assets/Scripts/ScreenFlowController.cs:126-130 | every receiver starts loading the scene, with no transition guard |
| ScreenFlow.ScreenFlowController.BeginTransition | Assets/Scripts/ScreenFlowController.cs:132-138 | marks a transition in progress and starts one more load of the scene |
| ScreenFlow.ScreenFlowController.CompleteTransition | Assets/Scripts/ScreenFlowController.cs:139-145 | when a started load finishes, its scene becomes current and the transition flag is cleared |
| RiskCreation.CountOn | Assets/Scripts/RiskCreationManager.cs:63-65 | the number of selected toggles is at most the number of toggles |
| RiskCreation.CountFour | Assets/Scripts/RiskCreationManager.cs:61-65 | the selection count over the four player toggles is the sum of one per toggle that is on |
| RiskCreation.SelectedPlayers | Assets/Scripts/RiskCreationManager.cs:119-123 | the selected players are exactly the numbers 1 to 4 whose toggle is on, each once, in increasing order |
| RiskCreation.Digits | Assets/Scripts/RiskCreationManager.cs:136 | each player number becomes one decimal text, in order |
| RiskCreation.CategoryRoundTrip | Assets/Scripts/RiskCreationManager.cs:136 | the category text "1, 3" made from the selected players determines them: reading it back gives the same players, and its length is three characters per player less two |
| RiskCreation.AllPlayersCategory | Assets/Scripts/RiskCreationManager.cs:119-136 | all four toggles on gives the category "1, 2, 3, 4" |
| RiskCreation.TrimAll | Assets/Scripts/RiskCreationManager.cs:150-151 | trimming every tag keeps the number of tags |
| RiskCreation.TagsShape | Assets/Scripts/RiskCreationManager.cs:146-152 | an empty tag input stores no tags; otherwise there is one tag per comma plus one, and no tag contains a comma or starts or ends with white space |
| RiskCreation.SaveResult | Assets/Scripts/RiskCreationManager.cs:109-193 | the save stops at the first failing check, in order: empty name, no player selected, no library, no list-item prefab; it succeeds exactly when all four pass |
| RiskCreation.CollectSelected | Assets/Scripts/RiskCreationManager.cs:119-123 | collecting toggle by toggle gives exactly the selected players |
| RiskCreation.ParseTags | Assets/Scripts/RiskCreationManager.cs:146-152 | splitting at commas and trimming each piece in place gives exactly the parsed tags |
| RiskCreation.RiskCreationManager.constructor | Assets/Scripts/RiskCreationManager.cs:8-27 | four toggles, all off and usable, no listed item, and the selection rule holding |
| RiskCreation.RiskCreationManager.Start | Assets/Scripts/RiskCreationManager.cs:29-57 | the panel starts hidden and the inputs are untouched |
| RiskCreation.RiskCreationManager.EnforceMaxSelection | Assets/Scripts/RiskCreationManager.cs:59-78 | with two or more players selected every unselected toggle is locked and selected ones keep their state; with fewer every toggle is usable; at most two selected leaves the selection rule holding |
| RiskCreation.RiskCreationManager.ClickToggle | Assets/Scripts/RiskCreationManager.cs:52-56 | a click on a usable toggle flips it and the listener re-applies the rule; a locked toggle ignores it; the at-most-two selection rule is preserved |
| RiskCreation.RiskCreationManager.ResetInputs | Assets/Scripts/RiskCreationManager.cs:90-100 | the three texts become empty and every toggle off; if any toggle changed, every toggle ends up usable; the selection rule is preserved |
| RiskCreation.RiskCreationManager.OpenRiskPanel | Assets/Scripts/RiskCreationManager.cs:80-88 | the panel (and overlay, when there is one) is shown with cleared inputs, and the selection rule is preserved |
| RiskCreation.RiskCreationManager.CloseRiskPanel | Assets/Scripts/RiskCreationManager.cs:102-107 | the panel and the overlay (when there is one) are hidden; the inputs are kept |
| RiskCreation.RiskCreationManager.SaveRisk | Assets/Scripts/RiskCreationManager.cs:109-193 | ends as the save result says; once both checks pass and a library exists, the freshly created risk (whose handle no registered risk has) is appended to the end of the library, which otherwise keeps its risks in order; only a full success replaces the listed item with the risk's name and closes the panel; inputs are never changed |
| RiskCreation.CountAfterFlip | Assets/Scripts/RiskCreationManager.cs:59-65 | flipping one toggle changes the selection count by exactly one, down if it was on and up if it was off |
| DisplayEffects.Effect.constructor | Assets/Scripts/EffectScripts/DisplayEffectManager.cs:21-30 | a new effect has its name, description, type and counts, with all its turns and uses remaining |
| DisplayEffects.Effect.TickTurn | Assets/Scripts/EffectScripts/DisplayEffectManager.cs:39-42 | a limited effect with turns left loses exactly one turn; any other effect keeps its turns; uses never change and remaining turns never go negative |
| DisplayEffects.Effect.Use | Assets/Scripts/EffectScripts/DisplayEffectManager.cs:44-48 | a limited effect with uses left loses one use, a single-use effect is used up (active then only while it has turns), a continuous effect is unchanged and stays active |
| DisplayEffects.TickAndCheck | Assets/Scripts/EffectScripts/DisplayEffectManager.cs:214-223 | one effect of the tick pass: a limited effect ticks a turn, and the result says exactly whether the effect is then to be removed |
| DisplayEffects.RemoveKeys | Assets/Scripts/EffectScripts/DisplayEffectManager.cs:226-234 | every collected name leaves both the side panel and the active table, and nothing else does |
| DisplayEffects.DisplayEffectManager.constructor | Assets/Scripts/EffectScripts/DisplayEffectManager.cs:65-73 | no active effects and the pool "Extra Point" (continuous), "Shield" (limited, two turns), "Instant Bonus" (single use), as new effects |
| DisplayEffects.DisplayEffectManager.UpdateSidePanelVisibility | Assets/Scripts/EffectScripts/DisplayEffectManager.cs:243-246 | the side panel is visible exactly when it holds at least one item |
| DisplayEffects.DisplayEffectManager.AddEffect | Assets/Scripts/EffectScripts/DisplayEffectManager.cs:78-96 | the effect becomes the active one under its name; a new name also gets a side-panel item, a known name keeps its item; the panel-matches-table invariant is kept |
| DisplayEffects.DisplayEffectManager.AddRandomEffect | Assets/Scripts/EffectScripts/DisplayEffectManager.cs:99-108 | an empty pool changes nothing; otherwise some pool effect is added under its name and removed from the pool at its position |
| DisplayEffects.DisplayEffectManager.TriggerEffect | Assets/Scripts/EffectScripts/DisplayEffectManager.cs:111-117 | an unknown name changes nothing; otherwise (with the animation's bookkeeping from lines 177-202) a limited effect ticks a turn, a single-use effect is used up, and a continuous one is unchanged; the counter the trigger does not use is kept; an effect that is then inactive leaves the panel and the table, which are otherwise unchanged |
| DisplayEffects.DisplayEffectManager.TriggerRandomEffect | Assets/Scripts/EffectScripts/DisplayEffectManager.cs:120-134 | with no panel items nothing changes; otherwise the effect of some panel item is triggered exactly as `TriggerEffect` does it (the shared `Triggered` step), and every other effect keeps its counters |
| DisplayEffects.DisplayEffectManager.CollectExpired | Assets/Scripts/EffectScripts/DisplayEffectManager.cs:211-224 | every limited effect ticks one turn, and the collected names are exactly the active effects that are then expired |
| DisplayEffects.DisplayEffectManager.RemoveAll | Assets/Scripts/EffectScripts/DisplayEffectManager.cs:226-236 | the collected names leave the active table and the panel, and the effects themselves are untouched |
| DisplayEffects.DisplayEffectManager.TickEffects | Assets/Scripts/EffectScripts/DisplayEffectManager.cs:209-237 | every limited effect ticks a turn; an effect stays exactly when it is not expired (limited with nothing left, or single-use with no uses); continuous effects always stay; no effect is added |
| EffectCreation.SubPanel.GetValues | Assets/Scripts/CreationUI/EffectManager.cs:27-66 | the values are the selected dropdown texts first, one per dropdown and in order, followed by the conditional values and then the plain inputs |
| EffectCreation.CollectConditional | Assets/Scripts/CreationUI/EffectManager.cs:38-53 | the loop over toggle / number pairs, which stops where the shorter array ends, collects exactly the conditional values of the visited pairs |
| EffectCreation.CollectPlain | Assets/Scripts/CreationUI/EffectManager.cs:55-63 | the loop over all input fields collects exactly the texts of the inputs that are neither conditional nor blank |
| EffectCreation.DropdownTexts | Assets/Scripts/CreationUI/EffectManager.cs:31-35 | one text per dropdown, in order, each the text of that dropdown's selected option |
| EffectCreation.Contribution | Assets/Scripts/CreationUI/EffectManager.cs:42-51 | one conditional pair adds at most one value |
| EffectCreation.PlainValuesMeaning | Assets/Scripts/CreationUI/EffectManager.cs:56-63 | every plain value is the text of a non-conditional, non-blank input, and every such input's text is among the plain values |
| EffectCreation.ConditionalClosedForm | Assets/Scripts/CreationUI/EffectManager.cs:40-52 | only the first two pairs can add anything: pair 0 as "Total number of times N" and pair 1 as "Every N turns", each when its toggle is on and its number is not blank; later pairs add nothing |
| EffectCreation.ConditionalCount | Assets/Scripts/CreationUI/EffectManager.cs:40-52 | the conditional part has exactly one value per contributing pair |
| EffectCreation.PlainCount | Assets/Scripts/CreationUI/EffectManager.cs:56-63 | the plain part has exactly one value per plain input |
| EffectCreation.PlainPositionsStep | Assets/Scripts/CreationUI/EffectManager.cs:56-63 | the plain positions of a list are those of all but its last input, plus the last one exactly when it is plain |
| EffectCreation.ContributingPairsStep | Assets/Scripts/CreationUI/EffectManager.cs:40-52 | the contributing pairs among the first n are those among the first n - 1, plus pair n - 1 exactly when it contributes |
| EffectCreation.ValuesCount | Assets/Scripts/CreationUI/EffectManager.cs:27-66 | a sub-panel yields one value per dropdown, one per contributing pair (none when an array is unset) and one per plain input |
| EffectCreation.SubTypeNames | Assets/Scripts/CreationUI/EffectManager.cs:215-221 | sub indices 0, 1 and 2 get three different kind names, and every other index is "Unknown" |
| EffectCreation.StoreOnlyThatSlot | Assets/Scripts/CreationUI/EffectManager.cs:201-213 | saving fills the (main, sub) slot and leaves every other slot as it was; the only new main key is the saved one |
| EffectCreation.FilterInputs | Assets/Scripts/CreationUI/EffectManager.cs:223-229 | the reported inputs are the inputs that are not blank and not "True" or "False", in their order |
| EffectCreation.EffectManager.constructor | Assets/Scripts/CreationUI/EffectManager.cs:128-146 | the form after `Awake` opens it: panel (and overlay) shown, empty texts, both dropdowns at 0, nothing saved |
| EffectCreation.EffectManager.CloseEffectPanel | Assets/Scripts/CreationUI/EffectManager.cs:148-152 | the panel, and the overlay when there is one, are hidden; saved effects and inputs are kept |
| EffectCreation.EffectManager.SaveEffect | Assets/Scripts/CreationUI/EffectManager.cs:196-233 | succeeds exactly when the selected (main, sub) panel exists: the record with the name, description, indices and panel values is stored at that slot alone, the kind name and the kept inputs are reported, and the panel closes; otherwise the lookup fails after an empty bucket was created for the main index |
| Cards.TypeLabels | Assets/Scripts/CardLibrary/CardData.cs:17-30 | the label is empty exactly for a value outside the three named categories, and the three named categories get three different labels |
| CardLibrary.AvailableMeaning | Assets/Scripts/CardLibrary/CardLibraryUI.cs:105-124 | a card is offered on the left exactly when it is in the library, passes the selected tab and its id is not chosen; library order is kept |
| CardLibrary.GridCellInverse | Assets/Scripts/CardLibrary/CardLibraryUI.cs:210-213 | the grid slot of a card is a column within the (at least one) columns and a row, from which its index is recovered, so no two cards share a slot |
| CardLibrary.Grid | Assets/Scripts/CardLibrary/CardLibraryUI.cs:132-149 | the grid holds one item per offered card |
| CardLibrary.CountersSum | Assets/Scripts/CardLibrary/CardLibraryUI.cs:301-305 | the three counters plus the cards of no named category add up to the number of chosen cards, and the leftover is zero exactly when every card has a named category |
| CardLibrary.WithoutIdMeaning | Assets/Scripts/CardLibrary/CardLibraryUI.cs:289-291 | removing all chosen cards with an id removes that id and no other from the id set, keeps ids distinct, removes one card when the id was present among distinct ids and none when it was absent |
| CardLibrary.WithoutIdLast | Assets/Scripts/CardLibrary/CardLibraryUI.cs:291 | removal by id treats the last card on its own: it is kept exactly when its id differs |
| CardLibrary.WithoutIdSet | Assets/Scripts/CardLibrary/CardLibraryUI.cs:291 | removal by id takes exactly that id out of the list's ids |
| CardLibrary.WithoutIdDistinct | Assets/Scripts/CardLibrary/CardLibraryUI.cs:291 | removal by id keeps the remaining ids distinct |
| CardLibrary.WithoutIdCount | Assets/Scripts/CardLibrary/CardLibraryUI.cs:291 | among distinct ids, removing a present id removes one card and removing an absent id changes nothing |
| CardLibrary.ChooseThenUnchoose | Assets/Scripts/CardLibrary/CardLibraryUI.cs:272-295 | choosing a new card and then clicking it on the right gives back the chosen list and the chosen-id set |
| CardLibrary.CountOfAppend | Assets/Scripts/CardLibrary/CardLibraryUI.cs:303-305 | counting a category over two lists adds up |
| CardLibrary.CountOfUniform | Assets/Scripts/CardLibrary/CardLibraryUI.cs:303-305 | a list of one category counts all its cards for that category and none for any other |
| CardLibrary.IdSetAppend | Assets/Scripts/CardLibrary/CardLibraryUI.cs:276-278 | appending a chosen card adds its id, and the ids stay distinct exactly when that id was new |
| CardLibrary.CardLibraryUI.constructor | Assets/Scripts/CardLibrary/CardLibraryUI.cs:46-55 | the given cards, or the dummy catalogue when none are given; nothing chosen, the "all" tab, and each side drawn when its widgets are assigned |
| CardLibrary.CardLibraryUI.RefreshAvailableList | Assets/Scripts/CardLibrary/CardLibraryUI.cs:97-152 | with its widgets assigned the left grid shows exactly the available cards, each at the slot of its position; otherwise nothing changes |
| CardLibrary.CardLibraryUI.UpdateCounters | Assets/Scripts/CardLibrary/CardLibraryUI.cs:301-315 | the three counters are the numbers of chosen projects, policies and short-term actions |
| CardLibrary.CardLibraryUI.RefreshChosenList | Assets/Scripts/CardLibrary/CardLibraryUI.cs:158-191 | with its widgets assigned the right list shows the chosen cards in order and the counters are updated; otherwise nothing changes, the counters included |
| CardLibrary.CardLibraryUI.OnCardClickedFromAvailable | Assets/Scripts/CardLibrary/CardLibraryUI.cs:272-282 | a card with an unchosen id is appended to the chosen list, its id joins the set and both sides are redrawn; a null card or a chosen id changes nothing; the list and set stay in agreement |
| CardLibrary.CardLibraryUI.OnCardClickedFromChosen | Assets/Scripts/CardLibrary/CardLibraryUI.cs:285-295 | a chosen id leaves the set and its one card leaves the list, and both sides are redrawn; a null card or an unchosen id changes nothing |
| CardLibrary.CardLibraryUI.ShowFilter | Assets/Scripts/CardLibrary/CardLibraryUI.cs:321-343 | the tab becomes the selected one and the left grid is redrawn for it; the chosen cards, the right list and the counters are untouched |
| CardLibrary.CardLibraryUI.SetCards | Assets/Scripts/CardLibrary/CardLibraryUI.cs:346-353 | the library becomes the given list (empty for null), nothing is chosen, and both sides are redrawn |
| CardLibrary.DummyIdsDistinct | Assets/Scripts/CardLibrary/CardLibraryUI.cs:57-91 | the 24 dummy cards have distinct ids |
| CardLibrary.BlockIds | Assets/Scripts/CardLibrary/CardLibraryUI.cs:61-89 | a block of dummy cards numbered letter + 1, 2, ... has distinct ids that all start with the block's letter |
| CardLibrary.DummyCardsShape | Assets/Scripts/CardLibrary/CardLibraryUI.cs:57-91 | the dummy catalogue has 24 cards, eight projects, eight policies and eight short-term actions |
| PlayerPoints.AddBounded | Assets/Scripts/PlayerScripts/PlayerPointsUI.cs:23-36 | adding raises the count by one exactly when it is between zero and the number of knobs, never past the knobs, and otherwise leaves it |
| PlayerPoints.RemoveBounded | Assets/Scripts/PlayerScripts/PlayerPointsUI.cs:69-77 | removing lowers the count by one exactly when it is positive, never below zero, and at zero or below changes nothing |
| PlayerPoints.StepsKeepShowing | Assets/Scripts/PlayerScripts/PlayerPointsUI.cs:23-77 | when the knobs show the count, both operations succeed and the knobs still show the count afterwards |
| PlayerPoints.AddThenRemove | Assets/Scripts/PlayerScripts/PlayerPointsUI.cs:23-77 | below capacity, a point added and then removed leaves count and knobs as they were |
| PlayerPoints.RemoveThenAdd | Assets/Scripts/PlayerScripts/PlayerPointsUI.cs:23-77 | above zero, a point removed and then added back leaves count and knobs as they were |
| PlayerPoints.PlayerPointsUI.constructor | Assets/Scripts/PlayerScripts/PlayerPointsUI.cs:9-21 | starts at 4 points with the first four knobs enabled, so with at least four knobs they show the count |
| PlayerPoints.PlayerPointsUI.UpdateVisualState | Assets/Scripts/PlayerScripts/PlayerPointsUI.cs:112-119 | knob i is enabled exactly when i is below the count |
| PlayerPoints.PlayerPointsUI.AddPoint | Assets/Scripts/PlayerScripts/PlayerPointsUI.cs:23-36 | below capacity the knob at the count is enabled and the count goes up; at capacity nothing changes; a negative count fails on the knob lookup |
| PlayerPoints.PlayerPointsUI.RemovePoint | Assets/Scripts/PlayerScripts/PlayerPointsUI.cs:69-77 | above zero the count goes down and the knob at the new count is disabled; a count above the knobs fails on the lookup after the decrement |
| Decks.Draw | Assets/Scripts/CardDeckScripts/DeckManager.cs:52-73 | an empty deck yields nothing and stays as it is; otherwise the drawn card followed by the rest is the deck |
| Decks.DrawAfterAdd | Assets/Scripts/CardDeckScripts/DeckManager.cs:28-73 | the deck is a queue: a card added at the back is drawn after every card already there |
| Decks.DrawInOrder | Assets/Scripts/CardDeckScripts/DeckManager.cs:52-73 | n successive draws from a deck with at least n cards give its first n cards in order and leave the rest |
| Decks.DeckManager.constructor | Assets/Scripts/CardDeckScripts/DeckManager.cs:8 | a new deck is empty |
| Decks.DeckManager.SetDeck | Assets/Scripts/CardDeckScripts/DeckManager.cs:22-25 | the deck becomes a copy of the given list |
| Decks.DeckManager.AddCard | Assets/Scripts/CardDeckScripts/DeckManager.cs:28-31 | one card is appended at the end |
| Decks.DeckManager.AddCards | Assets/Scripts/CardDeckScripts/DeckManager.cs:34-37 | the given cards are appended at the end, in their order |
| Decks.DeckManager.Shuffle | Assets/Scripts/CardDeckScripts/DeckManager.cs:40-49 | the shuffled deck has the same length and the same cards, each as often as before |
| Decks.DeckManager.DrawCard | Assets/Scripts/CardDeckScripts/DeckManager.cs:52-73 | the card handed out and the deck left are exactly those of a draw from the old deck |
| HexTiles.HexTile.constructor | Assets/Scripts/Game/HexTile.cs:5-12 | a new tile has its id and no risk |
| HexTiles.HexTile.SetRisk | Assets/Scripts/Game/HexTile.cs:41-59 | afterwards the tile holds exactly the given risk (setting the risk it already holds is a no-op); its id is unchanged |
| HexTiles.HexTile.ClearRisk | Assets/Scripts/Game/HexTile.cs:64-71 | afterwards the tile holds no risk |
| HexTiles.HexTile.HasRisk | Assets/Scripts/Game/HexTile.cs:84-87 | true exactly when `GetRisk` would return a risk |
| HexBoard.Column | Assets/Scripts/Game/HexBoardGenerator.cs:26-30 | column q holds the cells (q, r) for r from max(-R, -q-R) to min(R, -q+R), in increasing r, and is empty when that range is |
| HexBoard.ColumnsBeforeCells | Assets/Scripts/Game/HexBoardGenerator.cs:24-43 | the columns visited before q hold exactly the disc cells with a smaller q, in strictly increasing order |
| HexBoard.BoardIsDisc | Assets/Scripts/Game/HexBoardGenerator.cs:24-43 | the generated cells are exactly the cells within hexagonal distance R of the centre |
| HexBoard.BoardNoDup | Assets/Scripts/Game/HexBoardGenerator.cs:24-43 | no cell is generated twice |
| HexBoard.ColumnsBeforeCount | Assets/Scripts/Game/HexBoardGenerator.cs:24-29 | the number of cells visited before column q matches the closed-form running count of column lengths |
| HexBoard.TwiceBoardCount | Assets/Scripts/Game/HexBoardGenerator.cs:24-29 | the column lengths over the whole board add up to 3R(R+1)+1 |
| HexBoard.BoardSize | Assets/Scripts/Game/HexBoardGenerator.cs:17-44 | a board of radius R >= 0 has 3R(R+1)+1 tiles, and a negative radius gives none |
| HexBoard.DefaultBoardSize | Assets/Scripts/Game/HexBoardGenerator.cs:7 | the default radius of 3 gives 37 tiles |
| HexBoard.GenerateColumn | Assets/Scripts/Game/HexBoardGenerator.cs:29-42 | the inner loop makes one new empty tile per cell of column q, in increasing r, numbered on from the running id |
| HexBoard.HexBoardGenerator.constructor | Assets/Scripts/Game/HexBoardGenerator.cs:6-10 | the given radius and no tiles yet |
| HexBoard.HexBoardGenerator.GenerateHexCircle | Assets/Scripts/Game/HexBoardGenerator.cs:17-44 | appends one new, empty tile per board cell, in board order, numbered 0, 1, 2, ..., and keeps the tiles already listed |
| BoardRisks.EmptyCells | Assets/Scripts/Game/BoardRiskManager.cs:135-140 | exactly the registered cells holding no risk, in registration order, without repeats |
| BoardRisks.CellsWithAnyRisk | Assets/Scripts/Game/BoardRiskManager.cs:125-130 | exactly the registered cells holding a risk, in registration order, without repeats |
| BoardRisks.CellsPartition | Assets/Scripts/Game/BoardRiskManager.cs:125-140 | every registered cell is in exactly one of the empty list and the risky list, and their lengths add up to the number of cells |
| BoardRisks.PickDistinct | Assets/Scripts/Game/BoardRiskManager.cs:157-170 | picking up to `count` times without replacement yields min(count, available) distinct candidates (none for a count below one) |
| BoardRisks.BoardRiskManager.constructor | Assets/Scripts/Game/BoardRiskManager.cs:19-41 | every found tile is registered under its id, the last tile found with an id winning (`LastFound`); the ids are enumerated in the order their first tiles were found (`FirstFoundOrder`); every registered cell starts empty |
| BoardRisks.RegisterTiles | Assets/Scripts/Game/BoardRiskManager.cs:34-38 | the registration loop files each tile under its own id, lists each id once, keeps the last tile per id and lists ids in first-found order |
| BoardRisks.BoardRiskManager.AddRiskToCell | Assets/Scripts/Game/BoardRiskManager.cs:46-74 | a present risk on a registered cell replaces what the cell held, in the table and on its tile; a null risk or unknown id changes nothing; other tiles are untouched |
| BoardRisks.BoardRiskManager.RemoveRiskFromCell | Assets/Scripts/Game/BoardRiskManager.cs:79-95 | a registered cell becomes empty in the table and on its tile; an unknown id changes nothing; other tiles are untouched |
| BoardRisks.BoardRiskManager.GetRiskOnCell | Assets/Scripts/Game/BoardRiskManager.cs:100-106 | a registered cell's risk (null when it is empty), and null for an unknown cell |
| BoardRisks.BoardRiskManager.GetCellWithRisk | Assets/Scripts/Game/BoardRiskManager.cs:111-120 | the first cell in enumeration order whose value equals the argument, or -1 when none does; asking for null finds the first empty cell |
| BoardRisks.BoardRiskManager.GetEmptyCells | Assets/Scripts/Game/BoardRiskManager.cs:135-140 | the empty cells, without repeats |
| BoardRisks.BoardRiskManager.GetCellsWithAnyRisk | Assets/Scripts/Game/BoardRiskManager.cs:125-130 | the cells holding a risk, without repeats |
| BoardRisks.BoardRiskManager.GetRandomEmptyCellId | Assets/Scripts/Game/BoardRiskManager.cs:145-152 | -1 when no cell is empty, otherwise some empty registered cell |
| BoardRisks.BoardRiskManager.GetRandomEmptyCells | Assets/Scripts/Game/BoardRiskManager.cs:157-170 | min(count, empty cells) distinct empty cells |
| BoardRisks.BoardRiskManager.GetHexTile | Assets/Scripts/Game/BoardRiskManager.cs:175-181 | the tile registered under the id, and null exactly when the id is unknown |
| BoardRisks.BoardRiskManager.GetRandomCellId | Assets/Scripts/Game/BoardRiskManager.cs:186-193 | -1 when no cell is registered, otherwise some registered cell |
| BoardRisks.BoardRiskManager.GetRandomCells | Assets/Scripts/Game/BoardRiskManager.cs:198-211 | min(count, registered cells) distinct registered cells |
| BoardRisks.BoardRiskManager.RegisteredCount | Assets/Scripts/Game/BoardRiskManager.cs:14-17 | the registration order lists each registered cell once, so it is as long as the tile table |
| BoardRisks.BoardRiskManager.ClearAllCells | Assets/Scripts/Game/BoardRiskManager.cs:216-224 | afterwards every registered cell and every registered tile is empty, and no cell is added or dropped |
| BoardRisks.BoardRiskManager.AddRandomRiskToRandomCell | Assets/Scripts/Game/BoardRiskManager.cs:226-242 | with no library, an empty library or no empty cell nothing changes; otherwise (unless the only empty cell has id -1, the "none" value) one formerly empty cell receives a risk from the library, on the table and on its tile; every cell whose entry did not change keeps its tile's risk |
| BoardRisks.DistinctCount | Assets/Scripts/Game/BoardRiskManager.cs:14-17 | a list of cell ids without repeats has as many ids as elements |
| RiskTurns.Triggered | Assets/Scripts/RiskDisasterSystem/RiskManager.cs:15-28 | the triggered risks are a subsequence of the active risks, so never more of them |
| RiskTurns.TriggeredExtend | Assets/Scripts/RiskDisasterSystem/RiskManager.cs:19-25 | a risk that triggers extends the result and the list it was picked from alike |
| RiskTurns.TriggeredMembers | Assets/Scripts/RiskDisasterSystem/RiskManager.cs:19-25 | a risk is triggered exactly when some occurrence of it in the active list passes its roll |
| RiskTurns.TriggeredExtremes | Assets/Scripts/RiskDisasterSystem/RiskManager.cs:19-25 | when every roll passes all active risks trigger, in order; when none does, none trigger |
| RiskTurns.RiskManager.constructor | Assets/Scripts/RiskDisasterSystem/RiskManager.cs:6-7 | starts at turn 1 with no active risks |
| RiskTurns.RiskManager.AdvanceTurn | Assets/Scripts/RiskDisasterSystem/RiskManager.cs:9-12 | the turn goes up by exactly one and the risks are kept |
| RiskTurns.RiskManager.AddRisk | Assets/Scripts/RiskDisasterSystem/RiskManager.cs:30-33 | the risk is appended at the end of the active list |
| RiskTurns.RiskManager.GetTriggeredRisks | Assets/Scripts/RiskDisasterSystem/RiskManager.cs:15-28 | one roll per active risk in list order; the result is the risks whose roll passed, in order, and the manager is unchanged |
| Disasters.Possible | Assets/Scripts/RiskDisasterSystem/DisasterManager.cs:15-17 | the candidates are exactly the disasters that require at least one active tag |
| Disasters.FirstPassing | Assets/Scripts/RiskDisasterSystem/DisasterManager.cs:19-25 | the first candidate whose roll passes, and null exactly when no roll passes |
| Disasters.ChosenDisasterMatches | Assets/Scripts/RiskDisasterSystem/DisasterManager.cs:9-26 | a chosen disaster is one of the known disasters and requires a tag that some triggered risk carries |
| Disasters.NoTagsNoDisaster | Assets/Scripts/RiskDisasterSystem/DisasterManager.cs:11-17 | without any tag among the triggered risks (in particular with none triggered) no disaster happens |
| Disasters.CertainChancePicksFirstMatch | Assets/Scripts/RiskDisasterSystem/DisasterManager.cs:15-23 | when the first roll passes, the first disaster in the list that matches the active tags is the one chosen |
| Disasters.FirstMatchLeads | Assets/Scripts/RiskDisasterSystem/DisasterManager.cs:15-17 | the first matching disaster heads the candidate list |
| Disasters.NoMatchNoCandidates | Assets/Scripts/RiskDisasterSystem/DisasterManager.cs:15-17 | when no disaster matches there are no candidates |
| Disasters.SharedTagTriggers | Assets/Scripts/RiskDisasterSystem/DisasterManager.cs:9-26 | a single disaster that shares a tag with a triggered risk is chosen when its roll passes |
| Disasters.DisasterManager.constructor | Assets/Scripts/RiskDisasterSystem/DisasterManager.cs:7 | holds the given disasters |
| Disasters.DisasterManager.CalculateDisaster | Assets/Scripts/RiskDisasterSystem/DisasterManager.cs:9-26 | the first candidate in list order whose roll passes, or null; any result is a known disaster requiring an active tag |
| RiskRegistry.RiskLibrary.constructor | Assets/Scripts/RiskDisasterSystem/RiskLibrary.cs:9 | holds the given risks |
| RiskRegistry.RiskLibrary.Awake | Assets/Scripts/RiskDisasterSystem/RiskLibrary.cs:11-21 | an empty list is filled with the risks loaded from the resource folder; a list with entries is kept |
| RiskRegistry.RiskLibrary.RegisterRisk | Assets/Scripts/RiskDisasterSystem/RiskLibrary.cs:23-27 | a new risk is appended at the end; a registered one leaves the list unchanged |
| RiskTiles.RiskTile.constructor | Assets/Scripts/RiskDisasterSystem/RiskTileAssigner.cs:11-12 | a tile with its owner and no risk |
| RiskTiles.PlayerTiles | Assets/Scripts/RiskDisasterSystem/RiskTileAssigner.cs:11 | exactly the board tiles owned by the player |
| RiskTiles.EmptyTiles | Assets/Scripts/RiskDisasterSystem/RiskTileAssigner.cs:12 | exactly the given tiles that are empty |
| RiskTiles.FreeTilesFound | Assets/Scripts/RiskDisasterSystem/RiskTileAssigner.cs:11-15 | the two filters find a tile exactly when the player owns an empty tile |
| RiskTiles.RiskTileAssigner.constructor | Assets/Scripts/RiskDisasterSystem/RiskTileAssigner.cs:7 | holds the given board tiles |
| RiskTiles.RiskTileAssigner.AssignRiskToPlayer | Assets/Scripts/RiskDisasterSystem/RiskTileAssigner.cs:9-20 | succeeds exactly when the player owns an empty tile; then one such tile receives the risk and every other tile keeps its risk; on failure no tile changes |
| CardCreation.ProjectCard.constructor | Assets/Scripts/ProjectCard.cs:8-13 | a new card asset with its name and no risks |
| CardCreation.CardCreationController.constructor | Assets/Scripts/CardCreationController.cs:6-7 | edits the given card, with an empty preview |
| CardCreation.CardCreationController.AddRiskToCard | Assets/Scripts/CardCreationController.cs:15-22 | a risk the card lacks is appended and the preview then shows the new list; a risk already on the card changes neither the card nor the preview |
| Strings.Split | Assets/Scripts/Game/PlayerRoleController.cs:96 | `string.Split` on one separator gives one piece per separator plus one, and no piece contains the separator |
| Strings.JoinSplit | Assets/Scripts/Game/PlayerRoleController.cs:96 | joining the pieces of a split with the separator gives the input back |
| Strings.SplitPrefix | Assets/Scripts/RiskCreationManager.cs:148 | splitting a separator-free prefix followed by more text glues the prefix onto the first piece of the rest |
| Strings.SplitJoin | Assets/Scripts/Game/PlayerRoleController.cs:96 | splitting a join of separator-free parts gives the parts back |
| Strings.TrimStart | Assets/Scripts/RiskCreationManager.cs:151 | the leading-trim is a suffix of the input that does not start with white space |
| Strings.TrimEnd | Assets/Scripts/RiskCreationManager.cs:151 | the trailing-trim is a prefix of the input that does not end with white space |
| Strings.TrimStartDropsWhiteSpace | Assets/Scripts/RiskCreationManager.cs:151 | everything the leading-trim drops is white space |
| Strings.TrimEndDropsWhiteSpace | Assets/Scripts/RiskCreationManager.cs:151 | everything the trailing-trim drops is white space |
| Strings.Trim | Assets/Scripts/RiskCreationManager.cs:151 | a trimmed tag is no longer than the piece and neither starts nor ends with white space |
| Strings.TrimShape | Assets/Scripts/RiskCreationManager.cs:151 | a trimmed tag is the slice of the piece that follows its leading white space |
| Strings.TrimKeepsOut | Assets/Scripts/RiskCreationManager.cs:148-151 | a character absent from a piece (the comma) is absent from its trimmed form |
| Strings.TrimCutsWhiteSpace | Assets/Scripts/RiskCreationManager.cs:151 | everything trimming cuts off, on either side, is white space |
| Strings.TrimEmptyIffBlank | Assets/Scripts/CreationUI/EffectManager.cs:46 | trimming gives the empty string exactly when the text is blank (the `IsNullOrWhiteSpace` test) |
| Strings.TrimStartLength | Assets/Scripts/RiskCreationManager.cs:151 | the leading-trim drops exactly the leading white space |
| Strings.TrimIdempotent | Assets/Scripts/RiskCreationManager.cs:151 | trimming a trimmed tag changes nothing |
| Strings.DigitString | Assets/Scripts/RiskCreationManager.cs:136 | a player number from 0 to 9 is written as its one decimal digit |
| Seqs.AddIfAbsent | Assets/Scripts/RiskDisasterSystem/RiskLibrary.cs:25-26 | the list afterwards contains the element, grows by at most that one element at the end, is unchanged exactly when the element was present, and stays duplicate-free |
| Seqs.AddIfAbsentIdempotent | Assets/Scripts/CardCreationController.cs:17-20 | adding the same risk to a card a second time changes nothing |
| Seqs.Filter | Assets/Scripts/Game/BoardRiskManager.cs:127-139 | a `Where` keeps exactly the elements that pass, none added |
| Seqs.FilterNoDup | Assets/Scripts/Game/BoardRiskManager.cs:127-139 | filtering a duplicate-free list of cells gives a duplicate-free list |
| Seqs.FilterIsSubseq | Assets/Scripts/Game/BoardRiskManager.cs:127-139 | what a `Where` keeps is a subsequence of its input: order is preserved |
| Seqs.FilterComplement | Assets/Scripts/Game/BoardRiskManager.cs:127-139 | the elements that pass a test and those that fail it together number as many as the list |
| Seqs.RemoveAt | Assets/Scripts/Game/BoardRiskManager.cs:166 | `RemoveAt(k)` drops position k and keeps the rest in order |
| Seqs.RemoveAtNoDup | Assets/Scripts/Game/BoardRiskManager.cs:164-166 | removing a picked position from a duplicate-free list drops exactly that element, so it cannot be picked again |

## Left out

- Integer width: the C# `int` and `ulong` fields are modelled as unbounded `int`/`nat`. The turn counter, crisis level, points and counters cannot realistically overflow in a game.
- Floating point: positions, sizes, heights, colours, durations, the hex layout's world coordinates and the escalating probability `baseProbability + escalationRate * currentTurn` are not modelled.
- RiskTurns.RiskManager.GetTriggeredRisks: each risk's `Random.value` comparison is replaced by a roll oracle. The model therefore does not capture how the chance grows with `currentTurn`. `currentTurn` is only counted (`AdvanceTurn`).
- Disasters.DisasterManager.CalculateDisaster: the `baseChance` roll is a roll oracle, for the same reason.
- Decks.DeckManager.Shuffle: each swap partner is any position at or after the current one. The model proves the result is a permutation, but not that it is uniformly distributed.
- Rendering, logging and UI wiring: `Debug.Log`, text labels (including the "/20" and "/40" counter texts), sprites, icon loading and colours, `HexTile` height and colour updates, prefab instantiation, and the card-library item view are not modelled. When an item view prefab lacks its component, the code skips the item; the model does not represent this.
- Engine lifecycle: singleton `Instance` handling, `DontDestroyOnLoad`, `Awake`/`OnNetworkSpawn`/`OnNetworkDespawn`/`OnDestroy` callback subscriptions are not modelled. The parts that initialise state are the constructors. `PlayerRoleController`'s `Awake` and `OnNetworkSpawn` are left out.
- Network transport: RPC delivery, `NetworkList` change events and client-side RPC bodies are not modelled. `SendRoleToClientClientRpc` and `BroadcastBoardStateClientRpc` only forward to another component. Sends are recorded as log entries on the sender.
- `BoardSync`: `AreAllPlayersReady` (a field read), the list-change handlers, `TriggerGameBoardDisplay` and `OnPlayedCardsChanged` only log or read a field, and are not modelled.
- `GameScreenFlow`: `deckManager.DrawCustomSequence()` is not defined anywhere in the repository. It is modelled only as the event of requesting the draw.
- `RiskTiles`: the `RiskTile` component's definition is not part of this model. The model's `RiskTile` is assumed to have an owner id and to be empty exactly when it holds no current risk.
- Coroutines and animations: the scene fade and load, the effect animation, and the points `Animate`/`ScaleRoutine` are modelled as completing at once or as explicit begin/complete steps. `Animate`/`ScaleRoutine` are never called.
- `EffectCreation`: `ResetAllInputs`, the sub-panels' `Reset`/`Init`, `OnMainDropdownChanged`, `OnSubDropdownChanged`, `UpdatePanels`, `UpdateSubPanels` and `ShowSubPanel` only show or hide panels and reset widgets. They are not modelled. `OpenEffectPanel` is covered only by the state the constructor sets up.
- `RiskCreation`: `OnAddRiskButtonPressed` only opens a panel and is not modelled. Unassigned (null) inspector references are assumed to be assigned. A null `disasterTags` list is represented as the empty list.
- BoardSync.CardPlayData: card ids and titles are unbounded strings. The source stores them as 64- and 128-byte fixed strings (`FixedString64Bytes`, `FixedString128Bytes`), which cannot hold longer text; that failure is not modelled.
- BoardSync.GameScreenToGameBoardSync.ReportCardPlayed: delivery of the server RPC is an immediate call on the server's instance; a report delayed or reordered in transit is not modelled.
- BoardSync.GameScreenToGameBoardSync.ReportCardPlayedServerRpc: the `float` reading of `Time.time` is an integer parameter supplied by the caller.
- BoardRisks.BoardRiskManager: `Dictionary` enumeration order (used by `GetCellWithRisk`, `GetEmptyCells`, `GetCellsWithAnyRisk`, `GetRandomCellId`, `GetRandomCells` and `ClearAllCells`) is modelled as first-registration order. .NET keeps that order only while no key is removed. This manager never removes a key, but the language does not guarantee the order.
- CardLibrary.CardLibraryUI.SetCards: the source keeps a reference to the caller's list, so the caller's later changes to that list show up in the library. The model copies the list and does not capture this aliasing.
- Concurrency: Unity runs all of these callbacks on one thread, and the model treats each call as atomic.
