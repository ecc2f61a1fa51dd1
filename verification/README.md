# Rushsite in Dafny

A Dafny model of the stateful parts of Rushsite, with proofs about every run of them. Verify it with
`dafny verify dfyconfig.toml`.

| files | what they model |
|---|---|
| `VetoEngine`, `VetoBallots`, `MapVeto`, `RushRooms`, `RoomVeto`, `RoomLands` | the veto engine and its ballots, the map vetoes made with it, the Rush room veto and where its rooms end up |
| `SeriesVeto`, `SeriesRooms`, `SeriesSides`, `SeriesExact`, `SeriesDone`, `DefaultSeries`, `BetweenMaps` | the room veto of a whole Rush series: which are made, which team plays which side, which can be finished, what every finished one ends in, the format the site ships, and formats with steps between maps |
| `RushScript`, `RushTracker`, `RushMatch` | the game script of a Rush match, the tracker and room plan of the match plugin, and the two side by side over any run |
| `MatchTeams`, `FirstTo`, `Series` | first to N rounds with overtime, and map wins and totals of a series |
| `Slots`, `HostManager`, `Updater`, `HostAgent`, `HostRuns`, `HostEffects` | the host agent: ports, servers, stops, updates and restarts, as a state machine of its locked sections and what runs between them |
| `StateStore` | background saving of match state |
| `Glicko`, `GlickoExpected` | Glicko-2 ratings over the reals, and the formulas they are compared with |
| `Bytes`, `Vpk`, `VpkFiles`, `Resource` | VPK trees, their three readers and the packer, and swapping the script inside a compiled resource |
| `Room` | the match room of the web client |
| `Common` | result types and facts about filtered sequences |

Classes stand for objects whose methods change fields, and each method is proved against a function of the old
state. The results about whole runs are lemmas about those functions. In the two concurrent parts a run is any
list of steps: a section under a lock is one step, and launches, process exits, writes and everything else that
happens outside the locks are steps of their own. A step that is not possible changes nothing.

What comes from outside is a parameter: votes, tie breaks and the coin flip, what the game engine reports, which
ports the host can bind, whether a launch, a write or SteamCMD works, checksums, and `exp`, `log` and `sqrt`.

Some places where a reader may expect more of the code are proved as they are, each with an input and the exact
condition.

- An agent that dies between a launch and its publication loses that server: a live process survives exactly when its
  launch was published (`HostRuns.LostLaunch`, `HostRuns.KeptIffPublished`).
- The game script misses a restart when the first round ended and the next has not started
  (`RushMatch.MissedRestart`, `RushMatch.RestartInSyncIff`), and without a round count to drop from a restart keeps the
  owners of the rooms (`RushMatch.PressSurvivesRestart`, `RushMatch.FullResetIff`).
- The validation of a series format takes steps between two maps, with which the rooms can run out before the veto is
  finished or before its last map is filled. Whole step maps never do either (`BetweenMaps.BetweenEndsIn`,
  `SeriesExact.FinishesIff`, `SeriesDone.FinishedSeriesIsGood`, `SeriesDone.WholeSeriesIsGood`).
- A first to N match, and a series, can go on after nobody can catch the leader any more, when rounds were drawn or maps
  had no winner (`FirstTo.DrawsDelay`, `FirstTo.DecidedLateIff`, `Series.OverLateIff`).
- A bo3 map veto leaves one decider only from pools of up to seven maps (`MapVeto.FinishedMapVeto`).
- Once a match is over, the order of messages decides which final status the room shows, exactly when they say
  different ones (`Room.OverOrderMatters`, `Room.OrdersAgreeIff`).

## Model

| member | source | states |
|---|---|---|
| `VetoEngine.TallyVotes` | packages/shared/src/veto/bo3.ts:142-162 | The counting loop gives a thing on offer with the most votes among the votes for things on offer, drawn among the leaders in pool order, and says whether a tie was broken or nobody voted. It fails only when nothing is on offer. |
| `VetoEngine.TallyIsPlurality` | packages/shared/src/veto/bo3.ts:151-161 | The chosen thing is on offer and nothing on offer has more votes. With no counted vote every offer is a leader. |
| `VetoEngine.CastInv` | packages/shared/src/veto/bo3.ts:132-139 | A vote or a changed vote keeps the invariant, becomes the vote of that player, and changes nothing else. |
| `VetoBallots.CastIff` | packages/shared/src/veto/bo3.ts:132-139 | A vote counts exactly for a player of the acting team and a thing on offer, before done. |
| `VetoBallots.BallotsAreLastVotes` | packages/shared/src/veto/bo3.ts:132-139 | While a step lasts, whatever was sent, its ballots are the last accepted vote of each voter and nobody else has one. Nothing but the ballots changes. |
| `VetoBallots.StepEndsIff` | packages/shared/src/veto/bo3.ts:186-190 | A step ends exactly with a submitted vote that counts and completes the ballots of the acting team, or with a timeout that has something to take. |
| `VetoBallots.EntryHoldsVotes` | packages/shared/src/veto/bo3.ts:164-184 | The history entry of a step holds the last vote of everybody who voted in it, the one that ended it included, with the action and team of the step. |
| `VetoBallots.LeadersAre` | packages/shared/src/veto/bo3.ts:155-157 | A draw is among exactly the things that nothing on offer beats, in the order of the pool. |
| `VetoBallots.BallotCounts` | packages/shared/src/veto/bo3.ts:146-150 | One more ballot is one more vote for what it names and for nothing else. |
| `VetoBallots.TallyDraws` | packages/shared/src/veto/bo3.ts:158-161 | Of n leaders a draw in its i-th n-th takes number i, and a tie was broken exactly when somebody voted and two things lead. |
| `VetoEngine.ResolveInv` | packages/shared/src/veto/bo3.ts:164-184 | Resolving a step keeps the invariant: each history entry was a plurality of legal votes over what was on offer then, available is the pool in order minus the history, maps is empty until done. |
| `VetoEngine.ApplyInv` | packages/shared/src/veto/bo3.ts:132-190 | Every vote, vote that completes a step, or timeout keeps the invariant and only ever appends to the history. |
| `VetoEngine.RunInv` | packages/shared/src/veto/bo3.ts:81-190 | The invariant holds after every list of events, with any tie breaks. |
| `VetoEngine.ChoicesAreDistinct` | packages/shared/src/veto/bo3.ts:164-184 | Nothing is chosen twice, each choice is from the pool of its step, and available is exactly the unchosen rest with no repeats. |
| `VetoEngine.ResolveNeverThrows` | packages/shared/src/veto/bo3.ts:120-124 | Before done, a step that offers more than earlier steps could take always resolves. |
| `VetoEngine.TimeoutsFinish` | packages/shared/src/veto/bo3.ts:164-184 | Any state can be run to done by timeouts alone, one per step left. |
| `VetoEngine.MapVetoCoverable` | packages/shared/src/veto/bo3.ts:92-107 | Steps without phases that the size check accepts on a pool never run out of things to offer. |
| `MapVeto.CreatedExactly` | packages/shared/src/veto/bo3.ts:24-107 | A map veto is made exactly for a pool with no repeats of at least 1, 2, 8 or 5 maps for its format and members with no repeats. The size check never refuses what a step builder gives. |
| `MapVeto.MapVetoRuns` | packages/shared/src/veto/bo3.ts:24-190 | Every run of a map veto keeps the invariant, its pool, the steps of its format and steps that cannot run out of maps. |
| `MapVeto.FinishedMapVeto` | packages/shared/src/veto/bo3.ts:24-190 | A finished map veto was played by the teams in turn and leaves its picks and then its deciders: one map of a bo1, seven of a ban to seven, and two picks with one decider of a bo3. From more than seven maps a bo3 leaves all but six. |
| `VetoEngine.FinalMaps` | packages/shared/src/veto/bo3.ts:182 | Once done, maps is the picks in order and then the maps nobody took: exactly the pool minus the bans, with no repeats. |
| `MapVeto.MapOrder` | packages/shared/src/veto/bo3.ts:17-182 | A bo3 bans twice, picks twice and bans again, its first pick is the first map and its second the second, and the deciders follow in the order of the pool. The other formats only ban. |
| `RoomVeto.RoomVetoSteps` | packages/shared/src/veto/rooms.ts:8-31 | The loops over phases, actions and teams give the steps of the specification, or fail exactly when it does: a phase with as many steps as rooms, or more picks than slots for a team. |
| `RoomLands.PhaseSteps` | packages/shared/src/veto/rooms.ts:8-31 | Which phases are taken, counted over their actions: fewer actions in the sequence than rooms, and slots for the picks each team has in turn. The steps are the sequence, then bans down to one room, with the teams taking turns over the whole veto. |
| `RoomVeto.RoomRuns` | packages/shared/src/veto/rooms.ts:33-38 | Every run from a created room veto keeps the engine invariant and its steps, phases and pool. |
| `RoomVeto.ComputeRoomSlots` | packages/shared/src/veto/rooms.ts:59-79 | The slot-filling loops give castles, each pick in the slot it was aimed at, and the leftovers of finished phases in the slots still open. |
| `RoomVeto.PreviewIsWhereItLands` | packages/shared/src/veto/rooms.ts:91-97 | The slot previewed for the current pick is the slot where the resolved room then appears, with its team. |
| `RoomLands.PickLands` | packages/shared/src/veto/rooms.ts:59-69 | Every pick has a slot of its team and phase, the first pick the first and so on, and shows there unless a later pick is aimed at the same slot. |
| `RoomLands.PreviewIff` | packages/shared/src/veto/rooms.ts:91-97 | There is a slot to preview exactly for a pick: the next one its team has in the phase. |
| `RoomLands.LeftoversWait` | packages/shared/src/veto/rooms.ts:51-79 | A slot no pick is aimed at stays as it was while every phase whose leftovers may go there has steps left. |
| `RoomLands.LeftoverShows` | packages/shared/src/veto/rooms.ts:51-79 | Once that phase is over the slot shows the room number j that is left of it, for its j-th leftover slot. |
| `RoomVeto.RoomVetoCoverable` | packages/shared/src/veto/rooms.ts:8-38 | No step of a room veto runs out of rooms, in any phase. |
| `RoomVeto.LeftExact` | packages/shared/src/veto/rooms.ts:52-79 | Once done, a phase has left over exactly its pool size less its steps. |
| `RoomVeto.RoomsDiffer` | packages/shared/src/veto/rooms.ts:59-79 | Once done, two slots never show the same room. |
| `RoomVeto.CoveringFormatsEndInAPath` | packages/shared/src/veto/rooms.ts:112-119 | A format whose picks and leftovers cover slots 1 to 5 with rooms of the right kind ends every run in rooms the server accepts. It never throws. |
| `RoomVeto.DefaultFormatCovers` | packages/shared/src/config/rush-veto.ts:35-63 | The format the site ships is such a format, whichever team begins. |
| `RoomLands.DefaultLands` | packages/shared/src/config/rush-veto.ts:35-63 | A finished veto of the shipped room format, slot by slot: which steps pick, who acts, whose pick is in which of slots 1, 2, 4 and 5, and in slot 3 the start room nobody banned. |
| `RushRooms.GoodSlotsPath` | packages/shared/src/veto/rooms.ts:99-119 | Slots with the castles at the ends, a start room in slot 3, mid rooms elsewhere and no repeats read off, in order, as a path the server rule accepts. |
| `RoomLands.RoomsForMatch` | packages/shared/src/veto/rooms.ts:112-119 | A room veto gives the rooms for the match exactly when it is done, the castles are at the ends, a start room is in slot 3, mid rooms are elsewhere and no room repeats: those rooms, slot by slot. |
| `RushRooms.FillLeftovers` | packages/shared/src/veto/rooms.ts:70-77 | The leftover loop fills only slots that are still open, each with the room of its own place in the order. |
| `RushRooms.FillFacts` | packages/shared/src/veto/rooms.ts:70-77 | What the leftover loop may change: a slot that is taken stays, an open one gets the room at its place, and none that has a room for it stays open. |
| `RushRooms.LastAimed` | packages/shared/src/veto/rooms.ts:64-69 | The pick a slot shows is the last one aimed at it, and none was aimed there later. |
| `SeriesVeto.CheckMap` | packages/shared/src/veto/series-rooms.ts:53-64 | The counting loop accepts a map exactly when its counts of side, start and mid steps are allowed and its side choice comes first. |
| `SeriesVeto.ValidateSeriesRoomFormat` | packages/shared/src/veto/series-rooms.ts:47-70 | The validation loops accept exactly the formats of the specification, with step maps of any kind, in parts of a map, so steps may lie between two maps. |
| `SeriesVeto.BuildSteps` | packages/shared/src/veto/series-rooms.ts:80-87 | The step loop makes one phase per map and kind, in order of first use, and each step points at its phase. |
| `SeriesVeto.CountTeamMids` | packages/shared/src/veto/series-rooms.ts:88-93 | The filter over the steps built says whether no team picks more mid rooms on a map than it has slots. |
| `SeriesVeto.CreateSeriesRoomVeto` | packages/shared/src/veto/series-rooms.ts:72-97 | Creating a series veto gives the state, or the failure, of the specification, which SeriesExact.CreatedIff makes exact. |
| `SeriesExact.WholeCreatedIff` | packages/shared/src/veto/series-rooms.ts:72-97 | With whole step maps a series veto is made exactly for an accepted format, mid picks that fit each team and members with no repeats. Its pool is always larger than the number of steps. |
| `SeriesExact.CreatedIff` | packages/shared/src/veto/series-rooms.ts:72-97 | The same for step maps of any kind, where the pool has to be checked too. |
| `SeriesExact.FinishesIff` | packages/shared/src/veto/series-rooms.ts:66-97 | Which vetoes that were made can be finished: exactly those with no more mid steps than mid rooms, start steps than start rooms or side steps on one number than sides. Then timeouts alone finish any state of any run, and otherwise no run is ever finished. |
| `SeriesExact.WholeFits` | packages/shared/src/veto/series-rooms.ts:47-70 | Every accepted format with whole step maps is one of them. |
| `DefaultSeries.DefaultFormatOk` | packages/shared/src/config/rush-veto.ts:80-104 | The format of a Rush best of three passes the validation. |
| `DefaultSeries.DefaultIsCreated` | packages/shared/src/config/rush-veto.ts:80-104 | Its veto is made for every first team, coin flip and members with no repeats, so all that is proved of series vetoes holds of the one the site runs. |
| `SeriesRooms.SeriesRuns` | packages/shared/src/veto/series-rooms.ts:72-97 | Every run from a created series veto keeps the engine invariant, its accepted format, steps, phases and pool. This and what follows is for step maps of any kind. |
| `SeriesSides.StepsFollowRoles` | packages/shared/src/veto/series-rooms.ts:72-97 | Who acts in every step, from its role, the first team and the coin flip, whether it chooses a side or picks, and which sides or rooms it is about. |
| `SeriesSides.OffersInOrder` | packages/shared/src/veto/series-rooms.ts:41-45 | A step offers what is left of its own pool in the order of that pool, whatever other steps the series has. |
| `SeriesExact.SeriesCoverable` | packages/shared/src/veto/series-rooms.ts:47-97 | In a veto whose steps fit their pools no step, in any phase, ever runs out of rooms: resolving never throws before done. |
| `SeriesRooms.SeriesRoomMaps` | packages/shared/src/veto/series-rooms.ts:113-158 | The loop over maps gives the sides and slots of every map as specified. Which they are is stated by CtIsChosen, CtSwaps, MidLands, StartLands and LeftoverLands of SeriesSides. |
| `SeriesRooms.CtKnown` | packages/shared/src/veto/series-rooms.ts:122-131 | Once the side steps up to a map are made its CT team is known. |
| `SeriesSides.CtIsChosen` | packages/shared/src/veto/series-rooms.ts:122-131 | On a map with a side choice the team that took CT is on CT, and a team that took T leaves CT to the other. |
| `SeriesSides.CtSwaps` | packages/shared/src/veto/series-rooms.ts:122-131 | On a map without one the other team is on CT than on the map before, and its sides are known exactly when those are. |
| `SeriesSides.CtKnownIff` | packages/shared/src/veto/series-rooms.ts:122-131 | On a map with one the sides are known exactly once it is made. |
| `SeriesRooms.CtStable` | packages/shared/src/veto/series-rooms.ts:122-131 | A known CT team never changes in later states. |
| `SeriesRooms.SidesBeforeRooms` | packages/shared/src/veto/series-rooms.ts:61-64 | A room of a map is only picked after the sides of that map are known. |
| `SeriesRooms.AimsDiffer` | packages/shared/src/veto/series-rooms.ts:133-143 | No two picks of a map are aimed at the same slot. |
| `SeriesSides.MidLands` | packages/shared/src/veto/series-rooms.ts:133-143 | The mid picks of the CT team are in slot 5 and then 4, those of the T team in slot 1 and then 2. |
| `SeriesSides.StartLands` | packages/shared/src/veto/series-rooms.ts:133-143 | The start pick of a map is in slot 3. |
| `SeriesRooms.PickedSlotsNeverChange` | packages/shared/src/veto/series-rooms.ts:133-143 | A slot that shows a pick shows the same pick in every later state of the run. |
| `SeriesRooms.SeriesPreviewLands` | packages/shared/src/veto/series-rooms.ts:170-179 | The slot previewed for the current pick of a map is where the resolved room then appears, with its team. |
| `SeriesRooms.SeriesPreviewIff` | packages/shared/src/veto/series-rooms.ts:162-179 | There is a slot to preview for every start step, for every mid step of a map, and for nothing else. |
| `SeriesRooms.SeriesRushRoomsFromVeto` | packages/shared/src/veto/series-rooms.ts:184-199 | The final check succeeds exactly when the veto is done, every map has sides and a path the server accepts, and no room is on two maps. |
| `SeriesDone.DoneOrigin` | packages/shared/src/veto/series-rooms.ts:133-154 | Once done, every slot between the castles holds a pick of its map or an unused mid room, on the last map if enough of those are left. |
| `SeriesSides.LeftoverLands` | packages/shared/src/veto/series-rooms.ts:144-154 | Which leftover mid room is in which open slot of the last map: the rooms nobody took, in the order of the pool, into slots 1, 2, 5 and 4, each for the team whose castle is on that side. |
| `SeriesDone.SeriesRoomsDiffer` | packages/shared/src/veto/series-rooms.ts:113-158 | Once done, no room is in two slots of filled maps, on one map or across maps. |
| `SeriesDone.DoneMapGood` | packages/shared/src/veto/series-rooms.ts:113-158 | Once done, every map but the last has its sides and a full path the server accepts, and the last one exactly when at most eight mid steps are not its own. |
| `SeriesDone.FinishedSeriesIsGood` | packages/shared/src/veto/series-rooms.ts:184-199 | Main result: for every accepted format, steps between maps included, and whatever first team, flip, votes, timeouts and tie breaks, a finished series passes every check of the final step exactly when at most eight mid steps are not on the last map. |
| `SeriesDone.WholeSeriesIsGood` | packages/shared/src/veto/series-rooms.ts:184-199 | With whole step maps every finished series, of every accepted format, passes every check of the final step. |
| `SeriesDone.EverySeriesFinishes` | packages/shared/src/veto/series-rooms.ts:72-199 | When the steps fit their pools, from any state of any run, timeouts alone reach done, and the finished veto is good exactly under that condition. |
| `SeriesDone.EverySeriesFinishesGood` | packages/shared/src/veto/series-rooms.ts:72-199 | With whole step maps, from any state of any run, timeouts alone reach done, and the finished veto is good. |
| `BetweenMaps.BetweenIsMade` | packages/shared/src/veto/series-rooms.ts:47-97 | Accepted formats that are not good: two maps with up to ten mid steps on map 1.5 are accepted and made for all members with no repeats. |
| `BetweenMaps.BetweenEndsIn` | packages/shared/src/veto/series-rooms.ts:145-190 | With nine or more of those no run is finished. With five to eight every run can be finished, and no finished one passes the final step, since map 2 is not filled. With up to four every one does. |
| `RushScript.Script.constructor` | plugin/rush-script/rush_001.js:247-277 | Loading the script draws a room per slot from its pool with no repeats and puts owners, front, wins and flags at the start. |
| `RushScript.Script.ResetGameState` | plugin/rush-script/rush_001.js:254-277 | A reset puts everything back and takes the forced rooms when there are any, a random draw otherwise. |
| `RushScript.Script.RandomizeRooms` | plugin/rush-script/rush_001.js:280-297 | The draw loop leaves the forced rooms, or seven different rooms each from the pool of its slot. |
| `RushScript.RoomsRemain` | plugin/rush-script/rush_001.js:286-296 | A pool always has a room left, so the fallback to a repeated room is never taken. |
| `RushScript.Script.SetRoomControl` | plugin/rush-script/rush_001.js:628-643 | Only the given room changes owner. |
| `RushScript.Script.OnRoundEnd` | plugin/rush-script/rush_001.js:470-529 | The whole state after a round end: wins, owner of the room played, front, decider room, game over. |
| `RushScript.Script.MaybeSwapInDeciderRoom` | plugin/rush-script/rush_001.js:533-544 | Convoy replaces the next room exactly at seven wins each. |
| `RushScript.Script.OnRoundStart` | plugin/rush-script/rush_001.js:356-376 | A round start resets exactly when the round count dropped. |
| `RushScript.Script.CheckEliminationRoundEnd` | plugin/rush-script/rush_001.js:439-468 | Which round end an elimination asks for: one for the owner of the room, exactly in a live round in which everybody is dead or only the owner has players left. |
| `RushScript.EliminationEnds` | plugin/rush-script/rush_001.js:439-468 | In a live round an elimination ends the round exactly when everybody is dead or only the owner of the room has players left, and never for a side that alone is wiped out. |
| `RushScript.PressEnds` | plugin/rush-script/rush_001.js:1271-1310 | A press gives the room away exactly in a live round outside warmup, and then ends the round exactly when everybody is dead or only the presser has players left. |
| `RushScript.TimeEnds` | plugin/rush-script/rush_001.js:577-604 | Time ends a round exactly when it is up in a live round outside warmup and freeze time. |
| `RushScript.RoundMoves` | plugin/rush-script/rush_001.js:470-529 | A round gives its room to the winner, or to nobody, moves the front towards the castle of the loser, and ends the game exactly on a win in that castle. Every other room keeps its owner. |
| `RushScript.Script.OnButtonPressed` | plugin/rush-script/rush_001.js:1271-1310 | A press in a live round gives the room to the presser and may ask for the round end. |
| `RushScript.Script.Think` | plugin/rush-script/rush_001.js:577-604 | When time is up in a live round the script asks for a round end for the room owner. |
| `RushScript.Script.RushsiteApplyRooms` | plugin/rush-script/rush_001.js:196-212 | Rooms are applied exactly when the set is good and no round was played. A refused set changes nothing. |
| `RushScript.ForcedAreDrawable` | plugin/rush-script/rush_001.js:196-208 | An applied set is one the random draw could have given. |
| `RushTracker.RushScoreTracker.RecordRound` | plugin/src/RushsiteMatch.Core/Match/ScoreTracker.cs:115-134 | The whole tracker after a round and what it answers. |
| `RushTracker.RushScoreTracker.Restore` | plugin/src/RushsiteMatch.Core/Match/ScoreTracker.cs:137-147 | The whole tracker after a restore from saved values of any kind. |
| `RushTracker.RestoreBringsBack` | plugin/src/RushsiteMatch.Core/Match/ScoreTracker.cs:115-147 | Restoring what was saved of any reachable tracker on a new one gives that tracker back. An undecided one has its front at 3 plus T wins minus CT wins. |
| `RushTracker.RestoresAnything` | plugin/src/RushsiteMatch.Core/Match/ScoreTracker.cs:137-147 | What a restore makes of any saved values: which counts are kept, where the front is, and who has won. |
| `RushTracker.TryParse` | plugin/src/RushsiteMatch.Core/Match/RushRooms.cs:66-95 | A plan is made exactly from five good rooms, or a full path from castle to castle around them. No rooms at all is no error. |
| `RushTracker.PathRulesAgree` | plugin/src/RushsiteMatch.Core/Match/RushRooms.cs:66-95 | The path check of the site, the parser of the plugin and the set check of the script accept exactly the same seven ids. |
| `RushTracker.PlanIsAccepted` | plugin/src/RushsiteMatch.Core/Match/RushRooms.cs:81-98 | The script accepts every plan the plugin parses, and the plugin parses every set the script would accept. |
| `RushTracker.ForcedRoomsArePath` | plugin/src/RushsiteMatch.Core/Match/RushRooms.cs:30-37 | The rooms the script then plays are the path of the plan, slot by slot, and the path parses back to the plan. |
| `RushMatch.StepInv` | plugin/rush-script/rush_001.js:254-544 | Every press, death, think, round end, round start, restart and veto keeps tracker and script in step and the rooms as last reset, or, after a restart the script missed, the script ahead in wins. |
| `RushMatch.RunInv` | plugin/rush-script/rush_001.js:254-544 | The same over every run. |
| `RushMatch.TrackerFollowsScript` | plugin/src/RushsiteMatch.Core/Match/ScoreTracker.cs:97-134 | Main simulation, over every run with any results, draws and restarts: the script missed a restart since its last reset exactly when the two disagree on the number of wins. If not, wins and front agree, game over in the script is exactly a castle win in the tracker, and the expected room is the one the script plays, or none exactly at Convoy. |
| `RushMatch.RestartInSyncIff` | plugin/rush-script/rush_001.js:372-376 | In every state of every run, a restart leaves score and front in step exactly when the script has a round count to drop from or no wins. |
| `RushMatch.FullResetIff` | plugin/rush-script/rush_001.js:356-376 | After any run, a restart leaves owners, rooms, front, wins and game over as at the start exactly when the last round count was above 0 or they were so already, and the owners too. |
| `RushMatch.PressSurvivesRestart` | plugin/rush-script/rush_001.js:372-376 | So a room that a press gave away before any round ended is not given back by a restart. |
| `RushMatch.MissedRestart` | plugin/rush-script/rush_001.js:372-376 | It can miss one: when the first round ends and the match restarts before the next round starts, the script keeps the win. |
| `RushMatch.AsksAreForTheOwner` | plugin/rush-script/rush_001.js:439-468 | Whatever round end the script asks for is for the owner of the room being played. |
| `RushMatch.RoundEndsWhenDue` | plugin/rush-script/rush_001.js:421-604 | After any run, the death of the last opponent of the owner, a press by a side whose opponents are dead, and time running out each ask for the round end, for that side and no other. |
| `RushMatch.HonestMatch` | plugin/rush-script/rush_001.js:470-604 | Main safety result: when rounds end only for a side the script asked for, every room behind the front is T, every room ahead is CT, the current one has an owner, and the match is decided within fifteen rounds. |
| `RushMatch.HonestMatchFromStart` | plugin/rush-script/rush_001.js:254-277 | The same from the state the script activates with. |
| `RushMatch.RoundsGoToTheOwner` | plugin/rush-script/rush_001.js:421-529 | When no press or veto comes between an ask and the round end, every round of an honest run goes to the side that owns the room played. |
| `FirstTo.FirstToScoreTracker.constructor` | plugin/src/RushsiteMatch.Core/Match/ScoreTracker.cs:14-19 | A new tracker, with negative overtime lengths read as none. |
| `FirstTo.FirstToScoreTracker.RecordRound` | plugin/src/RushsiteMatch.Core/Match/ScoreTracker.cs:35-42 | The whole tracker after a round and what it answers. |
| `FirstTo.FirstToScoreTracker.Evaluate` | plugin/src/RushsiteMatch.Core/Match/ScoreTracker.cs:44-60 | The whole tracker after an evaluation. |
| `FirstTo.FirstToScoreTracker.StartPeriodOrEnd` | plugin/src/RushsiteMatch.Core/Match/ScoreTracker.cs:62-71 | A level end starts a period from the common score, or ends tied without overtime. |
| `FirstTo.FirstToScoreTracker.Restore` | plugin/src/RushsiteMatch.Core/Match/ScoreTracker.cs:81-91 | The whole tracker after a restore from saved values of any kind. |
| `FirstTo.WinnerLeads` | plugin/src/RushsiteMatch.Core/Match/ScoreTracker.cs:44-78 | A decided winner is the one strict leader, with exactly N wins, exactly the clinching number of its period, or ahead when the rounds ran out. |
| `FirstTo.PeriodsStartLevel` | plugin/src/RushsiteMatch.Core/Match/ScoreTracker.cs:62-71 | Every overtime period starts with both teams on its base, the first one exactly when regulation ran out. |
| `FirstTo.RegulationTies` | plugin/src/RushsiteMatch.Core/Match/ScoreTracker.cs:47-53 | Regulation ends undecided exactly when both teams won as many of its rounds, and then an odd number of them were draws. |
| `FirstTo.NoDrawsNoOvertime` | plugin/src/RushsiteMatch.Core/Match/ScoreTracker.cs:26-53 | Without draws in regulation a team wins there, with exactly N wins and by round 2N-1. |
| `FirstTo.DecidedWhenSafe` | plugin/src/RushsiteMatch.Core/Match/ScoreTracker.cs:44-60 | A match is never decided while the other team could still draw level in regulation or in the period. When no round of it was a draw it is decided exactly when that can no longer happen. |
| `FirstTo.DecidedLateIff` | plugin/src/RushsiteMatch.Core/Match/ScoreTracker.cs:44-60 | With draws it can be decided late: exactly when, for a team nobody can catch, its wins counted twice and the draws are more than the rounds of regulation or the period, while it has too few wins and rounds are left. |
| `FirstTo.DrawsDelay` | plugin/src/RushsiteMatch.Core/Match/ScoreTracker.cs:47-53 | The smallest such match: two wins and two draws in a first to 3. |
| `FirstTo.RestoreBringsBack` | plugin/src/RushsiteMatch.Core/Match/ScoreTracker.cs:80-91 | Restoring what was saved of any reachable tracker gives that very tracker, so every continuation is the same. |
| `FirstTo.RestoresAnything` | plugin/src/RushsiteMatch.Core/Match/ScoreTracker.cs:81-91 | What a restore keeps of any saved values. |
| `FirstTo.RestoredWinner` | plugin/src/RushsiteMatch.Core/Match/ScoreTracker.cs:44-91 | Who it decides for while rounds are left: the team with enough wins, the first of the two when both have. |
| `Series.SeriesTracker.constructor` | plugin/src/RushsiteMatch.Core/Match/SeriesTracker.cs:18-27 | A new tracker from a config. |
| `Series.SeriesTracker.RecordMap` | plugin/src/RushsiteMatch.Core/Match/SeriesTracker.cs:49-68 | The whole tracker after a map, with the loop that adds up the players. |
| `Series.SeriesTracker.Advance` | plugin/src/RushsiteMatch.Core/Match/SeriesTracker.cs:70-76 | The next map, or nothing when there is none. |
| `Series.SeriesTracker.Restore` | plugin/src/RushsiteMatch.Core/Match/SeriesTracker.cs:82-95 | The whole tracker after a restore. |
| `Series.SeriesEnds` | plugin/src/RushsiteMatch.Core/Match/SeriesTracker.cs:49-76 | From every accepted config: never past the last map, never a majority for both, over at the latest with the last map, and over exactly on a majority or the last map. |
| `Series.FinalWinnerLeads` | plugin/src/RushsiteMatch.Core/Match/SeriesTracker.cs:37-47 | The final winner is the strict leader in map wins, a draw exactly on equal wins. Map wins are those of the config plus those recorded. |
| `Series.OverWhenSafe` | plugin/src/RushsiteMatch.Core/Match/SeriesTracker.cs:49-76 | A series ends before its last map only when the trailing team cannot catch up, and exactly then when no map was without a winner. |
| `Series.OverLateIff` | plugin/src/RushsiteMatch.Core/Match/SeriesTracker.cs:49-76 | With such maps it goes on although nobody can catch a team exactly when its wins counted twice and the maps without a winner are more than the maps of the series, while it has no majority and maps are left. |
| `Series.FinalWinnerOfAny` | plugin/src/RushsiteMatch.Core/Match/SeriesTracker.cs:33-78 | The final winner of any state, saved ones included: the team with a majority, the first of the two when both have one, and without any the leader. |
| `Series.NeverPastTheLast` | plugin/src/RushsiteMatch.Core/Match/SeriesTracker.cs:49-76 | From any state, restored or not, and in whatever order maps are recorded and asked for, the map number never passes the last map or goes back, wins never fall, and an over series does not change. |
| `Series.TotalsAreSums` | plugin/src/RushsiteMatch.Core/Match/SeriesTracker.cs:55-80 | The totals list the players of the config in its order, each with the sums over the recorded maps, and nobody else. |
| `Series.EachNumberAddsUp` | plugin/src/RushsiteMatch.Core/Match/SeriesTracker.cs:55-66 | Kills, deaths, headshots and damage of a player are each the sum of that number over the recorded maps. |
| `Series.RestoreBringsBack` | plugin/src/RushsiteMatch.Core/Match/SeriesTracker.cs:82-95 | A new tracker restored from what a tracker saved is that tracker. |
| `Series.RestoresAnything` | plugin/src/RushsiteMatch.Core/Match/SeriesTracker.cs:82-95 | What a restore keeps of any saved values, with the map number inside the series. |
| `Series.LastSavedWins` | plugin/src/RushsiteMatch.Core/Match/SeriesTracker.cs:91-93 | Saved totals replace those of known players, the last entry winning, and unknown players are left out. |
| `Slots.LowestFree` | agent/internal/slots/slots.go:33-43 | The port handed out is in range, unused and bindable, and every lower one is not. None exactly when no port is. |
| `Slots.Allocator.Acquire` | agent/internal/slots/slots.go:30-44 | The scan takes that port and reserves it, or changes nothing. |
| `Slots.Allocator.Claim` | agent/internal/slots/slots.go:47-58 | A claim succeeds exactly for an unused port of the range. |
| `Slots.Allocator.Release` | agent/internal/slots/slots.go:61-65 | Only the given port is freed. |
| `Slots.ReadPorts` | agent/internal/config/config.go:78-90 | The checks report no error exactly when the range is valid, no GOTV port is a game port and every GOTV port is a port. |
| `HostManager.ServerManager.Reserve` | agent/internal/manager/manager.go:264-295 | The locked part of a start: refused while updating, for a known match or with no port, in that order, and otherwise one new server on the lowest free port. |
| `HostEffects.StartAnswers` | agent/internal/manager/manager.go:264-290 | Exactly when a start is refused as updating, as existing or for want of a port, with every port of the range in use or busy. |
| `HostEffects.StartRuns` | agent/internal/manager/manager.go:264-317 | A start that is let in and launches: the server runs on the lowest free port with its GOTV port above it, it is in the map and in the state file, and nothing else changed. |
| `HostEffects.FailedStartLeavesNothing` | agent/internal/manager/manager.go:264-303 | One whose launch fails leaves map, ports and state file as they were. |
| `HostManager.ServerManager.FailStart` | agent/internal/manager/manager.go:300-303 | A failed launch takes the server and its port out of the books. |
| `HostManager.ServerManager.Publish` | agent/internal/manager/manager.go:309-317 | A launched process is published with what stops asked for so far, and the state file rewritten. |
| `HostManager.ServerManager.Record` | agent/internal/manager/manager.go:397-421 | An exit frees entry and port, appends one record, keeps the newest fifty and rewrites the state file. |
| `HostManager.ServerManager.AppendExit` | agent/internal/manager/manager.go:416-419 | At most fifty records stay, the newest ones. |
| `HostEffects.EndIsRecorded` | agent/internal/manager/manager.go:393-421 | The end of any known process frees its match and port, is off the state file, and leaves one record: stopped when someone asked, otherwise exited or crashed by its code, without a code for an adopted server. |
| `HostEffects.EndIsReported` | agent/internal/manager/manager.go:421-438 | After it done is closed and the crash callback runs once exactly for a hooked server that crashed or was adopted and ended. |
| `HostManager.ServerManager.RequestStop` | agent/internal/manager/manager.go:452-462 | A stop marks the server it finds and learns whether its process is known. |
| `HostManager.ServerManager.SetAccepting` | agent/internal/manager/manager.go:239-243 | Only the gate changes. |
| `HostManager.ServerManager.Recover` | agent/internal/manager/manager.go:146-188 | The adoption loop over the state file: malformed, dead and unclaimable entries are skipped, the others adopted in order. |
| `HostEffects.RecoverAdopts` | agent/internal/manager/manager.go:146-188 | Recovery from any file, malformed entries, dead processes and clashing ports included: exactly the entries adopted in order, running on their old ports, and exactly their ports and matches taken. |
| `Updater.UpdateLoop.Trigger` | agent/internal/update/update.go:139-148 | A trigger closes an idle updater and changes no other. |
| `Updater.UpdateLoop.Step` | agent/internal/update/update.go:157-187 | A step that nobody disturbs: SteamCMD runs exactly when an update is due and no server is left, and where the updater is then. |
| `Updater.UpdateLoop.Drain` | agent/internal/update/update.go:189-211 | A drain waits while servers run, goes back to draining on failure and reopens on success. |
| `Updater.UpdateOutcome` | agent/internal/update/update.go:139-211 | SteamCMD runs exactly when an update is due and no server is left. When it works servers are taken again, and until it has worked none is and the update stays due. |
| `HostAgent.StepInv` | agent/internal/manager/manager.go:239-473 | Every step of every goroutine keeps the invariant over map, ports, phases, records, stops, state file and updater. |
| `HostRuns.ReachableInv` | agent/internal/manager/manager.go:117-204 | The invariant holds in every state reachable from a recovery. |
| `HostRuns.UpdatesRunAlone` | agent/internal/update/update.go:189-211 | Whenever SteamCMD runs, this agent has no server, no live process it launched or adopted and no port in use, and refuses every start as updating. |
| `HostRuns.BusyMeansClosed` | agent/internal/update/update.go:139-208 | An updater that is not idle means a closed gate, under every interleaving. |
| `HostRuns.PortsAreTheServers` | agent/internal/manager/manager.go:246-255 | The used ports are exactly the ports of the servers in the map, each held by its match. The running count, the used ports and the live servers are as many, and the free count is the total minus them: the ports of the range nobody holds. |
| `HostRuns.PortsDistinct` | agent/internal/config/config.go:84-90 | With accepted settings the game and GOTV ports of any two live servers are different and in range. |
| `HostRuns.StopsReachTheProcess` | agent/internal/manager/manager.go:309-323 | Whenever a server is marked as stopping and its process is known, proc.Stop was called or is about to be. HostEffects.StopSticks says which are marked. |
| `HostEffects.StopSticks` | agent/internal/manager/manager.go:309-323 | A stop of a match with a server, starting or running, marks that server in every later state, and once its process is known proc.Stop was called or Start or a Stop call is about to call it. |
| `HostEffects.StopIsIssued` | agent/internal/manager/manager.go:309-323 | While that call is due one step of Start or of a Stop call makes it. |
| `HostEffects.StopOfNobody` | agent/internal/manager/manager.go:450-458 | A stop of a match without a server changes nothing. |
| `HostEffects.StopGivesUpAlone` | agent/internal/manager/manager.go:470-471 | A waiting Stop may give up at any time, and only that call ends. |
| `HostEffects.StopReturnsOnceClosed` | agent/internal/manager/manager.go:464-473 | A waiting Stop returns once the end was recorded, or the launch failed, and done is closed. |
| `HostRuns.StopReturnsAfterRelease` | agent/internal/manager/manager.go:464-473 | A Stop that returns without an error finds the server out of the books and its port not held for it. |
| `HostRuns.OneExitRecord` | agent/internal/manager/manager.go:393-421 | Each exited process is recorded exactly once, with its code, unless its watch has yet to run: stopped exactly when someone asked, crashed exactly on a code other than 0 of a server the agent started. |
| `HostRuns.CrashReportedOnce` | agent/internal/manager/manager.go:434-438 | The crash callback runs at most once, never for a server anyone asked to stop, and for every other crash or end of an adopted server that has a webhook. |
| `HostRuns.RestartKeepsServers` | agent/internal/manager/manager.go:146-224 | An agent that dies at any moment leaves every server whose process it knows in its state file, and the next one, reading the file in any order, has exactly those it finds alive, each as saved on its old ports. |
| `HostRuns.FileHoldsKnown` | agent/internal/manager/manager.go:206-224 | At any moment, a live process is in the state file, as it runs, exactly when its launch was published. |
| `HostRuns.KeptIffPublished` | agent/internal/manager/manager.go:146-224 | Which live processes survive a restart of the agent that finds the live ones alive: exactly those whose launch was published. The others are unknown to the next agent. |
| `HostRuns.LostLaunch` | agent/internal/manager/manager.go:297-317 | A launch that is lost: the agent dies after the launch and before its publication. The next agent has no server, and a trigger brings it to SteamCMD with the process still running. |
| `HostRuns.UndisturbedTrigger` | agent/internal/update/update.go:139-148 | A trigger whose steps nothing comes between ends as the updater run by one caller. |
| `HostRuns.UndisturbedStep` | agent/internal/update/update.go:157-211 | A pass of the update loop whose steps nothing comes between ends, from any reachable state, as the updater run by one caller. |
| `HostRuns.UndisturbedSteam` | agent/internal/update/update.go:157-211 | In it SteamCMD is started exactly when that updater says it ran. |
| `StateStore.BackgroundMatchStateStore.Save` | plugin/src/RushsiteMatch.Core/State/MatchState.cs:121-131 | A save replaces what is pending and schedules a drain exactly when none is. |
| `StateStore.BackgroundMatchStateStore.Take` | plugin/src/RushsiteMatch.Core/State/MatchState.cs:144-154 | A drain takes the pending state or goes idle. |
| `StateStore.BackgroundMatchStateStore.Drain` | plugin/src/RushsiteMatch.Core/State/MatchState.cs:139-164 | A drain nobody disturbs writes the pending state once and goes idle. |
| `StateStore.WritesFollowSaves` | plugin/src/RushsiteMatch.Core/State/MatchState.cs:106-165 | Over every interleaving: one drain exactly while writing, writes in save order with none twice, and the newest save written last whenever idle is set. |
| `StateStore.SavesCount` | plugin/src/RushsiteMatch.Core/State/MatchState.cs:121-131 | No save is dropped: every one is counted and pending at once. |
| `StateStore.FlushEnds` | plugin/src/RushsiteMatch.Core/State/MatchState.cs:136-164 | Whenever the store is not idle its one drain can step, and without another save at most four steps make it idle. |
| `Glicko.Bracket` | packages/shared/src/rating/glicko2.ts:54-69 | The two ends change the sign of f, or there is one end and it is a root. The other end is the logarithm of the surplus, or the first step of tau below the start where f is not negative, fewer than tau / 2 + 1 steps below it. |
| `Glicko.BelowStart` | packages/shared/src/rating/glicko2.ts:66-68 | k steps of tau below the start f is above k / tau - 1/2, so it is positive from k = tau / 2 on. |
| `Glicko.Pull` | packages/shared/src/rating/glicko2.ts:55-60 | The first term of f is above minus one half and has the sign of what delta leaves over the spread. |
| `Glicko.Illinois` | packages/shared/src/rating/glicko2.ts:70-85 | The loop never divides by zero and ends at the first round with its points within eps, or the thousandth, with the points that so many rounds give. |
| `Glicko.SecantBetween` | packages/shared/src/rating/glicko2.ts:74 | The next point lies between the two, and on the second exactly when that is a root or the two are one. |
| `Glicko.RoundsBracketed` | packages/shared/src/rating/glicko2.ts:70-85 | After any number of rounds both points are inside the first bracket, f is exact at the second and halved at most at the first, and f changes sign between them or has its root there. |
| `GlickoExpected.RoundFormula` | packages/shared/src/rating/glicko2.ts:73-84 | A round of the loop as Step 5 writes it. |
| `Glicko.NewVolatility` | packages/shared/src/rating/glicko2.ts:53-86 | The new volatility is e to half the first of the two points where the rounds stop, which lie in the first bracket with a sign change of f between them, within eps unless a thousand rounds did not do. |
| `Glicko.OneSolution` | packages/shared/src/rating/glicko2.ts:53-86 | Only one number is that: what Step 5 gives is determined by its period. |
| `Glicko.G` | packages/shared/src/rating/glicko2.ts:35 | A game counts by a factor above 0 and at most 1. |
| `Glicko.E` | packages/shared/src/rating/glicko2.ts:36 | An expected score is strictly between 0 and 1, above one half exactly for the stronger player and one half exactly between equals. |
| `GlickoExpected.StrongerScoresMore` | packages/shared/src/rating/glicko2.ts:36-112 | The expected score strictly rises with the rating of the player and strictly falls with that of the opponent. |
| `GlickoExpected.FavouriteIsStronger` | packages/shared/src/rating/glicko2.ts:36-112 | More than one half is expected exactly of the higher rated, and one half exactly of equals. |
| `GlickoExpected.UnderdogGainsMore` | packages/shared/src/rating/glicko2.ts:109-116 | The same score is worth more to the lower rated of two players. |
| `Glicko.Tighter` | packages/shared/src/rating/glicko2.ts:117-118 | The new deviation is strictly below the inflated one and below the root of v, and its square is the inverse of the summed inverses. |
| `Glicko.UpdateRating` | packages/shared/src/rating/glicko2.ts:88-126 | Both loops and Steps 3 to 8 for one player: the volatility is what Step 5 gives for the v and delta of the games, the rating moves by the square of the new deviation times the gains, that deviation is below the inflated one and the root of v, and no games leave rating and volatility alone. |
| `Glicko.OneRating` | packages/shared/src/rating/glicko2.ts:88-126 | A player and games have only one new rating, deviation and volatility that meet this. |
| `GlickoExpected.RatingInAnyOrder` | packages/shared/src/rating/glicko2.ts:106-126 | The new rating of a player does not depend on the order of the games. |
| `GlickoExpected.GFormula` | packages/shared/src/rating/glicko2.ts:35 | The factor g squared, times pi squared plus three phi squared, is pi squared. |
| `GlickoExpected.EFormula` | packages/shared/src/rating/glicko2.ts:36 | The odds of an expected score are e to the minus g times the difference in ratings. |
| `GlickoExpected.ExpectedFormula` | packages/shared/src/rating/glicko2.ts:34-112 | Ratings and deviations enter on the scale of Step 2. |
| `GlickoExpected.WeightFormula` | packages/shared/src/rating/glicko2.ts:109-114 | What a game adds to 1 / v and to the sum of gains. |
| `GlickoExpected.FFormula` | packages/shared/src/rating/glicko2.ts:55-60 | The function of Step 5 as written there. |
| `GlickoExpected.PeriodFormula` | packages/shared/src/rating/glicko2.ts:88-117 | What Step 5 is given: v and delta of Steps 3 and 4, with tau 0.5 and epsilon a millionth when none are given. |
| `GlickoExpected.InflatedFormula` | packages/shared/src/rating/glicko2.ts:101-118 | The deviation a player enters with, from the old one and the volatility. |
| `GlickoExpected.ClampFormula` | packages/shared/src/rating/glicko2.ts:88-126 | A new deviation is cut to the two limits, 0 and 350 when none are given, and is otherwise kept. |
| `Glicko.UpdateTeam` | packages/shared/src/rating/glicko2.ts:152 | Every player of a team gets the rating Steps 3 to 8 give for the game, and it moves toward the score and away from what was expected. |
| `Glicko.UpdateTeamMatch` | packages/shared/src/rating/glicko2.ts:139-155 | Fails exactly on an empty team or a score outside 0 to 1. Each player gets the rating of one game against the mean of the other team, which rises exactly when the score beats what was expected. |
| `Glicko.WinnersRiseLosersFall` | packages/shared/src/rating/glicko2.ts:88-155 | After a win every rating of the winners is strictly higher and every rating of the losers strictly lower. |
| `GlickoExpected.DrawLevels` | packages/shared/src/rating/glicko2.ts:139-155 | After a draw exactly those rise who were rated below the mean of the other team, and exactly those fall who were above. |
| `GlickoExpected.AgainstFormula` | packages/shared/src/rating/glicko2.ts:128-152 | A player plays against the mean rating and the mean deviation of the other team. |
| `Vpk.SplitOfJoin` | agent/internal/update/rushrooms.go:82-87 | Splitting a path undoes joining its parts, and only that path splits into them, for file names without a slash and extensions without a slash or a dot. |
| `Vpk.FindInFiles` | agent/internal/update/rushrooms.go:132-149 | The innermost loop over files is the specified scan. |
| `Vpk.FindInDirs` | agent/internal/update/rushrooms.go:124-150 | The middle loop over directories is the specified scan. |
| `Vpk.Find` | agent/internal/update/rushrooms.go:119-151 | The outer loop over extensions is the specified scan. |
| `Vpk.RecordReads` | agent/internal/update/rushrooms.go:111-118 | Every field of a printed record reads back. |
| `Vpk.TreeReadBack` | agent/internal/update/rushrooms.go:119-151 | Any of the readers, on any printed tree, finds the first file that matches, or reads to the end of the tree. |
| `Vpk.TreeFound` | agent/internal/update/rushrooms.go:119-151 | On any bytes, what a reader finds is a record under a name it wants, complete as far as it needs, and for the host agent with its whole preload. |
| `VpkFiles.VPKEntryCRC` | agent/internal/update/rushrooms.go:81-153 | The host agent reader on any bytes. |
| `VpkFiles.EntryCrc` | plugin/rush-script/pack_vpk.py:20-33 | The reader of the packer on any bytes, including the ones it never returns from. |
| `VpkFiles.ReadEntry` | plugin/rush-script/build_vjs.py:20-46 | The reader of the builder on any bytes, from this file or a numbered archive. |
| `VpkFiles.AgentFindsFirst` | agent/internal/update/rushrooms.go:81-153 | On any well-formed file the host agent gets the CRC of the first file with the name, and an error exactly when there is none. |
| `VpkFiles.AgentReadsOnlyVpks` | agent/internal/update/rushrooms.go:81-118 | The host agent gets a CRC only from a file with the VPK signature, of version 1 or 2, with a complete record of that name in its tree. |
| `VpkFiles.ScriptsReadOnlyVpks` | plugin/rush-script/build_vjs.py:20-30 | The build scripts want the same signature, the builder version 2. |
| `VpkFiles.WantsAgree` | plugin/rush-script/pack_vpk.py:31 | Comparing whole paths and comparing parts pick the same file. |
| `VpkFiles.ReadersAgree` | plugin/rush-script/pack_vpk.py:20-33 | The reader of the packer agrees with the host agent on every well-formed file with plain names. |
| `VpkFiles.ReadsStoredBytes` | plugin/rush-script/build_vjs.py:20-46 | The builder gets the preload of the first match and then its stored bytes. |
| `VpkFiles.Pack` | plugin/rush-script/pack_vpk.py:36-46 | The packer fails exactly when the name does not split or a size does not fit. Otherwise every byte of the file is fixed: signature, version and sizes, the tree, the data, and the three checksums of the tree, of nothing and of all before. |
| `VpkFiles.PackedReadsBack` | plugin/rush-script/pack_vpk.py:20-46 | Round trip: from a packed file the builder reads the data back, and both CRC readers get the CRC of the data. |
| `Bytes.LowestFirst` | plugin/rush-script/pack_vpk.py:36-46 | Numbers are written lowest byte first. |
| `Resource.SwapData` | plugin/rush-script/build_vjs.py:49-63 | The swap with its block loop on any bytes. It gives up exactly when a check fails or a size does not fit. |
| `Resource.SwapsIff` | plugin/rush-script/build_vjs.py:49-63 | On any bytes a swap is made exactly when the size field is right, the table is all there, its last block is DATA and goes to the end, and the new size fits. |
| `Resource.SwapReparses` | plugin/rush-script/build_vjs.py:49-63 | A swap of a well-formed resource is well-formed again, has the same table, holds the script as its DATA block, and changes no other byte but the two length fields. |
| `Resource.OtherBlocksStay` | plugin/rush-script/build_vjs.py:54-57 | Every block before the last keeps its entry. |
| `Resource.LastSwapWins` | plugin/rush-script/build_vjs.py:49-63 | Swapping twice is swapping once with the last script. |
| `Room.RankIsMaximum` | packages/shared/src/room.ts:48-65 | The room is as far along as the furthest of its snapshot and every message that arrived. |
| `Room.StatusOrder` | packages/shared/src/room.ts:48-65 | The order of a match, status by status, with the three final ones ahead of all others. |
| `Room.ShowsFurthest` | packages/shared/src/room.ts:95-171 | Until it is over the room shows the furthest status reported by its snapshot and every message, whatever the order: an update to live shows live, before a late server message or after it. |
| `Room.NeverBack` | packages/shared/src/room.ts:95-171 | More messages never move it back, over stays over, and a result or cancel reason is never lost. |
| `Room.ShownParts` | packages/shared/src/room.ts:95-171 | An answered prompt stays answered, a server shown goes only with a refetch of an over match, and a late veto view never replaces a later stage. |
| `Room.PartsShown` | packages/shared/src/room.ts:95-171 | What every message shows and what it leaves, field by field, and when it comes too late. |
| `Room.RefetchShows` | packages/shared/src/room.ts:94-106 | What a refetch replaces and what it keeps. |
| `Room.OrderDoesNotMatter` | packages/shared/src/room.ts:95-171 | Messages in another order, or delivered more than once, lead to the same status unless the match is over, and to over in the same cases. |
| `Room.FinalStatusIsLastWord` | packages/shared/src/room.ts:140-169 | Once over, a message changes the final status exactly when it is a result, a final update or a final refetch of this match that says another one. |
| `Room.FinalStatus` | packages/shared/src/room.ts:95-171 | Over every delivery, a room that is over shows the last final status said by a result, final update or final refetch, or else the one it began with, or else cancelled. |
| `Room.OrdersAgreeIff` | packages/shared/src/room.ts:95-171 | Every order of the same messages ends in the same status exactly when all messages that say a final status say the same one. |
| `Room.OverOrderMatters` | packages/shared/src/room.ts:140-169 | The smallest disagreement: a result and a final update that says another status. A cancel and a result agree. |

## Left out

- Veto keys are a datatype of map ids, room numbers and side choices. That the strings the site uses for them never clash is not modelled.
- `SeriesVeto.ValidateSeriesRoomFormat`: step maps are whole multiples of one fraction of a map, as any finite numbers are. NaN is not modelled.
- Errors carry no text. Where the source throws, the model says only that it fails.
- Order of errors in the site code beyond success or failure, and `vetoResult`, which only regroups the history.
- `RushScript`: sounds, lights, fog, antenna, HUD, money, round times, the console commands, script reloads and the `rush_force_decider` cheat. Entries of a room set that are not numbers, which no pool has.
- `RushMatch.HonestMatch`: takes it as given that rounds end only when the script asks, that only players press the button and that the engine ends no round twice.
- `RushMatch.RoundsGoToTheOwner`: takes it as given that no press or veto comes between an ask and the round end it causes, since the engine handles an ask later.
- `RushTracker.TryParse`: starts from room ids. Reading them out of JSON is not modelled, nor is the console command made from a plan.
- `FirstTo.FirstToScoreTracker.RecordRound`: has exactly two teams, as the config loader demands, and a team name nobody has counts as a draw.
- `Series.SeriesTracker.RecordMap`: keeps map number and winner of a result. Map id and score are only copied in the source. A team that is itself named like the draw marker is not modelled.
- `HostManager.ServerManager.Reserve`: starts after the request was validated. Rendering configs, log files, passwords, environment and match directories are not modelled, and neither is a write of the state file that fails.
- `HostAgent.StepInv`: server objects are numbers into a list that keeps every object ever made, so pointer identity is equality of numbers. The crash callback is always set.
- `HostRuns.ReachableInv`: takes the entries of the state file to be of different matches and written with the same GOTV offset.
- `HostRuns.StopsReachTheProcess`: says the call is made or pending. That pending goroutines run, and that a process told to stop ends, is up to the scheduler and the operating system.
- `Updater.UpdateLoop.Step`: timers, the wake-up channel, times and error texts of the status, and the gameinfo patch beyond whether it works.
- `StateStore.WritesFollowSaves`: what the inner store does with a state, and timeouts of a flush.
- `Glicko.NewVolatility`: over the reals, so rounding is not modelled, and with positive tau, eps not negative and a volatility that is not zero, for which alone the source is defined. That f has a root in the bracket is not stated, since continuity of exp is not used.
- `Glicko.UpdateTeamMatch`: `expectedScore` is left out, it is one expression.
- `VpkFiles.EntryCrc`: compares names as bytes. Decoding them as text, which can fail, is not modelled.
- `VpkFiles.PackedReadsBack`: the three parts of the name must not be empty or hold a zero byte, which the format cannot store.
- Line endings, which `build_vjs.py` normalises before the swap, and the checks around the VPK in `rushrooms.go` that only compare two numbers.
- `Room.RankIsMaximum`: accept prompt, veto view, server and result are opaque numbers, and scores, maps, warmup and slugs are left out.
- The web app, the API, schemas, DatHost and FACEIT clients, webhooks, locks in Redis, host metrics, and the match controller around the trackers.
