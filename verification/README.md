# Claude Commander core, in Dafny

Claude Commander is a desktop toy: a pixel-art villager walks between a
house, two gold mines and two trees while the Claude Code assistant works.
The assistant's hooks call a small local HTTP server. The server turns each
call into a `claude-event`, and an event bridge in the front end drives the
villager's state machine. This project models the parts of that system that
hold logic, and proves what they promise.

- **The villager store** (`VillagerModel`, `VillagerProperties`,
  `VillagerStore`):
  - the seven-state machine `idle → walking → mining/chopping → returning → idle`;
  - alternation between the two mines and between the two trees;
  - waypoint following with snapping within 5 pixels, and facing rules;
  - `returnHome`, including the request to turn back on arrival;
  - the 0.8 s quick-return timer, and the task queued while the villager is out.

  `VillagerModel` gives each action as a function on a value `Snapshot`.
  `VillagerStore.Villager` is the store itself: a class with the store's
  fields, one method per action. Each method is proved to leave the object in
  the state the matching function gives. `VillagerProperties` proves the
  store's invariant, its phase order, site alternation, that movement never
  overshoots, and the timer and queue behaviour.
- **The event bridge** (`ClaudeEvents`): the `claude-event` listener that
  dispatches `prompt_submit`, `stop` and `interrupt` to the store. The
  resource dispatched last is seeded from the hour of the day.
  `EventBridge.OnClaudeEvent` is proved equal to the pure `HandleEvent`.
  Sessions (sequences of events and frames) are proved to keep the invariant.
- **The tile auto-tiler** (`TileUtils`): level masks, the 9-patch choice for
  flat and elevated ground, inner-corner overlays and cliff placement.
- **The map data** (`MapData`):
  - the grid constants and `tileToColRow` (with JavaScript's truncating `%`);
  - the five 16-row layers exactly as written;
  - the decoration configuration table.
- **The hook installer** (`HookSettings`, the Rust back end):
  - routing of hook URLs to events;
  - the hook entries it writes, marked with `claude-commander`;
  - `has_our_hooks` and `check_hooks_configured`;
  - the merge into `settings.json` done by `setup_hooks`;
  - the clean-up done by `remove_hooks`.

  Both merge and clean-up are written as loops over a JSON value and proved
  equal to recursive specifications. Setup is proved idempotent, and it
  touches nothing but our three events. On settings that already hold a
  `hooks` object, removal is proved to undo setup if and only if that
  object has no empty array in it and no marked entry in an array under the
  five cleaned events (both directions are proved).
  Settings without `hooks` come back with an empty `hooks` object added.

Facts the proofs bring out:

- **The quick-return timer can throw.** `updatePosition` builds the path home
  from `currentMine` when the state is `mining`, and from `currentTree`
  otherwise. Suppose the villager reaches a mine after a `stop` (timer
  armed), and a new prompt sends it home while the timer runs. The state is
  then `returning_gold` with no tree, and the frame that runs the timer out
  dereferences `null`. `ClaudeEvents.TimerHazardReachable` exhibits such a
  session from start-up. `VillagerProperties.TimerFaultCharacterised` shows
  this is the only way a frame throws. The model represents the throw as the
  `NullDereference` result, with the store unchanged.
- **A frame with no elapsed time is not a no-op.** The code still snaps onto
  a waypoint within 5 pixels and still turns the villager. The model follows
  the code (`VillagerProperties.ZeroDeltaStillTurns`, `ZeroDeltaStillSnaps`).
- **The timer can also switch a gold return to a wood return.** The same test
  at villagerStore.ts:214 picks the tree route for any state but `mining`.
  If the villager visited a tree on an earlier trip and the timer runs out
  while it is `returning_gold`, no exception occurs. It becomes
  `returning_wood` instead, and follows that tree's path home in reverse,
  starting from where it stands near the mine
  (`VillagerProperties.TimerSwitchesToWoodRoute`).
- **Not every map row has 24 cells.**
  - Row 1 of the elevation layer has 23 entries. The solidity test reads the
    missing cell as not solid (`TileUtils.ElevMaskMissingCellNotSolid`).
  - Two rows of the flat layer and two of the elevation layer have 25 entries.
    The extra cell lies outside the 24-column map and is never read.
- **Removal after setup is not always the identity.** `setup_hooks` inserts
  `"hooks": {}` when the key is missing, and `remove_hooks` only empties
  that object; it never deletes it. Settings without `hooks` therefore gain
  an empty `hooks` object (`HookSettings.SetupThenRemoveLeavesEmptyHooks`).
- **Setup can succeed yet install nothing.** `setup_hooks` returns `Ok` even
  when every one of our events already holds a non-array value: nothing is
  appended, and `check_hooks_configured` then answers `false`
  (`HookSettings.SetupCanInstallNothing`).

## Model

| member | source | states |
|---|---|---|
| VillagerModel.MinePath | src/stores/villagerStore.ts:100-118 | each mine route has three waypoints |
| VillagerModel.TreePath | src/stores/villagerStore.ts:80-98 | each tree route has two waypoints |
| VillagerModel.SelectMine | src/stores/villagerStore.ts:139 | the next mine is mine22 exactly when the last one was mine21, and is never the last one |
| VillagerModel.SelectTree | src/stores/villagerStore.ts:156 | the next tree is tree2 exactly when the last one was tree1, and is never the last one |
| VillagerModel.Reverse | src/stores/villagerStore.ts:180 | the copy is reversed element by element and has the same length |
| VillagerModel.ReturnPath | src/stores/villagerStore.ts:178-181 | the path home is the outbound path backwards, followed by home |
| VillagerModel.Initial | src/stores/villagerStore.ts:120-133 | the start state is idle at home with no path, and satisfies the invariant |
| VillagerModel.GoToGold | src/stores/villagerStore.ts:135-151 | only when idle: walk to the mine other than the last, from its first waypoint, keeping position, facing, tree, last tree, timer, return request and queue; otherwise nothing changes |
| VillagerModel.GoToTree | src/stores/villagerStore.ts:153-169 | only when idle: walk to the tree other than the last and forget the mine, keeping position, facing, last mine, timer, return request and queue; otherwise nothing changes |
| VillagerModel.QueueTask | src/stores/villagerStore.ts:171-173 | only the queued task changes |
| VillagerModel.ReturnHome | src/stores/villagerStore.ts:175-205 | at a site: take the reversed path home from index 0; while walking: only request the turn back; else nothing changes; never touches the timer or the queue |
| VillagerModel.Valid | src/stores/villagerStore.ts:37-52 | the invariant over the store's fields; it implies the index is within the path and a target is set exactly while a path is followed |
| VillagerModel.TimerExpired | src/stores/villagerStore.ts:211-226 | throws exactly when the site the state names is null; otherwise heads home (with gold iff mining) from index 0 of a non-empty path, timer cleared, position, facing and queue kept |
| VillagerModel.FollowOn | src/stores/villagerStore.ts:245-295 | a walk ends working at its own site (mining iff it was to a mine); any other path ends idle |
| VillagerModel.Arrive | src/stores/villagerStore.ts:245-295 | lands on the waypoint; with a task queued at the end of a non-walk it sets out for that kind of site and clears the queue; otherwise it takes the follow-on state with no path, and changes the timer only to arm 0.8 s at a site on request |
| VillagerModel.MoveFacing | src/stores/villagerStore.ts:311-321 | faces left iff on the way back from mine22, or stepping left, or stepping vertically while already facing left |
| VillagerModel.MoveToward | src/stores/villagerStore.ts:307-329 | only offset and facing change; ratio 1 lands on the target and ratio 0 stays put |
| VillagerModel.Advance | src/stores/villagerStore.ts:207-330 | throws only when the timer runs out this frame; with no timer and no path left the frame changes nothing; the queue is kept or consumed |
| VillagerModel.FacingLeftForDisplay | src/components/GameCanvas.tsx:83-96 | mining or chopping at a known site, the sprite faces as the site is set up (left at mine22 and tree1); in every other state as the stored facing |
| VillagerProperties.GoToGoldPreservesValid | src/stores/villagerStore.ts:135-151 | `goToGold` keeps the store invariant (target is the current waypoint, path matches state, timer only at a site or on the way back) |
| VillagerProperties.GoToTreePreservesValid | src/stores/villagerStore.ts:153-169 | `goToTree` keeps the store invariant |
| VillagerProperties.ReturnHomePreservesValid | src/stores/villagerStore.ts:175-205 | `returnHome` keeps the store invariant |
| VillagerProperties.QueueTaskPreservesValid | src/stores/villagerStore.ts:171-173 | `queueTask` keeps the store invariant |
| VillagerProperties.ArrivePreservesValid | src/stores/villagerStore.ts:245-295 | arrival at the end of a path keeps the invariant |
| VillagerProperties.AdvancePreservesValid | src/stores/villagerStore.ts:207-330 | every frame that does not throw keeps the invariant |
| VillagerProperties.ApplyPreservesValid | src/stores/villagerStore.ts:135-330 | every store action keeps the invariant |
| VillagerProperties.RunPreservesValid | src/stores/villagerStore.ts:135-330 | every sequence of actions that does not throw keeps the invariant |
| VillagerProperties.ReachableStoresAreValid | src/stores/villagerStore.ts:120-330 | every store reachable from start-up satisfies the invariant |
| VillagerProperties.ApplyFollowsTransitions | src/stores/villagerStore.ts:135-330 | every action follows the phase order idle → walking → working → returning → idle/walking; a walk ends only at its own site |
| VillagerProperties.MineSelectionStep | src/stores/villagerStore.ts:135-267 | only the start of a mine trip changes the last mine, and then to the other mine |
| VillagerProperties.TreeSelectionStep | src/stores/villagerStore.ts:153-281 | only the start of a tree trip changes the last tree, and then to the other tree |
| VillagerProperties.MineTripsAlternate | src/stores/villagerStore.ts:135-267 | in any run, successive mine trips go to different mines, the first to the mine other than the last selected |
| VillagerProperties.TreeTripsAlternate | src/stores/villagerStore.ts:153-281 | in any run, successive tree trips go to different trees, the first to the tree other than the last selected |
| VillagerProperties.TimerHoldsPosition | src/stores/villagerStore.ts:210-231 | while the timer runs a frame only counts down; on expiry the villager turns back along the reversed path without moving |
| VillagerProperties.TimerFaultCharacterised | src/stores/villagerStore.ts:211-226 | in a valid store a frame throws if and only if the timer runs out while returning with gold and no tree was visited |
| VillagerProperties.TimerSwitchesToWoodRoute | src/stores/villagerStore.ts:211-226 | returning with gold after a tree trip, an expiring timer turns the trip into a wood return along that tree's reversed path, from the current position |
| VillagerProperties.TimerArmedOnlyAtSites | src/stores/villagerStore.ts:284-294 | the timer is armed only on arrival at a site after a requested return, and to 0.8 s |
| VillagerProperties.ArrivedIsWithinRadius | src/stores/villagerStore.ts:238-244 | the arrival test used by the model, with its per-coordinate bounds, holds exactly when the squared distance is under 25, i.e. `distance < 5` |
| VillagerProperties.ArrivalSnaps | src/stores/villagerStore.ts:243-305 | within 5 pixels the villager lands on the waypoint, then takes the next one or ends the path in the follow-on state |
| VillagerProperties.ReturnTripEndsHome | src/stores/villagerStore.ts:283-295 | the end of a path home, with nothing queued, leaves the villager idle at home |
| VillagerProperties.QueuedTaskDispatchedOnArrival | src/stores/villagerStore.ts:252-282 | arriving home with a queued task sets out at once for the next site of that kind and clears the queue |
| VillagerProperties.QueuedTaskConsumedOnlyAtHome | src/stores/villagerStore.ts:207-330 | a frame keeps the queued task except when it dispatches it at home |
| VillagerProperties.EarlyReturnWhileWalking | src/stores/villagerStore.ts:201-231 | a return requested while walking finishes the trip, works for 0.8 s, then heads back along the reversed path |
| VillagerProperties.LerpDistances | src/stores/villagerStore.ts:323-329 | a step of ratio r covers r² of the squared distance and leaves (1−r)² of it |
| VillagerProperties.MoveNeverOvershoots | src/stores/villagerStore.ts:307-329 | a moving frame goes along the segment by `150·delta`, or onto the waypoint when closer, never past it; only offset and facing change |
| VillagerProperties.StepAlongSegment | src/stores/villagerStore.ts:307-329 | one step toward any target, with the clamped ratio, ends on the segment at distance `150·delta` or on the target, never past it |
| VillagerProperties.FacingWhileMoving | src/stores/villagerStore.ts:311-321 | facing is pinned left on the way back from mine22, otherwise follows the sign of the horizontal step and is kept on a vertical one |
| VillagerProperties.ZeroDeltaStillTurns | src/stores/villagerStore.ts:307-329 | a zero-length frame leaving home still turns the villager left |
| VillagerProperties.ZeroDeltaStillSnaps | src/stores/villagerStore.ts:243-303 | a zero-length frame within 5 pixels still snaps onto the waypoint and advances the index |
| VillagerProperties.DisplayFacing | src/components/GameCanvas.tsx:83-96 | at a site the sprite faces as the site is set up (left at mine22 and tree1); elsewhere as the last step went |
| VillagerStore.Villager.constructor | src/stores/villagerStore.ts:120-133 | the new store is the start state and satisfies the invariant |
| VillagerStore.Villager.GoToGold | src/stores/villagerStore.ts:135-151 | the new fields are `GoToGold` of the old ones; the invariant is kept |
| VillagerStore.Villager.GoToTree | src/stores/villagerStore.ts:153-169 | the new fields are `GoToTree` of the old ones; the invariant is kept |
| VillagerStore.Villager.QueueTask | src/stores/villagerStore.ts:171-173 | the new fields are `QueueTask` of the old ones; the invariant is kept |
| VillagerStore.Villager.ReturnHome | src/stores/villagerStore.ts:175-205 | the new fields are `ReturnHome` of the old ones; the invariant is kept |
| VillagerStore.Villager.ExpireQuickReturn | src/stores/villagerStore.ts:213-226 | reports the null dereference and changes nothing, or installs the reversed path home |
| VillagerStore.Villager.FinishPath | src/stores/villagerStore.ts:245-295 | the new fields are those of arrival at the last waypoint |
| VillagerStore.Villager.StartQueuedTask | src/stores/villagerStore.ts:252-282 | arrival home with a queued task, as arrival specifies |
| VillagerStore.Villager.SetOutForGold | src/stores/villagerStore.ts:254-267 | arrival home with gold queued, as arrival specifies |
| VillagerStore.Villager.SetOutForTree | src/stores/villagerStore.ts:268-281 | arrival home with a tree queued, as arrival specifies |
| VillagerStore.Villager.Settle | src/stores/villagerStore.ts:283-295 | any other arrival, as arrival specifies, including arming the timer |
| VillagerStore.Villager.StepToward | src/stores/villagerStore.ts:307-329 | the new fields are those of a moving step |
| VillagerStore.Villager.UpdatePosition | src/stores/villagerStore.ts:207-330 | `fault` holds exactly when the frame throws, and then nothing changes; otherwise the fields are those of the frame; the invariant is kept |
| ClaudeEvents.Other | src/hooks/useClaudeEvents.ts:43 | the other resource differs from the given one |
| ClaudeEvents.InitialResource | src/hooks/useClaudeEvents.ts:14-15 | the remembered resource starts as tree exactly on an even hour, so the first dispatch goes for gold then |
| ClaudeEvents.HandleEvent | src/hooks/useClaudeEvents.ts:25-61 | a prompt flips the remembered resource; other events keep it; unknown events change nothing |
| ClaudeEvents.IdlePromptStartsTrip | src/hooks/useClaudeEvents.ts:32-40 | a prompt while idle starts the trip for the other resource, to the site after the last one |
| ClaudeEvents.BusyPromptQueuesAndReturns | src/hooks/useClaudeEvents.ts:41-47 | a prompt while out queues the other resource and calls the villager home, at once from a site and on arrival while walking |
| ClaudeEvents.StopGuardIsRedundant | src/hooks/useClaudeEvents.ts:50-60 | the state test around `stop`/`interrupt` changes nothing: it equals an unguarded `returnHome` |
| ClaudeEvents.HandleEventPreservesValid | src/hooks/useClaudeEvents.ts:25-61 | every event keeps the store invariant |
| ClaudeEvents.SessionPreservesValid | src/hooks/useClaudeEvents.ts:25-61 | every session of events and frames that does not throw keeps the invariant |
| ClaudeEvents.StuckIsPermanent | src/stores/villagerStore.ts:211-226 | once returning with gold, timer armed and no tree, no event or frame gets out, and a long enough frame throws |
| ClaudeEvents.SessionAppend | src/hooks/useClaudeEvents.ts:25-61 | a session split in two runs its halves one after the other |
| ClaudeEvents.PromptThenStop | src/hooks/useClaudeEvents.ts:31-60 | on an even hour a prompt then `stop` leaves the villager walking to mine21 with a return requested |
| ClaudeEvents.WalkToSecondWaypoint | src/stores/villagerStore.ts:238-329 | three long frames bring it to the second waypoint of mine21 |
| ClaudeEvents.WalkIntoMine | src/stores/villagerStore.ts:238-295 | three more frames reach mine21 and arm the 0.8 s timer |
| ClaudeEvents.PromptAtMineFaults | src/stores/villagerStore.ts:211-226 | a prompt at the mine with the timer armed, then a 1 s frame, throws |
| ClaudeEvents.TimerHazardReachable | src/stores/villagerStore.ts:211-226 | a feasible session from start-up ends in the null dereference |
| ClaudeEvents.EventBridge.constructor | src/hooks/useClaudeEvents.ts:14-15 | the bridge starts with the hour-seeded resource |
| ClaudeEvents.EventBridge.OnClaudeEvent | src/hooks/useClaudeEvents.ts:25-61 | the new resource and store are `HandleEvent` of the old ones; the invariant is kept |
| TileUtils.RowMask | src/components/tilemap/tileUtils.ts:80 | a mask row has the row's length, and a cell is set iff its height reaches the level |
| TileUtils.GetLevelMask | src/components/tilemap/tileUtils.ts:79-81 | the mask has the height map's shape, and a cell is set iff its height reaches the level |
| TileUtils.LevelMasksNest | src/components/tilemap/tileUtils.ts:79-81 | a higher level's mask lies inside a lower level's mask |
| TileUtils.Solid | src/components/tilemap/tileUtils.ts:83-86 | solid iff inside the 24×16 map, inside the row as written, and set |
| TileUtils.CardinalsAt | src/components/tilemap/tileUtils.ts:92-97 | each side is set iff that neighbour lies on the 24×16 map, inside its row as written, and is set |
| TileUtils.ElevMaskMissingCellNotSolid | src/components/tilemap/tileUtils.ts:83-86 | the cell missing from elevation row 1 reads as not solid at every level |
| TileUtils.PickFlat | src/components/tilemap/tileUtils.ts:92-118 | the tile lies in the 3×3 flat block, and is the centre iff north/south agree and west/east agree |
| TileUtils.PickFlatIsNinePatch | src/components/tilemap/tileUtils.ts:98-117 | with a neighbour on each axis the tile is the 9-patch cell given by the missing sides; each lone neighbour picks its outer corner |
| TileUtils.PickFlatTile | src/components/tilemap/tileUtils.ts:92-118 | the tile lies in the 3×3 flat block, and is the centre iff the north/south neighbours agree and the west/east neighbours agree |
| TileUtils.PickElev | src/components/tilemap/tileUtils.ts:120-142 | the tile lies in the elevated surface block, columns 4-6 and rows 0-1 |
| TileUtils.PickElevFoldsFlat | src/components/tilemap/tileUtils.ts:120-142 | the elevated choice is the flat choice shifted four columns, with the bottom row folded up |
| TileUtils.PickElevTile | src/components/tilemap/tileUtils.ts:120-142 | the tile lies in the elevated surface block, four columns right of the flat choice for the same cell |
| TileUtils.GetInnerCorners | src/components/tilemap/tileUtils.ts:152-170 | no corners unless all four neighbours are solid; then exactly the empty diagonals, in NW, NE, SW, SE order |
| TileUtils.GetInnerCornerTile | src/components/tilemap/tileUtils.ts:173-177 | NW and SE use tile (3,0), NE and SW use tile (3,1) |
| TileUtils.OppositeCornersShareTile | src/components/tilemap/tileUtils.ts:173-177 | two corners share an overlay iff they are equal or diagonally opposite |
| TileUtils.CliffColumn | src/components/tilemap/tileUtils.ts:196-208 | left edge gives column 4, right edge (only) column 6, otherwise column 5 |
| TileUtils.GetCliffPlacements | src/components/tilemap/tileUtils.ts:188-212 | nothing when the cell below is solid; else a cliff top one below and a face two below, in the edge column |
| TileUtils.CliffPlacementsInCliffBlock | src/components/tilemap/tileUtils.ts:188-212 | every placement uses the cliff block (columns 4-6, rows 2-3) directly below the cell |
| MapData.JsRem | src/components/tilemap/mapData.ts:12 | JavaScript `%`: Euclidean on non-negatives; on negatives in (−d, 0] with the dividend minus the remainder a multiple of d |
| MapData.FloorDiv | src/components/tilemap/mapData.ts:12 | `Math.floor(a / d)`: the largest q with q·d ≤ a |
| MapData.TileToColRow | src/components/tilemap/mapData.ts:11-13 | the column is always within nine of zero, and the row is non-negative exactly for tile numbers from 1 |
| MapData.TileToColRowDecomposes | src/components/tilemap/mapData.ts:11-13 | a tile number from 1 is split into a column below 9 and a row, and recombines to itself |
| MapData.ColRowToTileRoundTrip | src/components/tilemap/mapData.ts:11-13 | every sheet cell has a tile number from 1 that splits back into it |
| MapData.TileNumbersFillTheSheet | src/components/tilemap/mapData.ts:8-13 | tile numbers 1..54 are exactly those that land on the 9×6 sheet |
| MapData.EmptyTileIsOffTheSheet | src/components/tilemap/mapData.ts:11-13 | tile 0 (empty) maps to column −1, row −1 |
| MapData.CellAt | src/components/tilemap/mapData.ts:17-121 | reading a layer cell gives the value when the row has that column, and nothing otherwise |
| MapData.LayersHaveMapRows | src/components/tilemap/mapData.ts:17-121 | every layer has 16 rows |
| MapData.RowWidths | src/components/tilemap/mapData.ts:37-95 | foam, shadow and decoration rows have 24 cells; flat rows 1-2 have 25; elevation row 1 has 23 and rows 3-4 have 25 |
| MapData.OnlyMissingCell | src/components/tilemap/mapData.ts:78-95 | inside the map every layer has every cell, except elevation row 1, column 23 |
| MapData.FlatTilesOnSheet | src/components/tilemap/mapData.ts:36-54 | every flat-layer value is 0 or a tile of the 9×6 sheet |
| MapData.ElevTilesOnSheet | src/components/tilemap/mapData.ts:77-95 | every elevation-layer value is 0 or a tile of the 9×6 sheet |
| MapData.MarkerLayers | src/components/tilemap/mapData.ts:15-75 | the foam and shadow layers hold only 0/1 markers |
| MapData.DecorationConfigsWellFormed | src/components/tilemap/mapData.ts:134-331 | the configuration has exactly ids 1..26, each with positive frame sizes and a frame count exactly when animated |
| MapData.DecorationsConfigured | src/components/tilemap/mapData.ts:102-331 | every non-zero decoration on the map has a configuration |
| HookSettings.Get | src-tauri/src/lib.rs:37-40 | a key is found exactly in an object that has it, with its value |
| HookSettings.Route | src-tauri/src/lib.rs:29-51 | prompt-submit and stop paths always emit; tool-failure emits `interrupt` iff the body parses with `is_interrupt` true; other paths emit nothing |
| HookSettings.Decimal | src-tauri/src/lib.rs:173 | the port is printed as a non-empty string of decimal digits |
| HookSettings.DecimalRoundTrip | src-tauri/src/lib.rs:173 | reading the printed digits back gives the number |
| HookSettings.PortDigits | src-tauri/src/lib.rs:8 | port 3456 prints as "3456" |
| HookSettings.CurlCommandParts | src-tauri/src/lib.rs:172-190 | each command contains the server URL with its path and the marker |
| HookSettings.MakeHookEntrySync | src-tauri/src/lib.rs:84-94 | the sync entry carries the marker iff its command contains it |
| HookSettings.MakeHookEntry | src-tauri/src/lib.rs:70-81 | the async entry carries the marker iff its command contains it |
| HookSettings.EntriesDifferOnlyByAsync | src-tauri/src/lib.rs:70-94 | both entries hold one hook, and they differ only by `"async": true` |
| HookSettings.OurEntriesMarked | src-tauri/src/lib.rs:169-192 | all three of our entries carry the marker |
| HookSettings.OurCommandsReachTheServer | src-tauri/src/lib.rs:169-192 | each command calls `http://localhost:3456` on the path the server routes to its event |
| HookSettings.HookMarked | src-tauri/src/lib.rs:102-106 | a hook is ours iff it is an object whose `command` is a string containing the marker |
| HookSettings.EntryMarked | src-tauri/src/lib.rs:99-110 | only an object whose `hooks` is a non-empty array can be a marked entry |
| HookSettings.Marked | src-tauri/src/lib.rs:97-114 | only a non-empty array can be recognised as ours |
| HookSettings.HooksConfigured | src-tauri/src/lib.rs:133-143 | configured iff `hooks` exists and one of the three events holds a marked array; only settings whose `hooks` is an object qualify |
| HookSettings.HasOurHooks | src-tauri/src/lib.rs:97-114 | found iff some inner hook of some entry has a string command containing the marker |
| HookSettings.CheckHooksConfigured | src-tauri/src/lib.rs:133-143 | configured iff one of our three events holds a marked array |
| HookSettings.MergeValue | src-tauri/src/lib.rs:208-220 | a missing event gets `[entry]`; an unmarked array gets the entry appended; anything else is kept |
| HookSettings.MergeAll | src-tauri/src/lib.rs:208-221 | the merged object has exactly the old events plus the events of the entries |
| HookSettings.SetupWith | src-tauri/src/lib.rs:194-221 | panics iff the settings are not an object; fails with "hooks is not an object" iff `hooks` exists and is not an object |
| HookSettings.SetupSettings | src-tauri/src/lib.rs:194-221 | succeeds iff the settings are an object whose `hooks`, if present, is an object; then the same keys plus `hooks`, an object holding our three events |
| HookSettings.MergeEntries | src-tauri/src/lib.rs:208-221 | the loop's result is the merge of every entry in order |
| HookSettings.SetupHooks | src-tauri/src/lib.rs:194-221 | the in-place merge equals the specified setup |
| HookSettings.OurHooksShape | src-tauri/src/lib.rs:169-192 | our three entries go to the three configured events, distinct and marked |
| HookSettings.MergeThree | src-tauri/src/lib.rs:208-221 | merging three distinct events updates exactly those three keys |
| HookSettings.MergeValueIdempotent | src-tauri/src/lib.rs:209-216 | merging a marked entry twice equals merging once; the result is marked iff the event was absent or an array |
| HookSettings.MergeThreeIdempotent | src-tauri/src/lib.rs:208-221 | merging our entries twice equals merging once |
| HookSettings.SetupWithIdempotent | src-tauri/src/lib.rs:194-221 | setting up any three marked entries twice equals once |
| HookSettings.SetupIdempotent | src-tauri/src/lib.rs:194-221 | running setup on its own output changes nothing |
| HookSettings.SetupWithTouchesOnly | src-tauri/src/lib.rs:194-221 | setup leaves every other top-level key and every other event as it was |
| HookSettings.SetupTouchesOnlyOurEvents | src-tauri/src/lib.rs:194-221 | setup leaves every other top-level key and every other event as it was |
| HookSettings.MergedEventMarked | src-tauri/src/lib.rs:208-221 | after merging, our event is marked iff it was absent or an array |
| HookSettings.SetupWithConfigured | src-tauri/src/lib.rs:194-221 | after setup, the check answers true iff one of our events was absent or an array |
| HookSettings.SetupThenConfigured | src-tauri/src/lib.rs:194-221 | after setup, the check answers true iff one of our events was absent or an array |
| HookSettings.SetupCanInstallNothing | src-tauri/src/lib.rs:208-216 | with non-array values at all three events, setup succeeds and the check answers false |
| HookSettings.KeepEntries | src-tauri/src/lib.rs:254-267 | exactly the unmarked entries are kept, never more than before; a single entry is kept iff it is unmarked (with `KeepEntriesAppend` this fixes order and repetitions) |
| HookSettings.KeepEntriesAppend | src-tauri/src/lib.rs:254-267 | filtering a concatenation filters each part and keeps them in order, so `retain` keeps every unmarked entry, repetitions included, in the original order |
| HookSettings.RetainValue | src-tauri/src/lib.rs:252-268 | an array keeps exactly its unmarked entries and is then not ours; any other value is left alone; a one-entry array keeps its entry iff it is unmarked (with `RetainValueAppend` this fixes order and repetitions) |
| HookSettings.RetainValueAppend | src-tauri/src/lib.rs:252-268 | filtering an array filters its two halves and keeps them in order, so every unmarked entry survives in place |
| HookSettings.RetainAll | src-tauri/src/lib.rs:251-270 | filtering the listed events keeps every event key |
| HookSettings.DropEmptyArrays | src-tauri/src/lib.rs:272-280 | exactly the events holding `[]` are dropped; the rest are unchanged |
| HookSettings.RemoveSettings | src-tauri/src/lib.rs:249-281 | without a `hooks` object nothing changes; otherwise the same top-level keys, with no empty array left in `hooks` |
| HookSettings.KeepEntry | src-tauri/src/lib.rs:254-267 | an entry is kept iff it is not marked |
| HookSettings.RetainEntries | src-tauri/src/lib.rs:253-268 | the `retain` loop keeps exactly what the filter specifies |
| HookSettings.DropEmptyEvents | src-tauri/src/lib.rs:272-280 | the collect-then-remove loop drops exactly the empty arrays |
| HookSettings.RemoveHooks | src-tauri/src/lib.rs:249-281 | the in-place clean-up equals the specified removal |
| HookSettings.RetainAllPointwise | src-tauri/src/lib.rs:251-270 | listed events are filtered; other events are unchanged |
| HookSettings.RetainValueIdempotent | src-tauri/src/lib.rs:253-268 | filtering twice equals filtering once |
| HookSettings.KeepUnmarkedIsIdentity | src-tauri/src/lib.rs:254-267 | an array without marked entries is kept as is |
| HookSettings.UnmarkedEntries | src-tauri/src/lib.rs:97-114 | an array without marked entries is not recognised as ours |
| HookSettings.RemovalClearsOurEntries | src-tauri/src/lib.rs:249-281 | after removal, none of the five cleaned events is recognised as ours |
| HookSettings.RemovalUnconfigures | src-tauri/src/lib.rs:249-281 | after removal, the check answers false |
| HookSettings.RemovalKeepsOthers | src-tauri/src/lib.rs:249-281 | removal keeps every other top-level key, and every other event unless it was `[]` |
| HookSettings.KeepAppendMarked | src-tauri/src/lib.rs:254-267 | filtering drops an appended marked entry |
| HookSettings.RetainMergedValue | src-tauri/src/lib.rs:249-270 | filtering a merged value gives back an old array without marked entries, or an old non-array value, unchanged; a new event becomes `[]` |
| HookSettings.MergeThreeAt | src-tauri/src/lib.rs:208-221 | after merging, each key holds its merged value if ours, else its old value |
| HookSettings.RetainAfterMerge | src-tauri/src/lib.rs:249-270 | filtering after merging gives each event back, or `[]` for a new one |
| HookSettings.RemoveAfterMerge | src-tauri/src/lib.rs:249-281 | on a hooks object with no empty array and no marked entry in an array under the five events, clean-up after merging gives it back |
| HookSettings.RemoveOnHooks | src-tauri/src/lib.rs:249-281 | removal replaces only the hooks object, by the filtered object without empty arrays |
| HookSettings.InstallsAreRemovable | src-tauri/src/lib.rs:251 | every event we install is among those removal cleans |
| HookSettings.RemoveUndoesSetupWith | src-tauri/src/lib.rs:194-281 | on settings holding a `hooks` object with no empty array and no marked entry in an array under the five events, removal after setup with any three marked entries for our events restores the settings exactly |
| HookSettings.RemoveUndoesSetup | src-tauri/src/lib.rs:194-281 | on settings holding a `hooks` object with no empty array and no marked entry in an array under the five events, removal after setup restores the settings exactly |
| HookSettings.RemovalOutputRestorable | src-tauri/src/lib.rs:249-281 | whatever removal writes into a `hooks` object has no empty array and no marked entry in an array under the five events |
| HookSettings.RemoveUndoesSetupExactly | src-tauri/src/lib.rs:194-281 | on settings holding a `hooks` object, removal after setup restores them if and only if that object has no empty array and no marked entry in an array under the five events |
| HookSettings.SetupThenRemoveLeavesEmptyHooks | src-tauri/src/lib.rs:194-281 | on an object without `hooks`, removal after setup leaves the settings plus `"hooks": {}`, so not the original |

Proof helpers without a row of their own: the row-chunk lemmas of `MapData` (`FlatRows0To3OnSheet` through `DecorRows12To15DecorIds`), which split the 16-row tables for the solver; `MapData.LemmaDivModUnique` and `MapData.LemmaMulMonotone`, integer facts; `VillagerProperties.SquaredFactorShrinks`; and in `HookSettings` the set helper `EventNames` with `EventNamesOfThree`, and `MergeAllStep`, `MergeEventKeeps`, `SetupOnHooks`, `RemoveAfterReplacing`, `DropEmptyRestores`, `KeepEntriesAppendStep`, `KeepEntriesSnoc`, `SplitLast`, `AppendLastAssoc` and `NoMarkedEntry`, the steps of the merge, filter and removal proofs above.

## Left out

- Rendering is not modelled: PixiJS sprites, `extractTile`, the tilemap renderer, the pawn and town-centre components, window sizing and the animation loop's clock. The frame driver's `delta` and the ratio it computes are parameters.
- Floating-point arithmetic is not modelled. Positions are reals. `Math.sqrt` is avoided: the arrival test compares squared distances with 25 (`Arrived`, which also bounds each coordinate difference by 5; `ArrivedIsWithinRadius` proves those bounds change nothing). The move ratio `min(150·delta/distance, 1)` is a parameter, tied to `delta` by `RatioFor` wherever a property depends on it.
- VillagerStore.Villager.UpdatePosition: the `scale` argument is dropped, because the store never reads it.
- The resource-sprite offsets, the stairs offsets and the legacy `DECORATION_MAP` are left out. No logic reads them.
- The foam sprite-sheet frame constants are left out. They are used only for drawing.
- The React hook's one-time listener set-up, `isTauri`, `listen` and logging are left out. The model starts from the listener callback. The hour of the day is a parameter.
- The HTTP server thread, `tiny_http`, the `"ok"` reply and the emit to the front end are left out. `Route` models the URL match and the interrupt test on the parsed body. A body that does not parse is `None`.
- Settings-file I/O is left out: the home-directory lookup, existence checks, reads, writes and directory creation. So are their error messages and the success strings. `SetupSettings` takes the parsed value; for a missing file, setup starts from `{}`. Check and removal treat a missing file as "not configured" and "nothing to remove" before any logic runs.
- JSON parsing and printing are left out: key order, pretty-printing and non-integer numbers. Objects are maps; numbers are integers.
