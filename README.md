# Space Striker client — a Dafny model

Space Striker is a two-player game played on a 5×5 grid. The browser client joins a room
by code, places five ships, and then takes turns firing at the enemy grid. The server
decides every outcome and pushes full game snapshots over one WebSocket per room. The
client keeps a small session store: the snapshot, its player id, the connection status
and the joined room. It renders a view from that store: the lobby, the waiting screen,
ship placement, the two boards, or the game-over overlay.

This project models that client logic in Dafny, one module per source file:

| module | source file | form |
|---|---|---|
| `GameTypes` | `src/types/game.ts` | datatypes for cells, statuses, message tags, payloads, snapshots |
| `Utils` | `src/utils/utils.ts` | pure functions: turn test, status label, cell class string, room-id generation |
| `Store` | `src/store/useGameStore.ts` | class `GameStore` (fields updated by setters), class `KeyValueStore` |
| `Socket` | `src/hooks/useGameSocket.ts` | class `GameSocket` (the ready state of every socket opened, sent messages), the pure frame dispatcher, and the pure socket-event step, as written and corrected |
| `CountDown` | `src/components/Game/CountDown.tsx` | pure remaining-seconds arithmetic, class `CountDownTimer` |
| `Placement` | `src/components/Game/Placement.tsx` | class `PlacementPanel` over the ordered selection, key encoding and decoding |
| `Board` | `src/components/Game/Board.tsx` | pure rendering of one board: coordinates, class strings, markers, click gating |
| `GameView` | `src/views/GameView.tsx` | phase predicates, enemy-board clickability, move and lobby handlers |
| `Lobby` | `src/views/Lobby.tsx` | pure trim and upper-case of the room code, class `LobbyPanel` |
| `App` | `src/App.tsx` | routing on the room id, join and leave handlers |
| `Spritesheet` | `src/components/Game/Spritesheet.tsx` | the frame-step updater, its iteration, class `AnimatedSprite` |

Modelling choices:

- **JavaScript truthiness is kept exactly.** `!roomID` is true for null and for `""`
  (`GameTypes.Truthy`). So an empty room id shows the lobby and opens no socket. A stored
  player id of `""` counts as absent, and a deadline of `0` counts as no deadline.
- **JavaScript `Set` becomes a sequence.** The placement selection is a `Set`, and a
  `Set` iterates in insertion order. The model therefore keeps the selection as a
  duplicate-free `seq<string>` of `"x,y"` keys. Deselecting removes the key in place;
  selecting appends it.
- **Callbacks are the ones `App` passes.** The lobby's `onJoinGame` is
  `App.HandleJoinGame`, and the game view's `onReturnToLobby` is
  `App.HandleReturnToLobby`.
- **A socket is its ready state, and every socket keeps its handlers.** `GameSocket.sockets`
  lists the ready state of every socket opened so far, oldest first. The last one is the
  socket `wsRef` holds, the one sends go through. Each event method names the socket it
  belongs to by its index, because the hook binds each handler to its own socket, and an
  old socket's handlers still run after a new socket has replaced it. The browser's own
  transitions fold into the event methods: `OnOpen` sets OPEN, `OnClose` sets CLOSED and
  `close()` sets CLOSING. `OnError` sets CLOSED as well, because under the WHATWG
  WebSockets Standard ("feedback from the protocol") the `error` event is fired only after
  the ready state has become CLOSED. The pure `Socket.LinkStep` states what one event does
  to the ready states and to the status. A message sent while the current socket is not
  OPEN is recorded in `warnings` in place of the console warning.
- **Inbound frames arrive already parsed.** A frame is either `Malformed` (JSON parsing
  failed) or `Received(kind, payload)`, where `kind` may be any string. GAME_STATE,
  GAME_UPDATE and GAME_OVER store the payload as the new snapshot. Every other tag, and
  every parse failure, leaves the store alone. GAME_UPDATE replaces the whole snapshot,
  as the code does (useGameSocket.ts:41-52).
- **Two grids, two orders.** The placement grid lists its buttons column by column:
  button `i` is `(i / 5, i % 5)`. A board lists its cells row by row: cell `i` is
  `(i % 5, i / 5)`. The move a board click sends is `(x, y) = (column, row)` of the cell
  clicked (`GameView.PlacementGridTransposesBoard`, `GameView.EnemyClickSpec`).
- **Outside inputs become parameters.** The clock is a `now` parameter. The server offset
  is a `serverOffset` parameter. The freshly generated uuid is a `freshId` parameter. The
  base-36 text of `Math.random()` is a `randomText` parameter. An interval tick is one
  method call.

## Model

| member | source | states |
|---|---|---|
| GameTypes.CellOfCode | src/types/game.ts:11-16 | a raw board code names a cell state exactly when it is 0, 1, 2 or 3 |
| GameTypes.CellCodeRoundTrip | src/types/game.ts:11-16 | decoding a code gives state `c` exactly when `c`'s code is that code (EMPTY 0, SHIP 1, HIT 2, MISS 3) |
| GameTypes.CellCodesDistinct | src/types/game.ts:11-16 | no two cell states share a code |
| GameTypes.TagNameRoundTrip | src/types/game.ts:2 | each of the nine tags decodes from its wire name, and a string decodes to a tag only if it is that tag's name |
| GameTypes.TagNamesDistinct | src/types/game.ts:2 | the nine wire names are pairwise different |
| Utils.FormatConnectionStatus | src/utils/utils.ts:56-67 | the label and colour shown for a status string; characterised by `FormatConnectionStatusTable` |
| Utils.FormatConnectionStatusTable | src/utils/utils.ts:56-67 | connected, connecting and disconnected get ONLINE, CONNECTING... and OFFLINE; any other string gets the UNKNOWN fallback |
| Utils.GetCellClassName | src/utils/utils.ts:17-44 | the class string of one cell; characterised by `OpponentShipMasked`, `HoverOnlyOnHoverableEmpty`, `ClassNameStartsWithBase`, `HitMissIndependent` and `OwnShipVisible` |
| Utils.OpponentShipMasked | src/utils/utils.ts:24-32 | on the opponent board a SHIP cell gets the same class list as a non-hoverable EMPTY cell; the raw strings differ by one trailing space |
| Utils.HoverOnlyOnHoverableEmpty | src/utils/utils.ts:25-26 | hover classes are appended exactly when the cell is EMPTY and hoverable; otherwise the hover flag changes nothing |
| Utils.ClassNameStartsWithBase | src/utils/utils.ts:22-43 | every class string begins with the base classes; an unknown code gets the base classes alone |
| Utils.HitMissIndependent | src/utils/utils.ts:35-39 | HIT and MISS look the same on either board, hoverable or not, and differ from each other |
| Utils.OwnShipVisible | src/utils/utils.ts:25-33 | on the player's own board a SHIP cell never looks like an EMPTY one |
| Utils.ToUpper | src/views/Lobby.tsx:24 | the result has the input's length and each character is the upper-case form of the input character at that place; see `ToUpperSpec` |
| Utils.ToUpperSpec | src/views/Lobby.tsx:206 | upper-casing leaves no lower-case letter and is a no-op on text without one, so upper-casing twice equals once |
| Utils.GenerateRoomID | src/utils/utils.ts:10-12 | characters 2–7 of the random base-36 text, upper-cased; characterised by `GenerateRoomIDSpec` |
| Utils.GenerateRoomIDSpec | src/utils/utils.ts:10-12 | a generated room id has at most six characters and no lower-case letter; it is characters 2–7 of the random text, upper-cased |
| Store.PlayerIdLookupSpec | src/store/useGameStore.ts:6-14 | a non-empty stored id is returned and nothing is written; otherwise the fresh id is returned and stored; no other key changes |
| Store.PlayerIdStable | src/store/useGameStore.ts:6-14 | after a lookup with a non-empty fresh id, the next lookup returns the same id and writes nothing, whatever fresh id it is offered |
| Store.GetPlayerID | src/store/useGameStore.ts:6-14 | the returned id and the new storage contents are those of the lookup specification |
| Store.Reset | src/store/useGameStore.ts:44-48 | the snapshot and the room are cleared, the status is disconnected, and the player id is kept |
| Store.ResetIdempotent | src/store/useGameStore.ts:44-48 | resetting twice equals resetting once |
| Store.ResetForgetsSession | src/store/useGameStore.ts:44-48 | the session after a reset depends only on the player id |
| Store.GameStore.constructor | src/store/useGameStore.ts:30-35 | the store starts with no snapshot, disconnected and no room, holding the id the player-id lookup yields |
| Store.GameStore.SetGameState | src/store/useGameStore.ts:38 | only the snapshot changes, to the given one |
| Store.GameStore.UpdateConnectionStatus | src/store/useGameStore.ts:40 | only the connection status changes |
| Store.GameStore.SetRoomID | src/store/useGameStore.ts:42 | only the room id changes |
| Store.GameStore.ResetGame | src/store/useGameStore.ts:44-48 | the snapshot and the room are cleared and the status becomes disconnected; the player id is kept (`Reset`) |
| Socket.ConnectionUrl | src/hooks/useGameSocket.ts:25 | the connection address; characterised by `ConnectionUrlCarriesIds` and `ConnectionUrlInjective` |
| Socket.ConnectionUrlCarriesIds | src/hooks/useGameSocket.ts:25 | the address is the endpoint, `?roomID=`, the room, `&playerID=`, then the player, each at a known position |
| Socket.ConnectionUrlInjective | src/hooks/useGameSocket.ts:25 | for rooms without `&`, equal addresses come from equal rooms and equal players |
| Socket.Dispatch | src/hooks/useGameSocket.ts:36-70 | a GAME_STATE, GAME_UPDATE or GAME_OVER frame with a snapshot replaces the snapshot; every other frame leaves it unchanged |
| Socket.ReplacingTags | src/hooks/useGameSocket.ts:40-66 | exactly the strings GAME_STATE, GAME_UPDATE and GAME_OVER select the replacing case |
| Socket.DispatchAll | src/hooks/useGameSocket.ts:36-70 | the snapshot after a run of frames, each handled as `Dispatch` says; characterised by `DispatchAllNoState`, `DispatchAllLastState` and `MalformedFrameSkipped` |
| Socket.DispatchAllNoState | src/hooks/useGameSocket.ts:54-66 | any run of ERROR, CHAT, unknown or malformed frames leaves the snapshot as it was |
| Socket.DispatchAllLastState | src/hooks/useGameSocket.ts:41-52 | after a run of frames, the snapshot is the one carried by the last snapshot frame |
| Socket.MalformedFrameSkipped | src/hooks/useGameSocket.ts:67-69 | a frame that fails to parse changes nothing: the run behaves as if it never arrived |
| Socket.AfterCleanup | src/hooks/useGameSocket.ts:83-87 | cleanup moves a CONNECTING or OPEN socket to CLOSING and leaves any other state alone |
| Socket.CleanupIdempotent | src/hooks/useGameSocket.ts:83-87 | a second cleanup changes nothing, and no socket is connecting or open after cleanup |
| Socket.LinkStep | src/hooks/useGameSocket.ts:27-80 | a new socket is appended as the current one, CONNECTING, and the sockets opened earlier are unchanged; any other event changes only the socket it comes from; the status becomes the one the event's handler writes, whichever socket that is (connecting, connected or disconnected; a cleanup writes none) |
| Socket.GuardedStep | src/hooks/useGameSocket.ts:72-80 | the corrected step: the same ready states as `LinkStep`; the same result for the current socket's events; an older socket's events leave the status alone; and "the status reads connected while the current socket is OPEN" is preserved |
| Socket.GuardedRunTracksCurrent | src/hooks/useGameSocket.ts:27-87 | with the correction, that property holds after any run of events that starts from a state where it holds |
| Socket.StaleCloseShowsOffline | src/hooks/useGameSocket.ts:77-80 | as written, after join, open, cleanup, join, open, the first socket's late close leaves the status disconnected while the current socket is OPEN |
| Socket.GuardedRejoinStaysConnected | src/hooks/useGameSocket.ts:77-80 | with the correction, the same events leave the status connected |
| Socket.GameSocket.constructor | src/hooks/useGameSocket.ts:8 | no socket and nothing sent yet |
| Socket.GameSocket.SendMessage | src/hooks/useGameSocket.ts:11-17 | the message is appended to the sent messages exactly when the current socket (`wsRef.current`) is OPEN, otherwise it is dropped with a warning; no socket changes |
| Socket.GameSocket.Connect | src/hooks/useGameSocket.ts:19-29 | without a truthy room nothing changes; otherwise a new CONNECTING socket becomes the current one at the room's address, the older sockets are kept, and only the status changes in the store, to connecting |
| Socket.GameSocket.OnOpen | src/hooks/useGameSocket.ts:31-34 | socket `s` is OPEN and only the status changes in the store, to connected, as `LinkStep` says |
| Socket.GameSocket.OnError | src/hooks/useGameSocket.ts:72-75 | socket `s` is CLOSED and only the status changes in the store, to disconnected, even when `s` is not the current socket |
| Socket.GameSocket.OnClose | src/hooks/useGameSocket.ts:77-80 | socket `s` is CLOSED and only the status changes in the store, to disconnected, even when `s` is not the current socket |
| Socket.GameSocket.OnMessage | src/hooks/useGameSocket.ts:36-70 | only the snapshot may change, as `Dispatch` says |
| Socket.GameSocket.Cleanup | src/hooks/useGameSocket.ts:83-87 | socket `s` becomes `AfterCleanup` of its old state; no other socket and nothing else changes |
| CountDown.CeilDiv1000 | src/components/Game/CountDown.tsx:20 | the result `r` is the ceiling of the quotient: `(r - 1) * 1000 < d <= r * 1000` |
| CountDown.Remaining | src/components/Game/CountDown.tsx:17-21 | the number shown at one tick; characterised by `RemainingSpec` and `RemainingNonIncreasing` |
| CountDown.RemainingSpec | src/components/Game/CountDown.tsx:17-22 | the count is 0 exactly once the synchronised clock reaches the deadline; before that it is the number of started seconds left |
| CountDown.RemainingNonIncreasing | src/components/Game/CountDown.tsx:17-22 | as local time advances with deadline and offset fixed, the count never increases |
| CountDown.SecondsLeft | src/components/Game/CountDown.tsx:11-22 | no count exactly when the deadline is missing or 0; otherwise the remaining seconds |
| CountDown.CriticalIsUrgent | src/components/Game/CountDown.tsx:31-32 | a critical count (3 s or less) is always also urgent (5 s or less) |
| CountDown.SecondsLeftAsWritten | src/components/Game/CountDown.tsx:7-22 | the count as written, with the offset read as `undefined`; characterised by `MissingOffsetShowsNaN` (see Findings) |
| CountDown.MissingOffsetShowsNaN | src/components/Game/CountDown.tsx:8 | as written, every non-zero deadline displays NaN, while the offset-aware count shows 10 s for a deadline 9999 ms away |
| CountDown.CountDownTimer.UpdateTimer | src/components/Game/CountDown.tsx:17-22 | a tick sets the count to the remaining seconds at the synchronised time |
| CountDown.CountDownTimer.Refresh | src/components/Game/CountDown.tsx:7-29 | the effect sets the count to `SecondsLeft` of the snapshot's deadline, and the timer is drawn exactly when there is a snapshot with a non-zero deadline |
| Placement.NumberRoundTrip | src/components/Game/Placement.tsx:14-28 | `Number` applied to the decimal text of any integer gives that integer back |
| Placement.SplitPair | src/components/Game/Placement.tsx:28 | splitting `a,b` at the comma gives exactly `a` and `b` when neither holds a comma |
| Placement.Key | src/components/Game/Placement.tsx:14 | the `"x,y"` key of a cell; characterised by `KeyRoundTrip` and `KeyInjective` |
| Placement.DecodeKey | src/components/Game/Placement.tsx:28 | the cell read back from a key; characterised by `KeyRoundTrip` (narrower than `Number`, see Left out) |
| Placement.KeyRoundTrip | src/components/Game/Placement.tsx:14-29 | decoding the key of `(x, y)` gives back `(x, y)`, for every pair of integers |
| Placement.KeyInjective | src/components/Game/Placement.tsx:14 | different cells have different keys |
| Placement.Remove | src/components/Game/Placement.tsx:17-18 | deleting a key keeps every other selected key and drops only that one; the selection stays duplicate-free and one shorter; deleting an absent key changes nothing |
| Placement.RemoveAt | src/components/Game/Placement.tsx:17-18 | in a duplicate-free selection, deleting the key at index `i` leaves exactly the keys before it followed by the keys after it, in their order |
| Placement.Toggle | src/components/Game/Placement.tsx:15-21 | the selection after one click; characterised by `ToggleSpec`, `ToggleTwice` and `RemoveLast` |
| Placement.ToggleSpec | src/components/Game/Placement.tsx:13-24 | toggling flips membership of the toggled key only, keeps the selection duplicate-free, and changes the size by one |
| Placement.ToggleTwice | src/components/Game/Placement.tsx:13-24 | toggling a key twice restores the selected set; the order is restored if the key was unselected, otherwise the key moves to the end |
| Placement.RemoveLast | src/components/Game/Placement.tsx:17-20 | deleting the key just added restores the previous selection |
| Placement.ShipsOf | src/components/Game/Placement.tsx:27-30 | one ship per selected key, in iteration order, each the decoding of its key |
| Placement.ShipsOfSpec | src/components/Game/Placement.tsx:27-30 | each ship re-encodes to its key, and distinct keys give distinct ships |
| Placement.PlacementGrid | src/components/Game/Placement.tsx:61-62 | 25 buttons, button `i` at `(i / 5, i % 5)`, so the outer loop runs over `x`; see `PlacementGridCells` |
| Placement.PlacementGridCells | src/components/Game/Placement.tsx:61-65 | the buttons cover exactly the cells with both coordinates in 0..4 |
| Placement.PlaceShipMessage | src/components/Game/Placement.tsx:32-35 | a PLACE_SHIP message whose ships are the decoded selection |
| Placement.PlacementPanel.ToggleCell | src/components/Game/Placement.tsx:13-24 | the selection becomes `Toggle` of the old one at the cell's key; well-formedness is kept, and so is staying inside the grid |
| Placement.PlacementPanel.HandleConfirm | src/components/Game/Placement.tsx:26-38 | the message carries one distinct ship per selected cell, each of them selected, and all inside the grid when the selection is |
| Board.CellClick | src/components/Game/Board.tsx:12-16 | the click reaches the handler, with `(x, y)`, exactly when the board is clickable and has a handler |
| Board.MarkerOf | src/components/Game/Board.tsx:55-63 | the marker drawn in a cell; characterised by `MarkerSpec` |
| Board.MarkerSpec | src/components/Game/Board.tsx:55-63 | hit marker exactly on HIT, miss marker exactly on MISS, ship marker exactly on SHIP on the player's own board |
| Board.Render | src/components/Game/Board.tsx:37-63 | one rendered cell for every board cell, row for row; characterised by `RenderedCellCoordinates`, `PageOrder` and `OpponentBoardHidesShips` |
| Board.RenderedCellCoordinates | src/components/Game/Board.tsx:37-46 | the cell drawn for `board[y][x]` reports `(x, y)`, is hoverable exactly when clickable and EMPTY, and carries that cell's class string |
| Board.PageOrder | src/components/Game/Board.tsx:36-38 | on a 5×5 board the `i`-th cell on the page is `(i % 5, i / 5)` |
| Board.OpponentBoardHidesShips | src/components/Game/Board.tsx:37-63 | a non-clickable opponent board looks the same, cell for cell, as that board with its ships erased |
| Board.MaskedBoardIsMasked | src/types/game.ts:29 | an opponent board holding only the documented EMPTY, HIT and MISS codes is its own masked version, so it is drawn exactly as the masked board |
| App.ActiveScreen | src/App.tsx:19-23 | the game view is shown exactly when the room id is set and non-empty |
| App.ScreenIgnoresRoomName | src/App.tsx:19-23 | every non-empty room shows the game view; no room and the empty room both show the lobby |
| App.HandleJoinGame | src/App.tsx:9-11 | only the room id changes, to the given room, so a non-empty room shows the game view |
| App.HandleReturnToLobby | src/App.tsx:13-15 | only the room id changes, to none, so the lobby is shown |
| GameView.MyTurn | src/views/GameView.tsx:47 | it is my turn exactly when there is a snapshot whose active player is me |
| GameView.PhasesPartition | src/views/GameView.tsx:48-50 | with a snapshot exactly one of waiting, placement and boards is shown, and none without; game over is shown only over the boards |
| GameView.MoveIntent | src/views/GameView.tsx:19-30 | a MOVE for `(x, y)` is produced exactly when there is a snapshot and it is my turn |
| GameView.EnemyClick | src/views/GameView.tsx:96-101 | a click on an enemy cell, through the board's click rule, then `MoveIntent`; characterised by `EnemyClickSpec` |
| GameView.EnemyClickSpec | src/views/GameView.tsx:96-101 | a click on enemy cell `board[y][x]` sends `MOVE (x, y)` exactly when it is my turn and the game is not over |
| GameView.OwnBoardInert | src/views/GameView.tsx:84-88 | clicks on the own board reach nothing and none of its cells is hoverable |
| GameView.PlacementGridTransposesBoard | src/components/Game/Placement.tsx:61-65 | placement button `i` is the transpose of board cell `i`: the grids list cells in opposite orders |
| GameView.HandleMove | src/views/GameView.tsx:19-30 | nothing happens unless `MoveIntent` allows it; then the move is sent through the guarded send |
| GameView.HandlePlaceShips | src/views/GameView.tsx:32-34 | the placement message is sent through the guarded send, unchanged |
| GameView.HandleReturnToLobby | src/views/GameView.tsx:42-45 | the session becomes `Reset` of the old one and the lobby is shown |
| GameView.HandlePlayAgain | src/views/GameView.tsx:36-40 | the same as returning to the lobby: reset, then the lobby |
| Lobby.Trim | src/views/Lobby.tsx:23 | `String.prototype.trim` over the ECMAScript white-space set; characterised by `TrimSlice`, `TrimSpec` and `TrimIdempotent` |
| Lobby.TrimSlice | src/views/Lobby.tsx:23 | the trimmed text is one contiguous slice of the input, and everything outside it is white space |
| Lobby.TrimSpec | src/views/Lobby.tsx:23 | no white space is left at either end, and the result is empty exactly for all-white-space input |
| Lobby.TrimIdempotent | src/views/Lobby.tsx:23-24 | trimming twice equals trimming once |
| Lobby.TrimUpperCommute | src/views/Lobby.tsx:24 | trimming and upper-casing commute |
| Lobby.JoinCode | src/views/Lobby.tsx:22-26 | a code is produced exactly when the input holds a non-white-space character |
| Lobby.JoinCodeSpec | src/views/Lobby.tsx:22-26 | a joined code is non-empty, has no surrounding white space and no lower-case letter |
| Lobby.JoinCodeOfUpperInput | src/views/Lobby.tsx:24 | for input that is already upper-case, as the field keeps it, the joined code is just the trimmed input |
| Lobby.JoinCodeNormalises | src/views/Lobby.tsx:22-26 | joining ignores letter case and surrounding white space of the input |
| Lobby.JoinEnabledIffJoins | src/views/Lobby.tsx:228-232 | the join button is enabled exactly when pressing it joins |
| Lobby.KeyPressJoin | src/views/Lobby.tsx:35-40 | a key joins exactly when it is Enter and the trimmed input is non-empty, with the same code as the button |
| Lobby.LobbyPanel.constructor | src/views/Lobby.tsx:18-19 | empty input, joystick active |
| Lobby.LobbyPanel.OnChange | src/views/Lobby.tsx:206 | the field holds the typed value upper-cased, so it never holds a lower-case letter |
| Lobby.LobbyPanel.HandleJoin | src/views/Lobby.tsx:22-26 | the store is untouched unless there is a code; then only the room id changes, to the code, and the game view is shown |
| Lobby.LobbyPanel.JoinButtonClick | src/views/Lobby.tsx:228-232 | as `HandleJoin`, and the joystick stays active |
| Lobby.LobbyPanel.HandleKeyPress | src/views/Lobby.tsx:35-40 | only Enter with a non-empty trimmed code joins, with the same code |
| Lobby.LobbyPanel.HandleCreateRoom | src/views/Lobby.tsx:28-33 | the field holds the generated id, and the room joined is that same id |
| Spritesheet.Step | src/components/Game/Spritesheet.tsx:408-419 | the frame updater of one tick; characterised by `StepSpec` |
| Spritesheet.StepSpec | src/components/Game/Spritesheet.tsx:408-419 | one tick advances while a next frame exists; past the end it wraps to 0 when looping, and otherwise holds and signals completion; a looping sprite never signals |
| Spritesheet.RunLooping | src/components/Game/Spritesheet.tsx:404-419 | after `n` ticks a looping sprite shows frame `n` modulo the frame count and has never signalled completion |
| Spritesheet.RunOnce | src/components/Game/Spritesheet.tsx:404-419 | a non-looping sprite shows frame `min(n, length - 1)`; completion is signalled on every tick after the last frame is reached |
| Spritesheet.RunEmpty | src/components/Game/Spritesheet.tsx:404-419 | with no frames, the index stays 0, outside the frame list |
| Spritesheet.AnimatedSprite.constructor | src/components/Game/Spritesheet.tsx:404 | the sprite starts on frame 0 with no completions |
| Spritesheet.AnimatedSprite.Tick | src/components/Game/Spritesheet.tsx:407-420 | the frame becomes `Step` of the old one, the state stays the one `Run` predicts, and the frame stays inside a non-empty sprite |

`Placement.PlacementPanel.IsSelected` (Placement.tsx:40-42) and
`Placement.PlacementPanel.CanConfirm` (Placement.tsx:44, exactly five cells selected) are
predicates read by the view. `Utils.IsMyTurn` (utils.ts:49-51), `GameView.EnemyClickable`
(GameView.tsx:100), `CountDown.IsUrgent` and `CountDown.IsCritical` (CountDown.tsx:31-32),
`Board.IsHoverable` (Board.tsx:40) and `Lobby.JoinDisabled` (Lobby.tsx:232) are predicates
of the same kind, and so are the phase predicates `GameView.IsGameFinished` (GameView.tsx:48),
`GameView.ShowPlacement` (GameView.tsx:49), `GameView.ShowBoards` (GameView.tsx:50),
`GameView.ShowWaiting` (GameView.tsx:58) and `GameView.ShowGameOver` (GameView.tsx:116),
which `GameView.PhasesPartition` relates to each other.

## Left out

- The WebSocket transport, `JSON.parse` and `JSON.stringify`: frames arrive decoded, and an outbound message is a `MessageWs` value. Console output is dropped, except that a refused send is recorded in `warnings`.
- React itself: hooks, re-rendering, effect scheduling and dependency lists. The effect and its cleanup are the methods `Connect` and `Cleanup`; the caller decides when they run.
- `Date.now`, `setInterval` and `clearInterval`: the time is a parameter, and one interval tick is one method call.
- `Math.random` and `uuidv4`: their outputs are parameters (`randomText`, `freshId`). `localStorage` is the map held by `KeyValueStore`.
- The countdown's progress-bar percentage (CountDown.tsx:33), because it is floating point.
- All rendering and styling beyond the cell class strings and markers: the HUD, the game-over overlay, the backgrounds, the sprite SVG definitions, the animations, the placement buttons' class strings and the turn-hint text.
- Behaviour the code does not have: MOVE, TIME_OUT and SYNC_TIME frames are not handled (they fall into the default case), no board is edited locally, no clock offset is computed, and snapshots are not checked for status order or board size.
- The order in which a browser delivers socket events is not constrained. Any event of any socket already opened may arrive at any time, which covers every order a browser can produce.
- Socket.Dispatch: the model replaces the snapshot only when the payload really is a snapshot. The source casts any payload under GAME_STATE, GAME_UPDATE or GAME_OVER. The realistic case is a GAME_OVER frame that carries a `GameOverPayload` (`{winner}`, src/types/game.ts:54-56), which the source would store as the snapshot.
- Socket.GameSocket.OnMessage: it stores what `Dispatch` says, so it has the same gap for payloads that are not snapshots.
- Socket.ConnectionUrlInjective: the room code is put into the address without URL encoding, and the lobby lets a user type `&` or `#`. Such a room changes the query the server receives, so the lemma only covers rooms without `&`.
- Placement.DecodeKey: the model parses only the decimal form that `Key` produces. `Number` accepts much more: surrounding white space, a leading `+`, decimals (`1.5`), exponents (`1e3`), `Infinity`, binary, octal and hexadecimal (`0b11`, `0o7`, `0x1f`), and empty or all-white-space text, which gives 0. Only the remaining text maps to NaN. Keys are only ever built by `Key`, so these inputs do not occur.
- Utils.ToUpper: only the ASCII letters `a`–`z` are upper-cased. `toUpperCase` also maps other letters and can change the length (`ß` becomes `SS`).
- Lobby.LobbyPanel.OnChange: the value is not cut to the `maxLength` of 6 (Lobby.tsx:213). The browser applies that limit while the user types.
- Spritesheet.RunLooping: the frame is stated as `CycleIndex`, which is `n` reduced modulo the length by repeated subtraction; it is not linked to Dafny's `%`.

## Findings

| source | as written | input that shows it | evidently intended | confidence | as-written member | corrected member |
|---|---|---|---|---|---|---|
| src/components/Game/CountDown.tsx:8 | reads `serverOffset` from the store, which declares no such field, so the value is `undefined`. `Date.now() + undefined` is NaN, and so is every remaining-seconds value. The NaN is not null, so the timer renders "NaN" and is never urgent. The TypeScript compiler rejects the access, so this applies to builds that skip type checking, such as a development server that only strips types | a snapshot with `endAt = 9999`, local time 0 | with the offset known (0 here), the synchronised time gives 10 seconds | not executed | CountDown.MissingOffsetShowsNaN | CountDown.SecondsLeft |
| src/hooks/useGameSocket.ts:77-80 | every socket's `onclose` and `onerror` write `disconnected`, including those of a socket the cleanup has already replaced, while `sendMessage` uses the newer socket in `wsRef.current` | join a room, its socket opens, go back to the lobby (the cleanup closes that socket), join another room and its socket opens, and only then does the first socket's close event arrive | the status describes the current socket, so it stays `connected` while that socket is OPEN | not executed | Socket.StaleCloseShowsOffline | Socket.GuardedStep |

The as-written computation is `CountDown.SecondsLeftAsWritten`. `CountDown.CountDownTimer.Refresh`
uses the corrected `CountDown.SecondsLeft`, which takes the offset as a parameter.

The class `Socket.GameSocket` keeps the event handlers as written (`Socket.LinkStep`), because
the defect lies in which socket's handler runs, not in any one handler's body.
`Socket.GuardedStep` is the corrected step, for which `Socket.GuardedRunTracksCurrent` proves
that the status matches the current socket over any run of events. The two steps agree on
every event of the current socket, so the correction changes only an older socket's late
events.
