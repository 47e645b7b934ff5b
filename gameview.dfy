/** The game screen: which phase is shown for the current snapshot, when the
    enemy board accepts clicks, the move a click sends, and the two ways back
    to the lobby. */
module GameView {
  import opened GameTypes
  import opened Store
  import Socket
  import App
  import Board
  import Placement
  import Utils

  /** Whether it is this player's turn; false while there is no snapshot. */
  function MyTurn(gs: Option<GameStateResponse>, playerID: string): (r: bool)
    ensures r <==> gs.Some? && gs.value.activePlayer == playerID
  {
    match gs
    case None => false
    case Some(s) => Utils.IsMyTurn(s.activePlayer, playerID)
  }

  predicate StatusIs(gs: Option<GameStateResponse>, status: GameStatus)
  {
    gs.Some? && gs.value.status == status
  }

  predicate IsGameFinished(gs: Option<GameStateResponse>)
  {
    StatusIs(gs, Over)
  }

  predicate ShowWaiting(gs: Option<GameStateResponse>)
  {
    StatusIs(gs, WaitingForPlayer)
  }

  predicate ShowPlacement(gs: Option<GameStateResponse>)
  {
    StatusIs(gs, WaitingForShip)
  }

  /** Both boards stay on screen once the game is over, under the overlay. */
  predicate ShowBoards(gs: Option<GameStateResponse>)
  {
    StatusIs(gs, Active) || IsGameFinished(gs)
  }

  predicate ShowGameOver(gs: Option<GameStateResponse>)
  {
    IsGameFinished(gs)
  }

  /** Exactly one of waiting, placement and boards is shown for every snapshot
      and none without one; the game-over overlay appears only over the boards. */
  lemma {:induction false} PhasesPartition(gs: Option<GameStateResponse>)
    ensures gs.None? ==> !ShowWaiting(gs) && !ShowPlacement(gs) && !ShowBoards(gs) && !ShowGameOver(gs)
    ensures gs.Some? ==>
              (ShowWaiting(gs) && !ShowPlacement(gs) && !ShowBoards(gs))
              || (!ShowWaiting(gs) && ShowPlacement(gs) && !ShowBoards(gs))
              || (!ShowWaiting(gs) && !ShowPlacement(gs) && ShowBoards(gs))
    ensures ShowGameOver(gs) ==> ShowBoards(gs) && gs.value.status == Over
  {
    match gs
    case None =>
    case Some(s) =>
      match s.status
      case WaitingForPlayer =>
      case WaitingForShip =>
      case Active =>
      case Over =>
  }

  /** The player's own board never accepts clicks. */
  const OwnBoardClickable := false

  /** The enemy board accepts clicks on this player's turn until the game is over. */
  predicate EnemyClickable(gs: Option<GameStateResponse>, playerID: string)
  {
    MyTurn(gs, playerID) && !IsGameFinished(gs)
  }

  function MoveMessage(x: int, y: int): MessageWs
  {
    MessageWs(MoveTag, MoveBody(MovePayload(x, y)))
  }

  /** handleMove's decision: a MOVE for (x, y) when there is a snapshot and it is
      this player's turn, nothing otherwise. */
  function MoveIntent(gs: Option<GameStateResponse>, playerID: string, x: int, y: int): (r: Option<MessageWs>)
    ensures r.Some? <==> MyTurn(gs, playerID)
    ensures r.Some? ==> r.value.kind == MoveTag && r.value.payload == MoveBody(MovePayload(x, y))
  {
    if gs.None? || !Utils.IsMyTurn(gs.value.activePlayer, playerID) then None else Some(MoveMessage(x, y))
  }

  /** A click on the enemy board's cell at row y, column x: the board forwards
      the cell's coordinates when it is clickable, then handleMove decides. */
  function EnemyClick(gs: Option<GameStateResponse>, playerID: string, board: seq<seq<int>>, y: int, x: int): Option<MessageWs>
    requires 0 <= y < |board| && 0 <= x < |board[y]|
  {
    var cell := Board.Render(board, true, EnemyClickable(gs, playerID))[y][x];
    match Board.CellClick(EnemyClickable(gs, playerID), true, cell.at.x, cell.at.y)
    case None => None
    case Some(c) => MoveIntent(gs, playerID, c.x, c.y)
  }

  /** A click on the enemy board sends a move exactly when it is this player's
      turn and the game is not over, and the move names the clicked cell's
      column as x and its row as y. */
  lemma EnemyClickSpec(gs: Option<GameStateResponse>, playerID: string, board: seq<seq<int>>, y: int, x: int)
    requires 0 <= y < |board| && 0 <= x < |board[y]|
    ensures EnemyClick(gs, playerID, board, y, x).Some? <==>
              gs.Some? && gs.value.activePlayer == playerID && gs.value.status != Over
    ensures EnemyClick(gs, playerID, board, y, x).Some? ==>
              EnemyClick(gs, playerID, board, y, x) == Some(MoveMessage(x, y))
  {
    Board.RenderedCellCoordinates(board, true, EnemyClickable(gs, playerID), true, y, x);
  }

  /** Clicks on the player's own board go nowhere: it is never clickable and has
      no handler. */
  lemma OwnBoardInert(board: seq<seq<int>>, y: int, x: int)
    requires 0 <= y < |board| && 0 <= x < |board[y]|
    ensures var cell := Board.Render(board, false, OwnBoardClickable)[y][x];
            Board.CellClick(OwnBoardClickable, false, cell.at.x, cell.at.y) == None && !cell.hoverable
  {
    Board.RenderedCellCoordinates(board, false, OwnBoardClickable, false, y, x);
  }

  /** The placement grid lists its buttons column by column while a board lists
      its cells row by row: the i-th placement button is the transpose of the
      i-th board cell. */
  lemma PlacementGridTransposesBoard(board: seq<seq<int>>, isOpponentBoard: bool, isClickable: bool, i: nat)
    requires |board| == Board.BoardSize && forall r :: 0 <= r < Board.BoardSize ==> |board[r]| == Board.BoardSize
    requires i < Board.BoardSize * Board.BoardSize
    ensures var cells := Board.Flatten(Board.Render(board, isOpponentBoard, isClickable));
            |cells| == |Placement.PlacementGrid()| && Placement.PlacementGrid()[i] == Coord(cells[i].at.y, cells[i].at.x)
  {
    Board.PageOrder(board, isOpponentBoard, isClickable, i);
  }

  /** handleMove: sends the move when MoveIntent allows it, through the socket's
      guarded send. */
  method HandleMove(store: GameStore, socket: Socket.GameSocket, x: int, y: int)
    modifies socket
    ensures MoveIntent(store.gameState, store.playerID, x, y).None? ==> unchanged(socket)
    ensures MoveIntent(store.gameState, store.playerID, x, y).Some? ==>
              socket.sockets == old(socket.sockets) && socket.url == old(socket.url)
              && (old(socket.IsConnected()) ==> socket.sent == old(socket.sent) + [MoveMessage(x, y)] && socket.warnings == old(socket.warnings))
              && (!old(socket.IsConnected()) ==> socket.sent == old(socket.sent) && socket.warnings == old(socket.warnings) + [MoveMessage(x, y)])
  {
    var intent := MoveIntent(store.gameState, store.playerID, x, y);
    match intent
    case None =>
    case Some(m) =>
      socket.SendMessage(m);
  }

  /** handlePlaceShips: the placement message goes straight to the guarded send. */
  method HandlePlaceShips(socket: Socket.GameSocket, m: MessageWs)
    modifies socket
    ensures socket.sockets == old(socket.sockets) && socket.url == old(socket.url)
    ensures old(socket.IsConnected()) ==> socket.sent == old(socket.sent) + [m] && socket.warnings == old(socket.warnings)
    ensures !old(socket.IsConnected()) ==> socket.sent == old(socket.sent) && socket.warnings == old(socket.warnings) + [m]
  {
    socket.SendMessage(m);
  }

  /** Return to lobby: reset the session, then clear the room, which brings back
      the lobby with the player id kept. */
  method HandleReturnToLobby(store: GameStore)
    modifies store
    ensures store.State() == Reset(old(store.State()))
    ensures App.ActiveScreen(store.roomID) == App.LobbyScreen
  {
    store.ResetGame();
    App.HandleReturnToLobby(store);
  }

  /** Play again does the same as returning to the lobby. */
  method HandlePlayAgain(store: GameStore)
    modifies store
    ensures store.State() == Reset(old(store.State()))
    ensures App.ActiveScreen(store.roomID) == App.LobbyScreen
  {
    HandleReturnToLobby(store);
  }
}
