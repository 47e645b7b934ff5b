/** One board as rendered: each cell's coordinates, class string, hoverability
    and marker, and the click rule that forwards a cell's coordinates. */
module Board {
  import opened GameTypes
  import Utils

  /** handleCellClick: the coordinates reach the handler only when the board is
      clickable and a handler was supplied. */
  function CellClick(isClickable: bool, hasHandler: bool, x: int, y: int): (r: Option<Coord>)
    ensures r.Some? <==> isClickable && hasHandler
    ensures r.Some? ==> r.value == Coord(x, y)
  {
    if isClickable && hasHandler then Some(Coord(x, y)) else None
  }

  predicate IsHoverable(isClickable: bool, cell: int)
  {
    isClickable && cell == CellCode(Empty)
  }

  datatype Marker = NoMarker | HitMarker | MissMarker | ShipMarker

  /** The glyph drawn inside a cell. */
  function MarkerOf(cell: int, isOpponentBoard: bool): Marker
  {
    if cell == CellCode(Hit) then HitMarker
    else if cell == CellCode(Miss) then MissMarker
    else if cell == CellCode(Ship) && !isOpponentBoard then ShipMarker
    else NoMarker
  }

  /** The hit marker appears only on HIT, the miss marker only on MISS, and the
      ship marker only on SHIP on the player's own board. */
  lemma MarkerSpec(cell: int, isOpponentBoard: bool)
    ensures MarkerOf(cell, isOpponentBoard) == HitMarker <==> cell == CellCode(Hit)
    ensures MarkerOf(cell, isOpponentBoard) == MissMarker <==> cell == CellCode(Miss)
    ensures MarkerOf(cell, isOpponentBoard) == ShipMarker <==> cell == CellCode(Ship) && !isOpponentBoard
  {
  }

  datatype CellView = CellView(at: Coord, className: string, hoverable: bool, marker: Marker)

  function RenderCell(cell: int, x: int, y: int, isOpponentBoard: bool, isClickable: bool): CellView
  {
    var hoverable := IsHoverable(isClickable, cell);
    CellView(Coord(x, y), Utils.GetCellClassName(cell, isOpponentBoard, hoverable), hoverable, MarkerOf(cell, isOpponentBoard))
  }

  /** The rendered board: the outer index is the row y, the inner index the column x. */
  function Render(board: seq<seq<int>>, isOpponentBoard: bool, isClickable: bool): (v: seq<seq<CellView>>)
    ensures |v| == |board|
    ensures forall y :: 0 <= y < |board| ==> |v[y]| == |board[y]|
  {
    seq(|board|, y requires 0 <= y < |board| =>
      seq(|board[y]|, x requires 0 <= x < |board[y]| => RenderCell(board[y][x], x, y, isOpponentBoard, isClickable)))
  }

  /** The cell drawn for board[y][x] reports (x, y), and a click on it forwards
      exactly (x, y) when forwarding is allowed. */
  lemma RenderedCellCoordinates(board: seq<seq<int>>, isOpponentBoard: bool, isClickable: bool, hasHandler: bool, y: int, x: int)
    requires 0 <= y < |board| && 0 <= x < |board[y]|
    ensures var c := Render(board, isOpponentBoard, isClickable)[y][x];
            c.at == Coord(x, y)
            && c.hoverable == (isClickable && board[y][x] == CellCode(Empty))
            && c.className == Utils.GetCellClassName(board[y][x], isOpponentBoard, c.hoverable)
            && CellClick(isClickable, hasHandler, c.at.x, c.at.y) == (if isClickable && hasHandler then Some(Coord(x, y)) else None)
  {
  }

  /** Row-major concatenation of rows, the order in which cells reach the page. */
  function Flatten<T>(rows: seq<seq<T>>): seq<T>
  {
    if rows == [] then [] else rows[0] + Flatten(rows[1..])
  }

  lemma {:induction false} FlattenIndex<T>(rows: seq<seq<T>>, y: nat, x: nat)
    requires forall r :: 0 <= r < |rows| ==> |rows[r]| == BoardSize
    requires y < |rows| && x < BoardSize
    ensures |Flatten(rows)| == BoardSize * |rows|
    ensures Flatten(rows)[BoardSize * y + x] == rows[y][x]
  {
    if y == 0 {
      FlattenLength(rows[1..]);
    } else {
      FlattenIndex(rows[1..], y - 1, x);
    }
  }

  lemma {:induction false} FlattenLength<T>(rows: seq<seq<T>>)
    requires forall r :: 0 <= r < |rows| ==> |rows[r]| == BoardSize
    ensures |Flatten(rows)| == BoardSize * |rows|
  {
    if rows != [] {
      FlattenLength(rows[1..]);
    }
  }

  const BoardSize := 5

  /** On a 5x5 board the i-th cell on the page is (i % 5, i / 5). */
  lemma PageOrder(board: seq<seq<int>>, isOpponentBoard: bool, isClickable: bool, i: nat)
    requires |board| == BoardSize && forall r :: 0 <= r < BoardSize ==> |board[r]| == BoardSize
    requires i < BoardSize * BoardSize
    ensures var cells := Flatten(Render(board, isOpponentBoard, isClickable));
            |cells| == BoardSize * BoardSize && cells[i].at == Coord(i % BoardSize, i / BoardSize)
  {
    var v := Render(board, isOpponentBoard, isClickable);
    FlattenIndex(v, i / BoardSize, i % BoardSize);
  }

  /** The opponent board with every SHIP code replaced by EMPTY. */
  function MaskShips(board: seq<seq<int>>): (m: seq<seq<int>>)
    ensures |m| == |board| && forall y :: 0 <= y < |board| ==> |m[y]| == |board[y]|
  {
    seq(|board|, y requires 0 <= y < |board| =>
      seq(|board[y]|, x requires 0 <= x < |board[y]| =>
        if board[y][x] == CellCode(Ship) then CellCode(Empty) else board[y][x]))
  }

  /** A non-clickable opponent board never reveals a ship: every cell looks as it
      would with its ships erased (same trimmed class list, same marker). */
  lemma OpponentBoardHidesShips(board: seq<seq<int>>, y: int, x: int)
    requires 0 <= y < |board| && 0 <= x < |board[y]|
    ensures var a := Render(board, true, false)[y][x];
            var b := Render(MaskShips(board), true, false)[y][x];
            Utils.DropTrailingSpaces(a.className) == Utils.DropTrailingSpaces(b.className)
            && a.marker == b.marker && a.hoverable == b.hoverable && a.at == b.at
  {
    if board[y][x] == CellCode(Ship) {
      Utils.OpponentShipMasked(false, true);
    }
  }

  /** The opponent board the server sends holds no SHIP code, and on such a
      board masking changes nothing: the client draws exactly what it would
      draw with every ship erased. */
  lemma MaskedBoardIsMasked(board: seq<seq<int>>, isClickable: bool)
    requires MaskedBoard(board)
    ensures MaskShips(board) == board
    ensures Render(board, true, isClickable) == Render(MaskShips(board), true, isClickable)
  {
    var m := MaskShips(board);
    forall y | 0 <= y < |board|
      ensures m[y] == board[y]
    {
      forall x | 0 <= x < |board[y]|
        ensures m[y][x] == board[y][x]
      {
        assert board[y][x] != CellCode(Ship);
      }
    }
  }
}
