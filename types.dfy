/** Data model of the game client: cell codes, game and connection status,
    protocol message tags and the payload records exchanged with the server. */
module GameTypes {

  datatype Option<+T> = None | Some(value: T)

  /** JavaScript truthiness of a `string | null`: null and "" are both falsy. */
  predicate Truthy(s: Option<string>)
  {
    s.Some? && s.value != ""
  }

  /** The four cell states of a board; the server sends them as integer codes. */
  datatype CellState = Empty | Ship | Hit | Miss

  function CellCode(c: CellState): int
  {
    match c
    case Empty => 0
    case Ship => 1
    case Hit => 2
    case Miss => 3
  }

  /** The state a raw board code stands for, if it is one of the four codes. */
  function CellOfCode(n: int): (r: Option<CellState>)
    ensures r.Some? <==> 0 <= n <= 3
  {
    if n == 0 then Some(Empty)
    else if n == 1 then Some(Ship)
    else if n == 2 then Some(Hit)
    else if n == 3 then Some(Miss)
    else None
  }

  /** Codes and states are in one-to-one correspondence. */
  lemma CellCodeRoundTrip(c: CellState, n: int)
    ensures CellOfCode(n) == Some(c) <==> CellCode(c) == n
  {
    match c
    case Empty =>
    case Ship =>
    case Hit =>
    case Miss =>
  }

  lemma CellCodesDistinct(c1: CellState, c2: CellState)
    ensures CellCode(c1) == CellCode(c2) ==> c1 == c2
  {
    CellCodeRoundTrip(c1, CellCode(c1));
    CellCodeRoundTrip(c2, CellCode(c1));
  }

  datatype GameStatus = WaitingForPlayer | WaitingForShip | Active | Over

  datatype ConnectionStatus = Disconnected | Connecting | Connected

  /** The nine message tags shared with the server. */
  datatype MessageType =
    | MoveTag | ChatTag | GameStateTag | GameOverTag | ErrorTag
    | PlaceShipTag | GameUpdateTag | TimeOutTag | SyncTimeTag

  function TagName(t: MessageType): string
  {
    match t
    case MoveTag => "MOVE"
    case ChatTag => "CHAT"
    case GameStateTag => "GAME_STATE"
    case GameOverTag => "GAME_OVER"
    case ErrorTag => "ERROR"
    case PlaceShipTag => "PLACE_SHIP"
    case GameUpdateTag => "GAME_UPDATE"
    case TimeOutTag => "TIME_OUT"
    case SyncTimeTag => "SYNC_TIME"
  }

  /** The tag a wire string names, if any; every other string is an unknown tag. */
  function TagOfName(s: string): Option<MessageType>
  {
    if s == "MOVE" then Some(MoveTag)
    else if s == "CHAT" then Some(ChatTag)
    else if s == "GAME_STATE" then Some(GameStateTag)
    else if s == "GAME_OVER" then Some(GameOverTag)
    else if s == "ERROR" then Some(ErrorTag)
    else if s == "PLACE_SHIP" then Some(PlaceShipTag)
    else if s == "GAME_UPDATE" then Some(GameUpdateTag)
    else if s == "TIME_OUT" then Some(TimeOutTag)
    else if s == "SYNC_TIME" then Some(SyncTimeTag)
    else None
  }

  /** Tag names and tags correspond one to one: decoding a name gives back its tag,
      and a string decodes to a tag only when it is that tag's name. */
  lemma TagNameRoundTrip(t: MessageType, s: string)
    ensures TagOfName(TagName(t)) == Some(t)
    ensures TagOfName(s) == Some(t) ==> s == TagName(t)
  {
  }

  lemma TagNamesDistinct(t1: MessageType, t2: MessageType)
    ensures TagName(t1) == TagName(t2) ==> t1 == t2
  {
    TagNameRoundTrip(t1, TagName(t2));
    TagNameRoundTrip(t2, TagName(t2));
  }

  /** A full game snapshot. Boards are rows of raw integer codes, as received. */
  datatype GameStateResponse = GameStateResponse(
    id: string,
    yourBoard: seq<seq<int>>,
    opponentBoard: seq<seq<int>>,
    activePlayer: string,
    winner: string,
    status: GameStatus,
    endAt: int)

  /** The opponent board is documented to hold only EMPTY, HIT and MISS codes. */
  ghost predicate MaskedBoard(b: seq<seq<int>>)
  {
    forall y, x :: 0 <= y < |b| && 0 <= x < |b[y]| ==>
      b[y][x] == CellCode(Empty) || b[y][x] == CellCode(Hit) || b[y][x] == CellCode(Miss)
  }

  datatype Coord = Coord(x: int, y: int)

  datatype MovePayload = MovePayload(x: int, y: int)
  datatype PlacePayload = PlacePayload(ships: seq<Coord>)
  datatype SyncTimePayload = SyncTimePayload(serverTime: int)
  datatype ChatPayload = ChatPayload(sender: Option<string>, message: string)
  datatype GameOverPayload = GameOverPayload(winner: string, message: Option<string>)
  datatype ErrorPayload = ErrorPayload(message: string)
  /** The result of one move: target cell, stringified cell code, next turn,
      who fired, and the new deadline. */
  datatype HitPayload = HitPayload(x: int, y: int, result: string, nextTurn: string, firedBy: string, endAt: int)

  /** A decoded payload; `OtherBody` stands for any shape the client does not read. */
  datatype Payload =
    | StateBody(state: GameStateResponse)
    | MoveBody(move: MovePayload)
    | PlaceBody(place: PlacePayload)
    | SyncBody(sync: SyncTimePayload)
    | ChatBody(chat: ChatPayload)
    | GameOverBody(over: GameOverPayload)
    | ErrorBody(error: ErrorPayload)
    | HitBody(hit: HitPayload)
    | OtherBody

  /** An outbound message envelope. */
  datatype MessageWs = MessageWs(kind: MessageType, payload: Payload)

  /** An inbound frame after parsing: either it failed to parse, or it has a tag
      string (possibly not one of the nine) and a payload. */
  datatype Frame = Malformed | Received(kind: string, payload: Payload)
}
