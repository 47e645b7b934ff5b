/** The session store: one record holding the game snapshot, this client's
    player id, the connection status and the joined room, with one setter per
    field and a reset. The player id comes from a persistent key/value store. */
module Store {
  import opened GameTypes

  const PlayerIdKey := "space-striker-player-id"

  /** The browser's persistent key/value store, reduced to its contents. */
  class KeyValueStore {
    var items: map<string, string>

    constructor (initial: map<string, string>)
      ensures items == initial
    {
      items := initial;
    }
  }

  /** The id a read of `items` finds: a stored value counts only when it is a
      non-empty string; otherwise the supplied fresh id is used. */
  function PlayerIdFor(items: map<string, string>, freshId: string): string
  {
    if PlayerIdKey in items && items[PlayerIdKey] != "" then items[PlayerIdKey] else freshId
  }

  /** The key/value contents after one lookup: unchanged when a stored id was
      found, otherwise with the fresh id written under the player-id key. */
  function ItemsAfterLookup(items: map<string, string>, freshId: string): map<string, string>
  {
    if PlayerIdKey in items && items[PlayerIdKey] != "" then items else items[PlayerIdKey := freshId]
  }

  /** A lookup either returns the stored id and writes nothing, or returns the
      fresh id and leaves it stored; only the player-id key is ever touched. */
  lemma PlayerIdLookupSpec(items: map<string, string>, freshId: string)
    ensures var id := PlayerIdFor(items, freshId);
            var after := ItemsAfterLookup(items, freshId);
            (PlayerIdKey in items && items[PlayerIdKey] != "" ==> id == items[PlayerIdKey] && after == items)
            && (!(PlayerIdKey in items && items[PlayerIdKey] != "") ==>
                  id == freshId && PlayerIdKey in after && after[PlayerIdKey] == freshId)
            && (forall k :: k != PlayerIdKey ==> (k in after <==> k in items))
            && (forall k :: k != PlayerIdKey && k in items ==> after[k] == items[k])
  {
  }

  /** Once a non-empty id has been handed out, every later lookup returns it,
      whatever fresh id is offered then. */
  lemma {:induction false} PlayerIdStable(items: map<string, string>, fresh1: string, fresh2: string)
    requires fresh1 != ""
    ensures PlayerIdFor(ItemsAfterLookup(items, fresh1), fresh2) == PlayerIdFor(items, fresh1)
    ensures ItemsAfterLookup(ItemsAfterLookup(items, fresh1), fresh2) == ItemsAfterLookup(items, fresh1)
  {
    if !(PlayerIdKey in items && items[PlayerIdKey] != "") {
      var after := items[PlayerIdKey := fresh1];
      assert PlayerIdKey in after && after[PlayerIdKey] == fresh1;
    }
  }

  /** Reads the stored player id, creating and storing `freshId` (the id the
      generator supplies) when there is none. */
  method GetPlayerID(storage: KeyValueStore, freshId: string) returns (id: string)
    modifies storage
    ensures id == PlayerIdFor(old(storage.items), freshId)
    ensures storage.items == ItemsAfterLookup(old(storage.items), freshId)
  {
    if PlayerIdKey in storage.items && storage.items[PlayerIdKey] != "" {
      id := storage.items[PlayerIdKey];
    } else {
      id := freshId;
      storage.items := storage.items[PlayerIdKey := freshId];
    }
  }

  /** The store's contents as one value. */
  datatype Session = Session(
    gameState: Option<GameStateResponse>,
    playerID: string,
    connectionStatus: ConnectionStatus,
    roomID: Option<string>)

  /** The session after a reset: no game, no room, disconnected, same player. */
  function Reset(s: Session): (r: Session)
    ensures r.gameState == None && r.roomID == None && r.connectionStatus == Disconnected
    ensures r.playerID == s.playerID
  {
    s.(gameState := None, roomID := None, connectionStatus := Disconnected)
  }

  /** Resetting twice is the same as resetting once. */
  lemma ResetIdempotent(s: Session)
    ensures Reset(Reset(s)) == Reset(s)
  {
  }

  /** A reset depends only on the player id of the session it is applied to. */
  lemma ResetForgetsSession(s1: Session, s2: Session)
    requires s1.playerID == s2.playerID
    ensures Reset(s1) == Reset(s2)
  {
  }

  class GameStore {
    var gameState: Option<GameStateResponse>
    var playerID: string
    var connectionStatus: ConnectionStatus
    var roomID: Option<string>

    function State(): Session
      reads this
    {
      Session(gameState, playerID, connectionStatus, roomID)
    }

    /** The initial store: no game, disconnected, no room, and the player id
        read from (or created in) persistent storage. */
    constructor (storage: KeyValueStore, freshId: string)
      modifies storage
      ensures State() == Session(None, PlayerIdFor(old(storage.items), freshId), Disconnected, None)
      ensures storage.items == ItemsAfterLookup(old(storage.items), freshId)
    {
      var id := GetPlayerID(storage, freshId);
      gameState := None;
      playerID := id;
      connectionStatus := Disconnected;
      roomID := None;
    }

    method SetGameState(s: GameStateResponse)
      modifies this
      ensures State() == old(State()).(gameState := Some(s))
    {
      gameState := Some(s);
    }

    method UpdateConnectionStatus(status: ConnectionStatus)
      modifies this
      ensures State() == old(State()).(connectionStatus := status)
    {
      connectionStatus := status;
    }

    method SetRoomID(room: Option<string>)
      modifies this
      ensures State() == old(State()).(roomID := room)
    {
      roomID := room;
    }

    method ResetGame()
      modifies this
      ensures State() == Reset(old(State()))
    {
      gameState := None;
      roomID := None;
      connectionStatus := Disconnected;
    }
  }
}
