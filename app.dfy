/** The top-level router: the lobby while no room is joined, the game view
    otherwise; joining and leaving a room only set the store's room id. */
module App {
  import opened GameTypes
  import opened Store

  datatype Screen = LobbyScreen | GameScreen

  /** The screen shown for the store's room id: a missing or empty room id is
      falsy and shows the lobby. */
  function ActiveScreen(roomID: Option<string>): (s: Screen)
    ensures s == GameScreen <==> roomID.Some? && roomID.value != ""
  {
    if !Truthy(roomID) then LobbyScreen else GameScreen
  }

  /** The screen depends only on whether a non-empty room id is set, so the game
      view is shown for a room exactly when it is shown for any other. */
  lemma ScreenIgnoresRoomName(r1: string, r2: string)
    requires r1 != "" && r2 != ""
    ensures ActiveScreen(Some(r1)) == ActiveScreen(Some(r2)) == GameScreen
    ensures ActiveScreen(None) == ActiveScreen(Some("")) == LobbyScreen
  {
  }

  /** The lobby's join callback: the room becomes the store's room id. */
  method HandleJoinGame(store: GameStore, room: string)
    modifies store
    ensures store.State() == old(store.State()).(roomID := Some(room))
    ensures room != "" ==> ActiveScreen(store.roomID) == GameScreen
  {
    store.SetRoomID(Some(room));
  }

  /** The game view's return callback: the room id is cleared. */
  method HandleReturnToLobby(store: GameStore)
    modifies store
    ensures store.State() == old(store.State()).(roomID := None)
    ensures ActiveScreen(store.roomID) == LobbyScreen
  {
    store.SetRoomID(None);
  }
}
