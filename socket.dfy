/** The connection hook: opens one socket per room, tracks the connection
    status in the store, dispatches inbound frames and guards outbound sends.
    The socket itself is reduced to its ready state; frames arrive decoded. */
module Socket {
  import opened GameTypes
  import opened Store

  const WebSocketUrl := "ws://localhost:8080/ws"
  const RoomParam := "?roomID="
  const PlayerParam := "&playerID="

  /** The four ready states of a WebSocket. */
  datatype ReadyState = SocketConnecting | SocketOpen | SocketClosing | SocketClosed

  /** The connection address: the server endpoint with the room and the player
      as query parameters. */
  function ConnectionUrl(roomID: string, playerID: string): string
  {
    WebSocketUrl + RoomParam + roomID + PlayerParam + playerID
  }

  /** The address carries the room right after `?roomID=` and ends with the
      player after `&playerID=`. */
  lemma ConnectionUrlCarriesIds(roomID: string, playerID: string)
    ensures var u := ConnectionUrl(roomID, playerID);
            var n := |WebSocketUrl + RoomParam|;
            |u| == n + |roomID| + |PlayerParam| + |playerID|
            && u[n..n + |roomID|] == roomID
            && u[n + |roomID|..n + |roomID| + |PlayerParam|] == PlayerParam
            && u[n + |roomID| + |PlayerParam|..] == playerID
  {
    var u := ConnectionUrl(roomID, playerID);
    var n := |WebSocketUrl + RoomParam|;
    assert u == (WebSocketUrl + RoomParam) + roomID + PlayerParam + playerID;
  }

  /** Position of the first '&' in `s`, or `|s|` when there is none. */
  function FirstAmpersand(s: string): (k: nat)
    ensures k <= |s|
  {
    if s == [] || s[0] == '&' then 0 else 1 + FirstAmpersand(s[1..])
  }

  lemma {:induction false} FirstAmpersandAfter(r: string, t: string)
    requires '&' !in r && t != [] && t[0] == '&'
    ensures FirstAmpersand(r + t) == |r|
  {
    if r != [] {
      assert (r + t)[1..] == r[1..] + t;
      FirstAmpersandAfter(r[1..], t);
    }
  }

  /** When the room contains no '&', the address determines both ids. */
  lemma ConnectionUrlInjective(r1: string, p1: string, r2: string, p2: string)
    requires '&' !in r1 && '&' !in r2
    requires ConnectionUrl(r1, p1) == ConnectionUrl(r2, p2)
    ensures r1 == r2 && p1 == p2
  {
    var n := |WebSocketUrl + RoomParam|;
    var w1 := r1 + (PlayerParam + p1);
    var w2 := r2 + (PlayerParam + p2);
    assert ConnectionUrl(r1, p1) == (WebSocketUrl + RoomParam) + w1;
    assert ConnectionUrl(r2, p2) == (WebSocketUrl + RoomParam) + w2;
    assert w1 == ConnectionUrl(r1, p1)[n..] == w2;
    FirstAmpersandAfter(r1, PlayerParam + p1);
    FirstAmpersandAfter(r2, PlayerParam + p2);
    assert |r1| == |r2|;
    assert r1 == w1[..|r1|] && r2 == w2[..|r2|];
    assert p1 == w1[|r1| + |PlayerParam|..] && p2 == w2[|r2| + |PlayerParam|..];
  }

  /** The three tags whose payload replaces the whole game snapshot. */
  predicate ReplacesState(kind: string)
  {
    TagOfName(kind) == Some(GameStateTag) || TagOfName(kind) == Some(GameUpdateTag) ||
    TagOfName(kind) == Some(GameOverTag)
  }

  /** The frames that carry a snapshot under one of those tags. */
  predicate IsStateFrame(f: Frame)
  {
    f.Received? && ReplacesState(f.kind) && f.payload.StateBody?
  }

  /** Effect of one inbound frame on the game snapshot. A frame that failed to
      parse, and every tag other than the three state-carrying ones, leaves it as
      it was. */
  function Dispatch(gs: Option<GameStateResponse>, f: Frame): (r: Option<GameStateResponse>)
    ensures IsStateFrame(f) ==> r == Some(f.payload.state)
    ensures !IsStateFrame(f) ==> r == gs
  {
    match f
    case Malformed => gs
    case Received(kind, payload) =>
      if ReplacesState(kind) then
        match payload
        case StateBody(s) => Some(s)
        case _ => gs
      else gs
  }

  /** Exactly GAME_STATE, GAME_UPDATE and GAME_OVER replace the snapshot; ERROR,
      CHAT, MOVE, TIME_OUT, SYNC_TIME, PLACE_SHIP and unknown tags do not. */
  lemma ReplacingTags(kind: string)
    ensures ReplacesState(kind) <==> kind == "GAME_STATE" || kind == "GAME_UPDATE" || kind == "GAME_OVER"
  {
  }

  /** The snapshot after a run of frames, processed in arrival order. */
  function DispatchAll(gs: Option<GameStateResponse>, frames: seq<Frame>): Option<GameStateResponse>
  {
    if frames == [] then gs
    else Dispatch(DispatchAll(gs, frames[..|frames| - 1]), frames[|frames| - 1])
  }

  /** Frames that carry no snapshot leave the snapshot unchanged. */
  lemma {:induction false} DispatchAllNoState(gs: Option<GameStateResponse>, frames: seq<Frame>)
    requires forall i :: 0 <= i < |frames| ==> !IsStateFrame(frames[i])
    ensures DispatchAll(gs, frames) == gs
  {
    if frames != [] {
      DispatchAllNoState(gs, frames[..|frames| - 1]);
    }
  }

  /** After a run of frames the snapshot is the one carried by the last
      state-carrying frame: earlier snapshots are entirely overwritten. */
  lemma {:induction false} DispatchAllLastState(gs: Option<GameStateResponse>, frames: seq<Frame>, i: nat)
    requires i < |frames| && IsStateFrame(frames[i])
    requires forall j :: i < j < |frames| ==> !IsStateFrame(frames[j])
    ensures DispatchAll(gs, frames) == Some(frames[i].payload.state)
  {
    if i < |frames| - 1 {
      DispatchAllLastState(gs, frames[..|frames| - 1], i);
    }
  }

  /** A frame that fails to parse is skipped: the frames around it are
      dispatched exactly as if it had never arrived. */
  lemma {:induction false} MalformedFrameSkipped(gs: Option<GameStateResponse>, before: seq<Frame>, after: seq<Frame>)
    ensures DispatchAll(gs, before + [Malformed] + after) == DispatchAll(gs, before + after)
  {
    if after == [] {
      assert before + [Malformed] + after == before + [Malformed];
      assert (before + [Malformed])[..|before|] == before;
      assert before + after == before;
    } else {
      var all := before + [Malformed] + after;
      var kept := before + after;
      var last := after[|after| - 1];
      assert all[..|all| - 1] == before + [Malformed] + after[..|after| - 1];
      assert kept[..|kept| - 1] == before + after[..|after| - 1];
      MalformedFrameSkipped(gs, before, after[..|after| - 1]);
    }
  }

  /** Cleanup closes the socket only while it is connecting or open. */
  predicate ShouldClose(rs: ReadyState)
  {
    rs == SocketConnecting || rs == SocketOpen
  }

  /** The state of a socket after its cleanup; closing moves it to CLOSING. */
  function AfterCleanup(rs: ReadyState): (r: ReadyState)
    ensures ShouldClose(rs) ==> r == SocketClosing
    ensures !ShouldClose(rs) ==> r == rs
  {
    if ShouldClose(rs) then SocketClosing else rs
  }

  /** Cleanup is harmless to repeat: a second cleanup finds nothing left to close. */
  lemma CleanupIdempotent(rs: ReadyState)
    ensures AfterCleanup(AfterCleanup(rs)) == AfterCleanup(rs)
    ensures AfterCleanup(rs) != SocketOpen && AfterCleanup(rs) != SocketConnecting
  {
  }

  // ---- which socket an event comes from ----

  /** What socket events change: the ready state of every socket opened so far,
      oldest first, and the store's connection status. The last socket is the
      one `wsRef` holds; the earlier ones keep their handlers. */
  datatype Link = Link(sockets: seq<ReadyState>, status: ConnectionStatus)

  /** The socket `wsRef` holds, if any. */
  function Current(sockets: seq<ReadyState>): Option<ReadyState>
  {
    if sockets == [] then None else Some(sockets[|sockets| - 1])
  }

  /** The events the hook sees: a new socket for a room, and the open, error,
      close and cleanup of the socket with index `s`. */
  datatype LinkEvent = NewSocket | Opened(s: nat) | Failed(s: nat) | Closed(s: nat) | CleanedUp(s: nat)

  /** The event comes from a socket that has been opened. */
  predicate FromKnownSocket(l: Link, e: LinkEvent)
  {
    e.NewSocket? || e.s < |l.sockets|
  }

  /** The event comes from the socket `wsRef` holds, or opens a new one. */
  predicate FromCurrentSocket(l: Link, e: LinkEvent)
  {
    e.NewSocket? || e.s + 1 == |l.sockets|
  }

  /** The event's effect on the ready states. The browser reports an error only
      once it has closed the socket, so an error leaves it CLOSED like a close. */
  function SocketsAfter(sockets: seq<ReadyState>, e: LinkEvent): seq<ReadyState>
    requires e.NewSocket? || e.s < |sockets|
  {
    match e
    case NewSocket => sockets + [SocketConnecting]
    case Opened(s) => sockets[s := SocketOpen]
    case Failed(s) => sockets[s := SocketClosed]
    case Closed(s) => sockets[s := SocketClosed]
    case CleanedUp(s) => sockets[s := AfterCleanup(sockets[s])]
  }

  /** The status the event's handler writes, if it writes one. */
  function StatusWritten(e: LinkEvent): Option<ConnectionStatus>
  {
    match e
    case NewSocket => Some(Connecting)
    case Opened(_) => Some(Connected)
    case Failed(_) => Some(Disconnected)
    case Closed(_) => Some(Disconnected)
    case CleanedUp(_) => None
  }

  /** One event as the hook is written: every handler writes its status,
      whichever socket it belongs to. */
  function LinkStep(l: Link, e: LinkEvent): (r: Link)
    requires FromKnownSocket(l, e)
    ensures e.NewSocket? ==> |r.sockets| == |l.sockets| + 1 && r.sockets[..|l.sockets|] == l.sockets && Current(r.sockets) == Some(SocketConnecting)
    ensures !e.NewSocket? ==> |r.sockets| == |l.sockets|
                              && forall i :: 0 <= i < |l.sockets| && i != e.s ==> r.sockets[i] == l.sockets[i]
    ensures r.status == if StatusWritten(e).Some? then StatusWritten(e).value else l.status
  {
    var st := StatusWritten(e);
    Link(SocketsAfter(l.sockets, e), if st.Some? then st.value else l.status)
  }

  /** The status describes the socket sends go through: while that socket is
      OPEN, the status reads `connected`. */
  predicate StatusTracksCurrent(l: Link)
  {
    Current(l.sockets) == Some(SocketOpen) ==> l.status == Connected
  }

  /** The corrected step: the handlers of a socket that `wsRef` no longer holds
      still record its ready state but leave the status alone. */
  function GuardedStep(l: Link, e: LinkEvent): (r: Link)
    requires FromKnownSocket(l, e)
    ensures StatusTracksCurrent(l) ==> StatusTracksCurrent(r)
    ensures r.sockets == LinkStep(l, e).sockets
    ensures FromCurrentSocket(l, e) ==> r == LinkStep(l, e)
    ensures !FromCurrentSocket(l, e) ==> r.status == l.status
  {
    var st := StatusWritten(e);
    Link(SocketsAfter(l.sockets, e), if st.Some? && FromCurrentSocket(l, e) then st.value else l.status)
  }

  /** Runs a trace of events with the fix; `None` when an event names a socket
      not yet opened. */
  function RunGuarded(l: Link, es: seq<LinkEvent>): Option<Link>
    decreases |es|
  {
    if es == [] then Some(l)
    else if !FromKnownSocket(l, es[0]) then None
    else RunGuarded(GuardedStep(l, es[0]), es[1..])
  }

  /** With the fix the status describes the current socket after any trace. */
  lemma {:induction false} GuardedRunTracksCurrent(l: Link, es: seq<LinkEvent>)
    requires StatusTracksCurrent(l)
    ensures RunGuarded(l, es).Some? ==> StatusTracksCurrent(RunGuarded(l, es).value)
    decreases |es|
  {
    if es != [] && FromKnownSocket(l, es[0]) {
      GuardedRunTracksCurrent(GuardedStep(l, es[0]), es[1..]);
    }
  }

  /** As written: join a room, its socket opens, go back to the lobby (the
      cleanup closes that socket), join another room and its socket opens;
      when the first socket's close event arrives only now, the status reads
      `disconnected` although the current socket is OPEN and sends still go
      out. */
  lemma StaleCloseShowsOffline(status: ConnectionStatus)
    ensures var l0 := Link([], status);
            var l5 := LinkStep(LinkStep(LinkStep(LinkStep(LinkStep(l0, NewSocket), Opened(0)), CleanedUp(0)), NewSocket), Opened(1));
            l5 == Link([SocketClosing, SocketOpen], Connected) && StatusTracksCurrent(l5)
            && LinkStep(l5, Closed(0)) == Link([SocketClosed, SocketOpen], Disconnected)
            && !StatusTracksCurrent(LinkStep(l5, Closed(0)))
  {
    var l0 := Link([], status);
    var l1 := Link([SocketConnecting], Connecting);
    var l2 := Link([SocketOpen], Connected);
    var l3 := Link([SocketClosing], Connected);
    var l4 := Link([SocketClosing, SocketConnecting], Connecting);
    var l5 := Link([SocketClosing, SocketOpen], Connected);
    assert LinkStep(l0, NewSocket) == l1;
    assert LinkStep(l1, Opened(0)) == l2 by { assert l1.sockets[0 := SocketOpen] == l2.sockets; }
    assert LinkStep(l2, CleanedUp(0)) == l3 by { assert l2.sockets[0 := SocketClosing] == l3.sockets; }
    assert LinkStep(l3, NewSocket) == l4 by { assert l3.sockets + [SocketConnecting] == l4.sockets; }
    assert LinkStep(l4, Opened(1)) == l5 by { assert l4.sockets[1 := SocketOpen] == l5.sockets; }
    assert l5.sockets[0 := SocketClosed] == [SocketClosed, SocketOpen];
  }

  /** With the fix, the same events leave the status `connected`. */
  lemma GuardedRejoinStaysConnected(status: ConnectionStatus)
    ensures var l0 := Link([], status);
            var l5 := GuardedStep(GuardedStep(GuardedStep(GuardedStep(GuardedStep(l0, NewSocket), Opened(0)), CleanedUp(0)), NewSocket), Opened(1));
            l5 == Link([SocketClosing, SocketOpen], Connected) && StatusTracksCurrent(l5)
            && GuardedStep(l5, Closed(0)) == Link([SocketClosed, SocketOpen], Connected)
            && StatusTracksCurrent(GuardedStep(l5, Closed(0)))
  {
    StaleCloseShowsOffline(status);
    var l0 := Link([], status);
    var l1 := LinkStep(l0, NewSocket);
    var l2 := LinkStep(l1, Opened(0));
    var l3 := LinkStep(l2, CleanedUp(0));
    var l4 := LinkStep(l3, NewSocket);
    assert FromCurrentSocket(l1, Opened(0)) && FromCurrentSocket(l2, CleanedUp(0));
    assert FromCurrentSocket(l4, Opened(1));
    assert GuardedStep(l0, NewSocket) == l1;
    assert GuardedStep(l1, Opened(0)) == l2;
    assert GuardedStep(l2, CleanedUp(0)) == l3;
    assert GuardedStep(l3, NewSocket) == l4;
  }

  class GameSocket {
    const store: GameStore
    /** Every socket opened so far, oldest first; the last is the one `wsRef`
        holds, and each keeps its own handlers. */
    var sockets: seq<ReadyState>
    /** The address of the socket last opened. */
    var url: Option<string>
    /** Messages handed to the socket, in order. */
    var sent: seq<MessageWs>
    /** Messages refused with a warning because no socket was open. */
    var warnings: seq<MessageWs>

    constructor (store: GameStore)
      ensures this.store == store
      ensures sockets == [] && url == None && sent == [] && warnings == []
    {
      this.store := store;
      sockets := [];
      url := None;
      sent := [];
      warnings := [];
    }

    /** The ready states and the store's connection status. */
    function LinkState(): Link
      reads this, store
    {
      Link(sockets, store.connectionStatus)
    }

    predicate IsConnected()
      reads this
    {
      Current(sockets) == Some(SocketOpen)
    }

    /** Transmits `m` only when the current socket exists and is OPEN; otherwise
        the message is dropped with a warning. Nothing is queued. */
    method SendMessage(m: MessageWs)
      modifies this
      ensures sockets == old(sockets) && url == old(url)
      ensures old(IsConnected()) ==> sent == old(sent) + [m] && warnings == old(warnings)
      ensures !old(IsConnected()) ==> sent == old(sent) && warnings == old(warnings) + [m]
    {
      if sockets != [] && sockets[|sockets| - 1] == SocketOpen {
        sent := sent + [m];
      } else {
        warnings := warnings + [m];
      }
    }

    /** The connection effect for `roomID`. Without a room nothing happens;
        otherwise the status becomes `connecting` and a new socket, which
        becomes the current one, is opened at the address carrying the room and
        the store's player id. */
    method Connect(roomID: Option<string>)
      modifies this, store
      ensures !Truthy(roomID) ==> unchanged(this) && unchanged(store)
      ensures Truthy(roomID) ==>
                LinkState() == LinkStep(old(LinkState()), NewSocket)
                && url == Some(ConnectionUrl(roomID.value, old(store.playerID)))
                && sent == old(sent) && warnings == old(warnings)
                && store.State() == old(store.State()).(connectionStatus := Connecting)
    {
      if !Truthy(roomID) {
        return;
      }
      var address := ConnectionUrl(roomID.value, store.playerID);
      store.UpdateConnectionStatus(Connecting);
      sockets := sockets + [SocketConnecting];
      url := Some(address);
    }

    /** Socket `s` opened: it is OPEN and the status becomes `connected`. */
    method OnOpen(s: nat)
      requires s < |sockets|
      modifies this, store
      ensures LinkState() == LinkStep(old(LinkState()), Opened(s))
      ensures url == old(url) && sent == old(sent) && warnings == old(warnings)
      ensures store.State() == old(store.State()).(connectionStatus := Connected)
    {
      sockets := sockets[s := SocketOpen];
      store.UpdateConnectionStatus(Connected);
    }

    /** Socket `s` failed: the browser has closed it, and the status becomes
        `disconnected`, even when `s` is no longer the current socket. */
    method OnError(s: nat)
      requires s < |sockets|
      modifies this, store
      ensures LinkState() == LinkStep(old(LinkState()), Failed(s))
      ensures url == old(url) && sent == old(sent) && warnings == old(warnings)
      ensures store.State() == old(store.State()).(connectionStatus := Disconnected)
    {
      sockets := sockets[s := SocketClosed];
      store.UpdateConnectionStatus(Disconnected);
    }

    /** Socket `s` closed: it is CLOSED and the status becomes `disconnected`,
        even when `s` is no longer the current socket. */
    method OnClose(s: nat)
      requires s < |sockets|
      modifies this, store
      ensures LinkState() == LinkStep(old(LinkState()), Closed(s))
      ensures url == old(url) && sent == old(sent) && warnings == old(warnings)
      ensures store.State() == old(store.State()).(connectionStatus := Disconnected)
    {
      sockets := sockets[s := SocketClosed];
      store.UpdateConnectionStatus(Disconnected);
    }

    /** One inbound frame: only the snapshot may change, as `Dispatch` says; the
        connection status and the sockets are untouched, so later frames are
        handled the same way whatever this one was. The handler does the same
        whichever socket delivers the frame. */
    method OnMessage(f: Frame)
      modifies store
      ensures store.State() == old(store.State()).(gameState := Dispatch(old(store.gameState), f))
    {
      match f
      case Malformed =>
      case Received(kind, payload) =>
        if ReplacesState(kind) {
          match payload
          case StateBody(s) =>
            store.SetGameState(s);
          case _ =>
        }
    }

    /** The cleanup of the effect that opened socket `s`: close that socket if
        it is connecting or open; a closing or closed socket is left alone. */
    method Cleanup(s: nat)
      requires s < |sockets|
      modifies this
      ensures LinkState() == LinkStep(old(LinkState()), CleanedUp(s))
      ensures url == old(url) && sent == old(sent) && warnings == old(warnings)
    {
      if ShouldClose(sockets[s]) {
        sockets := sockets[s := SocketClosing];
      }
    }
  }
}
