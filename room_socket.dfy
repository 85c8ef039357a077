/**
 * The room's channel client: one socket per subscription, a reconnect
 * 3000 ms after every close, an idempotent disconnect, and a dispatcher
 * that hands each decoded message to the latest registered callback for
 * its tag. Sockets are abstract: each is a URL and a ready state, and the
 * transport's events are methods taking the socket they concern.
 */
module RoomSocket {
  import opened Base
  import opened Wire

  const ReconnectDelayMs: nat := 3000
  const SocketErrorMessage: string := "WebSocket connection error"
  const CreateFailedMessage: string := "Failed to create WebSocket connection"

  datatype ReadyState = Connecting | Open | Closing | Closed

  /** OPEN or CONNECTING: a socket that holds or is acquiring a connection. */
  predicate Live(s: ReadyState)
  {
    s == Connecting || s == Open
  }

  datatype Socket = Socket(url: string, state: ReadyState)

  /** A socket after `close()`: a live one starts closing; a closing or closed one is left as is. */
  function AfterClose(s: Socket): (r: Socket)
    ensures r.url == s.url && !Live(r.state)
    ensures Live(s.state) ==> r.state == Closing
    ensures !Live(s.state) ==> r == s
  {
    if Live(s.state) then s.(state := Closing) else s
  }

  /** Identifies a callback function value registered by the subscriber. */
  type CallbackId = nat

  /** The callbacks the subscriber currently provides; each is optional. */
  datatype Callbacks = Callbacks(
    onPlaybackUpdate: Option<CallbackId>,
    onQueueUpdate: Option<CallbackId>,
    onMemberJoined: Option<CallbackId>,
    onMemberLeft: Option<CallbackId>,
    onNotification: Option<CallbackId>)

  /** One run of a subscriber's callback, with the arguments it received. */
  datatype Invocation =
    | PlaybackUpdateCall(callback: CallbackId, state: PlaybackState)
    | QueueUpdateCall(callback: CallbackId, queue: seq<QueueSongWS>, recentlyPlayed: seq<QueueSongWS>)
    | MemberJoinedCall(callback: CallbackId, userId: string, displayName: string, profileImageUrl: string, connectionCount: int)
    | MemberLeftCall(callback: CallbackId, userId: string, displayName: string, profileImageUrl: string, connectionCount: int)
    | NotificationCall(callback: CallbackId, notification: Notification)

  /** The callback registered for the tag of `m`, if any. */
  function CallbackFor(cbs: Callbacks, m: Message): Option<CallbackId>
  {
    match m
    case PlaybackStateMsg(_) => cbs.onPlaybackUpdate
    case QueueUpdateMsg(_, _) => cbs.onQueueUpdate
    case MemberJoinedMsg(_) => cbs.onMemberJoined
    case MemberLeftMsg(_) => cbs.onMemberLeft
    case NotificationMsg(_) => cbs.onNotification
    case Unknown(_) => None
  }

  /** The message an invocation delivers, rebuilt from its arguments. */
  function Delivered(inv: Invocation): Message
  {
    match inv
    case PlaybackUpdateCall(_, s) => PlaybackStateMsg(s)
    case QueueUpdateCall(_, q, r) => QueueUpdateMsg(q, r)
    case MemberJoinedCall(_, u, d, p, n) => MemberJoinedMsg(MemberEvent(u, d, p, n))
    case MemberLeftCall(_, u, d, p, n) => MemberLeftMsg(MemberEvent(u, d, p, n))
    case NotificationCall(_, n) => NotificationMsg(n)
  }

  /**
   * The `onmessage` handler: a frame that does not decode and a message
   * with an unknown tag run nothing; any other message runs the callback
   * registered for its own tag, when there is one, with its payload.
   */
  function Dispatch(f: Frame, cbs: Callbacks): (r: Option<Invocation>)
    ensures r.Some? <==> f.Decoded? && CallbackFor(cbs, f.message).Some?
    ensures r.Some? ==> Delivered(r.value) == f.message
    ensures r.Some? ==> Some(r.value.callback) == CallbackFor(cbs, f.message)
  {
    match f
    case Invalid => None
    case Decoded(m) =>
      match m
      case PlaybackStateMsg(s) =>
        if cbs.onPlaybackUpdate.Some? then Some(PlaybackUpdateCall(cbs.onPlaybackUpdate.value, s)) else None
      case QueueUpdateMsg(q, rp) =>
        if cbs.onQueueUpdate.Some? then Some(QueueUpdateCall(cbs.onQueueUpdate.value, q, rp)) else None
      case MemberJoinedMsg(e) =>
        if cbs.onMemberJoined.Some? then
          Some(MemberJoinedCall(cbs.onMemberJoined.value, e.userId, e.displayName, e.profileImageUrl, e.connectionCount))
        else None
      case MemberLeftMsg(e) =>
        if cbs.onMemberLeft.Some? then
          Some(MemberLeftCall(cbs.onMemberLeft.value, e.userId, e.displayName, e.profileImageUrl, e.connectionCount))
        else None
      case NotificationMsg(n) =>
        if cbs.onNotification.Some? then Some(NotificationCall(cbs.onNotification.value, n)) else None
      case Unknown(_) => None
  }

  /** The tag decides the callback: two messages with different tags never reach the same slot. */
  lemma {:induction false} DispatchRespectsTags(m1: Message, m2: Message, cbs: Callbacks)
    requires Dispatch(Decoded(m1), cbs).Some? && Dispatch(Decoded(m2), cbs).Some?
    requires Dispatch(Decoded(m1), cbs).value.callback != Dispatch(Decoded(m2), cbs).value.callback
    ensures m1.PlaybackStateMsg? ==> !m2.PlaybackStateMsg?
    ensures m1.QueueUpdateMsg? ==> !m2.QueueUpdateMsg?
    ensures m1.MemberJoinedMsg? ==> !m2.MemberJoinedMsg?
    ensures m1.MemberLeftMsg? ==> !m2.MemberLeftMsg?
    ensures m1.NotificationMsg? ==> !m2.NotificationMsg?
  {
    assert Some(Dispatch(Decoded(m1), cbs).value.callback) == CallbackFor(cbs, m1);
    assert Some(Dispatch(Decoded(m2), cbs).value.callback) == CallbackFor(cbs, m2);
  }

  /** The number of live sockets in `ss`. */
  function LiveCount(ss: seq<Socket>): nat
  {
    if ss == [] then 0 else LiveCount(ss[..|ss| - 1]) + (if Live(ss[|ss| - 1].state) then 1 else 0)
  }

  /** When every socket but the one at `k` is closing or closed, at most one is live. */
  lemma {:induction false} AtMostOneLive(ss: seq<Socket>, k: Option<nat>)
    requires forall i :: 0 <= i < |ss| && k != Some(i) ==> !Live(ss[i].state)
    ensures LiveCount(ss) <= 1
    ensures k.None? || k.value >= |ss| ==> LiveCount(ss) == 0
  {
    if ss != [] {
      var init := ss[..|ss| - 1];
      if k == Some(|ss| - 1) {
        NoneLive(init);
      } else {
        AtMostOneLive(init, k);
      }
    }
  }

  lemma {:induction false} NoneLive(ss: seq<Socket>)
    requires forall i :: 0 <= i < |ss| ==> !Live(ss[i].state)
    ensures LiveCount(ss) == 0
  {
    if ss != [] {
      NoneLive(ss[..|ss| - 1]);
    }
  }

  class ChannelClient {
    const baseUrl: string
    const roomCode: string
    const userId: string
    /** The latest callbacks, read at dispatch time. */
    var callbacks: Callbacks
    /** Every socket created so far, in creation order. */
    var sockets: seq<Socket>
    /** The socket the client holds, as an index into `sockets`. */
    var current: Option<nat>
    var isConnected: bool
    var connectionError: Option<string>
    /** The handle of the last reconnect timer armed (it is never reset). */
    var reconnectTimer: Option<nat>
    /** Reconnect timers armed and neither fired nor cleared. */
    var pendingTimers: set<nat>
    var nextTimer: nat
    /** Every callback run so far, oldest first. */
    var invocations: seq<Invocation>

    ghost predicate Valid()
      reads this
    {
      && (current.Some? ==> current.value < |sockets|)
      && (forall i :: 0 <= i < |sockets| && current != Some(i) ==> !Live(sockets[i].state))
      && (forall t :: t in pendingTimers ==> t < nextTimer)
    }

    /** The channel URL of this subscription. */
    function Url(): string
      reads this
    {
      baseUrl + "/ws/" + roomCode + "?user_id=" + userId
    }

    constructor (base: string, room: string, user: string, cbs: Callbacks)
      ensures Valid()
      ensures baseUrl == base && roomCode == room && userId == user && callbacks == cbs
      ensures sockets == [] && current == None && !isConnected && connectionError == None
      ensures reconnectTimer == None && pendingTimers == {} && invocations == []
    {
      baseUrl, roomCode, userId := base, room, user;
      callbacks := cbs;
      sockets := [];
      current := None;
      isConnected := false;
      connectionError := None;
      reconnectTimer := None;
      pendingTimers := {};
      nextTimer := 0;
      invocations := [];
    }

    /** The subscriber re-rendered with new callbacks; the connection is untouched. */
    method SetCallbacks(cbs: Callbacks)
      modifies this`callbacks
      ensures callbacks == cbs
    {
      callbacks := cbs;
    }

    /** `socket.close()` on socket `i`. */
    method CloseSocket(i: nat)
      requires i < |sockets|
      modifies this`sockets
      ensures sockets == old(sockets)[i := AfterClose(old(sockets[i]))]
    {
      if Live(sockets[i].state) {
        sockets := sockets[i := sockets[i].(state := Closing)];
      }
    }

    /**
     * Open the channel unless a parameter is empty or the held socket is
     * live. Otherwise the held socket is closed and dropped and a new one
     * is created for this room and user; `constructorThrows` is whether
     * creating it fails.
     */
    method Connect(constructorThrows: bool)
      requires Valid()
      modifies this`sockets, this`current, this`connectionError
      ensures Valid()
      ensures roomCode == "" || userId == "" || (old(current).Some? && Live(old(sockets[current.value].state))) ==>
        sockets == old(sockets) && current == old(current) && connectionError == old(connectionError)
      ensures roomCode != "" && userId != "" && !(old(current).Some? && Live(old(sockets[current.value].state))) ==>
        && |sockets| == |old(sockets)| + (if constructorThrows then 0 else 1)
        && sockets[..|old(sockets)|] == old(sockets)
        && (constructorThrows ==> current == None && connectionError == Some(CreateFailedMessage))
        && (!constructorThrows ==>
              current == Some(|old(sockets)|) && sockets[|old(sockets)|] == Socket(Url(), Connecting)
              && connectionError == old(connectionError))
    {
      if roomCode == "" || userId == "" {
        return;
      }
      if current.Some? && Live(sockets[current.value].state) {
        return;
      }
      if current.Some? {
        CloseSocket(current.value);
        current := None;
      }
      if constructorThrows {
        connectionError := Some(CreateFailedMessage);
        return;
      }
      sockets := sockets + [Socket(Url(), Connecting)];
      current := Some(|sockets| - 1);
    }

    /** `onopen` of socket `i`. */
    method SocketOpened(i: nat)
      requires Valid() && i < |sockets| && sockets[i].state == Connecting
      modifies this`sockets, this`isConnected, this`connectionError
      ensures Valid()
      ensures sockets == old(sockets)[i := Socket(old(sockets[i].url), Open)]
      ensures isConnected && connectionError == None
    {
      sockets := sockets[i := sockets[i].(state := Open)];
      isConnected := true;
      connectionError := None;
    }

    /** `onerror` of any socket: the error is shown; the connected flag is left alone. */
    method SocketErrored(i: nat)
      modifies this`connectionError
      ensures connectionError == Some(SocketErrorMessage)
    {
      connectionError := Some(SocketErrorMessage);
    }

    /**
     * `onclose` of socket `i`: whichever socket it is and whatever asked
     * for the close, the client shows itself disconnected and arms a
     * reconnect.
     */
    method SocketClosed(i: nat)
      requires Valid() && i < |sockets| && sockets[i].state != Closed
      modifies this`sockets, this`isConnected, this`reconnectTimer, this`pendingTimers, this`nextTimer
      ensures Valid()
      ensures sockets == old(sockets)[i := Socket(old(sockets[i].url), Closed)]
      ensures !isConnected
      ensures reconnectTimer == Some(old(nextTimer)) && pendingTimers == old(pendingTimers) + {old(nextTimer)}
      ensures old(nextTimer) !in old(pendingTimers)
    {
      sockets := sockets[i := sockets[i].(state := Closed)];
      isConnected := false;
      reconnectTimer := Some(nextTimer);
      pendingTimers := pendingTimers + {nextTimer};
      nextTimer := nextTimer + 1;
    }

    /** A frame arrives on open socket `i`: it is dispatched with the callbacks current now. */
    method FrameReceived(i: nat, f: Frame)
      requires i < |sockets| && sockets[i].state == Open
      modifies this`invocations
      ensures Dispatch(f, callbacks).None? ==> invocations == old(invocations)
      ensures Dispatch(f, callbacks).Some? ==> invocations == old(invocations) + [Dispatch(f, callbacks).value]
    {
      var r := Dispatch(f, callbacks);
      if r.Some? {
        invocations := invocations + [r.value];
      }
    }

    /** Reconnect timer `t` fires, ReconnectDelayMs after it was armed: it runs `Connect`. */
    method ReconnectFired(t: nat, constructorThrows: bool)
      requires Valid() && t in pendingTimers
      modifies this`sockets, this`current, this`connectionError, this`pendingTimers
      ensures Valid()
      ensures pendingTimers == old(pendingTimers) - {t}
      ensures roomCode == "" || userId == "" || (old(current).Some? && Live(old(sockets[current.value].state))) ==>
        sockets == old(sockets) && current == old(current) && connectionError == old(connectionError)
      ensures roomCode != "" && userId != "" && !(old(current).Some? && Live(old(sockets[current.value].state))) ==>
        && |sockets| == |old(sockets)| + (if constructorThrows then 0 else 1)
        && sockets[..|old(sockets)|] == old(sockets)
        && (constructorThrows ==> current == None && connectionError == Some(CreateFailedMessage))
        && (!constructorThrows ==>
              current == Some(|old(sockets)|) && sockets[|old(sockets)|] == Socket(Url(), Connecting)
              && connectionError == old(connectionError))
    {
      pendingTimers := pendingTimers - {t};
      Connect(constructorThrows);
    }

    /** Cancel the last reconnect timer, close and drop the held socket, show disconnected. */
    method Disconnect()
      requires Valid()
      modifies this`sockets, this`current, this`isConnected, this`pendingTimers
      ensures Valid()
      ensures pendingTimers == old(pendingTimers) - (if old(reconnectTimer).Some? then {old(reconnectTimer).value} else {})
      ensures current == None && !isConnected
      ensures |sockets| == |old(sockets)|
      ensures forall j :: 0 <= j < |sockets| ==> !Live(sockets[j].state)
      ensures old(current).None? ==> sockets == old(sockets)
      ensures old(current).Some? ==> sockets == old(sockets)[old(current).value := AfterClose(old(sockets[current.value]))]
    {
      if reconnectTimer.Some? {
        pendingTimers := pendingTimers - {reconnectTimer.value};
      }
      if current.Some? {
        CloseSocket(current.value);
        current := None;
      }
      isConnected := false;
    }
  }

  /** A second `Disconnect` changes nothing further: two leave the state one leaves. */
  method DisconnectIdempotent(c: ChannelClient)
    requires c.Valid()
    modifies c
    ensures c.Valid() && c.current == None && !c.isConnected
    ensures c.pendingTimers == old(c.pendingTimers) - (if old(c.reconnectTimer).Some? then {old(c.reconnectTimer).value} else {})
    ensures old(c.current).None? ==> c.sockets == old(c.sockets)
    ensures old(c.current).Some? ==> c.sockets == old(c.sockets)[old(c.current).value := AfterClose(old(c.sockets[c.current.value]))]
    ensures c.connectionError == old(c.connectionError)
  {
    c.Disconnect();
    ghost var sockets, timers, error := c.sockets, c.pendingTimers, c.connectionError;
    c.Disconnect();
    assert c.sockets == sockets && c.pendingTimers == timers && c.connectionError == error;
  }

  /** `Connect` twice in a row while live creates a single socket. */
  method ConnectTwiceOneSocket(c: ChannelClient)
    requires c.Valid() && c.roomCode != "" && c.userId != ""
    modifies c
    ensures c.Valid() && LiveCount(c.sockets) <= 1
  {
    c.Connect(false);
    ghost var n := |c.sockets|;
    c.Connect(false);
    assert |c.sockets| == n;
    AtMostOneLive(c.sockets, c.current);
  }

  /**
   * Disconnecting does not stop reconnection: the close event of the
   * socket it closed arms a fresh timer, and that timer opens a new socket.
   */
  method ReconnectAfterDisconnect(c: ChannelClient)
    requires c.Valid() && c.roomCode != "" && c.userId != ""
    requires c.current.Some? && Live(c.sockets[c.current.value].state)
    modifies c
    ensures c.Valid() && c.current.Some? && c.sockets[c.current.value].state == Connecting
  {
    var held := c.current.value;
    c.Disconnect();
    c.SocketClosed(held);
    var t := c.reconnectTimer.value;
    c.ReconnectFired(t, false);
  }

  /** An undecodable frame between two snapshots runs nothing and keeps the connection. */
  method InvalidFrameSwallowed(c: ChannelClient, i: nat, s1: PlaybackState, s2: PlaybackState, cb: CallbackId)
    requires i < |c.sockets| && c.sockets[i].state == Open && c.callbacks.onPlaybackUpdate == Some(cb)
    modifies c
    ensures c.invocations == old(c.invocations) + [PlaybackUpdateCall(cb, s1), PlaybackUpdateCall(cb, s2)]
    ensures c.sockets == old(c.sockets) && c.isConnected == old(c.isConnected) && c.pendingTimers == old(c.pendingTimers)
  {
    c.FrameReceived(i, Decoded(PlaybackStateMsg(s1)));
    c.FrameReceived(i, Invalid);
    c.FrameReceived(i, Decoded(PlaybackStateMsg(s2)));
  }
}
