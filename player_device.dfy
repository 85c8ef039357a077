/**
 * The adapter around the in-browser player device. Its state changes on
 * the device's events (ready, not ready, state changed, four classes of
 * error) and on the outcome of its own initialisation; its commands reach
 * the playback service only once a device id is known. The device and
 * the service are represented by the log of calls made to them.
 */
module PlayerDevice {
  import opened Base
  import opened AuthStore

  /** A call made to the playback service or to the device itself. */
  datatype ServiceCall =
    | PlayCall(deviceId: string, uri: Option<string>, positionMs: int)
    | PauseCall(deviceId: string)
    | SeekCall(deviceId: string, positionMs: int)
    | VolumeCall(volume: real)
    | DisconnectCall

  /** A notification handed to the adapter's owner. */
  datatype Notice = PlayerReady(deviceId: string) | PlayerStateChanged(paused: bool) | PlayerError(message: string)

  /** The device's error classes. */
  datatype ErrorClass = Initialization | Authentication | Account | Playback

  /** Where the asynchronous initialisation stands. */
  datatype InitStage = Idle | LoadingSdk | Connecting

  const AuthFailedMessage: string := "Failed to authenticate with Spotify"
  const RefreshFailedMessage: string := "Token refresh failed"
  const ConnectFailedMessage: string := "Failed to connect to Spotify"
  const InitFailedMessage: string := "Failed to initialize Spotify player"
  const PlayFailedMessage: string := "Failed to play track"
  const PauseFailedMessage: string := "Failed to pause playback"
  const SeekFailedMessage: string := "Failed to seek"
  const VolumeFailedMessage: string := "Failed to set volume"
  const PremiumRequired: string := ". Spotify Premium required."

  function ErrorPrefix(c: ErrorClass): string
  {
    match c
    case Initialization => "Initialization error: "
    case Authentication => "Authentication error: "
    case Account => "Account error: "
    case Playback => "Playback error: "
  }

  /** The text the adapter shows for an error event of class `c`. */
  function ErrorText(c: ErrorClass, message: string): (r: string)
    ensures IsPrefix(ErrorPrefix(c), r)
    ensures c == Account ==> r == ErrorPrefix(c) + message + PremiumRequired
    ensures c != Account ==> r == ErrorPrefix(c) + message
  {
    var r := if c == Account then ErrorPrefix(c) + message + PremiumRequired else ErrorPrefix(c) + message;
    assert r[..|ErrorPrefix(c)|] == ErrorPrefix(c);
    r
  }

  /** The error class a shown text starts with, told apart by its first two letters. */
  function ClassOf(t: string): Option<ErrorClass>
  {
    if |t| < 2 then None
    else if t[0] == 'I' then Some(Initialization)
    else if t[0] == 'P' then Some(Playback)
    else if t[0] == 'A' && t[1] == 'u' then Some(Authentication)
    else if t[0] == 'A' && t[1] == 'c' then Some(Account)
    else None
  }

  /** The shown text starts with its class's prefix, so the class can be read back from it. */
  lemma ClassOfText(c: ErrorClass, m: string)
    ensures ClassOf(ErrorText(c, m)) == Some(c)
  {
    var t, p := ErrorText(c, m), ErrorPrefix(c);
    assert t[0] == p[0] && t[1] == p[1];
  }

  /** The device's message sits between the prefix and the optional suffix of the shown text. */
  lemma MessageOfText(c: ErrorClass, m: string)
    ensures var t := ErrorText(c, m);
      var end := |t| - if c == Account then |PremiumRequired| else 0;
      |ErrorPrefix(c)| <= end <= |t| && t[|ErrorPrefix(c)|..end] == m
  {
    var t, p := ErrorText(c, m), ErrorPrefix(c);
    if c == Account {
      assert t == p + m + PremiumRequired;
      assert t[|p|..|t| - |PremiumRequired|] == m;
    } else {
      assert t[|p|..] == m;
    }
  }

  /** The shown text determines both the error class and the device's message. */
  lemma ErrorTextInjective(c1: ErrorClass, m1: string, c2: ErrorClass, m2: string)
    requires ErrorText(c1, m1) == ErrorText(c2, m2)
    ensures c1 == c2 && m1 == m2
  {
    ClassOfText(c1, m1);
    ClassOfText(c2, m2);
    MessageOfText(c1, m1);
    MessageOfText(c2, m2);
  }

  class PlayerAdapter {
    var isReady: bool
    var deviceId: Option<string>
    var isPaused: bool
    var error: Option<string>
    /** The `isMounted` flag of the running initialisation. */
    var mounted: bool
    /** Whether a connected player is stored for teardown and volume control. */
    var hasPlayer: bool
    var stage: InitStage
    var calls: seq<ServiceCall>
    var notices: seq<Notice>

    constructor ()
      ensures !isReady && deviceId == None && isPaused && error == None
      ensures !mounted && !hasPlayer && stage == Idle && calls == [] && notices == []
    {
      isReady := false;
      deviceId := None;
      isPaused := true;
      error := None;
      mounted := false;
      hasPlayer := false;
      stage := Idle;
      calls := [];
      notices := [];
    }

    // ---------------------------------------------------------------------
    // Credential pull
    // ---------------------------------------------------------------------

    /**
     * The device asks for a token. The store is read at the time of the
     * call: a stored token is handed over at once and nothing is
     * refreshed; otherwise the refresh outcome decides. `delivered` is the
     * token passed to the device's callback, if it is called at all.
     */
    method GetOAuthToken(store: Store, refresh: Result<string>) returns (delivered: Option<string>, refreshed: bool)
      modifies this, store, store.storage
      ensures Present(old(store.spotifyToken)) ==>
        && delivered == old(store.spotifyToken) && !refreshed
        && store.spotifyToken == old(store.spotifyToken)
        && store.storage.items == old(store.storage.items)
        && error == old(error) && notices == old(notices)
      ensures !Present(old(store.spotifyToken)) ==> refreshed
      ensures !Present(old(store.spotifyToken)) && refresh.Ok? ==>
        && delivered == Some(refresh.value) && store.spotifyToken == Some(refresh.value)
        && AuthStorage.GetSpotifyToken(store.storage) == Some(refresh.value)
        && error == old(error) && notices == old(notices)
      ensures !Present(old(store.spotifyToken)) && refresh.Err? ==>
        && delivered == None && store.spotifyToken == old(store.spotifyToken)
        && store.storage.items == old(store.storage.items)
        && error == Some(AuthFailedMessage) && notices == old(notices) + [PlayerError(RefreshFailedMessage)]
      ensures !Present(old(store.spotifyToken)) && refresh.Ok? ==>
        store.storage.items == old(store.storage.items)[AuthStorage.SpotifyTokenKey := AuthStorage.Text(refresh.value)]
      ensures store.user == old(store.user) && store.token == old(store.token)
      ensures store.isAuthenticated == old(store.isAuthenticated)
      ensures store.isLoading == old(store.isLoading) && store.error == old(store.error)
      ensures AuthStorage.GetToken(store.storage) == old(AuthStorage.GetToken(store.storage))
      ensures AuthStorage.GetUserData(store.storage) == old(AuthStorage.GetUserData(store.storage))
      ensures isReady == old(isReady) && deviceId == old(deviceId) && isPaused == old(isPaused)
      ensures calls == old(calls) && mounted == old(mounted) && hasPlayer == old(hasPlayer) && stage == old(stage)
    {
      var currentToken := store.spotifyToken;
      if Present(currentToken) {
        return currentToken, false;
      }
      refreshed := true;
      match refresh
      case Ok(newToken) =>
        store.SetSpotifyToken(newToken);
        delivered := Some(newToken);
      case Err(_) =>
        error := Some(AuthFailedMessage);
        notices := notices + [PlayerError(RefreshFailedMessage)];
        delivered := None;
    }

    // ---------------------------------------------------------------------
    // Initialisation and teardown
    // ---------------------------------------------------------------------

    /** The initialisation starts only when the store holds a Spotify token. */
    method StartInit(store: Store)
      modifies this
      ensures Present(store.spotifyToken) ==> mounted && stage == LoadingSdk
      ensures !Present(store.spotifyToken) ==> mounted == old(mounted) && stage == old(stage)
      ensures isReady == old(isReady) && deviceId == old(deviceId) && isPaused == old(isPaused)
      ensures error == old(error) && hasPlayer == old(hasPlayer) && calls == old(calls) && notices == old(notices)
    {
      if !Present(store.spotifyToken) {
        return;
      }
      mounted := true;
      stage := LoadingSdk;
    }

    /**
     * The SDK script finished loading. Unless the adapter was torn down
     * meanwhile or the SDK is missing, the player is created, its
     * listeners attached, and its connection requested.
     */
    method SdkLoaded(sdkAvailable: bool)
      requires stage == LoadingSdk
      modifies this`stage
      ensures stage == if mounted && sdkAvailable then Connecting else Idle
    {
      if !mounted || !sdkAvailable {
        stage := Idle;
        return;
      }
      stage := Connecting;
    }

    /**
     * The connection attempt settled. A success stores the player even
     * when a teardown ran while the attempt was pending.
     */
    method ConnectSettled(success: bool)
      requires stage == Connecting
      modifies this`stage, this`error, this`hasPlayer
      ensures stage == Idle
      ensures success ==> hasPlayer && error == old(error)
      ensures !success ==> hasPlayer == old(hasPlayer) && error == Some(ConnectFailedMessage)
    {
      stage := Idle;
      if !success {
        error := Some(ConnectFailedMessage);
        return;
      }
      hasPlayer := true;
    }

    /** Loading or connecting threw: the failure is recorded and reported. */
    method InitThrew(message: string)
      requires stage != Idle
      modifies this`stage, this`error, this`notices
      ensures stage == Idle && error == Some(InitFailedMessage)
      ensures notices == old(notices) + [PlayerError(message)]
    {
      stage := Idle;
      error := Some(InitFailedMessage);
      notices := notices + [PlayerError(message)];
    }

    /** Teardown: later `ready`/state events are ignored; a stored player is disconnected and dropped. */
    method Teardown()
      modifies this`mounted, this`hasPlayer, this`calls
      ensures !mounted && !hasPlayer
      ensures calls == old(calls) + (if old(hasPlayer) then [DisconnectCall] else [])
    {
      mounted := false;
      if hasPlayer {
        calls := calls + [DisconnectCall];
        hasPlayer := false;
      }
    }

    // ---------------------------------------------------------------------
    // Device events
    // ---------------------------------------------------------------------

    /** Any of the four error events: the message replaces the current error. */
    method OnError(c: ErrorClass, message: string)
      modifies this`error, this`notices
      ensures error == Some(ErrorText(c, message))
      ensures notices == old(notices) + [PlayerError(message)]
    {
      error := Some(ErrorText(c, message));
      notices := notices + [PlayerError(message)];
    }

    method OnReady(id: string)
      modifies this`deviceId, this`isReady, this`error, this`notices
      ensures old(mounted) ==> deviceId == Some(id) && isReady && error == None && notices == old(notices) + [PlayerReady(id)]
      ensures !old(mounted) ==> deviceId == old(deviceId) && isReady == old(isReady) && error == old(error) && notices == old(notices)
    {
      if !mounted {
        return;
      }
      deviceId := Some(id);
      isReady := true;
      error := None;
      notices := notices + [PlayerReady(id)];
    }

    /** The device went offline: not ready any more, but its id is kept. */
    method OnNotReady(id: string)
      modifies this`isReady
      ensures !isReady
    {
      isReady := false;
    }

    /** `state` is the device's `paused` flag, or None for a null state. */
    method OnStateChanged(state: Option<bool>)
      modifies this`isPaused, this`notices
      ensures state.None? || !old(mounted) ==> isPaused == old(isPaused) && notices == old(notices)
      ensures state.Some? && old(mounted) ==> isPaused == state.value && notices == old(notices) + [PlayerStateChanged(state.value)]
    {
      if state.None? || !mounted {
        return;
      }
      isPaused := state.value;
      notices := notices + [PlayerStateChanged(state.value)];
    }

    // ---------------------------------------------------------------------
    // Commands; `ok` is whether the service call succeeds
    // ---------------------------------------------------------------------

    /** Play `uri` (or resume) from `positionMs`, which defaults to 0. */
    method Play(uri: Option<string>, positionMs: Option<int>, ok: bool)
      modifies this`calls, this`error
      ensures !Present(deviceId) ==> calls == old(calls) && error == old(error)
      ensures Present(deviceId) ==>
        calls == old(calls) + [PlayCall(deviceId.value, uri, if positionMs.Some? then positionMs.value else 0)]
      ensures Present(deviceId) ==> error == if ok then old(error) else Some(PlayFailedMessage)
    {
      if !Present(deviceId) {
        return;
      }
      var position := if positionMs.Some? then positionMs.value else 0;
      calls := calls + [PlayCall(deviceId.value, uri, position)];
      if !ok {
        error := Some(PlayFailedMessage);
      }
    }

    method Pause(ok: bool)
      modifies this`calls, this`error
      ensures !Present(deviceId) ==> calls == old(calls) && error == old(error)
      ensures Present(deviceId) ==> calls == old(calls) + [PauseCall(deviceId.value)]
      ensures Present(deviceId) ==> error == if ok then old(error) else Some(PauseFailedMessage)
    {
      if !Present(deviceId) {
        return;
      }
      calls := calls + [PauseCall(deviceId.value)];
      if !ok {
        error := Some(PauseFailedMessage);
      }
    }

    method Seek(positionMs: int, ok: bool)
      modifies this`calls, this`error
      ensures !Present(deviceId) ==> calls == old(calls) && error == old(error)
      ensures Present(deviceId) ==> calls == old(calls) + [SeekCall(deviceId.value, positionMs)]
      ensures Present(deviceId) ==> error == if ok then old(error) else Some(SeekFailedMessage)
    {
      if !Present(deviceId) {
        return;
      }
      calls := calls + [SeekCall(deviceId.value, positionMs)];
      if !ok {
        error := Some(SeekFailedMessage);
      }
    }

    /** Volume goes to the stored player itself, so it needs one. */
    method SetVolume(volume: real, ok: bool)
      modifies this`calls, this`error
      ensures !hasPlayer ==> calls == old(calls) && error == old(error)
      ensures hasPlayer ==> calls == old(calls) + [VolumeCall(volume)]
      ensures hasPlayer ==> error == if ok then old(error) else Some(VolumeFailedMessage)
    {
      if !hasPlayer {
        return;
      }
      calls := calls + [VolumeCall(volume)];
      if !ok {
        error := Some(VolumeFailedMessage);
      }
    }
  }

  /**
   * The token handed to the device is the one in the store when it asks,
   * not the one there when the device was created.
   */
  method TokenReadAtCallTime(a: PlayerAdapter, store: Store, later: string, refresh: Result<string>)
    returns (delivered: Option<string>, refreshed: bool)
    requires later != ""
    modifies a, store, store.storage
    ensures delivered == Some(later) && !refreshed
    ensures a.calls == old(a.calls) && a.error == old(a.error)
  {
    store.SetSpotifyToken(later);
    delivered, refreshed := a.GetOAuthToken(store, refresh);
  }

  /** A teardown while the connection is pending leaves the player stored and connected. */
  method TeardownDuringConnect(a: PlayerAdapter, store: Store)
    requires Present(store.spotifyToken) && !a.hasPlayer
    modifies a
    ensures a.hasPlayer && !a.mounted && a.calls == old(a.calls)
  {
    a.StartInit(store);
    a.SdkLoaded(true);
    a.Teardown();
    a.ConnectSettled(true);
  }
}
