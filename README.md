# jammy client core in Dafny

jammy is a shared listening room: everyone in a room hears one playback
timeline, pushed by the server over a WebSocket, while each browser drives
its own Spotify Web Playback device and edits a shared queue. This project
models the browser side of that:

- the room channel client (`RoomSocket`): one socket per room at a time, a
  tagged message protocol dispatched to callbacks held behind a ref, and a
  fixed 3000 ms reconnect after every close;
- the playback clock (`Playback`) and the synchronisation hook
  (`PlaybackSync`) that turns each pushed playback state into local state and
  at most one device command;
- the Spotify player adapter (`PlayerDevice`): the token callback, the
  initialisation sequence, the SDK's listeners, the play, pause, seek and
  volume commands;
- the room page (`RoomContent`, `RoomChat`, `SongSearch`, `SessionHistory`),
  the notification slot (`Notifications`), the rooms list with its filters
  (`Rooms`, `RoomFilters`), the create-room form (`CreateRoom`) and its tag
  picker (`TagsInput`);
- local storage of credentials (`AuthStorage`), the auth store
  (`AuthStore`), the HTTP interceptors (`ApiClient`), the Spotify track
  search (`SpotifySearch`), the host check (`RoomHost`) and `mm:ss`
  formatting (`Format`).

Components and hooks whose state changes step by step are classes. Their
methods give the whole new state in `ensures`. Callbacks handed to parents
(`onSearch`, `onChange`, `onSubmit`, `onPlayerError`, …) and service calls
(device commands, `spotifyService.play`, …) are recorded in sequence fields,
oldest first. Timers are explicit handles: arming one returns a fresh
handle, `clearTimeout` removes it from the pending set, and the firing of a
timer is a method of its own. `Date.now()` is a parameter `now`. A value
that JavaScript tests for truthiness (`string | null`) is `Option<string>`,
and `Present` gives its truthiness. The empty string counts as absent.

Behaviour of the code as written that a reader might not expect, all of
it modelled as it is:

- The clock returns the time elapsed since `playback_started_at`, capped
  at the duration when one is given (src/utils/playback.ts:39-48). It adds
  no base position and does not clamp below zero.
- `onclose` always arms a reconnect after 3000 ms, including for a socket
  that `disconnect` closed (src/hooks/room/useRoomWebSocket.ts:117-126).
- An `authentication_error` from the SDK only records the error text and
  reports it (src/contexts/SpotifyPlayerContext.tsx:89-93). It neither
  refreshes the token nor reconnects. A refresh happens only when the
  token callback finds no token in the store.
- Resuming sends the last ticked `currentTime * 1000`
  (src/hooks/room/usePlaybackSync.ts:111), not a freshly extrapolated
  position. A seek sets `currentTime` but not the clock's base
  (src/hooks/room/usePlaybackSync.ts:118-119).
- `checkAuth` stores `isAuthenticated: true` when the token or the user is
  missing, and `false` when both are present (src/stores/auth.ts:72-77).

## Model

| member | source | states |
|---|---|---|
| `Playback.ConvertTrackToSong` | src/utils/playback.ts:7-19 | null exactly when the track is null; otherwise every field is copied from the track |
| `Playback.CalculateCurrentPosition` | src/utils/playback.ts:29-49 | when not playing or without a start stamp the base position; otherwise the elapsed time since the start, or the duration when that is smaller |
| `Playback.FrozenWhenNotRunning` | src/utils/playback.ts:35-37 | a paused clock reads the base position at every instant |
| `Playback.BaseIgnoredWhileRunning` | src/utils/playback.ts:39-48 | while running the reading does not depend on the base position, and without a duration it is exactly `now - start` |
| `Playback.CappedAtDuration` | src/utils/playback.ts:44-46 | with a duration the reading is the smaller of the elapsed time and the duration |
| `Playback.MonotoneInNow` | src/utils/playback.ts:39-48 | a running clock never goes backwards as `now` grows |
| `Playback.NegativeBeforeStart` | src/utils/playback.ts:39-41 | before the start instant a running clock reads negative, since nothing clamps it at zero |
| `Playback.TenSecondsAfterStart` | src/utils/playback.ts:35-48 | 10 s after a start with base 50000 it reads 10000 while playing and 50000 while paused |
| `PlaybackSync.UpdateCommands` | src/hooks/room/usePlaybackSync.ts:51-60 | no command when the device is not ready or there is no song; otherwise exactly one: play the song's URI at the pushed position, or pause |
| `PlaybackSync.DurationOf` | src/hooks/room/usePlaybackSync.ts:74 | the duration handed to the clock is the current song's, and absent without a song |
| `PlaybackSync.SyncEngine.constructor` | src/hooks/room/usePlaybackSync.ts:27-34 | no song, no start stamp, base 0, time 0, not playing, volume 0.8, no commands |
| `PlaybackSync.SyncEngine.HandlePlaybackUpdate` | src/hooks/room/usePlaybackSync.ts:37-61 | song, start stamp, base and playing flag all come from the pushed state; time is the floor of the position in seconds; the commands of `UpdateCommands` are appended; a paused state freezes the clock at the pushed position |
| `PlaybackSync.SyncEngine.Tick` | src/hooks/room/usePlaybackSync.ts:66-83 | while playing, the time becomes the clock's reading in whole seconds; while paused nothing changes |
| `PlaybackSync.SyncEngine.HandleTogglePlay` | src/hooks/room/usePlaybackSync.ts:102-114 | the playing flag flips; pausing sends pause; resuming sends play at `currentTime * 1000` when there is a song and nothing otherwise |
| `PlaybackSync.SyncEngine.HandleSeek` | src/hooks/room/usePlaybackSync.ts:116-122 | sends seek to `time * 1000` and sets the time to `time`; nothing else changes |
| `PlaybackSync.SyncEngine.FetchInitialPlayback` | src/hooks/room/usePlaybackSync.ts:86-100 | without a room code, or when the fetch fails, the state is unchanged; otherwise the fetched state is applied as a push |
| `PlaybackSync.SnapshotReplacesAll` | src/hooks/room/usePlaybackSync.ts:37-48 | two engines in any states agree on every clock field and on the clock reading after the same push |
| `PlaybackSync.ToggleTwiceResumes` | src/hooks/room/usePlaybackSync.ts:102-114 | pausing then resuming leaves the engine playing and sends pause, then play at the time it had |
| `PlayerDevice.ErrorText` | src/contexts/SpotifyPlayerContext.tsx:83-105 | the error text starts with its class's prefix, and an account error ends with the Premium notice |
| `PlayerDevice.ClassOfText` | src/contexts/SpotifyPlayerContext.tsx:83-105 | the class of an error can be read back from its text |
| `PlayerDevice.MessageOfText` | src/contexts/SpotifyPlayerContext.tsx:83-105 | the SDK's message can be read back from the error text |
| `PlayerDevice.ErrorTextInjective` | src/contexts/SpotifyPlayerContext.tsx:83-105 | two equal error texts come from the same class and the same message |
| `PlayerDevice.PlayerAdapter.constructor` | src/contexts/SpotifyPlayerContext.tsx:26-31 | not ready, no device, paused, no error, no player, nothing called |
| `PlayerDevice.PlayerAdapter.GetOAuthToken` | src/contexts/SpotifyPlayerContext.tsx:36-60 | a token present in the store at call time is delivered without a refresh; otherwise a refresh runs, and its token is stored (only the Spotify token entry of storage changes) and delivered, or the auth error is set and `Token refresh failed` is reported; the user, the session token, the flags and the stored session token and user are untouched |
| `PlayerDevice.PlayerAdapter.StartInit` | src/contexts/SpotifyPlayerContext.tsx:63-66 | with a token the adapter mounts and loads the SDK; without one nothing changes |
| `PlayerDevice.PlayerAdapter.SdkLoaded` | src/contexts/SpotifyPlayerContext.tsx:71-73 | the adapter goes on to connect only if it is still mounted and the SDK is there; otherwise it stops |
| `PlayerDevice.PlayerAdapter.ConnectSettled` | src/contexts/SpotifyPlayerContext.tsx:131-140 | a successful connect keeps the player; a failed one sets `Failed to connect to Spotify` |
| `PlayerDevice.PlayerAdapter.InitThrew` | src/contexts/SpotifyPlayerContext.tsx:141-145 | a throw during set-up sets the init error and reports the thrown message |
| `PlayerDevice.PlayerAdapter.Teardown` | src/contexts/SpotifyPlayerContext.tsx:151-157 | unmounts and drops the player, calling disconnect exactly when a player was kept |
| `PlayerDevice.PlayerAdapter.OnError` | src/contexts/SpotifyPlayerContext.tsx:83-105 | the error becomes the class's text and the SDK's message is reported |
| `PlayerDevice.PlayerAdapter.OnReady` | src/contexts/SpotifyPlayerContext.tsx:108-115 | while mounted: device id set, ready, error cleared, ready reported; after unmount nothing changes |
| `PlayerDevice.PlayerAdapter.OnNotReady` | src/contexts/SpotifyPlayerContext.tsx:118-121 | the adapter is no longer ready |
| `PlayerDevice.PlayerAdapter.OnStateChanged` | src/contexts/SpotifyPlayerContext.tsx:124-128 | a non-null state while mounted sets the paused flag and is reported; otherwise nothing changes |
| `PlayerDevice.PlayerAdapter.Play` | src/contexts/SpotifyPlayerContext.tsx:161-176 | without a device id nothing is called; otherwise play is called for that device, and a failure sets `Failed to play track` |
| `PlayerDevice.PlayerAdapter.Pause` | src/contexts/SpotifyPlayerContext.tsx:179-188 | without a device id nothing is called; otherwise pause is called, and a failure sets its error |
| `PlayerDevice.PlayerAdapter.Seek` | src/contexts/SpotifyPlayerContext.tsx:191-203 | without a device id nothing is called; otherwise seek is called with the position, and a failure sets its error |
| `PlayerDevice.PlayerAdapter.SetVolume` | src/contexts/SpotifyPlayerContext.tsx:206-215 | without a kept player nothing is called; otherwise the volume is set, and a failure sets its error |
| `PlayerDevice.TokenReadAtCallTime` | src/contexts/SpotifyPlayerContext.tsx:36-44 | a token stored after the adapter was built is the one delivered, with no refresh |
| `PlayerDevice.TeardownDuringConnect` | src/contexts/SpotifyPlayerContext.tsx:131-157 | a connect that settles after teardown still keeps the player, unmounted, and disconnect is never called for it |
| `RoomSocket.AfterClose` | src/hooks/room/useRoomWebSocket.ts:59-62 | closing a socket leaves it not live: an open or connecting one goes to closing, any other is unchanged |
| `RoomSocket.Dispatch` | src/hooks/room/useRoomWebSocket.ts:74-109 | an invalid frame or a type without a callback invokes nothing; otherwise the callback for the message's type is invoked with that message's data |
| `RoomSocket.DispatchRespectsTags` | src/hooks/room/useRoomWebSocket.ts:78-103 | two messages handed to different callbacks have different types |
| `RoomSocket.AtMostOneLive` | src/hooks/room/useRoomWebSocket.ts:53-62 | when only the ref's socket may be live, at most one socket is live, and none when the ref is empty |
| `RoomSocket.NoneLive` | src/hooks/room/useRoomWebSocket.ts:140-143 | when no socket is open or connecting the live count is zero |
| `RoomSocket.ChannelClient.constructor` | src/hooks/room/useRoomWebSocket.ts:29-47 | no sockets, not connected, no error, no timers, no invocations |
| `RoomSocket.ChannelClient.SetCallbacks` | src/hooks/room/useRoomWebSocket.ts:39-47 | the callbacks ref is replaced and nothing is reconnected |
| `RoomSocket.ChannelClient.CloseSocket` | src/hooks/room/useRoomWebSocket.ts:60 | only socket `i` changes, to its closed form |
| `RoomSocket.ChannelClient.Connect` | src/hooks/room/useRoomWebSocket.ts:49-133 | without a room or user, or while the ref's socket is live, nothing changes; otherwise the old socket is closed, every earlier socket is kept, and a new connecting socket for the room URL is in the ref with the error unchanged, or no socket is added and the create error is set |
| `RoomSocket.ChannelClient.SocketOpened` | src/hooks/room/useRoomWebSocket.ts:68-72 | the socket is open, connected is set and the error cleared |
| `RoomSocket.ChannelClient.SocketErrored` | src/hooks/room/useRoomWebSocket.ts:112-115 | the error becomes `WebSocket connection error` |
| `RoomSocket.ChannelClient.SocketClosed` | src/hooks/room/useRoomWebSocket.ts:117-126 | the socket is closed, connected is cleared, and a fresh reconnect timer is armed and held in the ref |
| `RoomSocket.ChannelClient.FrameReceived` | src/hooks/room/useRoomWebSocket.ts:74-110 | the invocation chosen by `Dispatch` is appended, or nothing for an invalid or unhandled frame |
| `RoomSocket.ChannelClient.ReconnectFired` | src/hooks/room/useRoomWebSocket.ts:122-125 | the timer leaves the pending set, and the new state is exactly what `Connect` would leave: the same guard, the old sockets kept, the new socket or the create error |
| `RoomSocket.ChannelClient.Disconnect` | src/hooks/room/useRoomWebSocket.ts:135-146 | the ref's reconnect timer is cancelled, the ref's socket is closed and the ref emptied, not connected, and no socket is live |
| `RoomSocket.DisconnectIdempotent` | src/hooks/room/useRoomWebSocket.ts:135-146 | two disconnects leave the same state as one |
| `RoomSocket.ConnectTwiceOneSocket` | src/hooks/room/useRoomWebSocket.ts:50-56 | two connects in a row leave at most one live socket |
| `RoomSocket.ReconnectAfterDisconnect` | src/hooks/room/useRoomWebSocket.ts:117-146 | a close event after disconnect arms a reconnect that opens a new connecting socket |
| `RoomSocket.InvalidFrameSwallowed` | src/hooks/room/useRoomWebSocket.ts:74-109 | an unparseable frame between two playback states leaves both delivered in order, with no socket or timer change |
| `RoomContent.ToQueueEntry` | src/components/room/RoomContent.tsx:55-61 | a queue row keeps the pushed song, takes its id as song id, has no votes and names the adder |
| `RoomContent.ToHistoryEntry` | src/components/room/RoomContent.tsx:64-69 | a history row keeps the pushed song, takes its id, is stamped with the update's instant and names the adder |
| `RoomContent.ConvertQueue` | src/components/room/RoomContent.tsx:55-61 | one row per pushed song, in order, each as `ToQueueEntry` gives it |
| `RoomContent.ConvertHistory` | src/components/room/RoomContent.tsx:64-69 | one row per played song, in order, all stamped with the same instant |
| `RoomContent.QueueSources` | src/components/room/RoomContent.tsx:55-56 | reads back the pushed song of each row, in order |
| `RoomContent.QueueRoundTrip` | src/components/room/RoomContent.tsx:55-62 | the queue rows give back exactly the pushed list |
| `RoomContent.ConvertQueueAppend` | src/components/room/RoomContent.tsx:55-61 | converting a concatenation is concatenating the conversions |
| `RoomContent.RoomView.constructor` | src/components/room/RoomContent.tsx:20-22 | empty queue and history, chat seeded with the given messages |
| `RoomContent.RoomView.HandleQueueUpdate` | src/components/room/RoomContent.tsx:53-73 | both lists are replaced by the conversions of the update, and the queue reads back as the pushed list |
| `RoomContent.RoomView.HandleSendMessage` | src/components/room/RoomContent.tsx:89-98 | one message is appended after the old ones: id `msg-<now>`, from the current user, with the text and the instant |
| `RoomChat.ChatBox.constructor` | src/components/room/RoomChat.tsx:37 | empty input, nothing sent |
| `RoomChat.ChatBox.SetInput` | src/components/room/RoomChat.tsx:76 | the input becomes the typed text |
| `RoomChat.ChatBox.HandleSubmit` | src/components/room/RoomChat.tsx:48-54 | a blank input sends nothing and stays; otherwise the trimmed text is sent and the input cleared |
| `RoomChat.ChatBox.HandleKeyDown` | src/components/room/RoomChat.tsx:56-62 | Enter without Shift submits; any other key, or Shift+Enter, changes nothing |
| `RoomChat.SendDisabled` | src/components/room/RoomChat.tsx:83 | the send button is disabled exactly when the input trims to the empty string |
| `RoomChat.SentTextIsClean` | src/components/room/RoomChat.tsx:48-54 | what is sent is never empty and neither starts nor ends with white space |
| `RoomChat.ButtonMatchesSubmit` | src/components/room/RoomChat.tsx:83 | a submit sends exactly when the send button is enabled |
| `SongSearch.SearchBox.constructor` | src/components/room/SongSearch.tsx:16-19 | empty query, closed, no timer, nothing searched or added |
| `SongSearch.SearchBox.HandleInputChange` | src/components/room/SongSearch.tsx:41-61 | the query is set and open when non-empty; the pending search is cancelled; a blank text searches "" at once, any other arms one search for the text |
| `SongSearch.SearchBox.TimerFired` | src/components/room/SongSearch.tsx:58-60 | the armed text is searched and nothing stays pending |
| `SongSearch.SearchBox.HandleAddSong` | src/components/room/SongSearch.tsx:63-67 | the song is handed on, the query cleared and closed; a pending search stays armed |
| `SongSearch.SearchBox.Unmount` | src/components/room/SongSearch.tsx:32-39 | nothing stays pending; the query, the open flag, the timer ref, the searches and the added songs are unchanged |
| `SongSearch.BlankClears` | src/components/room/SongSearch.tsx:52-55 | the immediate searches of a burst are all "" and no more than the keystrokes |
| `SongSearch.OnlyRefPending` | src/components/room/SongSearch.tsx:47-49 | cancelling the ref's timer leaves nothing pending |
| `SongSearch.LastArmed` | src/components/room/SongSearch.tsx:52-60 | after a burst the armed text is the last one exactly when it is not blank |
| `SongSearch.BlankClearsStep` | src/components/room/SongSearch.tsx:52-55 | one more keystroke adds one immediate "" exactly when its text is blank |
| `SongSearch.TypeBurst` | src/components/room/SongSearch.tsx:41-61 | during a burst only blank texts are searched, as ""; afterwards exactly the last text is pending when it is not blank, and nothing otherwise |
| `SongSearch.BurstThenFire` | src/components/room/SongSearch.tsx:41-61 | after a burst ending in a non-blank text, the one search that fires is for that text |
| `SessionHistory.ToggleSession` | src/components/room/SessionHistoryModal.tsx:132-138 | toggling the expanded session collapses it; toggling any other expands it alone |
| `SessionHistory.ToggleTwice` | src/components/room/SessionHistoryModal.tsx:132-138 | toggling the same session twice restores the state when it was expanded or nothing was |
| `SessionHistory.ToggleOther` | src/components/room/SessionHistoryModal.tsx:132-138 | toggling another session moves the expansion to it, and a second toggle collapses all |
| `SessionHistory.ToggleExpandsOnlyTarget` | src/components/room/SessionHistoryModal.tsx:132-157 | after a toggle the target is expanded exactly when it was not, and no other session is |
| `SessionHistory.SessionList.constructor` | src/components/room/SessionHistoryModal.tsx:130 | nothing expanded |
| `SessionHistory.SessionList.HandleToggleSession` | src/components/room/SessionHistoryModal.tsx:132-138 | the expanded id becomes `ToggleSession` of the old one |
| `SessionHistory.AtMostOneExpanded` | src/components/room/SessionHistoryModal.tsx:157 | two expanded sessions are the same session |
| `Notifications.NotificationSlot.constructor` | src/hooks/room/useNotifications.ts:13-14 | no notification, no timer |
| `Notifications.NotificationSlot.Show` | src/hooks/room/useNotifications.ts:24-37 | the old timer is cancelled, the notification shown, and one fresh 5000 ms timer is the only one pending |
| `Notifications.NotificationSlot.Clear` | src/hooks/room/useNotifications.ts:16-22 | no notification, the timer cancelled and the ref emptied |
| `Notifications.NotificationSlot.TimerFired` | src/hooks/room/useNotifications.ts:33-36 | no notification, ref emptied, nothing pending |
| `Notifications.NotificationSlot.Unmount` | src/hooks/room/useNotifications.ts:40-46 | nothing stays pending |
| `Notifications.AtMostOnePending` | src/hooks/room/useNotifications.ts:24-37 | at most one clear timer is ever pending |
| `Notifications.StaleTimerCannotClear` | src/hooks/room/useNotifications.ts:24-37 | after two notifications the second is shown and the only pending timer is the second's |
| `TagsInput.FilteredTags` | src/ui/TagsInput/TagsInput.tsx:28-33 | the offered tags are, in order, the available tags not selected whose lower case contains the trimmed, lowered input |
| `TagsInput.FilteredTagsCounts` | src/ui/TagsInput/TagsInput.tsx:28-33 | each offered tag keeps its multiplicity in the available list, and no other tag appears |
| `TagsInput.ShowCreateOption` | src/ui/TagsInput/TagsInput.tsx:35-38 | the create option shows exactly when the input is not blank and its trimmed lower case is neither available nor selected |
| `TagsInput.Unselected` | src/ui/TagsInput/TagsInput.tsx:30-31 | the available tags not selected, in order |
| `TagsInput.BlankInputOffersAllUnselected` | src/ui/TagsInput/TagsInput.tsx:28-33 | a blank input offers every unselected tag |
| `TagsInput.AddTag` | src/ui/TagsInput/TagsInput.tsx:40-44 | a tag is added exactly when its trimmed lower case is non-empty and not selected, and then it is appended |
| `TagsInput.RemoveTag` | src/ui/TagsInput/TagsInput.tsx:51-53 | the tag is gone, every other tag keeps its count, and the order is kept |
| `TagsInput.AddTagKeepsNoDup` | src/ui/TagsInput/TagsInput.tsx:40-44 | adding never creates a duplicate; a refused add is blank or already selected |
| `TagsInput.RemoveUndoesAdd` | src/ui/TagsInput/TagsInput.tsx:40-53 | removing a tag just added restores the selection |
| `TagsInput.CreateOptionAppends` | src/ui/TagsInput/TagsInput.tsx:35-38 | when the create option shows, the typed text can be added and is not among the offered tags |
| `TagsInput.NextHighlight` | src/ui/TagsInput/TagsInput.tsx:64-68 | ArrowDown moves from option i to i+1 and from the last to the first, and yields NaN when there are no options or the highlight is NaN |
| `TagsInput.PrevHighlight` | src/ui/TagsInput/TagsInput.tsx:70-74 | ArrowUp moves from option i to i-1 and from the first to the last, and yields NaN when there are no options or the highlight is NaN |
| `TagsInput.HighlightCycles` | src/ui/TagsInput/TagsInput.tsx:64-74 | down then up, or up then down, returns to the same option; down from the last wraps to the first, up from the first to the last |
| `TagsInput.OptionCount` | src/ui/TagsInput/TagsInput.tsx:62 | the option count is the offered tags plus at most one; it exceeds them exactly when the create option shows, and is zero exactly when nothing is offered and no create option shows |
| `TagsInput.EnterTarget` | src/ui/TagsInput/TagsInput.tsx:76-94 | with the list open and the highlight on an offered tag, Enter adds that tag; whatever it adds is an offered tag or the input; it adds nothing exactly when no offered tag is highlighted in the open list, the open list shows no create option, and the input trims to the empty string |
| `TagsInput.EnterPreference` | src/ui/TagsInput/TagsInput.tsx:76-94 | Enter adds the highlighted offered tag when the list is open and the index is in range, else the non-blank input, else nothing |
| `TagsInput.TagPicker.constructor` | src/ui/TagsInput/TagsInput.tsx:23-25 | empty input, closed, highlight 0, nothing emitted |
| `TagsInput.TagPicker.HandleInputChange` | src/ui/TagsInput/TagsInput.tsx:55-59 | the input is set, highlight reset to 0, and the list opened |
| `TagsInput.TagPicker.HandleFocus` | src/ui/TagsInput/TagsInput.tsx:106-108 | the list opens |
| `TagsInput.TagPicker.BlurElapsed` | src/ui/TagsInput/TagsInput.tsx:110-112 | the list closes |
| `TagsInput.TagPicker.HandleAddTag` | src/ui/TagsInput/TagsInput.tsx:40-47 | the new selection is emitted when `AddTag` accepts the tag; the input is cleared, the list closed and the highlight reset either way (the refocus of line 48 is `ClickOption`'s concern) |
| `TagsInput.TagPicker.ClickOption` | src/ui/TagsInput/TagsInput.tsx:141-153 | a click on an option emits as `HandleAddTag` does and clears the input, but the refocus of the blurred input reopens the list, with the highlight on the first option |
| `TagsInput.TagPicker.HandleRemoveTag` | src/ui/TagsInput/TagsInput.tsx:51-53 | the selection without the tag is emitted |
| `TagsInput.TagPicker.HandleEnter` | src/ui/TagsInput/TagsInput.tsx:76-94 | given the offered tags and the create flag of the render, Enter with no target (`EnterTarget`) changes nothing; otherwise the target is added when new, and the input is cleared, the list closed and the highlight reset to the first option |
| `TagsInput.TagPicker.HandleKeyDown` | src/ui/TagsInput/TagsInput.tsx:61-104 | given the offered tags and the create flag of the render, the arrows move the highlight cyclically over their count; Enter adds its target; Escape closes; Backspace on an empty input emits the selection without its last tag; other keys change nothing; every field is stated in every case |
| `TagsInput.TypeAndEnter` | src/ui/TagsInput/TagsInput.tsx:55-94 | typing a text and pressing Enter adds the first offered known tag when there is one, otherwise the typed text |
| `Rooms.StrLessIrreflexive` | src/pages/Rooms.tsx:70 | the default sort order never puts a string before itself |
| `Rooms.StrLessTransitive` | src/pages/Rooms.tsx:70 | the default sort order is transitive |
| `Rooms.StrLessTotal` | src/pages/Rooms.tsx:70 | any two distinct strings are ordered |
| `Rooms.StrictlySortedNoDup` | src/pages/Rooms.tsx:68-70 | a strictly sorted list has no duplicates |
| `Rooms.BelowHeadBelowAll` | src/pages/Rooms.tsx:70 | a string below the head of a sorted list is below all of it |
| `Rooms.ConsSorted` | src/pages/Rooms.tsx:70 | putting a string below all of a sorted list in front keeps it sorted |
| `Rooms.InsertSorted` | src/pages/Rooms.tsx:69 | adding a tag to the sorted set keeps it sorted and adds exactly that tag |
| `Rooms.AddAll` | src/pages/Rooms.tsx:69 | adding a room's tags keeps the set sorted and adds exactly those tags |
| `Rooms.GetAllTags` | src/pages/Rooms.tsx:67-71 | sorted, and holds exactly the tags some room carries |
| `Rooms.GetAllTagsUnique` | src/pages/Rooms.tsx:67-71 | no tag is listed twice |
| `Rooms.SortedSetUnique` | src/pages/Rooms.tsx:70 | two sorted lists with the same members are equal |
| `Rooms.HeadIsLeast` | src/pages/Rooms.tsx:70 | the head of a sorted list is below every other member |
| `Rooms.GetAllTagsOrderFree` | src/pages/Rooms.tsx:67-71 | the tag list does not depend on the order of the rooms |
| `Rooms.InsertDesc` | src/pages/Rooms.tsx:79-83 | inserting a room into a list sorted by decreasing key keeps it sorted and adds exactly that room |
| `Rooms.ConsDesc` | src/pages/Rooms.tsx:79-83 | a room whose key is at least every key of a sorted list can go in front |
| `Rooms.SortDesc` | src/pages/Rooms.tsx:79-83 | the result is sorted by decreasing key and is a permutation of the rooms |
| `Rooms.InsertDescStable` | src/pages/Rooms.tsx:79-83 | insertion goes in front of equal keys, so rooms of one key keep their relative order |
| `Rooms.SortDescStable` | src/pages/Rooms.tsx:79-83 | the sort is stable: rooms with equal keys keep their input order |
| `Rooms.FilterRooms` | src/pages/Rooms.tsx:73-91 | popular and recent are permutations sorted by users or creation; a tag filter with a value keeps, in order, exactly the rooms with that tag, each as many times as it occurs in the input; anything else returns the rooms unchanged |
| `Rooms.FilterRoomsStable` | src/pages/Rooms.tsx:78-84 | popular and recent keep the input order among rooms with equal keys |
| `RoomFilters.BaseButtonFilter` | src/components/rooms/RoomFilters.tsx:24 | a base button selects its type without a value |
| `RoomFilters.TagButtonFilter` | src/components/rooms/RoomFilters.tsx:41 | a tag button selects the tag filter with its tag |
| `RoomFilters.IsFilterActive` | src/components/rooms/RoomFilters.tsx:10-14 | a button of another type is never active; a tag button is active exactly when its tag is the active value; any other button exactly when the types match |
| `RoomFilters.ClickedButtonIsActive` | src/components/rooms/RoomFilters.tsx:18-41 | the button just clicked is the active one, and no other tag button is |
| `RoomFilters.TagButtonNarrows` | src/components/rooms/RoomFilters.tsx:41 | a tag button shows exactly the rooms with that tag, in order, each with its multiplicity in the page's list |
| `CreateRoom.CreateRoomForm.constructor` | src/components/rooms/CreateRoomModal.tsx:20-35 | the initial form, no preview, nothing submitted |
| `CreateRoom.CreateRoomForm.HandleClose` | src/components/rooms/CreateRoomModal.tsx:37-41 | the form and preview are reset and the close is reported once |
| `CreateRoom.CreateRoomForm.HandleInputChange` | src/components/rooms/CreateRoomModal.tsx:43-46 | only the named field changes |
| `CreateRoom.CreateRoomForm.HandleTagsChange` | src/components/rooms/CreateRoomModal.tsx:48-50 | only the tags change |
| `CreateRoom.CreateRoomForm.HandleFileChange` | src/components/rooms/CreateRoomModal.tsx:52-55 | the cover image and the preview are set |
| `CreateRoom.CreateRoomForm.HandleSubmit` | src/components/rooms/CreateRoomModal.tsx:57-65 | a blank name submits nothing and keeps the form; otherwise the form is submitted and then reset as by close |
| `CreateRoom.SubmitOnlyNamed` | src/components/rooms/CreateRoomModal.tsx:57-65 | no form with a blank name is ever submitted |
| `RoomHost.CheckIsHost` | src/utils/room.ts:7-12 | false without a room or a user; otherwise true exactly when the host id is the user's id |
| `Format.PadStart2` | src/utils/format.ts:7 | a string of two or more is unchanged; a shorter one is left-padded with '0' to length 2 |
| `Format.FormatTime` | src/utils/format.ts:4-8 | for non-negative seconds the text is the unpadded minutes, ':' and two digits, and reads back to the seconds |
| `Format.SecondsField` | src/utils/format.ts:6-7 | the seconds field is two digits worth the seconds |
| `Format.ReadBack` | src/utils/format.ts:7 | minutes digits, ':' and a two-digit field below 60 read back to their value |
| `Format.PaddedValue` | src/utils/format.ts:7 | padding keeps the digits' value |
| `Format.NegativeTime` | src/utils/format.ts:5-7 | -5 seconds prints as `-1:-5` |
| `SpotifySearch.ToSearchResult` | src/services/spotify.ts:54-61 | id, name and album copied; artists joined by ", "; the first image or ""; the duration is the floor in seconds |
| `SpotifySearch.ToSearchResults` | src/services/spotify.ts:54-61 | one result per track, in order |
| `SpotifySearch.SearchTracks` | src/services/spotify.ts:24-66 | no token fails with its message before anything else; a blank query gives no results without a request; otherwise a request with query and token, whose 401, other failure, network error or success become the outcome |
| `SpotifySearch.TokenBeforeQuery` | src/services/spotify.ts:25-33 | the token check comes before the blank-query check |
| `SpotifySearch.RequestIff` | src/services/spotify.ts:25-43 | a request is made exactly when there is a token and the query is not blank |
| `SpotifySearch.ArtistText` | src/services/spotify.ts:57 | one artist is its name; two are joined by ", " |
| `ApiClient.RequestConfig.constructor` | src/services/api.ts:15 | the config holds the given URL and headers |
| `ApiClient.AddAuthorization` | src/services/api.ts:14-25 | with a token and a URL not containing `/auth/login`, the bearer header is set; otherwise the headers are unchanged |
| `ApiClient.AuthorizationDue` | src/services/api.ts:20 | the header is due only with a non-empty token; a login URL never gets it; with a token, a request without a URL or with any other URL does |
| `ApiClient.OnResponseError` | src/services/api.ts:31-50 | the error is passed on unchanged; a 401 clears the token and the user, anything else leaves storage as it was |
| `AuthStorage.LocalStorage.constructor` | src/utils/auth.ts:3 | storage holds the given items |
| `AuthStorage.LocalStorage.SetItem` | src/utils/auth.ts:8-10 | only that key changes, to the value |
| `AuthStorage.LocalStorage.RemoveItem` | src/utils/auth.ts:16-18 | only that key is removed |
| `AuthStorage.KeysDistinct` | src/constants/common.ts:3-5 | the three storage keys differ |
| `AuthStorage.GetText` | src/utils/auth.ts:3-6 | a key reads back exactly when it holds text |
| `AuthStorage.GetToken` | src/utils/auth.ts:3 | a token is read exactly when text is stored under the token key, and it is that text |
| `AuthStorage.GetSpotifyToken` | src/utils/auth.ts:5-6 | a Spotify token is read exactly when text is stored under its key, and it is that text |
| `AuthStorage.IsAuthenticated` | src/utils/auth.ts:20 | true exactly when a non-empty token is stored |
| `AuthStorage.GetUserData` | src/utils/auth.ts:22-25 | a user is read exactly when a user is stored under its key, and it is the one stored; otherwise null |
| `AuthStorage.SetToken` | src/utils/auth.ts:8-10 | the token reads back, and the other two entries are unchanged |
| `AuthStorage.SetSpotifyToken` | src/utils/auth.ts:12-14 | the Spotify token reads back, and the other two are unchanged |
| `AuthStorage.RemoveToken` | src/utils/auth.ts:16-18 | no token, not authenticated, the other two unchanged |
| `AuthStorage.SetUserData` | src/utils/auth.ts:27-29 | the user reads back, the tokens unchanged |
| `AuthStorage.RemoveUserData` | src/utils/auth.ts:31-33 | no user, the tokens unchanged |
| `AuthStorage.ClearAuth` | src/utils/auth.ts:35-38 | token and user are removed; the Spotify token stays |
| `AuthStore.Store.constructor` | src/stores/auth.ts:31-36 | user and tokens read from storage, authenticated when a token is present, not loading, no error |
| `AuthStore.Store.SetUser` | src/stores/auth.ts:38-46 | the user is stored and set, the Spotify token stored (the text "undefined" when absent), error cleared, the rest unchanged |
| `AuthStore.Store.SetToken` | src/stores/auth.ts:48-51 | the token is stored and set, and the store is authenticated |
| `AuthStore.Store.SetSpotifyToken` | src/stores/auth.ts:53-56 | the Spotify token is stored and set, the rest unchanged |
| `AuthStore.Store.Logout` | src/stores/auth.ts:58-66 | token and user removed from storage and state, not authenticated, no error; the Spotify token stays |
| `AuthStore.Store.CheckAuth` | src/stores/auth.ts:68-78 | with no token or no user: both cleared and authenticated set; with both: both loaded and authenticated cleared |
| `AuthStore.Store.SetLoading` | src/stores/auth.ts:80-82 | the loading flag is set |
| `AuthStore.Store.SetError` | src/stores/auth.ts:84-86 | the error is set |
| `Base.BlankIffTrimEmpty` | src/components/room/SongSearch.tsx:52 | a text is blank (all white space) exactly when its trim is empty |
| `Base.JsRem` | src/ui/TagsInput/TagsInput.tsx:66-72 | JavaScript's remainder: it has the sign of the dividend, is smaller than the divisor in size, differs from the dividend by a multiple of the divisor, and agrees with the mathematical one for non-negative dividends |

## Left out

- Parsing of `playback_started_at`: a stamp is modelled as its text and its instant in milliseconds. An unparseable date (NaN) is not modelled.
- `String.prototype.trim` and `toLowerCase` are modelled on ASCII white space and ASCII letters only.
- Floating point: positions and durations are integers; the volume is a real handed through unchanged.
- `JSON.parse` of frames and of the stored user: a frame is already decoded or `Invalid`, and the stored user is already a value.
- React scheduling (batched `setState`, effect ordering, re-renders) and the effects' dependency lists: each handler runs to completion on the state it sees.
- Loading the Spotify SDK script and the SDK's own behaviour: the SDK's events are methods that the environment calls.
- `Date.now()` and `new Date()` are the parameter `now`.
- `encodeURIComponent` and URL building: the search request is recorded as the query and the token.
- Console logging, including the 403 and 5xx branches of the response interceptor, which only log.
- The success path of the response interceptor, which returns the response unchanged.
- The mouse-down click-outside listener of the song search.
- The entries of `BASE_ROOM_FILTERS`: its constant is not part of this model, and a base button is modelled for any type.
- `Room` and `RoomFilter` come from `src/types/room.ts`, whose copy here lacks them, so they are not part of this model. Their fields are taken from the mock rooms and from the uses in `src/pages/Rooms.tsx`.
- The recent sort compares `getTime()` of valid dates only; an invalid date would make the comparator NaN.
- `handleExportToSpotify` is a stub that only logs.
- Chat auto-scroll and `formatMessageTime`, which uses locale formatting.
- `TagsInput.TagPicker.HandleAddTag`: the `inputRef.current?.focus()` call is not part of this method. On the Enter path the input already has focus and the call has no effect; on the click path the blurred input regains focus and the focus handler reopens the list, which `ClickOption` models by running `HandleFocus` after it, until `BlurElapsed` closes the list.
- `TagsInput.TagPicker.HandleKeyDown`: the handler reads the render's `filteredTags` and `showCreateOption`, which are parameters here. The contract holds for any values of them, and does not itself require that they are `FilteredTags` and `ShowCreateOption` of the current input; `TypeAndEnter` passes those and proves the composed outcome.
- The 150 ms blur delay of the tag picker: its firing is the method `BlurElapsed`.
- The member-joined, member-left and notification handlers of the room page only log or forward to the notification slot, which is modelled on its own.
- `PlaybackSync.SyncEngine.Tick`: the interval's 1000 ms period is not modelled; each tick is a method call at the instant `now`.
- `Rooms.GetAllTags`: tags are ordered by Unicode code point, while `Array.prototype.sort` compares UTF-16 code units; the two orders differ only between characters above U+FFFF and characters in U+E000 to U+FFFF.
- `RoomSocket.ChannelClient.Connect`: the `WS_URL` base is a constructor parameter, not the configured constant.
