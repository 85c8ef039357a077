/**
 * The synchronisation engine of a room: it keeps the clock snapshot of
 * the last pushed playback state, ticks the displayed time, and turns
 * pushed states and user intents into commands for the player device.
 * The device is represented by the log of commands the engine issues.
 */
module PlaybackSync {
  import opened Base
  import opened Wire
  import opened Playback

  /** A command the engine sends to the player device. */
  datatype DeviceCommand = Play(uri: string, positionMs: int) | Pause | Seek(positionMs: int)

  /** Initial volume of the player state. */
  const InitialVolume: real := 0.8

  /** The commands that a pushed state asks of a device that is (or is not) ready. */
  function UpdateCommands(p: PlaybackState, playerReady: bool): (cs: seq<DeviceCommand>)
    ensures |cs| <= 1
    ensures cs == [] <==> !playerReady || p.currentTrack.None?
    ensures cs != [] && p.isPlaying ==> cs[0] == Play(p.currentTrack.value.spotifyUri, p.positionMs)
    ensures cs != [] && !p.isPlaying ==> cs[0] == Pause
  {
    if !playerReady || p.currentTrack.None? then []
    else if p.isPlaying then [Play(p.currentTrack.value.spotifyUri, p.positionMs)]
    else [Pause]
  }

  function DurationOf(song: Option<Song>): (d: Option<int>)
    ensures d.Some? <==> song.Some?
    ensures song.Some? ==> d.value == song.value.durationMs
  {
    if song.Some? then Some(song.value.durationMs) else None
  }

  class SyncEngine {
    var currentSong: Option<Song>
    var playbackStartedAt: Option<Stamp>
    var basePositionMs: int
    /** Displayed position, in whole seconds. */
    var currentTime: int
    var isPlaying: bool
    var volume: real
    /** Every command issued to the device so far, oldest first. */
    var commands: seq<DeviceCommand>

    /** The clock's reading at instant `now`, from the current snapshot. */
    function Position(now: int): int
      reads this
    {
      CalculateCurrentPosition(isPlaying, playbackStartedAt, basePositionMs, DurationOf(currentSong), now)
    }

    constructor ()
      ensures currentSong == None && playbackStartedAt == None && basePositionMs == 0
      ensures currentTime == 0 && !isPlaying && volume == InitialVolume
      ensures commands == []
    {
      currentSong := None;
      playbackStartedAt := None;
      basePositionMs := 0;
      currentTime := 0;
      isPlaying := false;
      volume := InitialVolume;
      commands := [];
    }

    /**
     * A pushed snapshot replaces the clock state wholesale, then drives
     * the device when it is ready and a track is present.
     */
    method HandlePlaybackUpdate(p: PlaybackState, playerReady: bool)
      modifies this
      ensures currentSong == ConvertTrackToSong(p.currentTrack)
      ensures playbackStartedAt == p.playbackStartedAt && basePositionMs == p.positionMs
      ensures currentTime == p.positionMs / 1000 && isPlaying == p.isPlaying
      ensures volume == old(volume)
      ensures commands == old(commands) + UpdateCommands(p, playerReady)
      ensures !p.isPlaying ==> forall now :: Position(now) == p.positionMs
    {
      var song := ConvertTrackToSong(p.currentTrack);
      currentSong := song;
      playbackStartedAt := p.playbackStartedAt;
      basePositionMs := p.positionMs;
      currentTime := p.positionMs / 1000;
      isPlaying := p.isPlaying;

      if !playerReady || song.None? {
        return;
      }
      if p.isPlaying {
        commands := commands + [Play(song.value.spotifyUri, p.positionMs)];
        return;
      }
      commands := commands + [Pause];
    }

    /**
     * One firing of the one-second interval at instant `now`. The interval
     * exists only while playing, so a tick while paused changes nothing.
     */
    method Tick(now: int)
      modifies this
      ensures old(isPlaying) ==> currentTime == old(Position(now)) / 1000
      ensures !old(isPlaying) ==> currentTime == old(currentTime)
      ensures currentSong == old(currentSong) && playbackStartedAt == old(playbackStartedAt)
      ensures basePositionMs == old(basePositionMs) && isPlaying == old(isPlaying)
      ensures volume == old(volume) && commands == old(commands)
    {
      if !isPlaying {
        return;
      }
      var currentPositionMs := CalculateCurrentPosition(isPlaying, playbackStartedAt, basePositionMs, DurationOf(currentSong), now);
      currentTime := currentPositionMs / 1000;
    }

    /** Optimistic play/pause: flip the flag and command the device at once. */
    method HandleTogglePlay()
      modifies this
      ensures isPlaying == !old(isPlaying)
      ensures old(isPlaying) ==> commands == old(commands) + [Pause]
      ensures !old(isPlaying) && old(currentSong).Some? ==>
        commands == old(commands) + [Play(old(currentSong).value.spotifyUri, old(currentTime) * 1000)]
      ensures !old(isPlaying) && old(currentSong).None? ==> commands == old(commands)
      ensures currentTime == old(currentTime) && currentSong == old(currentSong)
      ensures playbackStartedAt == old(playbackStartedAt) && basePositionMs == old(basePositionMs)
      ensures volume == old(volume)
    {
      if isPlaying {
        commands := commands + [Pause];
        isPlaying := false;
        return;
      }
      if currentSong.Some? {
        commands := commands + [Play(currentSong.value.spotifyUri, currentTime * 1000)];
      }
      isPlaying := true;
    }

    /** Seek to `time` seconds: command the device and show the new time at once. */
    method HandleSeek(time: int)
      modifies this
      ensures commands == old(commands) + [Seek(time * 1000)]
      ensures currentTime == time
      ensures isPlaying == old(isPlaying) && currentSong == old(currentSong)
      ensures playbackStartedAt == old(playbackStartedAt) && basePositionMs == old(basePositionMs)
      ensures volume == old(volume)
    {
      commands := commands + [Seek(time * 1000)];
      currentTime := time;
    }

    /**
     * The fetch of the room's state on entry: applied like a pushed state
     * when it succeeds; a failed fetch (no playback yet) is swallowed.
     */
    method FetchInitialPlayback(roomCode: Option<string>, response: Result<PlaybackState>, playerReady: bool)
      modifies this
      ensures !Present(roomCode) || response.Err? ==>
        && currentSong == old(currentSong) && playbackStartedAt == old(playbackStartedAt)
        && basePositionMs == old(basePositionMs) && currentTime == old(currentTime)
        && isPlaying == old(isPlaying) && volume == old(volume) && commands == old(commands)
      ensures Present(roomCode) && response.Ok? ==>
        && currentSong == ConvertTrackToSong(response.value.currentTrack)
        && playbackStartedAt == response.value.playbackStartedAt
        && basePositionMs == response.value.positionMs
        && currentTime == response.value.positionMs / 1000
        && isPlaying == response.value.isPlaying && volume == old(volume)
        && commands == old(commands) + UpdateCommands(response.value, playerReady)
    {
      if !Present(roomCode) {
        return;
      }
      match response
      case Ok(state) => HandlePlaybackUpdate(state, playerReady);
      case Err(_) =>
    }
  }

  /**
   * The last snapshot wins: whatever two engines held before, the same
   * pushed state leaves them with the same clock and the same display.
   */
  method SnapshotReplacesAll(a: SyncEngine, b: SyncEngine, p: PlaybackState, ready: bool, now: int)
    requires a != b
    modifies a, b
    ensures a.currentSong == b.currentSong && a.playbackStartedAt == b.playbackStartedAt
    ensures a.basePositionMs == b.basePositionMs && a.currentTime == b.currentTime
    ensures a.isPlaying == b.isPlaying && a.Position(now) == b.Position(now)
  {
    a.HandlePlaybackUpdate(p, ready);
    b.HandlePlaybackUpdate(p, ready);
  }

  /** Pausing then resuming restarts the device where the display stood. */
  method ToggleTwiceResumes(e: SyncEngine)
    requires e.isPlaying && e.currentSong.Some?
    modifies e
    ensures e.isPlaying && e.currentTime == old(e.currentTime)
    ensures e.commands == old(e.commands) + [Pause, Play(old(e.currentSong.value.spotifyUri), old(e.currentTime) * 1000)]
  {
    e.HandleTogglePlay();
    e.HandleTogglePlay();
  }
}
