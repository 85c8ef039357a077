/**
 * The playback clock: the song shown for a pushed track, and the position
 * extrapolated from a snapshot at a given instant. `now` is a parameter.
 *
 * The clock is modelled as the client computes it: while playing, the
 * position is the time elapsed since `playbackStartedAt`, capped at the
 * duration when one is known; `basePositionMs` is not added and there is
 * no lower bound.
 */
module Playback {
  import opened Base
  import opened Wire

  /** The song the player shows; it carries the fields of the pushed track. */
  datatype Song = Song(
    id: string,
    title: string,
    artist: string,
    album: string,
    albumArtUrl: string,
    durationMs: int,
    spotifyId: string,
    spotifyUri: string)

  function ConvertTrackToSong(track: Option<Track>): (r: Option<Song>)
    ensures r.None? <==> track.None?
    ensures track.Some? ==>
      var t, s := track.value, r.value;
      && s.id == t.id && s.title == t.title && s.artist == t.artist && s.album == t.album
      && s.albumArtUrl == t.albumArtUrl && s.durationMs == t.durationMs
      && s.spotifyId == t.spotifyId && s.spotifyUri == t.spotifyUri
  {
    match track
    case None => None
    case Some(t) => Some(Song(t.id, t.title, t.artist, t.album, t.albumArtUrl, t.durationMs, t.spotifyId, t.spotifyUri))
  }

  /** `isPlaying && !!playbackStartedAt`: the clock runs from a start instant. */
  predicate Running(isPlaying: bool, startedAt: Option<Stamp>)
  {
    isPlaying && startedAt.Some? && startedAt.value.iso != ""
  }

  function CalculateCurrentPosition(
    isPlaying: bool, startedAt: Option<Stamp>, basePositionMs: int, durationMs: Option<int>, now: int): (r: int)
    ensures !Running(isPlaying, startedAt) ==> r == basePositionMs
    ensures Running(isPlaying, startedAt) ==> r <= now - startedAt.value.ms
    ensures Running(isPlaying, startedAt) && durationMs.Some? ==> r <= durationMs.value
    ensures Running(isPlaying, startedAt) ==> r == now - startedAt.value.ms || (durationMs.Some? && r == durationMs.value)
  {
    if !Running(isPlaying, startedAt) then
      basePositionMs
    else
      var elapsedMs := now - startedAt.value.ms;
      match durationMs
      case Some(d) => if elapsedMs <= d then elapsedMs else d
      case None => elapsedMs
  }

  // ---------------------------------------------------------------------
  // Properties of the clock
  // ---------------------------------------------------------------------

  /** Paused, or without a start instant, the clock is frozen at the base position. */
  lemma FrozenWhenNotRunning(isPlaying: bool, startedAt: Option<Stamp>, base: int, duration: Option<int>, now1: int, now2: int)
    requires !Running(isPlaying, startedAt)
    ensures CalculateCurrentPosition(isPlaying, startedAt, base, duration, now1) == base
    ensures CalculateCurrentPosition(isPlaying, startedAt, base, duration, now1)
         == CalculateCurrentPosition(isPlaying, startedAt, base, duration, now2)
  {
  }

  /** While running, the base position has no influence on the result. */
  lemma BaseIgnoredWhileRunning(startedAt: Option<Stamp>, base1: int, base2: int, duration: Option<int>, now: int)
    requires Running(true, startedAt)
    ensures CalculateCurrentPosition(true, startedAt, base1, duration, now)
         == CalculateCurrentPosition(true, startedAt, base2, duration, now)
    ensures duration.None? ==> CalculateCurrentPosition(true, startedAt, base1, duration, now) == now - startedAt.value.ms
  {
  }

  /** With a known duration, the running clock reads `min(now - start, duration)`. */
  lemma CappedAtDuration(startedAt: Option<Stamp>, base: int, d: int, now: int)
    requires Running(true, startedAt)
    ensures var r := CalculateCurrentPosition(true, startedAt, base, Some(d), now);
      && r <= d && r <= now - startedAt.value.ms
      && (r == d || r == now - startedAt.value.ms)
  {
  }

  /** The running clock never goes backwards as `now` advances. */
  lemma MonotoneInNow(startedAt: Option<Stamp>, base: int, duration: Option<int>, now1: int, now2: int)
    requires Running(true, startedAt) && now1 <= now2
    ensures CalculateCurrentPosition(true, startedAt, base, duration, now1)
         <= CalculateCurrentPosition(true, startedAt, base, duration, now2)
  {
  }

  /** No lower clamp: a start instant later than `now` gives a negative position. */
  lemma NegativeBeforeStart(startedAt: Option<Stamp>, base: int, duration: Option<int>, now: int)
    requires Running(true, startedAt) && now < startedAt.value.ms
    ensures CalculateCurrentPosition(true, startedAt, base, duration, now) < 0
  {
  }

  /**
   * A snapshot `{playing, position 50000, started at T0}` of a 200000 ms
   * track reads 10000 ten seconds later: the stored position is not added.
   */
  lemma TenSecondsAfterStart(t0: Stamp)
    requires t0.iso != ""
    ensures CalculateCurrentPosition(true, Some(t0), 50000, Some(200000), t0.ms + 10000) == 10000
    ensures CalculateCurrentPosition(false, Some(t0), 50000, Some(200000), t0.ms + 10000) == 50000
  {
  }
}
