/**
 * The messages of the room channel, as the client decodes them from
 * `{type, data}` frames. Field names follow the wire format in camel case.
 */
module Wire {
  import opened Base

  /** A server timestamp: its ISO text and the instant (ms) it parses to. */
  datatype Stamp = Stamp(iso: string, ms: int)

  datatype Track = Track(
    id: string,
    title: string,
    artist: string,
    album: string,
    albumArtUrl: string,
    durationMs: int,
    spotifyId: string,
    spotifyUri: string)

  /** An authoritative snapshot of the room's playback. */
  datatype PlaybackState = PlaybackState(
    isPlaying: bool,
    currentTrack: Option<Track>,
    positionMs: int,
    playbackStartedAt: Option<Stamp>)

  datatype AddedBy = AddedBy(id: string, spotifyId: string, displayName: string, profileImageUrl: string)

  /** A song of the queue or of the recently played list, as pushed by the server. */
  datatype QueueSongWS = QueueSongWS(
    id: string,
    title: string,
    artist: string,
    album: string,
    albumArtUrl: string,
    durationMs: int,
    spotifyId: string,
    spotifyUri: string,
    addedBy: AddedBy)

  datatype MemberEvent = MemberEvent(userId: string, displayName: string, profileImageUrl: string, connectionCount: int)

  datatype Level = Info | Error | Warning

  datatype Notification = Notification(message: string, level: Level)

  /**
   * The tagged union of the channel. `Unknown` stands for a well-formed
   * frame whose `type` is none of the five tags.
   */
  datatype Message =
    | PlaybackStateMsg(state: PlaybackState)
    | QueueUpdateMsg(queue: seq<QueueSongWS>, recentlyPlayed: seq<QueueSongWS>)
    | MemberJoinedMsg(member: MemberEvent)
    | MemberLeftMsg(member: MemberEvent)
    | NotificationMsg(notification: Notification)
    | Unknown(tag: string)

  /** A transport frame: one that decodes to a message, or one that does not. */
  datatype Frame = Decoded(message: Message) | Invalid
}
