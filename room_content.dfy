/**
 * The room page's own state: the queue and the recently played list,
 * rebuilt from every queue update of the channel, and the chat messages,
 * to which a sent message is appended.
 */
module RoomContent {
  import opened Base
  import opened Wire

  /** A queue row: every field of the pushed song, plus the view's own fields. */
  datatype QueueEntry = QueueEntry(source: QueueSongWS, songId: string, likes: int, dislikes: int, addedBy: string)

  /** A recently played row; `playedAt` is the instant of the update. */
  datatype HistoryEntry = HistoryEntry(source: QueueSongWS, songId: string, playedAt: int, addedBy: string)

  datatype ChatMessage = ChatMessage(id: string, userId: string, userName: string, message: string, timestamp: int)

  const CurrentUserId: string := "currentUser"
  const CurrentUserName: string := "You"

  /** The queue row of one pushed song: no votes yet, credited to the adder's display name. */
  function ToQueueEntry(item: QueueSongWS): (e: QueueEntry)
    ensures e.source == item && e.songId == item.id
    ensures e.likes == 0 && e.dislikes == 0 && e.addedBy == item.addedBy.displayName
  {
    QueueEntry(item, item.id, 0, 0, item.addedBy.displayName)
  }

  function ToHistoryEntry(item: QueueSongWS, now: int): (e: HistoryEntry)
    ensures e.source == item && e.songId == item.id
    ensures e.playedAt == now && e.addedBy == item.addedBy.displayName
  {
    HistoryEntry(item, item.id, now, item.addedBy.displayName)
  }

  /** The queue as shown: one row per pushed song, in the pushed order. */
  function ConvertQueue(items: seq<QueueSongWS>): (r: seq<QueueEntry>)
    ensures |r| == |items|
    ensures forall i :: 0 <= i < |items| ==>
      r[i].source == items[i] && r[i].songId == items[i].id && r[i].likes == 0 && r[i].dislikes == 0
      && r[i].addedBy == items[i].addedBy.displayName
  {
    if items == [] then [] else [ToQueueEntry(items[0])] + ConvertQueue(items[1..])
  }

  /** The recently played list as shown: one row per pushed song, in the pushed order. */
  function ConvertHistory(items: seq<QueueSongWS>, now: int): (r: seq<HistoryEntry>)
    ensures |r| == |items|
    ensures forall i :: 0 <= i < |items| ==>
      r[i].source == items[i] && r[i].songId == items[i].id && r[i].playedAt == now
      && r[i].addedBy == items[i].addedBy.displayName
  {
    if items == [] then [] else [ToHistoryEntry(items[0], now)] + ConvertHistory(items[1..], now)
  }

  /** The pushed songs, read back from the queue rows. */
  function QueueSources(entries: seq<QueueEntry>): (r: seq<QueueSongWS>)
    ensures |r| == |entries|
    ensures forall i :: 0 <= i < |entries| ==> r[i] == entries[i].source
  {
    if entries == [] then [] else [entries[0].source] + QueueSources(entries[1..])
  }

  /** Nothing is lost or reordered: the rows give back exactly the pushed list. */
  lemma QueueRoundTrip(items: seq<QueueSongWS>)
    ensures QueueSources(ConvertQueue(items)) == items
  {
    var r := QueueSources(ConvertQueue(items));
    assert |r| == |items|;
    assert forall i :: 0 <= i < |items| ==> r[i] == items[i];
  }

  /** Conversion commutes with concatenation: two pushes in one are the two conversions in a row. */
  lemma {:induction false} ConvertQueueAppend(a: seq<QueueSongWS>, b: seq<QueueSongWS>)
    ensures ConvertQueue(a + b) == ConvertQueue(a) + ConvertQueue(b)
  {
    if a == [] {
      assert a + b == b;
    } else {
      assert (a + b)[1..] == a[1..] + b;
      ConvertQueueAppend(a[1..], b);
    }
  }

  class RoomView {
    var queue: seq<QueueEntry>
    var recentSongs: seq<HistoryEntry>
    var messages: seq<ChatMessage>

    /** The page as mounted: empty lists, and the chat seeded with `seed`. */
    constructor (seed: seq<ChatMessage>)
      ensures queue == [] && recentSongs == [] && messages == seed
    {
      queue := [];
      recentSongs := [];
      messages := seed;
    }

    /** A queue update replaces both lists wholesale; `now` is the instant it is handled. */
    method HandleQueueUpdate(queueData: seq<QueueSongWS>, recentlyPlayed: seq<QueueSongWS>, now: int)
      modifies this`queue, this`recentSongs
      ensures queue == ConvertQueue(queueData)
      ensures recentSongs == ConvertHistory(recentlyPlayed, now)
      ensures QueueSources(queue) == queueData
    {
      queue := ConvertQueue(queueData);
      recentSongs := ConvertHistory(recentlyPlayed, now);
      QueueRoundTrip(queueData);
    }

    /** Append the user's message at the end; its id is derived from `now`. */
    method HandleSendMessage(text: string, now: int)
      modifies this`messages
      ensures |messages| == |old(messages)| + 1
      ensures messages[..|old(messages)|] == old(messages)
      ensures messages[|old(messages)|] == ChatMessage("msg-" + IntToString(now), CurrentUserId, CurrentUserName, text, now)
    {
      messages := messages + [ChatMessage("msg-" + IntToString(now), CurrentUserId, CurrentUserName, text, now)];
    }
  }
}
