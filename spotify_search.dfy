/**
 * The track search against the music service: the token and query
 * guards, the mapping of HTTP failures to messages, and the mapping of the
 * returned tracks to search results. The request itself is a parameter:
 * `reply` is what the service would answer.
 */
module SpotifySearch {
  import opened Base

  const NoTokenMessage: string := "No Spotify token available"
  const ExpiredMessage: string := "Spotify token expired. Please log in again"
  const SearchFailedMessage: string := "Error searching songs on Spotify"
  const ArtistSeparator: string := ", "

  /** A track of the service's answer; `images` are the album image URLs, largest first. */
  datatype SpotifyTrack = SpotifyTrack(
    id: string,
    name: string,
    artists: seq<string>,
    albumName: string,
    images: seq<string>,
    durationMs: int)

  /** What the request yields: a response, or a failure of the request itself. */
  datatype Reply =
    | Response(ok: bool, status: int, items: seq<SpotifyTrack>)
    | RequestFailed(error: string)

  datatype SearchResult = SearchResult(id: string, name: string, artist: string, album: string, albumCover: string, duration: int)

  /** Whether a request was sent, with which query and token, and what the call returned or threw. */
  datatype SearchCall = SearchCall(request: Option<(string, string)>, outcome: Result<seq<SearchResult>>)

  /** One search result: artists joined, first cover or none, duration in whole seconds. */
  function ToSearchResult(t: SpotifyTrack): (r: SearchResult)
    ensures r.id == t.id && r.name == t.name && r.album == t.albumName
    ensures r.artist == Join(t.artists, ArtistSeparator)
    ensures r.albumCover == if t.images == [] then "" else t.images[0]
    ensures r.duration * 1000 <= t.durationMs < r.duration * 1000 + 1000
  {
    SearchResult(t.id, t.name, Join(t.artists, ArtistSeparator), t.albumName,
      if t.images == [] then "" else t.images[0], t.durationMs / 1000)
  }

  function ToSearchResults(items: seq<SpotifyTrack>): (r: seq<SearchResult>)
    ensures |r| == |items|
    ensures forall i :: 0 <= i < |items| ==> r[i] == ToSearchResult(items[i])
  {
    if items == [] then [] else [ToSearchResult(items[0])] + ToSearchResults(items[1..])
  }

  /** `searchTracks(query)` with the stored Spotify token `token`. */
  function SearchTracks(token: Option<string>, query: string, reply: Reply): (c: SearchCall)
    ensures !Present(token) ==> c == SearchCall(None, Err(NoTokenMessage))
    ensures Present(token) && IsBlank(query) ==> c == SearchCall(None, Ok([]))
    ensures Present(token) && !IsBlank(query) ==> c.request == Some((query, token.value))
    ensures c.request.Some? && reply.Response? && !reply.ok ==>
      c.outcome == Err(if reply.status == 401 then ExpiredMessage else SearchFailedMessage)
    ensures c.request.Some? && reply.RequestFailed? ==> c.outcome == Err(reply.error)
    ensures c.request.Some? && reply.Response? && reply.ok ==>
      c.outcome.Ok? && |c.outcome.value| == |reply.items|
      && forall i :: 0 <= i < |reply.items| ==> c.outcome.value[i] == ToSearchResult(reply.items[i])
  {
    if !Present(token) then SearchCall(None, Err(NoTokenMessage))
    else if IsBlank(query) then SearchCall(None, Ok([]))
    else
      var request := Some((query, token.value));
      match reply
      case RequestFailed(e) => SearchCall(request, Err(e))
      case Response(ok, status, items) =>
        if !ok then SearchCall(request, Err(if status == 401 then ExpiredMessage else SearchFailedMessage))
        else SearchCall(request, Ok(ToSearchResults(items)))
  }

  /** The token is checked first: without one even an empty query throws, and nothing is sent. */
  lemma {:induction false} TokenBeforeQuery(query: string, reply: Reply)
    ensures SearchTracks(None, query, reply).outcome == Err(NoTokenMessage)
    ensures SearchTracks(Some(""), "", reply).outcome == Err(NoTokenMessage)
    ensures SearchTracks(None, query, reply).request.None?
  {
  }

  /** A search sends a request exactly when there is a token and a non-blank query. */
  lemma RequestIff(token: Option<string>, query: string, reply: Reply)
    ensures SearchTracks(token, query, reply).request.Some? <==> Present(token) && !IsBlank(query)
  {
  }

  /** A single artist is shown as is; two are shown with the separator between them. */
  lemma {:induction false} ArtistText(t: SpotifyTrack)
    ensures |t.artists| == 1 ==> ToSearchResult(t).artist == t.artists[0]
    ensures |t.artists| == 2 ==> ToSearchResult(t).artist == t.artists[0] + ArtistSeparator + t.artists[1]
  {
    if |t.artists| == 2 {
      assert t.artists[1..] == [t.artists[1]];
    }
  }
}
