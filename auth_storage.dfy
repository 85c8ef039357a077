/**
 * The credential accessors over the browser's key-value storage. Three
 * distinct keys hold the session token, the Spotify token and the user.
 */
module AuthStorage {
  import opened Base
  import opened Users

  const AuthTokenKey: string := "jammy_token"
  const SpotifyTokenKey: string := "jammy_spotify_token"
  const UserDataKey: string := "jammy_user"

  /** A stored item: plain text, or the JSON text of a user record. */
  datatype Item = Text(text: string) | UserJson(user: User)

  /** The browser's `localStorage`. */
  class LocalStorage {
    var items: map<string, Item>

    constructor (initial: map<string, Item>)
      ensures items == initial
    {
      items := initial;
    }

    method SetItem(key: string, value: Item)
      modifies this
      ensures items == old(items)[key := value]
    {
      items := items[key := value];
    }

    method RemoveItem(key: string)
      modifies this
      ensures items == old(items) - {key}
    {
      items := items - {key};
    }
  }

  lemma KeysDistinct()
    ensures AuthTokenKey != SpotifyTokenKey && AuthTokenKey != UserDataKey && SpotifyTokenKey != UserDataKey
  {
  }

  /** `getItem(key)` read as a string; a user record is read back only through `GetUserData`. */
  function GetText(st: LocalStorage, key: string): (r: Option<string>)
    reads st
    ensures r.Some? <==> key in st.items && st.items[key].Text?
    ensures r.Some? ==> st.items[key] == Text(r.value)
  {
    if key in st.items && st.items[key].Text? then Some(st.items[key].text) else None
  }

  /** The text stored under `AuthTokenKey`, or null. */
  function GetToken(st: LocalStorage): (r: Option<string>)
    reads st
    ensures r.Some? <==> AuthTokenKey in st.items && st.items[AuthTokenKey].Text?
    ensures r.Some? ==> st.items[AuthTokenKey] == Text(r.value)
  {
    GetText(st, AuthTokenKey)
  }

  /** The text stored under `SpotifyTokenKey`, or null. */
  function GetSpotifyToken(st: LocalStorage): (r: Option<string>)
    reads st
    ensures r.Some? <==> SpotifyTokenKey in st.items && st.items[SpotifyTokenKey].Text?
    ensures r.Some? ==> st.items[SpotifyTokenKey] == Text(r.value)
  {
    GetText(st, SpotifyTokenKey)
  }

  /** `!!getToken()`. */
  function IsAuthenticated(st: LocalStorage): (r: bool)
    reads st
    ensures r <==> AuthTokenKey in st.items && st.items[AuthTokenKey].Text? && st.items[AuthTokenKey].text != ""
  {
    Present(GetToken(st))
  }

  /** The stored user, or null when nothing (or an empty string) is stored. */
  function GetUserData(st: LocalStorage): (r: Option<User>)
    reads st
    ensures r.Some? <==> UserDataKey in st.items && st.items[UserDataKey].UserJson?
    ensures r.Some? ==> st.items[UserDataKey] == UserJson(r.value)
  {
    if UserDataKey in st.items && st.items[UserDataKey].UserJson? then Some(st.items[UserDataKey].user) else None
  }

  method SetToken(st: LocalStorage, token: string)
    modifies st
    ensures st.items == old(st.items)[AuthTokenKey := Text(token)]
    ensures GetToken(st) == Some(token)
    ensures GetSpotifyToken(st) == old(GetSpotifyToken(st)) && GetUserData(st) == old(GetUserData(st))
  {
    st.SetItem(AuthTokenKey, Text(token));
  }

  method SetSpotifyToken(st: LocalStorage, token: string)
    modifies st
    ensures st.items == old(st.items)[SpotifyTokenKey := Text(token)]
    ensures GetSpotifyToken(st) == Some(token)
    ensures GetToken(st) == old(GetToken(st)) && GetUserData(st) == old(GetUserData(st))
  {
    st.SetItem(SpotifyTokenKey, Text(token));
  }

  method RemoveToken(st: LocalStorage)
    modifies st
    ensures st.items == old(st.items) - {AuthTokenKey}
    ensures GetToken(st) == None && !IsAuthenticated(st)
    ensures GetSpotifyToken(st) == old(GetSpotifyToken(st)) && GetUserData(st) == old(GetUserData(st))
  {
    st.RemoveItem(AuthTokenKey);
  }

  method SetUserData(st: LocalStorage, user: User)
    modifies st
    ensures st.items == old(st.items)[UserDataKey := UserJson(user)]
    ensures GetUserData(st) == Some(user)
    ensures GetToken(st) == old(GetToken(st)) && GetSpotifyToken(st) == old(GetSpotifyToken(st))
  {
    st.SetItem(UserDataKey, UserJson(user));
  }

  method RemoveUserData(st: LocalStorage)
    modifies st
    ensures st.items == old(st.items) - {UserDataKey}
    ensures GetUserData(st) == None
    ensures GetToken(st) == old(GetToken(st)) && GetSpotifyToken(st) == old(GetSpotifyToken(st))
  {
    st.RemoveItem(UserDataKey);
  }

  /** Forget the session: token and user go, the Spotify token stays. */
  method ClearAuth(st: LocalStorage)
    modifies st
    ensures st.items == old(st.items) - {AuthTokenKey, UserDataKey}
    ensures GetToken(st) == None && GetUserData(st) == None && !IsAuthenticated(st)
    ensures GetSpotifyToken(st) == old(GetSpotifyToken(st))
  {
    RemoveToken(st);
    RemoveUserData(st);
  }
}
