/**
 * The shared authentication store: the session token, the Spotify token
 * and the user, mirrored into the key-value storage by every action.
 */
module AuthStore {
  import opened Base
  import opened Users
  import opened AuthStorage

  class Store {
    var user: Option<User>
    var token: Option<string>
    var spotifyToken: Option<string>
    var isAuthenticated: bool
    var isLoading: bool
    var error: Option<string>
    const storage: LocalStorage

    /** The store as created: tokens and user are read from storage. */
    constructor (st: LocalStorage)
      ensures storage == st
      ensures user == GetUserData(st) && token == GetToken(st) && spotifyToken == GetSpotifyToken(st)
      ensures isAuthenticated <==> Present(GetToken(st))
      ensures !isLoading && error == None
    {
      storage := st;
      user := GetUserData(st);
      token := GetToken(st);
      spotifyToken := GetSpotifyToken(st);
      isAuthenticated := Present(GetToken(st));
      isLoading := false;
      error := None;
    }

    /**
     * Store the signed-in user. The access token travels apart: it is
     * persisted as the Spotify token; a missing one is written as the
     * text "undefined" (the storage stringifies it) and held as null.
     */
    method SetUser(payload: UserPayload)
      modifies this, storage
      ensures storage.items == old(storage.items)[UserDataKey := UserJson(payload.user)]
        [SpotifyTokenKey := Text(if payload.accessToken.Some? then payload.accessToken.value else "undefined")]
      ensures GetUserData(storage) == Some(payload.user)
      ensures payload.accessToken.Some? ==> GetSpotifyToken(storage) == payload.accessToken
      ensures payload.accessToken.None? ==> GetSpotifyToken(storage) == Some("undefined")
      ensures GetToken(storage) == old(GetToken(storage))
      ensures user == Some(payload.user) && spotifyToken == payload.accessToken && error == None
      ensures token == old(token) && isAuthenticated == old(isAuthenticated) && isLoading == old(isLoading)
    {
      SetUserData(storage, payload.user);
      var stored := if payload.accessToken.Some? then payload.accessToken.value else "undefined";
      AuthStorage.SetSpotifyToken(storage, stored);
      user := Some(payload.user);
      spotifyToken := payload.accessToken;
      error := None;
    }

    method SetToken(t: string)
      modifies this, storage
      ensures storage.items == old(storage.items)[AuthTokenKey := Text(t)]
      ensures GetToken(storage) == Some(t)
      ensures GetSpotifyToken(storage) == old(GetSpotifyToken(storage)) && GetUserData(storage) == old(GetUserData(storage))
      ensures token == Some(t) && isAuthenticated
      ensures user == old(user) && spotifyToken == old(spotifyToken) && isLoading == old(isLoading) && error == old(error)
    {
      AuthStorage.SetToken(storage, t);
      token := Some(t);
      isAuthenticated := true;
    }

    method SetSpotifyToken(t: string)
      modifies this, storage
      ensures storage.items == old(storage.items)[SpotifyTokenKey := Text(t)]
      ensures GetSpotifyToken(storage) == Some(t)
      ensures GetToken(storage) == old(GetToken(storage)) && GetUserData(storage) == old(GetUserData(storage))
      ensures spotifyToken == Some(t)
      ensures user == old(user) && token == old(token) && isAuthenticated == old(isAuthenticated)
      ensures isLoading == old(isLoading) && error == old(error)
    {
      AuthStorage.SetSpotifyToken(storage, t);
      spotifyToken := Some(t);
    }

    /** Sign out: the session is forgotten, the Spotify token is kept. */
    method Logout()
      modifies this, storage
      ensures storage.items == old(storage.items) - {AuthTokenKey, UserDataKey}
      ensures GetToken(storage) == None && GetUserData(storage) == None
      ensures GetSpotifyToken(storage) == old(GetSpotifyToken(storage))
      ensures user == None && token == None && !isAuthenticated && error == None
      ensures spotifyToken == old(spotifyToken) && isLoading == old(isLoading)
    {
      ClearAuth(storage);
      user := None;
      token := None;
      isAuthenticated := false;
      error := None;
    }

    /**
     * Re-read the session from storage. The flags are set the other way
     * round from what the names suggest: a missing token or user yields
     * `isAuthenticated == true`, a complete session yields false.
     */
    method CheckAuth()
      modifies this
      ensures var t, u := GetToken(storage), GetUserData(storage);
        if !Present(t) || u.None? then
          user == None && token == None && isAuthenticated
        else
          user == u && token == t && !isAuthenticated
      ensures spotifyToken == old(spotifyToken) && isLoading == old(isLoading) && error == old(error)
    {
      var t := GetToken(storage);
      var u := GetUserData(storage);
      if !Present(t) || u.None? {
        user, token, isAuthenticated := None, None, true;
        return;
      }
      user, token, isAuthenticated := u, t, false;
    }

    method SetLoading(loading: bool)
      modifies this`isLoading
      ensures isLoading == loading
    {
      isLoading := loading;
    }

    method SetError(e: Option<string>)
      modifies this`error
      ensures error == e
    {
      error := e;
    }
  }
}
