/** The signed-in user, as the client keeps it. */
module Users {
  import opened Base

  datatype User = User(
    id: string,
    displayName: string,
    email: string,
    profileImage: Option<string>,
    createdAt: string,
    spotifyId: string)

  /** What the login flow hands to the store: the user with the Spotify access token attached. */
  datatype UserPayload = UserPayload(user: User, accessToken: Option<string>)
}
