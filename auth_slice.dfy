/** The `auth` slice of the Redux store and the `isAuth` flag it keeps in
    `localStorage`. */
module AuthSlice {
  import opened Common

  class Auth<U> {
    var isLoggedIn: bool
    var user: Option<U>
    var token: Option<string>
    /** `localStorage["isAuth"]` */
    var persisted: Option<string>

    /** The stored flag agrees with the state, so a reload restores the same logged-in
        flag; and a user is only held while logged in. */
    ghost predicate Valid()
      reads this
    {
      (isLoggedIn <==> persisted == Some("true")) && (user.Some? ==> isLoggedIn)
    }

    /** `initialState`, read from the stored flag. */
    constructor (stored: Option<string>)
      ensures Valid()
      ensures isLoggedIn <==> stored == Some("true")
      ensures user.None? && token.None? && persisted == stored
    {
      isLoggedIn := stored == Some("true");
      user, token, persisted := None, None, stored;
    }

    /** `loginSuccess` */
    method LoginSuccess(payloadUser: Option<U>, payloadToken: Option<string>)
      modifies this
      ensures Valid()
      ensures isLoggedIn && user == payloadUser && token == payloadToken && persisted == Some("true")
    {
      isLoggedIn := true;
      user := payloadUser;
      token := payloadToken;
      persisted := Some("true");
    }

    /** `logout`: the same logged-out state whatever came before. */
    method Logout()
      modifies this
      ensures Valid()
      ensures !isLoggedIn && user.None? && token.None? && persisted.None?
    {
      isLoggedIn := false;
      user := None;
      token := None;
      persisted := None;
    }
  }
}
