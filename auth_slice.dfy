/**
 * The Redux authentication slice (lib/redux/authSlice.ts): token, e-mail
 * address and the authenticated flag, mirrored into `localStorage` when the
 * code runs in a browser (`onClient`). On the server nothing is read or
 * written. The slice does not catch storage errors, so its storage is taken
 * never to throw.
 */
module AuthSlice {
  import opened Wrappers
  import opened Js
  import opened BrowserStorage

  class AuthState {
    var token: Option<string>
    var userEmail: Option<string>
    var isAuthenticated: bool
    const storage: LocalStorage
    const onClient: bool

    /** The flag says exactly whether a token is held. */
    ghost predicate Valid()
      reads this
    {
      isAuthenticated <==> token.Some?
    }

    /** In the browser, whatever the state holds is also in storage. Other
        writers of the same keys (the React provider, the login helper) can
        break this, so the reducers do not demand it: `setCredentials` and
        `logout` re-establish it, `setToken` and `setUserEmail` keep it. */
    ghost predicate Mirrored()
      reads this, storage
    {
      onClient ==>
        && (token.Some? ==> storage.GetItem(TokenKey) == token)
        && (userEmail.Some? ==> storage.GetItem(EmailKey) == userEmail)
    }

    /** The initial state: null, null, false, except that in the browser a
        non-empty stored token and e-mail address are loaded. */
    constructor (storage: LocalStorage, onClient: bool)
      ensures this.storage == storage && this.onClient == onClient
      ensures Valid() && Mirrored()
      ensures token == (if onClient && Truthy(storage.GetItem(TokenKey)) then storage.GetItem(TokenKey) else None)
      ensures userEmail == (if onClient && Truthy(storage.GetItem(EmailKey)) then storage.GetItem(EmailKey) else None)
    {
      this.storage := storage;
      this.onClient := onClient;
      token, userEmail, isAuthenticated := None, None, false;
      new;
      if onClient {
        var savedToken := storage.GetItem(TokenKey);
        var savedEmail := storage.GetItem(EmailKey);
        if Truthy(savedToken) {
          token := savedToken;
          isAuthenticated := true;
        }
        if Truthy(savedEmail) {
          userEmail := savedEmail;
        }
      }
    }

    /** `setCredentials({ token, userEmail })` */
    method SetCredentials(newToken: string, newEmail: string)
      requires Valid()
      modifies this, storage
      ensures Valid() && Mirrored()
      ensures token == Some(newToken) && userEmail == Some(newEmail) && isAuthenticated
      ensures storage.items == if onClient then old(storage.items)[TokenKey := newToken][EmailKey := newEmail]
                               else old(storage.items)
    {
      token := Some(newToken);
      userEmail := Some(newEmail);
      isAuthenticated := true;
      if onClient {
        storage.SetItem(TokenKey, newToken);
        storage.SetItem(EmailKey, newEmail);
      }
    }

    /** `setToken(token)`: the address is left alone. */
    method SetToken(newToken: string)
      requires Valid()
      modifies this, storage
      ensures Valid() && (old(Mirrored()) ==> Mirrored())
      ensures token == Some(newToken) && isAuthenticated
      ensures userEmail == old(userEmail)
      ensures storage.items == if onClient then old(storage.items)[TokenKey := newToken] else old(storage.items)
    {
      token := Some(newToken);
      isAuthenticated := true;
      if onClient {
        storage.SetItem(TokenKey, newToken);
      }
    }

    /** `setUserEmail(email)`: the token and the flag are left alone. */
    method SetUserEmail(newEmail: string)
      requires Valid()
      modifies this, storage
      ensures Valid() && (old(Mirrored()) ==> Mirrored())
      ensures userEmail == Some(newEmail)
      ensures token == old(token) && isAuthenticated == old(isAuthenticated)
      ensures storage.items == if onClient then old(storage.items)[EmailKey := newEmail] else old(storage.items)
    {
      userEmail := Some(newEmail);
      if onClient {
        storage.SetItem(EmailKey, newEmail);
      }
    }

    /** `logout()` */
    method Logout()
      requires Valid()
      modifies this, storage
      ensures Valid() && Mirrored()
      ensures token == None && userEmail == None && !isAuthenticated
      ensures storage.items == if onClient then old(storage.items) - {TokenKey, EmailKey} else old(storage.items)
    {
      token, userEmail, isAuthenticated := None, None, false;
      if onClient {
        storage.RemoveItem(TokenKey);
        storage.RemoveItem(EmailKey);
      }
    }
  }

  /** After a logout in the browser, a fresh start loads nothing. */
  method LogoutThenReload(state: AuthState) returns (reloaded: AuthState)
    requires state.Valid() && state.onClient
    modifies state, state.storage
    ensures reloaded.token == None && reloaded.userEmail == None && !reloaded.isAuthenticated
  {
    state.Logout();
    reloaded := new AuthState(state.storage, true);
  }
}
