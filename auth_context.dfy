/**
 * The React authentication context (lib/auth/AuthContext.tsx): the same
 * token / e-mail / flag triple as the Redux slice, plus `isInitialized`.
 * Every operation updates the state first and then touches `localStorage`
 * inside a try block, so a storage access that throws stops the remaining
 * storage accesses but not the state change.
 */
module AuthContext {
  import opened Wrappers
  import opened Js
  import opened BrowserStorage

  class AuthProvider {
    var token: Option<string>
    var userEmail: Option<string>
    var isAuthenticated: bool
    var isInitialized: bool
    const storage: LocalStorage

    /** The flag says exactly whether a token is held. */
    ghost predicate Valid()
      reads this
    {
      isAuthenticated <==> token.Some?
    }

    /** The first render: everything empty, not yet initialised. */
    constructor (storage: LocalStorage)
      ensures this.storage == storage
      ensures Valid()
      ensures token == None && userEmail == None && !isAuthenticated && !isInitialized
    {
      this.storage := storage;
      token, userEmail, isAuthenticated, isInitialized := None, None, false, false;
    }

    /** The mount effect: loads a non-empty stored token and e-mail address
        when both reads succeed, and marks the provider initialised in any case. */
    method Mount(fault: Fault)
      requires Valid()
      modifies this
      ensures Valid()
      ensures isInitialized
      ensures fault.Completes(2) && Truthy(storage.GetItem(TokenKey)) ==>
        token == storage.GetItem(TokenKey) && isAuthenticated
      ensures !(fault.Completes(2) && Truthy(storage.GetItem(TokenKey))) ==>
        token == old(token) && isAuthenticated == old(isAuthenticated)
      ensures userEmail == if fault.Completes(2) && Truthy(storage.GetItem(EmailKey)) then storage.GetItem(EmailKey)
                           else old(userEmail)
    {
      if fault.Throws(1) {
        isInitialized := true;
        return;
      }
      var storedToken := storage.GetItem(TokenKey);
      if fault.Throws(2) {
        isInitialized := true;
        return;
      }
      var storedEmail := storage.GetItem(EmailKey);
      if Truthy(storedToken) {
        token := storedToken;
        isAuthenticated := true;
      }
      if Truthy(storedEmail) {
        userEmail := storedEmail;
      }
      isInitialized := true;
    }

    /** `login(token, email)`: the state always changes; storage gets the
        token and then the address, as far as the writes succeed. */
    method Login(newToken: string, email: string, fault: Fault)
      requires Valid()
      modifies this, storage
      ensures Valid()
      ensures token == Some(newToken) && userEmail == Some(email) && isAuthenticated
      ensures isInitialized == old(isInitialized)
      ensures storage.items ==
        if fault.Throws(1) then old(storage.items)
        else if fault.Throws(2) then old(storage.items)[TokenKey := newToken]
        else old(storage.items)[TokenKey := newToken][EmailKey := email]
    {
      token, userEmail, isAuthenticated := Some(newToken), Some(email), true;
      if fault.Throws(1) {
        return;
      }
      storage.SetItem(TokenKey, newToken);
      if fault.Throws(2) {
        return;
      }
      storage.SetItem(EmailKey, email);
    }

    /** `logout()`: the state is always cleared; the two keys are removed as
        far as the removals succeed. */
    method Logout(fault: Fault)
      requires Valid()
      modifies this, storage
      ensures Valid()
      ensures token == None && userEmail == None && !isAuthenticated
      ensures isInitialized == old(isInitialized)
      ensures storage.items ==
        if fault.Throws(1) then old(storage.items)
        else if fault.Throws(2) then old(storage.items) - {TokenKey}
        else old(storage.items) - {TokenKey, EmailKey}
    {
      token, userEmail, isAuthenticated := None, None, false;
      if fault.Throws(1) {
        return;
      }
      storage.RemoveItem(TokenKey);
      if fault.Throws(2) {
        return;
      }
      storage.RemoveItem(EmailKey);
    }

    /** `setToken(token)`: the address is left alone; only the token key is written. */
    method SetToken(newToken: string, fault: Fault)
      requires Valid()
      modifies this, storage
      ensures Valid()
      ensures token == Some(newToken) && isAuthenticated
      ensures userEmail == old(userEmail) && isInitialized == old(isInitialized)
      ensures storage.items == if fault.Throws(1) then old(storage.items) else old(storage.items)[TokenKey := newToken]
    {
      token, isAuthenticated := Some(newToken), true;
      if fault.Throws(1) {
        return;
      }
      storage.SetItem(TokenKey, newToken);
    }

    /** `setUserEmail(email)`: the token and the flag are left alone; only
        the address key is written. */
    method SetUserEmail(email: string, fault: Fault)
      requires Valid()
      modifies this, storage
      ensures Valid()
      ensures userEmail == Some(email)
      ensures token == old(token) && isAuthenticated == old(isAuthenticated) && isInitialized == old(isInitialized)
      ensures storage.items == if fault.Throws(1) then old(storage.items) else old(storage.items)[EmailKey := email]
    {
      userEmail := Some(email);
      if fault.Throws(1) {
        return;
      }
      storage.SetItem(EmailKey, email);
    }

    /** The provider renders its children only once initialised, and nothing before. */
    function Render<C>(children: C): (r: Option<C>)
      reads this
      ensures r.Some? <==> isInitialized
      ensures r.Some? ==> r.value == children
    {
      if isInitialized then Some(children) else None
    }
  }

  /** Mounting a fresh provider always leads to rendering, even when storage
      throws; what it then shows is authenticated only with a stored token. */
  method MountThenRender(storage: LocalStorage, fault: Fault) returns (shown: Option<bool>)
    ensures shown.Some?
    ensures shown.value ==> fault.Completes(2) && Truthy(storage.GetItem(TokenKey))
  {
    var provider := new AuthProvider(storage);
    provider.Mount(fault);
    var rendered := provider.Render(provider.isAuthenticated);
    shown := rendered;
  }
}
