/**
 * The credential store: one bearer token kept in `localStorage` under a fixed key.
 * The pure functions describe the storage after each operation; the methods perform the
 * operations on a `Browser` and are proved against them.
 */
module Auth {
  import opened Wrappers
  import opened Env

  const TokenKey := "auth_token"

  /** What `localStorage.getItem(TokenKey)` returns. */
  function StoredToken(storage: map<string, string>): (t: Option<string>)
    ensures t.Some? <==> TokenKey in storage
    ensures t.Some? ==> t.value == storage[TokenKey]
  {
    Get(storage, TokenKey)
  }

  /** `!!localStorage.getItem(TokenKey)`: a token is stored and it is not empty. */
  predicate Authenticated(storage: map<string, string>) {
    TokenKey in storage && storage[TokenKey] != ""
  }

  /** The storage after `localStorage.setItem(TokenKey, t)`. */
  function WithToken(storage: map<string, string>, t: string): (r: map<string, string>)
    ensures StoredToken(r) == Some(t)
    ensures r.Keys == storage.Keys + {TokenKey}
    ensures forall k :: k in storage && k != TokenKey ==> r[k] == storage[k]
  {
    storage[TokenKey := t]
  }

  /** The storage after `localStorage.removeItem(TokenKey)`. */
  function WithoutToken(storage: map<string, string>): (r: map<string, string>)
    ensures StoredToken(r) == None
    ensures r.Keys == storage.Keys - {TokenKey}
    ensures forall k :: k in r ==> r[k] == storage[k]
  {
    storage - {TokenKey}
  }

  /** After `setToken(t)`, `getToken()` is `t`, and the last write wins. */
  lemma SetThenGet(storage: map<string, string>, a: string, t: string)
    ensures StoredToken(WithToken(storage, t)) == Some(t)
    ensures WithToken(WithToken(storage, a), t) == WithToken(storage, t)
  {
  }

  /** After `removeToken()`, nothing is stored and the user is not authenticated. */
  lemma RemoveThenSignedOut(storage: map<string, string>)
    ensures StoredToken(WithoutToken(storage)) == None && !Authenticated(WithoutToken(storage))
  {
  }

  /** Removing twice leaves the storage that removing once does. */
  lemma RemoveIdempotent(storage: map<string, string>)
    ensures WithoutToken(WithoutToken(storage)) == WithoutToken(storage)
  {
  }

  /** A stored empty token does not count as authenticated; any other stored token does. */
  lemma AuthenticatedIff(storage: map<string, string>)
    ensures Authenticated(storage) <==> exists t :: StoredToken(storage) == Some(t) && t != ""
  {
  }

  /** `auth.setToken(token)` */
  method SetToken(b: Browser, token: string)
    modifies b
    ensures b.storage == WithToken(old(b.storage), token)
    ensures b.href == old(b.href)
    ensures b.log == old(b.log) + [StorageSet(TokenKey, token)]
  {
    b.storage := b.storage[TokenKey := token];
    b.log := b.log + [StorageSet(TokenKey, token)];
  }

  /** `auth.getToken()` */
  method GetToken(b: Browser) returns (token: Option<string>)
    ensures token == StoredToken(b.storage)
  {
    if TokenKey in b.storage {
      token := Some(b.storage[TokenKey]);
    } else {
      token := None;
    }
  }

  /** `auth.removeToken()` */
  method RemoveToken(b: Browser)
    modifies b
    ensures b.storage == WithoutToken(old(b.storage))
    ensures b.href == old(b.href)
    ensures b.log == old(b.log) + [StorageRemove(TokenKey)]
  {
    b.storage := b.storage - {TokenKey};
    b.log := b.log + [StorageRemove(TokenKey)];
  }

  /** `auth.isAuthenticated()` */
  method IsAuthenticated(b: Browser) returns (r: bool)
    ensures r == Authenticated(b.storage)
  {
    var token := GetToken(b);
    r := token.Some? && token.value != "";
  }
}
