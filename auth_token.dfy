/**
 * Session-token storage (src/lib/utils.ts): `setAuthToken` writes or removes
 * the 'authToken' entry of local storage together with the HTTP client's
 * default `Authorization` header; `getSessionToken` reads the entry back.
 */
module AuthToken {
  import opened Wrappers

  const AuthTokenKey := "authToken"

  /** `localStorage`, as string keys to string values. */
  type Storage = map<string, string>

  /** JavaScript truthiness of a `string | null`: null and "" are falsy. */
  predicate IsTruthy(token: Option<string>)
  {
    token.Some? && token.value != ""
  }

  /** `localStorage.getItem('authToken')`. */
  function SessionToken(storage: Storage): (r: Option<string>)
    ensures r.Some? <==> AuthTokenKey in storage
    ensures r.Some? ==> r.value == storage[AuthTokenKey]
  {
    if AuthTokenKey in storage then Some(storage[AuthTokenKey]) else None
  }

  /** The storage side of `setAuthToken`: set the entry for a truthy token, remove it otherwise. */
  function StoreToken(storage: Storage, token: Option<string>): (r: Storage)
    ensures IsTruthy(token) ==> SessionToken(r) == token
    ensures !IsTruthy(token) ==> SessionToken(r) == None
    ensures forall k :: k != AuthTokenKey ==> (k in r <==> k in storage)
    ensures forall k :: k != AuthTokenKey && k in r ==> r[k] == storage[k]
  {
    if IsTruthy(token) then storage[AuthTokenKey := token.value]
    else storage - {AuthTokenKey}
  }

  /** The header side of `setAuthToken`: `Bearer <token>` for a truthy token, absent otherwise. */
  function AuthHeader(token: Option<string>): (h: Option<string>)
    ensures h.Some? <==> IsTruthy(token)
    ensures h.Some? ==> h.value == "Bearer " + token.value
  {
    if IsTruthy(token) then Some("Bearer " + token.value) else None
  }

  /** `setAuthToken("")` acts as `setAuthToken(null)`: the empty string is falsy. */
  lemma EmptyTokenClears(storage: Storage)
    ensures StoreToken(storage, Some("")) == StoreToken(storage, None)
    ensures AuthHeader(Some("")) == None
  {
  }

  /** Storing the same token twice is the same as storing it once. */
  lemma StoreTokenIdempotent(storage: Storage, token: Option<string>)
    ensures StoreToken(StoreToken(storage, token), token) == StoreToken(storage, token)
  {
  }

  /** After `setAuthToken`, the header is present exactly when a token is stored, and carries it. */
  lemma HeaderAgreesWithStorage(storage: Storage, token: Option<string>)
    ensures var stored := SessionToken(StoreToken(storage, token));
      && (AuthHeader(token).Some? <==> stored.Some?)
      && (stored.Some? ==> AuthHeader(token) == Some("Bearer " + stored.value))
  {
  }

  /** Local storage and the HTTP client's default headers. */
  class ClientEnvironment {
    var localStorage: Storage
    /** `instance.defaults.headers.Authorization`. */
    var authorization: Option<string>

    constructor (storage: Storage)
      ensures localStorage == storage && authorization == None
    {
      localStorage := storage;
      authorization := None;
    }

    /** `setAuthToken`: entry and header are written, or removed, together. */
    method SetAuthToken(token: Option<string>)
      modifies this
      ensures localStorage == StoreToken(old(localStorage), token)
      ensures authorization == AuthHeader(token)
    {
      if IsTruthy(token) {
        localStorage := localStorage[AuthTokenKey := token.value];
        authorization := Some("Bearer " + token.value);
      } else {
        localStorage := localStorage - {AuthTokenKey};
        authorization := None;
      }
    }

    /** `getSessionToken`. */
    method GetSessionToken() returns (token: Option<string>)
      ensures token.Some? <==> AuthTokenKey in localStorage
      ensures token.Some? ==> token.value == localStorage[AuthTokenKey]
    {
      if AuthTokenKey in localStorage {
        token := Some(localStorage[AuthTokenKey]);
      } else {
        token := None;
      }
    }
  }
}
