/**
 * The authentication context (src/contexts/AuthContext.tsx): two flags,
 * `isAuthenticated` and `isLoading`, driven by a check of the stored token on
 * mount and by `login` and `logout`, which also write the token storage.
 */
module AuthContext {
  import opened Wrappers
  import opened AuthToken

  /** The value the provider hands to `useAuth` callers (its two flags). */
  datatype AuthContextValue = AuthContextValue(isAuthenticated: bool, isLoading: bool)

  const OutsideProviderError := "useAuth must be used within an AuthProvider"

  /** `useAuth`: the context value, or the error thrown outside a provider. */
  function UseAuth(context: Option<AuthContextValue>): (r: Result<AuthContextValue, string>)
    ensures r.Failure? <==> context.None?
    ensures r.Failure? ==> r.error == OutsideProviderError
    ensures r.Success? ==> r.value == context.value
  {
    match context
    case None => Failure(OutsideProviderError)
    case Some(value) => Success(value)
  }

  class AuthProvider {
    var isAuthenticated: bool
    var isLoading: bool
    const env: ClientEnvironment

    /** The flags agree with storage: authenticated exactly when a truthy token is stored. */
    ghost predicate Agrees()
      reads this, env
    {
      isAuthenticated <==> IsTruthy(SessionToken(env.localStorage))
    }

    constructor (env: ClientEnvironment)
      ensures this.env == env
      ensures !isAuthenticated && isLoading
    {
      this.env := env;
      isAuthenticated := false;
      isLoading := true;
    }

    /**
     * The mount effect: authenticated if a truthy token is stored; loading
     * ends either way. Run on a fresh provider, the flags then agree with storage.
     */
    method CheckSession()
      modifies this`isAuthenticated, this`isLoading
      ensures isAuthenticated == (old(isAuthenticated) || IsTruthy(SessionToken(env.localStorage)))
      ensures !isLoading
      ensures !old(isAuthenticated) ==> Agrees()
    {
      var token := env.GetSessionToken();
      if IsTruthy(token) {
        isAuthenticated := true;
      }
      isLoading := false;
    }

    /**
     * `login`: stores the token and sets `isAuthenticated`. For a non-empty
     * token the flags agree with storage; for "" nothing is stored, yet the
     * provider reports authenticated.
     */
    method Login(token: string)
      modifies this`isAuthenticated, env
      ensures env.localStorage == StoreToken(old(env.localStorage), Some(token))
      ensures env.authorization == AuthHeader(Some(token))
      ensures isAuthenticated && isLoading == old(isLoading)
      ensures token != "" ==> Agrees() && SessionToken(env.localStorage) == Some(token)
      ensures token == "" ==> !Agrees() && SessionToken(env.localStorage) == None
    {
      env.SetAuthToken(Some(token));
      isAuthenticated := true;
    }

    /** `logout`: removes the token and clears `isAuthenticated`; the flags then agree. */
    method Logout()
      modifies this`isAuthenticated, env
      ensures env.localStorage == StoreToken(old(env.localStorage), None)
      ensures env.authorization == None
      ensures !isAuthenticated && isLoading == old(isLoading)
      ensures SessionToken(env.localStorage) == None && Agrees()
    {
      env.SetAuthToken(None);
      isAuthenticated := false;
    }
  }

  /** A login followed by a logout leaves no token and no authenticated user. */
  method LoginThenLogout(provider: AuthProvider, token: string)
    modifies provider, provider.env
    ensures !provider.isAuthenticated && SessionToken(provider.env.localStorage) == None
    ensures provider.env.authorization == None
    ensures provider.isLoading == old(provider.isLoading)
  {
    provider.Login(token);
    provider.Logout();
  }
}
