/** The login-token hook (src/hooks/useLoginToken.ts). Its copies of
    `store` and `getStoredToken` are identical to the token store's, so the
    model uses `TokenStorage` for both. The hook's state updates are the
    updater functions below; the class applies them in place, with the
    storage and the scheduled invalidation beside them. Time is an input. */
module UseLoginToken {
  import opened Wrappers
  import opened ApiClient
  import opened TokenStorage

  datatype HookState = HookState(tokenData: Option<TokenData>, error: Option<string>, loading: bool)

  /** The state the hook starts with: the stored token, if still valid, no
      error, not loading. */
  function InitialState(entries: map<string, StoredToken>, now: int): (s: HookState)
    ensures s.error == None && !s.loading
    ensures StorageKey !in entries ==> s.tokenData == None
    ensures StorageKey in entries && entries[StorageKey].expires * 1000 < now ==> s.tokenData == None
    ensures StorageKey in entries && entries[StorageKey].expires * 1000 >= now ==>
      s.tokenData == Some(TokenData(entries[StorageKey].key, entries[StorageKey].expires * 1000))
  {
    HookState(ReadToken(entries, now), None, false)
  }

  /** The first update of `refetch`: loading, error cleared, token kept. */
  function StartLoading(s: HookState): (r: HookState)
    ensures r.loading && r.error == None && r.tokenData == s.tokenData
  {
    s.(loading := true, error := None)
  }

  /** The update after `login` settles: on success the new token and loading
      off (the error is kept); on failure the message and loading off (the
      token is kept). */
  function Settle(s: HookState, outcome: Result<TokenData>): (r: HookState)
    ensures !r.loading
    ensures outcome.Ok? ==> r.tokenData == Some(outcome.value) && r.error == s.error
    ensures outcome.Err? ==> r.tokenData == s.tokenData && r.error == Some(outcome.message)
  {
    match outcome
    case Ok(tokenData) => s.(tokenData := Some(tokenData), loading := false)
    case Err(message) => s.(error := Some(message), loading := false)
  }

  /** The delay of the invalidation the effect schedules: none without a
      token, otherwise the time left until its expiry. */
  function InvalidationDelay(tokenData: Option<TokenData>, now: int): (d: Option<int>)
    ensures d.None? <==> tokenData.None?
    ensures d.Some? ==> now + d.value == tokenData.value.expires
  {
    match tokenData
    case None => None
    case Some(t) => Some(t.expires - now)
  }

  /** The update the invalidation timer makes. */
  function Invalidate(s: HookState): (r: HookState)
    ensures r.tokenData == None && r.error == s.error && r.loading == s.loading
  {
    s.(tokenData := None)
  }

  /** The `token` the hook exposes: the key of the current token. */
  function ExposedToken(s: HookState): (t: Option<string>)
    ensures t.None? <==> s.tokenData.None?
    ensures t.Some? ==> t.value == s.tokenData.value.key
  {
    match s.tokenData
    case None => None
    case Some(d) => Some(d.key)
  }

  /** A failed refetch leaves the exposed token as it was and reports the
      message. */
  lemma FailedRefetchKeepsToken(s: HookState, message: string)
    ensures var r := Settle(StartLoading(s), Err(message));
      ExposedToken(r) == ExposedToken(s) && r.error == Some(message) && !r.loading
  {
  }

  /** A successful refetch exposes the new key; once its invalidation fires
      the hook exposes no token. */
  lemma SuccessfulRefetchThenInvalidation(s: HookState, tokenData: TokenData, now: int)
    ensures var r := Settle(StartLoading(s), Ok(tokenData));
      ExposedToken(r) == Some(tokenData.key) && r.error == None && !r.loading &&
      InvalidationDelay(r.tokenData, now) == Some(tokenData.expires - now) &&
      ExposedToken(Invalidate(r)) == None && InvalidationDelay(Invalidate(r).tokenData, now) == None
  {
  }

  /** After logging in with an expiry of `seconds` and reloading the page,
      the restored token carries `seconds * 1000 * 1000` as its expiry: the
      login converts once and the read converts again. */
  lemma ReloadAfterLoginScalesTwice(entries: map<string, StoredToken>, key: string, seconds: int, now: int)
    requires seconds * 1000 * 1000 >= now
    ensures var loggedIn := LoginOutcome(Response(200, Json(LoginData(key, seconds, None))));
      loggedIn == Ok(TokenData(key, seconds * 1000)) &&
      InitialState(entries[StorageKey := Record(loggedIn.value)], now).tokenData ==
        Some(TokenData(key, seconds * 1000 * 1000))
  {
  }

  class LoginTokenHook {
    const storage: Storage
    var state: HookState
    /** The delay of the pending invalidation timer, if one is scheduled. */
    var invalidationDelay: Option<int>

    /** Mounting the hook at time `now`: the `useState` initialiser reads
        the stored token, and the effect that runs after the first render
        schedules its invalidation when one was restored. */
    constructor (storage: Storage, now: int)
      ensures this.storage == storage
      ensures state == InitialState(storage.entries, now)
      ensures invalidationDelay == InvalidationDelay(state.tokenData, now)
    {
      this.storage := storage;
      var initial := InitialState(storage.entries, now);
      state := initial;
      invalidationDelay := InvalidationDelay(initial.tokenData, now);
    }

    /** The effect that runs when `tokenData` changes: cancel the pending
        invalidation and schedule a new one if there is a token. */
    method RunTokenEffect(now: int)
      modifies this
      ensures state == old(state)
      ensures invalidationDelay == InvalidationDelay(state.tokenData, now)
    {
      invalidationDelay := None;
      if state.tokenData.Some? {
        invalidationDelay := Some(state.tokenData.value.expires - now);
      }
    }

    /** The invalidation timer fires: the token is dropped, and the effect
        that follows schedules nothing. */
    method FireInvalidation()
      modifies this
      ensures state == Invalidate(old(state)) && invalidationDelay == None
    {
      state := state.(tokenData := None);
      invalidationDelay := None;
    }

    /** `refetch`: start loading, log in, store the token on success, and
        settle the state. */
    method Refetch(apiUrl: string, username: string, password: string,
                   server: Request -> Response<LoginData>)
      modifies this, storage
      ensures invalidationDelay == old(invalidationDelay)
      ensures var outcome := Login(apiUrl, username, password, server);
        state == Settle(StartLoading(old(state)), outcome) &&
        storage.entries == (if outcome.Ok? then old(storage.entries)[StorageKey := Record(outcome.value)]
                            else old(storage.entries))
    {
      state := StartLoading(state);
      var outcome := Login(apiUrl, username, password, server);
      if outcome.Ok? {
        storage.Store(outcome.value);
      }
      state := Settle(state, outcome);
    }
  }
}
