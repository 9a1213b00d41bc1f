/** What `AuthsomeComponent` promises across its operations: the order of
    the fallback chain, the single use and re-issue of the cookie token,
    the effects of login, logout and persist, and the settings defaults. */
module AuthsomeProperties {
  import opened Php
  import opened CookieToken
  import opened FieldPath
  import opened Authsome

  /** The user the cookie-token step logs in for the cookie in `st`. */
  function CookieUser(c: Config, st: Stores): (r: Value)
  {
    c.backend.authLogin(Str("cookie"), CookieCredentials(ParseToken(ToPhpString(CookieValue(c, st)))))
  }

  /** The duration read from the cookie in `st`. */
  function CookieDuration(c: Config, st: Stores): (r: string)
  {
    ParseToken(ToPhpString(CookieValue(c, st))).duration
  }

  /** The user the guest step logs in. */
  function GuestUser(c: Config): (r: Value)
  {
    c.backend.authLogin(Str("guest"), Null)
  }

  /** What `__getActiveUser` answers once the cache holds `user`. */
  function Answer(user: Value): (r: Result<Value>)
  {
    if user.Null? then Failure(UnableToInitialize) else Success(user)
  }

  // ---- Fallback order ----

  /** A non-empty cached user is returned as it is; no store changes and
      the backend is not asked. */
  lemma CacheFirst(c: Config, st: Stores)
    requires HasUser(c, st)
    ensures ActiveUserEffect(c, st) == Step(Success(CachedUser(c, st)), st)
  {
  }

  /** Otherwise a non-empty session user is copied into the cache and
      returned; the cookie and the backend are not consulted. */
  lemma SessionSecond(c: Config, st: Stores)
    requires !HasUser(c, st) && Truthy(SessionUser(c, st))
    ensures ActiveUserEffect(c, st)
         == Step(Success(SessionUser(c, st)), st.(cache := st.cache[ConfigureKey(c) := SessionUser(c, st)]))
  {
  }

  /** The stores after the cookie login of `__useCookieToken`: its result
      in the cache and the session, the cookie entry deleted. */
  function AfterCookieLogin(c: Config, st: Stores): (r: Stores)
  {
    var u := CookieUser(c, st);
    Stores(st.cache[ConfigureKey(c) := u], st.session[SessionKey(c) := u], st.cookie - {CookieKey(c)})
  }

  /** `__useCookieToken` with a cookie present: the cookie is deleted after
      the login whatever its result; only a non-empty result is persisted
      again, as a freshly issued cookie. */
  lemma CookieStep(c: Config, st: Stores)
    requires Truthy(CookieValue(c, st)) && c.backend.hasLogin
    ensures var u, used := CookieUser(c, st), AfterCookieLogin(c, st);
      CookieTokenEffect(c, st)
      == if !Truthy(u) then Step(Success(Null), used)
         else if !c.backend.hasPersist then Step(Failure(PersistMissing(c.backend)), used)
         else Step(Success(Bool(true)),
                   used.(cookie := st.cookie[CookieKey(c) := IssuedCookie(c, u, CookieDuration(c, st))]))
  {
    var u, used := CookieUser(c, st), AfterCookieLogin(c, st);
    if Truthy(u) && c.backend.hasPersist {
      assert HasUser(c, used);
      PersistWritesToken(c, used, CookieDuration(c, st));
      var kk := CookieKey(c);
      assert (st.cookie - {kk})[kk := IssuedCookie(c, u, CookieDuration(c, st))]
          == st.cookie[kk := IssuedCookie(c, u, CookieDuration(c, st))];
    }
  }

  /** Otherwise a cookie token is used: the cookie login's result goes to
      the cache and the session, and the cookie entry is deleted. A
      non-empty result is answered and re-issued as a new cookie; an empty
      one falls through to the guest account. */
  lemma CookieThird(c: Config, st: Stores)
    requires !HasUser(c, st) && !Truthy(SessionUser(c, st)) && Truthy(CookieValue(c, st))
    requires c.backend.hasLogin
    ensures var u, r := CookieUser(c, st), ActiveUserEffect(c, st);
      var kk := CookieKey(c);
      if Truthy(u) then
        && r.stores.cache == st.cache[ConfigureKey(c) := u]
        && r.stores.session == st.session[SessionKey(c) := u]
        && (if c.backend.hasPersist then
              r.result == Success(u) && r.stores.cookie == st.cookie[kk := IssuedCookie(c, u, CookieDuration(c, st))]
            else
              r.result == Failure(PersistMissing(c.backend)) && r.stores.cookie == st.cookie - {kk})
      else
        var g := GuestUser(c);
        && r.result == Answer(g)
        && r.stores == Stores(st.cache[ConfigureKey(c) := g], st.session[SessionKey(c) := g], st.cookie - {kk})
  {
    assert SessionEffect(c, st) == Step(false, st);
    CookieStep(c, st);
    var u, used := CookieUser(c, st), AfterCookieLogin(c, st);
    var kk := CookieKey(c);
    if !Truthy(u) {
      var g := GuestUser(c);
      assert GuestEffect(c, used).stores
          == Stores(used.cache[ConfigureKey(c) := g], used.session[SessionKey(c) := g], used.cookie);
      assert used.cache[ConfigureKey(c) := g] == st.cache[ConfigureKey(c) := g];
      assert used.session[SessionKey(c) := g] == st.session[SessionKey(c) := g];
    } else if c.backend.hasPersist {
      assert CachedUser(c, CookieTokenEffect(c, st).stores) == u;
    }
  }

  /** With no cached, session or cookie user the guest account is logged
      in, and its result is answered unless it is `null`. */
  lemma GuestLast(c: Config, st: Stores)
    requires !HasUser(c, st) && !Truthy(SessionUser(c, st)) && !Truthy(CookieValue(c, st))
    requires c.backend.hasLogin
    ensures var g := GuestUser(c);
      ActiveUserEffect(c, st)
      == Step(Answer(g), Stores(st.cache[ConfigureKey(c) := g], st.session[SessionKey(c) := g], st.cookie))
  {
  }

  /** Without `authsomeLogin` the first login attempt (cookie or guest)
      throws before any store is written, so even the cookie stays. */
  lemma MissingLoginChangesNothing(c: Config, st: Stores)
    requires !HasUser(c, st) && !Truthy(SessionUser(c, st))
    requires !c.backend.hasLogin
    ensures ActiveUserEffect(c, st) == Step(Failure(LoginMissing(c.backend)), st)
  {
  }

  /** Resolution answers the user it leaves in the cache, and it fails only
      for a missing backend method or when the cache ends up exactly
      `null`: an empty array or `false` from the guest login is answered. */
  lemma AnswerIsCached(c: Config, st: Stores)
    ensures var r := ActiveUserEffect(c, st);
      && (r.result.Success? ==> r.result.value == CachedUser(c, r.stores) && !r.result.value.Null?)
      && (c.backend.hasLogin && c.backend.hasPersist ==>
            (r.result.Failure? <==> CachedUser(c, r.stores).Null?))
      && (r.result.Failure? ==>
            r.result.error in {LoginMissing(c.backend), PersistMissing(c.backend), UnableToInitialize})
  {
    if HasUser(c, st) {
      CacheFirst(c, st);
    } else if Truthy(SessionUser(c, st)) {
      SessionSecond(c, st);
    } else if !c.backend.hasLogin {
      MissingLoginChangesNothing(c, st);
    } else if Truthy(CookieValue(c, st)) {
      CookieThird(c, st);
      if Truthy(CookieUser(c, st)) && c.backend.hasPersist {
        assert CachedUser(c, ActiveUserEffect(c, st).stores) == CookieUser(c, st);
      }
    } else {
      GuestLast(c, st);
    }
  }

  /** The cookie token is used at most once: whenever the cookie step runs
      and the backend can log in, the old cookie entry is gone afterwards,
      either deleted or replaced by a newly issued token. */
  lemma TokenSingleUse(c: Config, st: Stores)
    requires !HasUser(c, st) && !Truthy(SessionUser(c, st)) && Truthy(CookieValue(c, st))
    requires c.backend.hasLogin
    ensures var r := ActiveUserEffect(c, st);
      || CookieKey(c) !in r.stores.cookie
      || r.stores.cookie[CookieKey(c)] == IssuedCookie(c, CookieUser(c, st), CookieDuration(c, st))
  {
    CookieThird(c, st);
  }

  /** The re-issued cookie holds the backend's new token and the duration
      read from the old cookie, in a form that parses back to exactly
      those two; it is encrypted and expires after that duration. */
  lemma ReissuedCookieParses(c: Config, st: Stores)
    ensures var d := CookieDuration(c, st);
      var e := IssuedCookie(c, CookieUser(c, st), d);
      && e.value.Str? && e.encrypted && e.expires == Some(d)
      && ParseToken(e.value.s)
         == PersistToken(ToPhpString(c.backend.authPersist(CookieUser(c, st), d)), d)
  {
    ReissuedTokenParses(ToPhpString(CookieValue(c, st)), ToPhpString(c.backend.authPersist(CookieUser(c, st), CookieDuration(c, st))));
  }

  /** Once resolution has answered a non-empty user, resolving again
      answers the same and changes nothing: in particular the cookie token
      is never used twice within a request. */
  lemma ResolveTwice(c: Config, st: Stores)
    requires ActiveUserEffect(c, st).result.Success? && Truthy(ActiveUserEffect(c, st).result.value)
    ensures var r := ActiveUserEffect(c, st);
      ActiveUserEffect(c, r.stores) == r
  {
  }

  // ---- Login, logout and persist ----

  /** `login` normalises its arguments: a non-string first argument with no
      credentials is the credentials, of type `credentials`; otherwise the
      two go to the backend as given. */
  lemma LoginArguments(c: Config, st: Stores, kind: Value, credentials: Value)
    requires c.backend.hasLogin
    ensures LoginEffect(c, st, kind, credentials).result
         == Success(if !kind.Str? && credentials.Null? then c.backend.authLogin(Str("credentials"), kind)
                    else c.backend.authLogin(kind, credentials))
  {
  }

  /** Whatever login answers, even `false`, is written to the cache and
      the session, and nothing else changes. */
  lemma LoginWritesResult(c: Config, st: Stores, kind: Value, credentials: Value)
    requires c.backend.hasLogin
    ensures var r := LoginEffect(c, st, kind, credentials);
      r.stores == Stores(st.cache[ConfigureKey(c) := r.result.value],
                         st.session[SessionKey(c) := r.result.value], st.cookie)
  {
  }

  /** After a login that answered a non-empty user, resolution answers that
      user without consulting anything else. */
  lemma LoginThenResolve(c: Config, st: Stores, kind: Value, credentials: Value)
    requires c.backend.hasLogin
    requires Truthy(LoginEffect(c, st, kind, credentials).result.value)
    ensures var l := LoginEffect(c, st, kind, credentials);
      ActiveUserEffect(c, l.stores) == Step(l.result, l.stores)
  {
  }

  /** After logout the previous user is not reused: resolution goes all
      the way to the guest account (the cache, the session and the cookie
      are all emptied). */
  lemma LogoutThenResolve(c: Config, st: Stores)
    requires c.backend.hasLogin
    ensures var out := LogoutEffect(c, st);
      var g := GuestUser(c);
      ActiveUserEffect(c, out)
      == Step(Answer(g), out.(cache := out.cache[ConfigureKey(c) := g], session := out.session[SessionKey(c) := g]))
  {
  }

  /** Without `authsomePersist`, `persist` throws before any write, whoever
      is logged in. */
  lemma PersistWithoutMethod(c: Config, st: Stores, duration: string)
    requires !c.backend.hasPersist
    ensures PersistEffect(c, st, duration) == Step(Fail(PersistMissing(c.backend)), st)
  {
  }

  /** `persist` with a logged-in user writes exactly one cookie, whose value
      parses back to the backend's token and the duration (for a colon-free
      duration). */
  lemma PersistWritesToken(c: Config, st: Stores, duration: string)
    requires HasUser(c, st)
    ensures c.backend.hasPersist ==>
      var r := PersistEffect(c, st, duration);
      && r.result == Pass
      && r.stores == st.(cookie := st.cookie[CookieKey(c) := IssuedCookie(c, CachedUser(c, st), duration)])
    ensures Separator !in duration ==>
      ParseToken(IssuedCookie(c, CachedUser(c, st), duration).value.s)
      == PersistToken(ToPhpString(c.backend.authPersist(CachedUser(c, st), duration)), duration)
  {
    GetLooksUpField(c, st, "");
    if Separator !in duration {
      ParseFormat(PersistToken(ToPhpString(c.backend.authPersist(CachedUser(c, st), duration)), duration));
    }
  }

  /** `get($field)` with a logged-in user looks the field up in that user
      and changes nothing. */
  lemma GetLooksUpField(c: Config, st: Stores, field: string)
    requires HasUser(c, st)
    ensures GetEffect(c, st, field) == Step(Success(Field(CachedUser(c, st), ModelName(c), field)), st)
  {
  }

  // ---- Settings ----

  /** Defaulting the store keys twice is the same as once, so calling
      `initialize` again with no new settings changes nothing. */
  lemma DefaultKeysIdempotent(s: map<string, Value>, keys: set<string>)
    requires "model" !in keys
    ensures WithDefaultKeys(WithDefaultKeys(s, keys), keys) == WithDefaultKeys(s, keys)
  {
  }
}
