/** AuthsomeComponent: who the current user is, and logging users in and
    out. The request cache (`Configure`), the session and the cookie jar
    are maps; the user model is a `Backend` value.

    The pure functions below (`...Effect`) give, for a snapshot of the
    three stores, what each operation returns and what the stores hold
    afterwards. The class `AuthsomeComponent` performs the same operations
    on its fields, step by step, and each of its methods is proved to
    agree with its function. */
module Authsome {
  import opened Php
  import opened CookieToken
  import opened FieldPath

  /** One cookie as written by `Cookie->write`: the value, the encrypt
      flag and the expiry (`None` for the store's default). */
  datatype CookieEntry = CookieEntry(value: Value, encrypted: bool, expires: Option<string>)

  /** The request cache (`Configure`), the session and the cookie jar. */
  datatype Stores = Stores(
    cache: map<Value, Value>,
    session: map<Value, Value>,
    cookie: map<Value, CookieEntry>)

  /** The user model. `hasLogin` and `hasPersist` say whether it defines
      `authsomeLogin` and `authsomePersist`; the two functions are those
      methods. */
  datatype Backend = Backend(
    alias: string,
    hasLogin: bool,
    authLogin: (Value, Value) -> Value,
    hasPersist: bool,
    authPersist: (Value, string) -> Value)

  /** What the component was set up with. */
  datatype Config = Config(settings: map<string, Value>, backend: Backend)

  /** What an operation returned and the stores after it. */
  datatype Step<T> = Step(result: T, stores: Stores)

  const DefaultSettings: map<string, Value> :=
    map["model" := Str("User"), "configureKey" := Null, "sessionKey" := Null, "cookieKey" := Null]

  const KeyPrefixes: seq<string> := ["configure", "session", "cookie"]

  /** `$prefix.'Key'` for the `j`-th prefix. */
  function KeySetting(j: nat): (r: string)
    requires j < |KeyPrefixes|
  {
    KeyPrefixes[j] + "Key"
  }

  /** The names of the first `n` store-key settings (`configureKey`, ...). */
  function KeySettings(n: nat): (r: set<string>)
    requires n <= |KeyPrefixes|
  {
    set j | 0 <= j < n :: KeySetting(j)
  }

  /** The settings after `initialize`'s defaulting pass over `keys`: each
      key whose value is empty (missing, `null`, `''`, ...) takes the
      model name; every other setting keeps its value. */
  function WithDefaultKeys(s: map<string, Value>, keys: set<string>): (r: map<string, Value>)
    ensures r.Keys == s.Keys + keys
    ensures forall k :: k in keys && Empty(Lookup(s, k)) ==> r[k] == Lookup(s, "model")
    ensures forall k :: k in s && !(k in keys && Empty(s[k])) ==> r[k] == s[k]
    ensures !Empty(Lookup(s, "model")) ==> forall k :: k in keys ==> !Empty(r[k])
  {
    map k | k in s.Keys + keys :: if k in keys && Empty(Lookup(s, k)) then Lookup(s, "model") else s[k]
  }

  /** One more pass of the defaulting loop extends the set of keys done. */
  lemma DefaultOneMoreKey(s: map<string, Value>, done: set<string>, key: string)
    requires key !in done && key != "model"
    ensures var cur := WithDefaultKeys(s, done);
            (if Empty(Lookup(cur, key)) then cur[key := Lookup(cur, "model")] else cur)
            == WithDefaultKeys(s, done + {key})
  {
  }

  function ConfigureKey(c: Config): (r: Value) { Lookup(c.settings, "configureKey") }
  function SessionKey(c: Config): (r: Value) { Lookup(c.settings, "sessionKey") }
  function CookieKey(c: Config): (r: Value) { Lookup(c.settings, "cookieKey") }
  function ModelName(c: Config): (r: string) { ToPhpString(Lookup(c.settings, "model")) }

  /** `Configure::read(configureKey)`. */
  function CachedUser(c: Config, st: Stores): (r: Value) { Lookup(st.cache, ConfigureKey(c)) }

  /** `Session->read(sessionKey)`. */
  function SessionUser(c: Config, st: Stores): (r: Value) { Lookup(st.session, SessionKey(c)) }

  /** `Cookie->read(cookieKey)`. */
  function CookieValue(c: Config, st: Stores): (r: Value)
  {
    if CookieKey(c) in st.cookie then st.cookie[CookieKey(c)].value else Null
  }

  /** The request cache already holds a non-empty user. */
  predicate HasUser(c: Config, st: Stores) { Truthy(CachedUser(c, st)) }

  function LoginMissing(b: Backend): (r: Exception)
  {
    Exception(b.alias + "::authsomeLogin() is not implemented!")
  }

  function PersistMissing(b: Backend): (r: Exception)
  {
    Exception(b.alias + "::authsomePersist() is not implemented!")
  }

  const UnableToInitialize: Exception := Exception("Unable to initilize user")

  /** The credentials `__useCookieToken` logs in with: `compact('token', 'duration')`. */
  function CookieCredentials(p: PersistToken): (r: Value)
  {
    Arr(map["token" := Str(p.token), "duration" := Str(p.duration)])
  }

  /** The cookie `persist($duration)` writes for `user`: a fresh token from
      the backend, `:` and the duration, encrypted, expiring after the
      duration. */
  function IssuedCookie(c: Config, user: Value, duration: string): (r: CookieEntry)
  {
    var token := ToPhpString(c.backend.authPersist(user, duration));
    CookieEntry(Str(FormatToken(PersistToken(token, duration))), true, Some(duration))
  }

  /** `login($type, $credentials)`. */
  function LoginEffect(c: Config, st: Stores, kind: Value, credentials: Value): (s: Step<Result<Value>>)
    ensures !c.backend.hasLogin ==> s == Step(Failure(LoginMissing(c.backend)), st)
    ensures c.backend.hasLogin ==> s.result.Success?
    ensures s.result.Success? ==>
      && CachedUser(c, s.stores) == s.result.value
      && SessionUser(c, s.stores) == s.result.value
      && s.stores.cookie == st.cookie
  {
    if !c.backend.hasLogin then Step(Failure(LoginMissing(c.backend)), st)
    else
      var (k, cr) := if !kind.Str? && credentials.Null? then (Str("credentials"), kind) else (kind, credentials);
      var user := c.backend.authLogin(k, cr);
      Step(Success(user), Stores(st.cache[ConfigureKey(c) := user], st.session[SessionKey(c) := user], st.cookie))
  }

  /** `logout()`: always succeeds, so only the stores are given. */
  function LogoutEffect(c: Config, st: Stores): (r: Stores)
    ensures Empty(CachedUser(c, r)) && Empty(SessionUser(c, r)) && Empty(CookieValue(c, r))
  {
    Stores(
      st.cache[ConfigureKey(c) := Arr(map[])],
      st.session[SessionKey(c) := Arr(map[])],
      st.cookie[CookieKey(c) := CookieEntry(Str(""), true, None)])
  }

  /** `__useSession()`. */
  function SessionEffect(c: Config, st: Stores): (r: Step<bool>)
  {
    var user := SessionUser(c, st);
    if !Truthy(user) then Step(false, st)
    else Step(true, st.(cache := st.cache[ConfigureKey(c) := user]))
  }

  /** `__useGuestAccount()`. */
  function GuestEffect(c: Config, st: Stores): (r: Step<Result<Value>>)
  {
    LoginEffect(c, st, Str("guest"), Null)
  }

  /** `__useCookieToken()`: `false` without a cookie, `null` when the
      cookie login fails, `true` after a successful login and re-issue. */
  function CookieTokenEffect(c: Config, st: Stores): (r: Step<Result<Value>>)
    decreases 3
  {
    var cookie := CookieValue(c, st);
    if !Truthy(cookie) then Step(Success(Bool(false)), st)
    else
      var p := ParseToken(ToPhpString(cookie));
      var login := LoginEffect(c, st, Str("cookie"), CookieCredentials(p));
      if login.result.Failure? then Step(Failure(login.result.error), login.stores)
      else
        var used := login.stores.(cookie := login.stores.cookie - {CookieKey(c)});
        if !Truthy(login.result.value) then Step(Success(Null), used)
        else
          var persisted := PersistEffect(c, used, p.duration);
          if persisted.result.Fail? then Step(Failure(persisted.result.error), persisted.stores)
          else Step(Success(Bool(true)), persisted.stores)
  }

  /** `persist($duration)`. */
  function PersistEffect(c: Config, st: Stores, duration: string): (r: Step<Outcome>)
    decreases if HasUser(c, st) then 2 else 7
  {
    if !c.backend.hasPersist then Step(Fail(PersistMissing(c.backend)), st)
    else
      var user := GetEffect(c, st, "");
      if user.result.Failure? then Step(Fail(user.result.error), user.stores)
      else
        var st' := user.stores;
        Step(Pass, st'.(cookie := st'.cookie[CookieKey(c) := IssuedCookie(c, user.result.value, duration)]))
  }

  /** `get($field)`. */
  function GetEffect(c: Config, st: Stores, field: string): (r: Step<Result<Value>>)
    decreases if HasUser(c, st) then 1 else 6
  {
    var user := ActiveUserEffect(c, st);
    if user.result.Failure? then user
    else Step(Success(Field(user.result.value, ModelName(c), field)), user.stores)
  }

  /** `__getActiveUser()`: the cache, else session, cookie token and guest
      account in that order (stopping at the first that reports success),
      then the cache again, which must not be `null`. */
  function ActiveUserEffect(c: Config, st: Stores): (r: Step<Result<Value>>)
    decreases if HasUser(c, st) then 0 else 5
  {
    if HasUser(c, st) then Step(Success(CachedUser(c, st)), st)
    else
      var session := SessionEffect(c, st);
      var chain: Step<Outcome> :=
        if session.result then Step(Pass, session.stores)
        else
          var cookie := CookieTokenEffect(c, session.stores);
          if cookie.result.Failure? then Step(Fail(cookie.result.error), cookie.stores)
          else if Truthy(cookie.result.value) then Step(Pass, cookie.stores)
          else
            var guest := GuestEffect(c, cookie.stores);
            if guest.result.Failure? then Step(Fail(guest.result.error), guest.stores)
            else Step(Pass, guest.stores);
      if chain.result.Fail? then Step(Failure(chain.result.error), chain.stores)
      else
        var user := CachedUser(c, chain.stores);
        if user.Null? then Step(Failure(UnableToInitialize), chain.stores)
        else Step(Success(user), chain.stores)
  }

  class AuthsomeComponent {
    var settings: map<string, Value>
    var cache: map<Value, Value>
    var session: map<Value, Value>
    var cookie: map<Value, CookieEntry>
    const backend: Backend

    function Cfg(): (r: Config)
      reads this
    {
      Config(settings, backend)
    }

    function Snapshot(): (r: Stores)
      reads this
    {
      Stores(cache, session, cookie)
    }

    /** A component over the given stores, with the default settings. */
    constructor (backend: Backend, stores: Stores)
      ensures settings == DefaultSettings
      ensures this.backend == backend && Snapshot() == stores
    {
      settings := DefaultSettings;
      cache, session, cookie := stores.cache, stores.session, stores.cookie;
      this.backend := backend;
    }

    /** `initialize`: merge the given settings over the current ones, then
        default every empty store key to the model name. */
    method Initialize(given: map<string, Value>)
      modifies this`settings
      ensures settings == WithDefaultKeys(old(settings) + given, KeySettings(|KeyPrefixes|))
    {
      settings := settings + given;
      ghost var merged := settings;
      for i := 0 to |KeyPrefixes|
        invariant settings == WithDefaultKeys(merged, KeySettings(i))
      {
        var key := KeyPrefixes[i] + "Key";
        assert KeySetting(0) == "configureKey" && KeySetting(1) == "sessionKey" && KeySetting(2) == "cookieKey";
        assert key == KeySetting(i) && key !in KeySettings(i) && key != "model";
        assert KeySettings(i + 1) == KeySettings(i) + {key};
        DefaultOneMoreKey(merged, KeySettings(i), key);
        if Empty(Lookup(settings, key)) {
          settings := settings[key := Lookup(settings, "model")];
        }
      }
    }

    method Login(kind: Value, credentials: Value) returns (r: Result<Value>)
      modifies this`cache, this`session
      ensures Step(r, Snapshot()) == LoginEffect(Cfg(), old(Snapshot()), kind, credentials)
    {
      if !backend.hasLogin {
        return Failure(LoginMissing(backend));
      }
      var k, cr := kind, credentials;
      if !k.Str? && cr.Null? {
        cr := k;
        k := Str("credentials");
      }
      var user := backend.authLogin(k, cr);
      cache := cache[ConfigureKey(Cfg()) := user];
      session := session[SessionKey(Cfg()) := user];
      return Success(user);
    }

    method Logout() returns (r: bool)
      modifies this`cache, this`session, this`cookie
      ensures r
      ensures Snapshot() == LogoutEffect(Cfg(), old(Snapshot()))
    {
      cache := cache[ConfigureKey(Cfg()) := Arr(map[])];
      session := session[SessionKey(Cfg()) := Arr(map[])];
      cookie := cookie[CookieKey(Cfg()) := CookieEntry(Str(""), true, None)];
      return true;
    }

    method Persist(duration: string) returns (r: Outcome)
      modifies this`cache, this`session, this`cookie
      decreases if HasUser(Cfg(), Snapshot()) then 2 else 7
      ensures Step(r, Snapshot()) == PersistEffect(Cfg(), old(Snapshot()), duration)
    {
      if !backend.hasPersist {
        return Fail(PersistMissing(backend));
      }
      var user := Get("");
      if user.Failure? {
        return Fail(user.error);
      }
      var token := ToPhpString(backend.authPersist(user.value, duration));
      var value := FormatToken(PersistToken(token, duration));
      cookie := cookie[CookieKey(Cfg()) := CookieEntry(Str(value), true, Some(duration))];
      return Pass;
    }

    method Get(field: string) returns (r: Result<Value>)
      modifies this`cache, this`session, this`cookie
      decreases if HasUser(Cfg(), Snapshot()) then 1 else 6
      ensures Step(r, Snapshot()) == GetEffect(Cfg(), old(Snapshot()), field)
    {
      var user := ActiveUser();
      if user.Failure? {
        return user;
      }
      return Success(Field(user.value, ModelName(Cfg()), field));
    }

    method ActiveUser() returns (r: Result<Value>)
      modifies this`cache, this`session, this`cookie
      decreases if HasUser(Cfg(), Snapshot()) then 0 else 5
      ensures Step(r, Snapshot()) == ActiveUserEffect(Cfg(), old(Snapshot()))
    {
      var user := Lookup(cache, ConfigureKey(Cfg()));
      if Truthy(user) {
        return Success(user);
      }
      var fromSession := UseSession();
      if !fromSession {
        var fromCookie := UseCookieToken();
        if fromCookie.Failure? {
          return Failure(fromCookie.error);
        }
        if !Truthy(fromCookie.value) {
          var guest := UseGuestAccount();
          if guest.Failure? {
            return Failure(guest.error);
          }
        }
      }
      user := Lookup(cache, ConfigureKey(Cfg()));
      if user.Null? {
        return Failure(UnableToInitialize);
      }
      return Success(user);
    }

    method UseSession() returns (used: bool)
      modifies this`cache
      ensures Step(used, Snapshot()) == SessionEffect(Cfg(), old(Snapshot()))
    {
      var user := Lookup(session, SessionKey(Cfg()));
      if !Truthy(user) {
        return false;
      }
      cache := cache[ConfigureKey(Cfg()) := user];
      return true;
    }

    method UseCookieToken() returns (r: Result<Value>)
      modifies this`cache, this`session, this`cookie
      decreases 3
      ensures Step(r, Snapshot()) == CookieTokenEffect(Cfg(), old(Snapshot()))
    {
      var value := CookieValue(Cfg(), Snapshot());
      if !Truthy(value) {
        return Success(Bool(false));
      }
      var p := ParseToken(ToPhpString(value));
      var user := Login(Str("cookie"), CookieCredentials(p));
      if user.Failure? {
        return Failure(user.error);
      }
      cookie := cookie - {CookieKey(Cfg())};
      if !Truthy(user.value) {
        return Success(Null);
      }
      var persisted := Persist(p.duration);
      if persisted.Fail? {
        return Failure(persisted.error);
      }
      return Success(Bool(true));
    }

    method UseGuestAccount() returns (r: Result<Value>)
      modifies this`cache, this`session
      ensures Step(r, Snapshot()) == GuestEffect(Cfg(), old(Snapshot()))
    {
      r := Login(Str("guest"), Null);
    }
  }
}
