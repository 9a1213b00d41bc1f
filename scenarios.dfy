/** Client code: a component over concrete stores and a concrete user
    model, driven through a cookie login, a refused cookie, a guest login
    and a logout. */
module Scenarios {
  import opened Php
  import opened CookieToken
  import opened Authsome
  import opened AuthsomeProperties

  function UserRecord(id: int): (r: Value)
  {
    Arr(map["User" := Arr(map["id" := Int(id)])])
  }

  const GuestRecord: Value := Arr(map["User" := Arr(map["id" := Int(0), "guest" := Bool(true)])])

  /** A user model that accepts the cookie token `abc123` issued for two
      weeks, logs every guest in as user 0, refuses everything else, and
      issues the token `def456`. */
  function ExampleBackend(): (r: Backend)
  {
    Backend(
      "User",
      true,
      (kind: Value, credentials: Value) =>
        if kind == Str("cookie") && credentials == CookieCredentials(PersistToken("abc123", "2 weeks")) then UserRecord(1)
        else if kind == Str("guest") then GuestRecord
        else Bool(false),
      true,
      (user: Value, duration: string) => Str("def456"))
  }

  /** The encrypted cookie `<token>:2 weeks`, expiring after two weeks. */
  function TwoWeekCookie(token: string): (r: CookieEntry)
  {
    CookieEntry(Str(FormatToken(PersistToken(token, "2 weeks"))), true, Some("2 weeks"))
  }

  /** A freshly initialised component over `stores`, with every store key
      defaulted to the model name `User`. */
  method Start(stores: Stores) returns (auth: AuthsomeComponent)
    ensures fresh(auth) && auth.backend == ExampleBackend() && auth.Snapshot() == stores
    ensures KeyedByUser(auth.Cfg())
  {
    auth := new AuthsomeComponent(ExampleBackend(), stores);
    auth.Initialize(map[]);
    assert DefaultSettings + map[] == DefaultSettings;
    assert KeySetting(0) == "configureKey" && KeySetting(1) == "sessionKey" && KeySetting(2) == "cookieKey";
    assert "configureKey" in KeySettings(|KeyPrefixes|);
    assert "sessionKey" in KeySettings(|KeyPrefixes|);
    assert "cookieKey" in KeySettings(|KeyPrefixes|);
  }

  /** The settings keys of a component set up by `Start`. */
  ghost predicate KeyedByUser(c: Config)
  {
    c.backend == ExampleBackend() && ConfigureKey(c) == SessionKey(c) == CookieKey(c) == Str("User")
  }

  /** An empty session and the cookie `abc123:2 weeks`: the cookie logs
      user 1 in, the session then holds that user, and a new token is
      written for the same two weeks. */
  lemma CookieLoginResolution(c: Config)
    requires KeyedByUser(c)
    ensures ActiveUserEffect(c, Stores(map[], map[], map[Str("User") := TwoWeekCookie("abc123")]))
         == Step(Success(UserRecord(1)),
                 Stores(map[Str("User") := UserRecord(1)], map[Str("User") := UserRecord(1)],
                        map[Str("User") := TwoWeekCookie("def456")]))
  {
    var st := Stores(map[], map[], map[Str("User") := TwoWeekCookie("abc123")]);
    ParseFormat(PersistToken("abc123", "2 weeks"));
    assert CookieUser(c, st) == UserRecord(1);
    assert "User" in UserRecord(1).entries;
    assert CookieDuration(c, st) == "2 weeks";
    CookieThird(c, st);
    assert IssuedCookie(c, UserRecord(1), "2 weeks") == TwoWeekCookie("def456");
  }

  method CookieLogin()
  {
    var auth := Start(Stores(map[], map[], map[Str("User") := TwoWeekCookie("abc123")]));
    CookieLoginResolution(auth.Cfg());
    var user := auth.ActiveUser();
    assert user == Success(UserRecord(1));
    assert auth.session[Str("User")] == UserRecord(1);
    assert auth.cookie[Str("User")] == TwoWeekCookie("def456");

    // The second resolution in the same request answers from the cache.
    assert "User" in UserRecord(1).entries;
    CacheFirst(auth.Cfg(), auth.Snapshot());
    var again := auth.ActiveUser();
    assert again == user;
  }

  /** An empty session and no cookie: the guest account is logged in and
      cached. */
  method GuestLogin()
  {
    var auth := Start(Stores(map[], map[], map[]));
    var user := auth.ActiveUser();
    assert user == Success(GuestRecord);
    assert auth.cache[Str("User")] == GuestRecord;
  }

  /** After logout the user who was logged in is not reused: the guest
      account is. */
  method LogoutForgetsUser()
  {
    var auth := Start(Stores(map[Str("User") := UserRecord(7)], map[Str("User") := UserRecord(7)], map[]));
    assert "User" in UserRecord(7).entries;
    CacheFirst(auth.Cfg(), auth.Snapshot());
    var user := auth.ActiveUser();
    assert user == Success(UserRecord(7));
    label before:
    var ok := auth.Logout();
    assert ok;
    LogoutThenResolve(auth.Cfg(), old@before(auth.Snapshot()));
    user := auth.ActiveUser();
    assert user == Success(GuestRecord);
  }

  /** A cookie token the backend refuses is still deleted, and the guest
      account is used. */
  lemma RefusedCookieResolution(c: Config)
    requires KeyedByUser(c)
    ensures ActiveUserEffect(c, Stores(map[], map[], map[Str("User") := TwoWeekCookie("stale")]))
         == Step(Success(GuestRecord), Stores(map[Str("User") := GuestRecord], map[Str("User") := GuestRecord], map[]))
  {
    var st := Stores(map[], map[], map[Str("User") := TwoWeekCookie("stale")]);
    ParseFormat(PersistToken("stale", "2 weeks"));
    assert CookieCredentials(PersistToken("stale", "2 weeks")) != CookieCredentials(PersistToken("abc123", "2 weeks")) by {
      assert CookieCredentials(PersistToken("stale", "2 weeks")).entries["token"] == Str("stale");
    }
    assert CookieUser(c, st) == Bool(false);
    CookieThird(c, st);
    assert st.cookie - {Str("User")} == map[];
  }

  method RefusedCookie()
  {
    var auth := Start(Stores(map[], map[], map[Str("User") := TwoWeekCookie("stale")]));
    RefusedCookieResolution(auth.Cfg());
    var user := auth.ActiveUser();
    assert user == Success(GuestRecord);
    assert Str("User") !in auth.cookie;
  }
}
