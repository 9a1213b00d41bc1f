# Authsome: who is the current user

A Dafny model of `AuthsomeComponent`, the CakePHP component of
cakephp-authsome. It answers "who is the current user" for a request. It
tries four sources in order:

- the per-request cache (`Configure`)
- the session
- a persistent-login cookie token
- the guest account

It also logs users in and out, and it issues the persistent-login cookie
`<token>:<duration>`.

The model has four layers:

- `php.dfy` (module `Php`): PHP values, and their truthiness made explicit.
  The datatype is `Value = Null | Bool | Int | Str | Arr`. `Truthy` is PHP's
  boolean conversion, so `"0"` and `array()` are falsy. `Empty` is `empty()`.
- `strings.dfy` (`PhpStrings`) and `token.dfy` (`CookieToken`): `split` and
  `join` on a one-character delimiter. On top of them sit the cookie value
  format and its round trips.
- `field.dfy` (`FieldPath`): how `get($field)` finds a field in the user
  record.
- `authsome.dfy` (`Authsome`) has two parts:
  - Pure `...Effect` functions. Given the settings, the user model
    (`Backend`) and a snapshot of the three stores, each gives what an
    operation returns and what the stores hold afterwards.
  - The class `AuthsomeComponent`. It holds the settings and the three
    stores as map fields. Its methods do the operations step by step, as the
    PHP does. Each method is proved to agree with its `...Effect` function.

  `persist` calls `Authsome::get()`, and `get` runs `__getActiveUser`, which
  can call `persist` again through the cookie step. The functions and the
  methods keep this mutual recursion. It terminates because the inner
  `persist` only runs once the cache holds a non-empty user.
- `properties.dfy` (`AuthsomeProperties`) proves what the component promises
  across operations:
  - the fallback order
  - single use and re-issue of the cookie token
  - the effects of login, logout and persist
  - the settings defaults
- `scenarios.dfy` (`Scenarios`) drives a concrete component through the
  common request flows.

Exceptions are modelled as values: `Result` is `Success | Failure(Exception)`.
The user model's `authsomeLogin` and `authsomePersist` are oracle functions.
Each comes with a flag that stands for `method_exists`.

In a few places the code does something other than one might expect:

- `login` writes whatever the backend returns into the cache and the
  session, even `false`, and then returns it. It never skips the writes.
- `logout` always blanks the cookie.
- `__useCookieToken` deletes the cookie after the login call, whatever that
  call returns. If `authsomeLogin` is missing, the login throws first and the
  cookie stays.
- A cookie value with no `:` does not fail. Its token is `""` and its
  duration is the whole value.
- A `:` inside the duration passed to `persist` does not survive the cookie
  round trip. Everything up to the duration's last `:` is read back as part
  of the token.
- `__getActiveUser` throws only when the cache is exactly `null` afterwards.
  A guest login that returns `false` or an empty array is returned as the
  user.

## Model

| member | source | states |
|---|---|---|
| `PhpStrings.Split` | controllers/components/authsome.php:171 | `split` gives at least one piece, and no piece contains the delimiter |
| `PhpStrings.SplitWithoutDelimiter` | controllers/components/authsome.php:171 | a string with no delimiter splits into exactly itself |
| `PhpStrings.SplitAround` | controllers/components/authsome.php:171 | splitting `a:b` gives the pieces of `a` followed by the pieces of `b` |
| `PhpStrings.JoinSplit` | controllers/components/authsome.php:171-173 | `join` undoes `split`: joining the pieces gives back the original string |
| `PhpStrings.SplitJoin` | controllers/components/authsome.php:171-173 | `split` undoes `join` when no piece contains the delimiter |
| `PhpStrings.JoinAllButLast` | controllers/components/authsome.php:172-173 | joining all pieces but the last (the `array_pop` rest), then adding `:` and the last piece, gives the join of all pieces |
| `CookieToken.ParseToken` | controllers/components/authsome.php:171-173 | the duration taken from a cookie value never contains `:` |
| `CookieToken.ParseFormat` | controllers/components/authsome.php:171-173 | round trip: for any token, colons included, and any duration without a colon, parsing `token:duration` (as written at line 110) gives back the token and the duration |
| `CookieToken.DurationWithColon` | controllers/components/authsome.php:110 | a duration `head:tail` (`tail` without `:`) written by `persist` is read back at lines 171-173 as token `token:head` and duration `tail` |
| `CookieToken.ParseWithoutSeparator` | controllers/components/authsome.php:171-173 | a malformed value with no `:` parses to token `""` with the whole value as the duration, and nothing fails |
| `CookieToken.FormatParse` | controllers/components/authsome.php:171-173 | reverse round trip: every cookie value that contains a `:` is exactly the format of its parse |
| `CookieToken.ReissuedTokenParses` | controllers/components/authsome.php:109-110 | a new token issued for the duration read from any cookie parses back to that token and the same duration |
| `FieldPath.ExtractAppend` | controllers/components/authsome.php:67 | walking a path in two parts gives the same result as walking it in one |
| `FieldPath.FieldLookup` | controllers/components/authsome.php:56-67 | `get` lookup rule: an empty field (`null`, `''`, `'0'`) gives the whole user; a top-level key without a dot gives its entry; any other field without a dot gives the field under the model's entry (for a model name without `.`) |
| `FieldPath.DottedField` | controllers/components/authsome.php:60-67 | a dotted field `a.rest` walks into entry `a` and then along `rest` |
| `FieldPath.UserIdExample` | controllers/components/authsome.php:60-67 | `get('id')` on `{User: {id: 5, name: 'a'}}` with model `User` gives 5 |
| `Authsome.WithDefaultKeys` | controllers/components/authsome.php:43-50 | each store key whose value is empty becomes the model name; other settings are unchanged; with a non-empty model name no key stays empty |
| `Authsome.DefaultOneMoreKey` | controllers/components/authsome.php:45-50 | one pass of the defaulting loop adds one key to the set of keys already defaulted |
| `Authsome.LoginEffect` | controllers/components/authsome.php:70-90 | without `authsomeLogin`, login throws before any write. Otherwise it succeeds and writes its answer into both the cache and the session. The cookies stay as they are |
| `Authsome.LogoutEffect` | controllers/components/authsome.php:92-98 | after logout the cached user, the session user and the cookie value are all empty |
| `Authsome.AuthsomeComponent.constructor` | controllers/components/authsome.php:30-35 | a component over the given stores starts with the default settings: model `User` and `null` keys |
| `Authsome.AuthsomeComponent.Initialize` | controllers/components/authsome.php:39-51 | the loop merges the given settings over the current ones and defaults the three store keys, giving `WithDefaultKeys` of the merge |
| `Authsome.AuthsomeComponent.Login` | controllers/components/authsome.php:70-90 | answer and new stores are those of `LoginEffect` |
| `Authsome.AuthsomeComponent.Logout` | controllers/components/authsome.php:92-98 | returns `true`; the new stores are those of `LogoutEffect` |
| `Authsome.AuthsomeComponent.Persist` | controllers/components/authsome.php:100-118 | whether it throws, and the new stores, are those of `PersistEffect` |
| `Authsome.AuthsomeComponent.Get` | controllers/components/authsome.php:53-68 | answer and new stores are those of `GetEffect` |
| `Authsome.AuthsomeComponent.ActiveUser` | controllers/components/authsome.php:134-152 | answer and new stores are those of `ActiveUserEffect` |
| `Authsome.AuthsomeComponent.UseSession` | controllers/components/authsome.php:154-162 | answer and new cache are those of `SessionEffect` |
| `Authsome.AuthsomeComponent.UseCookieToken` | controllers/components/authsome.php:164-187 | answer (`false`, `null` or `true`) and new stores are those of `CookieTokenEffect` |
| `Authsome.AuthsomeComponent.UseGuestAccount` | controllers/components/authsome.php:189-191 | answer and new stores are those of a `guest` login |
| `AuthsomeProperties.CacheFirst` | controllers/components/authsome.php:135-138 | a non-empty cached user is returned as it is. No store changes and the backend is not called |
| `AuthsomeProperties.SessionSecond` | controllers/components/authsome.php:154-161 | otherwise a non-empty session user is copied into the cache and returned. The session and the cookie stay as they are, and neither the cookie nor the guest account is tried |
| `AuthsomeProperties.CookieStep` | controllers/components/authsome.php:164-187 | with a cookie present, the cookie login's answer goes to the cache and the session, and the cookie is deleted whatever the answer. Only a non-empty answer leads to `persist`, which writes a newly issued cookie or throws if `authsomePersist` is missing |
| `AuthsomeProperties.CookieThird` | controllers/components/authsome.php:140-142 | with no cached or session user, a cookie login that answers a non-empty user ends resolution with that user and a re-issued cookie. An empty answer falls through to the guest account with the cookie deleted |
| `AuthsomeProperties.GuestLast` | controllers/components/authsome.php:140-151 | with no cached, session or cookie user, the guest login's answer is cached, stored in the session and returned unless it is `null`. The cookie is untouched |
| `AuthsomeProperties.MissingLoginChangesNothing` | controllers/components/authsome.php:74-78 | without `authsomeLogin`, resolution past the session throws before any store changes, so the cookie stays too |
| `AuthsomeProperties.AnswerIsCached` | controllers/components/authsome.php:144-151 | the answer is the value left in the cache and is never `null`. With both backend methods present, resolution fails exactly when the cache ends `null`. Every failure is one of the three exceptions |
| `AuthsomeProperties.TokenSingleUse` | controllers/components/authsome.php:175-184 | once the cookie step has run, the old cookie entry is gone: either deleted or replaced by the newly issued one |
| `AuthsomeProperties.ReissuedCookieParses` | controllers/components/authsome.php:109-117 | the re-issued cookie is encrypted, expires after the old cookie's duration, and parses to the backend's new token and that duration |
| `AuthsomeProperties.ResolveTwice` | controllers/components/authsome.php:135-138 | once resolution has returned a non-empty user, resolving again returns the same user and changes nothing, so the cookie token is never used twice |
| `AuthsomeProperties.LoginArguments` | controllers/components/authsome.php:80-85 | a non-string first argument with no credentials is passed as the credentials with type `credentials`; otherwise both arguments go to the backend as given |
| `AuthsomeProperties.LoginWritesResult` | controllers/components/authsome.php:85-89 | whatever the backend returns, `false` included, is written to the cache and the session, and nothing else changes |
| `AuthsomeProperties.LoginThenResolve` | controllers/components/authsome.php:85-89 | after a login that returned a non-empty user, resolution returns that user and changes nothing |
| `AuthsomeProperties.LogoutThenResolve` | controllers/components/authsome.php:92-98 | after logout the previous user is not reused: resolution goes on to the guest account |
| `AuthsomeProperties.PersistWithoutMethod` | controllers/components/authsome.php:100-106 | without `authsomePersist`, persist throws before any write, for every store, logged in or not |
| `AuthsomeProperties.PersistWritesToken` | controllers/components/authsome.php:100-118 | with `authsomePersist` and a logged-in user, persist writes exactly one cookie, which, for a duration without `:`, parses to the backend's token and the duration |
| `AuthsomeProperties.GetLooksUpField` | controllers/components/authsome.php:53-67 | `get` with a logged-in user looks the field up in that user and changes nothing |
| `AuthsomeProperties.DefaultKeysIdempotent` | controllers/components/authsome.php:45-50 | defaulting the store keys a second time changes nothing |
| `Scenarios.CookieLoginResolution` | controllers/components/authsome.php:164-187 | session empty and cookie `abc123:2 weeks`: user 1 is cached and stored in the session, and cookie `def456:2 weeks` is written for two weeks |
| `Scenarios.RefusedCookieResolution` | controllers/components/authsome.php:175-182 | a cookie token the backend refuses is still deleted, and the guest account is used |

## Left out

- The static `Authsome` singleton (authsome.php:195-226) is not modelled. The component is passed explicitly. `persist`'s `Authsome::get()` is this component's `Get("")`.
- `hash` (authsome.php:120-122, 228-230) is not modelled. It only delegates to a cryptographic primitive, `Security::hash`, which is not part of this model.
- `__getUserModel` (authsome.php:124-132) is not modelled. The user model is a constant `Backend` of the component, and `ClassRegistry::init` and the caching of the instance are left out. `method_exists` becomes the flags `hasLogin` and `hasPersist`.
- The user model's own state, such as a token table, is not modelled. Its methods are pure oracle functions. So whether a re-issued token is unguessable, and different from the one just consumed, is up to the backend and is not proved.
- `Configure`, `Session` and `Cookie` are flat maps. Their dotted-key paths, cookie encryption and expiry handling are left out. A cookie entry only records the value, the encrypt flag and the expiry it was written with. `RequestHandler` is unused by the core.
- `Set::merge` in `initialize` is a flat override of settings, not a recursive merge.
- `Set::extract` in `get` is a plain walk along a dotted path through nested arrays. Its `{n}`/`{s}` patterns, numeric-key conversion and object handling are left out.
- `FieldPath.Field`: the top-level key test uses exact key membership, not `in_array`'s loose PHP comparison.
- PHP values have no floats or objects, and array keys are strings.
- `get($field = null)` takes a string. `null` is written as `""`, which `empty()` treats the same.
- PHP's default arguments are not modelled. Callers pass every argument explicitly: `login()` is `Login(Str("credentials"), Null)` and `persist()` is `Persist("2 weeks")` (authsome.php:70, 100).
- `Authsome.AuthsomeComponent.Persist`: the value returned by `Cookie->write` is not modelled, because it belongs to the cookie store. The method reports only whether it threw.
- Concurrent requests racing on the same cookie token are not modelled. The model is one sequential request.
