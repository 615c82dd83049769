# Sharp two-step login, modelled in Dafny

This project models the login decision logic of the Sharp back-office
framework: the `LoginRequest` form request that authenticates a user behind a
rate limiter, and the TOTP two-factor handler (`Sharp2faTotpHandler`) that
holds a pending login in one session slot between the password step and the
code step.

Everything is a pure function over immutable values:

- `LoginRequest.Authenticate(cfg, guard, handler, req, st)` is one login
  request. The state `st` holds the rate-limit counters (a map from throttle
  key to attempt count), the session store and the durable login. The result
  is the new state, an `Outcome` and the ordered list of visible steps
  (`Effect`s): lockout, `once`, `attempt`, challenge written, hit, clear.
  The outcome is `Authenticated`, `Throttled`, `InvalidCredentials` or the
  distinct `NeedsTwoFactor` signal.
- The guard's `once` and `attempt`, the handler's `isEnabledFor` and
  `getUserEncryptedSecret`, the TOTP engine's `verify`, and `encrypt` /
  `decrypt` are uninterpreted functions passed in as parameters
  (`Guard`, `TwoFactor.Handler`, `TwoFactor.Engine`, `TwoFactor.Cipher`).
  The secret key from `generateSecretKey()` and the sixteen `Str::random(10)`
  draws of provisioning are parameters too.
- Configuration values are `Absent`, a real `Bool`, or `Other` (any other PHP
  value, of which only its truthiness matters). This keeps apart the strict
  `=== false` test on `rate_limiting.enabled` from the truthiness tests on
  `2fa.enabled` and `suggest_remember_me`.
- The rate limiter is a counter per key. A key is present only while its decay
  window is live. `TooManyAttempts` is true only for a present key whose count
  has reached the maximum. For an absent key the limiter resets and answers
  false, even when `max_attempts` is 0.
- The throttle key is `lower(login) + "|" + ip`. Counters are indexed by
  this string as it is. Lower-casing covers the ASCII
  letters and transliteration is the identity.
- The challenge slot is the key `"sharp:2fa:code"` of the session map. The
  other keys may hold anything, and the handler never touches them.
- Provisioning builds eight codes `XXXXXXXXXX-XXXXXXXXXX` and writes them as a
  JSON list. A reader for that JSON (`JsonList.Decode`) shows that the stored
  blob gives back exactly the eight codes.

Modules: `Wrappers` (Option), `Config`, `RateLimiter`, `ThrottleKey`,
`JsonList`, `RecoveryCodes`, `TwoFactor` (the handler), `LoginRequest` (the
request) and `LoginScenarios` (properties across several requests).

## Model

| member | source | states |
|---|---|---|
| `Config.DefaultsBehaviour` | src/Http/Requests/LoginRequest.php:37-81 | With nothing configured: rate limiting is on with a maximum of 5, 2FA is off, remember-me is not suggested, and the credential attributes are `email` / `password`. |
| `Config.FalsyNonBooleanKeepsRateLimiting` | src/Http/Requests/LoginRequest.php:77-79 | A falsy value that is not the boolean `false` does not switch the rate-limit gate off, because the test is strict. |
| `RateLimiter.TooManyAttempts` | src/Http/Requests/LoginRequest.php:81 | Limited implies the attempt count has reached the maximum. For a maximum of at least 1, limited holds exactly when the count reaches it. A key with no live window is never limited. |
| `RateLimiter.Hit` | src/Http/Requests/LoginRequest.php:40 | The count at the key goes up by exactly one. Every other key keeps its count and its presence. |
| `RateLimiter.Clear` | src/Http/Requests/LoginRequest.php:47 | The key is gone and its count reads 0. Every other key keeps its count and its presence. |
| `RateLimiter.ClearForgivesHits` | src/Http/Requests/LoginRequest.php:40-47 | Clearing after a hit gives the same counters as clearing alone. |
| `RateLimiter.ClearIdempotent` | src/Http/Requests/LoginRequest.php:47 | Clearing twice equals clearing once. |
| `ThrottleKey.Key` | src/Http/Requests/LoginRequest.php:97-100 | The key is the lower-cased login, character by character, then `|`, then exactly the ip. Its length is the sum of both plus one. |
| `ThrottleKey.LowerEqualIff` | src/Http/Requests/LoginRequest.php:99 | Two logins lower-case to the same string exactly when they differ only in ASCII letter case, checked against an independent per-character definition. |
| `ThrottleKey.SameKeyIffCaseInsensitive` | src/Http/Requests/LoginRequest.php:97-100 | From one ip, two logins share a throttle key if and only if they differ only in ASCII letter case. |
| `ThrottleKey.DistinctAddressesDistinctKeys` | src/Http/Requests/LoginRequest.php:97-100 | Two ips without a `|` that differ never share a key, whatever the logins. |
| `ThrottleKey.MixedCaseEmailCollides` | src/Http/Requests/LoginRequest.php:97-100 | `User@Example.com` and `user@example.com` from the same ip map to the same throttle key. |
| `LoginRequest.CredentialsFor` | src/Http/Requests/LoginRequest.php:53-56 | The credentials have exactly the two configured attribute names as keys. The password sits under its attribute. The login sits under its own attribute when the two names differ. |
| `LoginRequest.NotRateLimited` | src/Http/Requests/LoginRequest.php:75-95 | Stated against the limiter's attempt count. An explicit `false` always passes. A key with no live window always passes. A block implies that limiting is on and the count has reached the maximum. For a maximum of at least 1, the request passes exactly while the count is below the maximum. |
| `LoginRequest.AttemptToLogin` | src/Http/Requests/LoginRequest.php:50-73 | A challenge happens if and only if 2FA is on, `once` accepts and the handler enables the user. The slot then holds that user and the remember flag, other session keys are unchanged, and the steps are `once` then the challenge, with no `attempt`. Otherwise the answer is the `attempt` answer: after a `once` when 2FA is on, directly when it is off. |
| `LoginRequest.Authenticate` | src/Http/Requests/LoginRequest.php:33-48 | Throttled if and only if the gate blocks. A throttled request leaves the state unchanged and only locks out. An explicit `false` never throttles. Invalid credentials: the throttle key's count goes up by one, no other key moves, and there is no login. Success: the throttle key is cleared, no other key moves, and the durable login is the attempted user with remember = suggest_remember_me and the input. Needs-2FA: the slot holds `{once user id, remember}`, neither the counters nor the login change, and the steps are exactly `once` then the challenge, with no durable attempt. A failure ends with the durable attempt and then the hit of the key. A success ends with the durable attempt and then the clear. The handler's session map changes only on needs-2FA; the guard's own login is the separate `auth` part. Past the gate, the outcome is decided by the flags and the guard's answers alone. |
| `LoginRequest.AuthenticateIsOrdered` | src/Http/Requests/LoginRequest.php:33-73 | A lockout comes alone. A challenge follows a `once` and excludes any `attempt`, hit or clear. A hit or a clear comes last, right after the durable `attempt`. |
| `LoginScenarios.RepeatedFailuresLockOut` | src/Http/Requests/LoginRequest.php:35-44 | Resubmitting wrong credentials: try i is answered invalid while count + i is below the maximum and throttled after that. The counter ends at min(count + n, maximum), or stays where it was if it was already there. No other throttle key, challenge or login changes. |
| `LoginScenarios.SuccessRestartsCounting` | src/Http/Requests/LoginRequest.php:39-47 | After a durable login, the next failure with the same throttle key leaves a count of 1. |
| `LoginScenarios.DefaultHandlerAlwaysChallenges` | src/Http/Requests/LoginRequest.php:58-66 | With the base handler and 2FA on, right credentials never log in durably. The outcome is a throttle or the needs-2FA signal. |
| `LoginScenarios.ChallengeFeedsSecondStep` | src/Http/Requests/LoginRequest.php:58-66 | After the needs-2FA signal the handler is expecting a login, and codes are checked against the challenged user's secret. |
| `TwoFactor.GenerateCodeFor` | src/Auth/TwoFactor/Sharp2faTotpHandler.php:16-25 | Afterwards the handler is expecting a login, `userId()` is the user's id and `remember()` is the flag. The slot stays well formed and no other session key changes. |
| `TwoFactor.UserId` | src/Auth/TwoFactor/Sharp2faTotpHandler.php:45-48 | Null when the slot is empty. A present id implies the handler is expecting a login. |
| `TwoFactor.Remember` | src/Auth/TwoFactor/Sharp2faTotpHandler.php:50-53 | False when the slot is empty. True only when a pending user id is present. |
| `TwoFactor.ReadersSeeOnlyTheFixedKey` | src/Auth/TwoFactor/Sharp2faTotpHandler.php:71-74 | The readers look only at the key `"sharp:2fa:code"`. A write under any other key leaves `isExpectingLogin()`, `userId()` and `remember()` unchanged. A pending login written under that key is what they report. |
| `TwoFactor.ExpectingIffPendingUser` | src/Auth/TwoFactor/Sharp2faTotpHandler.php:27-30 | For a slot only the handler writes, expecting a login holds exactly when a pending user id can be read. |
| `TwoFactor.ForgetCode` | src/Auth/TwoFactor/Sharp2faTotpHandler.php:55-58 | Afterwards the handler is not expecting a login, `userId()` is null and `remember()` is false. No other session key changes. |
| `TwoFactor.GenerateOverwrites` | src/Auth/TwoFactor/Sharp2faTotpHandler.php:16-25 | The last write wins: an earlier pending login leaves no trace. |
| `TwoFactor.ForgetIdempotent` | src/Auth/TwoFactor/Sharp2faTotpHandler.php:55-58 | Forgetting twice equals forgetting once. |
| `TwoFactor.ForgetUndoesGenerate` | src/Auth/TwoFactor/Sharp2faTotpHandler.php:55-58 | Writing a challenge and then forgetting it equals forgetting alone. |
| `TwoFactor.DefaultIsEnabledFor` | src/Auth/TwoFactor/Sharp2faTotpHandler.php:32-35 | The base handler enables every user. |
| `TwoFactor.DefaultHandler` | src/Auth/TwoFactor/Sharp2faTotpHandler.php:32-35 | A handler built on the base class enables every user and uses the given secret lookup. |
| `TwoFactor.CheckCode` | src/Auth/TwoFactor/Sharp2faTotpHandler.php:37-43 | With a pending login in the slot, the verdict is the engine's verdict on the code and the decrypted secret of that pending user. With an empty slot, the secret lookup is asked about null. |
| `TwoFactor.CheckCodeReadsOnlySlot` | src/Auth/TwoFactor/Sharp2faTotpHandler.php:37-43 | Two sessions that agree on the slot give the same verdict for every code. |
| `TwoFactor.CheckCodeAfterChallenge` | src/Auth/TwoFactor/Sharp2faTotpHandler.php:37-43 | With a challenge open for a user, the verdict is the engine's verdict on the decrypted secret of that user. |
| `TwoFactor.CheckCodeAfterForget` | src/Auth/TwoFactor/Sharp2faTotpHandler.php:37-43 | With no challenge, the secret lookup is asked about null. |
| `TwoFactor.CheckCodeAgainstProvisionedSecret` | src/Auth/TwoFactor/Sharp2faTotpHandler.php:37-43 | If the lookup returns what provisioning saved, a code is accepted exactly when the engine accepts it for the generated secret key. |
| `TwoFactor.Initialize` | src/Auth/TwoFactor/Sharp2faTotpHandler.php:60-69 | Saves for the given user. The secret decrypts back to the engine's key. The codes blob decodes back to exactly 8 codes, each of shape `XXXXXXXXXX-XXXXXXXXXX` (21 characters). Nothing stored earlier is read. |
| `TwoFactor.Save` | src/Auth/TwoFactor/Sharp2faTotpHandler.php:78 | A one-record-per-user back end: the record replaces the user's earlier one and other users' records are unchanged. |
| `TwoFactor.ReinitializeReplacesCodes` | src/Auth/TwoFactor/Sharp2faTotpHandler.php:60-69 | After re-provisioning, the store holds only the second batch of codes. It differs from the first whenever the random draws did. |
| `RecoveryCodes.Generate` | src/Auth/TwoFactor/Sharp2faTotpHandler.php:66 | Exactly 8 codes. Each is well shaped, and its two halves are the two random draws taken in order for it. |
| `RecoveryCodes.SegmentsRoundTrip` | src/Auth/TwoFactor/Sharp2faTotpHandler.php:66 | Splitting the codes gives back the sixteen draws, in order. |
| `RecoveryCodes.GenerateInjective` | src/Auth/TwoFactor/Sharp2faTotpHandler.php:66 | Different draws give different code lists. |
| `RecoveryCodes.CodesArePlain` | src/Auth/TwoFactor/Sharp2faTotpHandler.php:66 | Every well-shaped code is written by `json_encode` without escapes. |
| `JsonList.Encode` | src/Auth/TwoFactor/Sharp2faTotpHandler.php:66 | The encoding of a list is bracketed by `[` and `]`. |
| `JsonList.RoundTrip` | src/Auth/TwoFactor/Sharp2faTotpHandler.php:66 | Decoding an encoded list of plain strings gives the same list back. |

## Notes on the code

- `rate_limiting.enabled` is compared with `=== false` (`LoginRequest.php:77`).
  Only the boolean `false` switches the gate off. A missing entry, `null`, `0`
  or `""` leaves it on.
- With 2FA on, a failed `once` does not end the request. Control falls through
  to the durable `attempt` (`LoginRequest.php:58-72`), and the outcome is that
  call's answer. The model keeps `once` and `attempt` as two separate guard
  answers.
- With 2FA off, `once` is never called. The request goes straight to `attempt`.
- The base handler's `isEnabledFor` returns true for every user, without
  reading any configuration (`Sharp2faTotpHandler.php:32-35`). The global 2FA
  flag is read only by the login request (`LoginRequest.php:58`).

## Left out

- Validation rules and messages, and translation strings (`LoginRequest.php:17-31`): they run before `authenticate` and carry no decision logic.
- The `availableIn` seconds and the `ceil(seconds / 60)` message (`LoginRequest.php:87-94`): rate-limiter timing is not modelled. The `Lockout` event appears only as the `Lockout` effect.
- Guard selection (`getGuard`, `LoginRequest.php:102-105`): the guard is a parameter. Its `user()` after `once` is the user that `once` returned.
- RateLimiter.Attempts: the limiter's own key normalisation is not modelled. Laravel's limiter stores each counter under `cleanRateLimiterKey(key)`, which runs `htmlentities` and then strips entity names, so for example `a&b@x.io` and `aab@x.io` from one ip share a counter. That code is not part of this model. The model indexes counters by the throttle key string as it is, so "no other key moves" holds per normalised key in the real limiter.
- LoginRequest.Authenticate: the guard's own session entry for the durable login, and the session id regeneration that `attempt` performs, are modelled as the separate `auth` field, not as keys of the session map. "The session map changes only on needs-2FA" is about the handler's keys.
- RateLimiter.TooManyAttempts: decay windows are abstracted away, because window timing is the rate limiter's internal concern. An expired window is an absent key, so the reset of an expired key is a no-op in the model.
- ThrottleKey.Key: Unicode lower-casing and `Str::transliterate` of non-ASCII characters are not modelled, because the model has no Unicode tables. Lower-casing is ASCII-only and transliteration is the identity.
- The TOTP arithmetic and secret generation of the Google2FA engine, and `encrypt`/`decrypt`: these are foreign calls, kept as uninterpreted functions. The cipher round trip is assumed per plaintext where a lemma needs it.
- `confirmUser` and `getQRCodeUrl` (`Sharp2faTotpHandler.php:76, 82`): abstract extension points with no behaviour in the base class.
- `saveUserSecretAndRecoveryCodes` and `getUserEncryptedSecret`: abstract storage. `Initialize` returns the arguments of the save call. `Save` is one keyed back end. The lookup is a parameter.
- The constructor (`Sharp2faTotpHandler.php:12-14`): it only stores the engine, which is a parameter here.
- The second login step, which reads the slot, checks a code and finalises the durable login, is not part of this model. Only its entry point (`ChallengeFeedsSecondStep`) is stated.
- Concurrency: requests are handled one at a time, and races on the slot or the counters are not modelled.
- `src/Data/EntityList/EntityListConfigData.php`: a declarative data-transfer object with no behaviour.
