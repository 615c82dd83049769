/** The TOTP two-factor handler: one well-known session slot holding the
    pending login, code checking delegated to the TOTP engine, and provisioning
    of the secret and recovery codes. The engine, the cipher and the storage
    extension points are uninterpreted functions carried as parameters. */
module TwoFactor {
  import opened Wrappers
  import JsonList
  import RecoveryCodes

  type Identifier = int

  datatype User = User(id: Identifier)

  /** `getSessionKey()`: the one slot every slot operation works on. */
  const SessionKey: string := "sharp:2fa:code"

  /** A session value: the pending login the handler writes, or anything
      else another part of the application stores under some key. */
  datatype SessionValue = PendingLogin(userId: Identifier, remember: bool) | OtherValue(data: string)

  type Session = map<string, SessionValue>

  /** The slot holds nothing, or what `GenerateCodeFor` writes. */
  predicate SlotWellFormed(s: Session) {
    SessionKey in s ==> s[SessionKey].PendingLogin?
  }

  /** Two sessions agree on every key but the slot. */
  ghost predicate SameOutsideSlot(s: Session, t: Session) {
    forall k :: k != SessionKey ==> (k in s <==> k in t) && (k in s ==> s[k] == t[k])
  }

  /** `isExpectingLogin()`: `Session::has` on the slot key. */
  predicate IsExpectingLogin(s: Session) {
    SessionKey in s
  }

  /** `userId()`: the pending user's id, null when the slot holds no pending login. */
  function UserId(s: Session): (r: Option<Identifier>)
    ensures !IsExpectingLogin(s) ==> r == None
    ensures r.Some? ==> IsExpectingLogin(s)
  {
    if SessionKey in s && s[SessionKey].PendingLogin? then Some(s[SessionKey].userId) else None
  }

  /** `remember()`: the pending remember-me flag, false when the slot holds no pending login. */
  function Remember(s: Session): (r: bool)
    ensures !IsExpectingLogin(s) ==> !r
    ensures r ==> UserId(s).Some?
  {
    SessionKey in s && s[SessionKey].PendingLogin? && s[SessionKey].remember
  }

  /** `generateCodeFor(user, remember)`: overwrites the slot; the readers then
      give back exactly what was written, and no other key is touched. */
  function GenerateCodeFor(s: Session, user: User, remember: bool): (r: Session)
    ensures IsExpectingLogin(r)
    ensures UserId(r) == Some(user.id)
    ensures Remember(r) == remember
    ensures SlotWellFormed(r)
    ensures SameOutsideSlot(s, r)
  {
    s[SessionKey := PendingLogin(user.id, remember)]
  }

  /** `forgetCode()`: empties the slot; the readers fall back to null and false. */
  function ForgetCode(s: Session): (r: Session)
    ensures !IsExpectingLogin(r)
    ensures UserId(r) == None && !Remember(r)
    ensures SlotWellFormed(r)
    ensures SameOutsideSlot(s, r)
  {
    s - {SessionKey}
  }

  /** For a slot only the handler writes, "expecting a login" and "a pending
      user id is readable" are the same question. */
  lemma ExpectingIffPendingUser(s: Session)
    requires SlotWellFormed(s)
    ensures IsExpectingLogin(s) <==> UserId(s).Some?
  {
  }

  /** The readers look at the key `"sharp:2fa:code"` and nothing else: a
      write under any other key leaves `isExpectingLogin()`, `userId()` and
      `remember()` as they were, and a pending login written under that key
      is what they report. */
  lemma ReadersSeeOnlyTheFixedKey(s: Session, k: string, v: SessionValue, id: Identifier, remember: bool)
    ensures k != "sharp:2fa:code" ==>
      && IsExpectingLogin(s[k := v]) == IsExpectingLogin(s)
      && UserId(s[k := v]) == UserId(s)
      && Remember(s[k := v]) == Remember(s)
    ensures var t := s["sharp:2fa:code" := PendingLogin(id, remember)];
      IsExpectingLogin(t) && UserId(t) == Some(id) && Remember(t) == remember
  {
  }

  /** Last write wins: an earlier pending login leaves no trace. */
  lemma GenerateOverwrites(s: Session, u1: User, r1: bool, u2: User, r2: bool)
    ensures GenerateCodeFor(GenerateCodeFor(s, u1, r1), u2, r2) == GenerateCodeFor(s, u2, r2)
  {
  }

  /** Forgetting twice is forgetting once. */
  lemma ForgetIdempotent(s: Session)
    ensures ForgetCode(ForgetCode(s)) == ForgetCode(s)
  {
  }

  /** A challenge that is written then forgotten leaves the session as
      forgetting alone would. */
  lemma ForgetUndoesGenerate(s: Session, u: User, r: bool)
    ensures ForgetCode(GenerateCodeFor(s, u, r)) == ForgetCode(s)
  {
  }

  /** The TOTP engine (Google2FA): only its verdict is modelled. */
  datatype Engine = Engine(verify: (string, string) -> bool)

  /** Laravel's `encrypt` / `decrypt` with the application key. */
  datatype Cipher = Cipher(encrypt: string -> string, decrypt: string -> string)

  /** Decrypting what was encrypted gives it back, for this plaintext. */
  predicate Restores(c: Cipher, plain: string) {
    c.decrypt(c.encrypt(plain)) == plain
  }

  /** The overridable parts of a concrete handler: the per-user opt-in and the
      `getUserEncryptedSecret` storage lookup, which is handed `userId()` as
      is, null included. */
  datatype Handler = Handler(
    isEnabledFor: User -> bool,
    getUserEncryptedSecret: Option<Identifier> -> string
  )

  /** The base class's `isEnabledFor`: every user takes the second factor. */
  function DefaultIsEnabledFor(user: User): (r: bool)
    ensures r
  {
    true
  }

  function DefaultHandler(getUserEncryptedSecret: Option<Identifier> -> string): (h: Handler)
    ensures forall u :: h.isEnabledFor(u)
    ensures h.getUserEncryptedSecret == getUserEncryptedSecret
  {
    Handler(DefaultIsEnabledFor, getUserEncryptedSecret)
  }

  /** `checkCode(code)`: asks the engine about `code` and the decrypted secret
      of the pending user. It returns only a verdict, so the session is left as is. */
  function CheckCode(h: Handler, engine: Engine, cipher: Cipher, s: Session, code: string): (ok: bool)
    ensures SessionKey in s && s[SessionKey].PendingLogin? ==>
      ok == engine.verify(code, cipher.decrypt(h.getUserEncryptedSecret(Some(s[SessionKey].userId))))
    ensures SessionKey !in s ==>
      ok == engine.verify(code, cipher.decrypt(h.getUserEncryptedSecret(None)))
  {
    engine.verify(code, cipher.decrypt(h.getUserEncryptedSecret(UserId(s))))
  }

  /** The verdict depends on the session only through the slot. */
  lemma CheckCodeReadsOnlySlot(h: Handler, engine: Engine, cipher: Cipher, s: Session, t: Session, code: string)
    requires SessionKey in s <==> SessionKey in t
    requires SessionKey in s ==> s[SessionKey] == t[SessionKey]
    ensures CheckCode(h, engine, cipher, s, code) == CheckCode(h, engine, cipher, t, code)
  {
  }

  /** After a challenge for `user` is opened, codes are checked against that
      user's secret. */
  lemma CheckCodeAfterChallenge(h: Handler, engine: Engine, cipher: Cipher, s: Session, user: User, remember: bool, code: string)
    ensures CheckCode(h, engine, cipher, GenerateCodeFor(s, user, remember), code)
      == engine.verify(code, cipher.decrypt(h.getUserEncryptedSecret(Some(user.id))))
  {
  }

  /** After the challenge is forgotten, the lookup is asked about null. */
  lemma CheckCodeAfterForget(h: Handler, engine: Engine, cipher: Cipher, s: Session, code: string)
    ensures CheckCode(h, engine, cipher, ForgetCode(s), code)
      == engine.verify(code, cipher.decrypt(h.getUserEncryptedSecret(None)))
  {
  }

  /** The arguments `initialize` hands to `saveUserSecretAndRecoveryCodes`. */
  datatype Saved = Saved(user: User, encryptedSecret: string, encryptedRecoveryCodes: string)

  /** What a saved record holds once decrypted: the secret and the list of codes. */
  function StoredCodes(cipher: Cipher, saved: Saved): (codes: Option<seq<string>>) {
    JsonList.Decode(cipher.decrypt(saved.encryptedRecoveryCodes))
  }

  /** `initialize(user)`: one fresh secret from the engine (`secretKey`) and
      eight fresh codes from sixteen random draws (`segments`), each encrypted
      on its own. Nothing previously stored is read: the record replaces it. */
  function Initialize(user: User, secretKey: string, segments: seq<string>, cipher: Cipher): (saved: Saved)
    requires RecoveryCodes.AreSegments(segments)
    ensures saved.user == user
    ensures Restores(cipher, secretKey) ==> cipher.decrypt(saved.encryptedSecret) == secretKey
    ensures var codes := RecoveryCodes.Generate(segments);
      Restores(cipher, JsonList.Encode(codes)) ==>
        && StoredCodes(cipher, saved) == Some(codes)
        && |codes| == RecoveryCodes.Count
        && forall i :: 0 <= i < |codes| ==> RecoveryCodes.IsCode(codes[i])
  {
    var codes := RecoveryCodes.Generate(segments);
    RecoveryCodes.CodesArePlain(codes);
    JsonList.RoundTrip(codes);
    Saved(user, cipher.encrypt(secretKey), cipher.encrypt(JsonList.Encode(codes)))
  }

  /** A storage back end that keeps one record per user id, as the
      `saveUserSecretAndRecoveryCodes` extension point is meant to. */
  type SecretStore = map<Identifier, Saved>

  function Save(store: SecretStore, saved: Saved): (r: SecretStore)
    ensures saved.user.id in r && r[saved.user.id] == saved
    ensures forall id :: id != saved.user.id ==> (id in r <==> id in store) && (id in store ==> r[id] == store[id])
  {
    store[saved.user.id := saved]
  }

  /** Re-provisioning a user replaces the stored codes: the back end then holds
      only the second batch, which differs from the first whenever the random
      draws did. */
  lemma {:induction false} ReinitializeReplacesCodes(
    store: SecretStore, user: User, cipher: Cipher,
    key1: string, seg1: seq<string>, key2: string, seg2: seq<string>)
    requires RecoveryCodes.AreSegments(seg1) && RecoveryCodes.AreSegments(seg2)
    requires seg1 != seg2
    requires Restores(cipher, JsonList.Encode(RecoveryCodes.Generate(seg2)))
    ensures var after := Save(Save(store, Initialize(user, key1, seg1, cipher)), Initialize(user, key2, seg2, cipher));
      && StoredCodes(cipher, after[user.id]) == Some(RecoveryCodes.Generate(seg2))
      && StoredCodes(cipher, after[user.id]) != Some(RecoveryCodes.Generate(seg1))
  {
    RecoveryCodes.GenerateInjective(seg1, seg2);
  }

  /** End to end: once the user is provisioned and a challenge for them is
      open, a code is accepted exactly when the engine accepts it for the
      secret generated at provisioning. */
  lemma CheckCodeAgainstProvisionedSecret(
    h: Handler, engine: Engine, cipher: Cipher, s: Session, user: User, remember: bool,
    secretKey: string, segments: seq<string>, code: string)
    requires RecoveryCodes.AreSegments(segments)
    requires Restores(cipher, secretKey)
    requires h.getUserEncryptedSecret(Some(user.id)) == Initialize(user, secretKey, segments, cipher).encryptedSecret
    ensures CheckCode(h, engine, cipher, GenerateCodeFor(s, user, remember), code) == engine.verify(code, secretKey)
  {
  }
}
