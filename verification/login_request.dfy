/** The login request: a rate-limit gate, a credential check with an optional
    second-factor detour, then clearing or charging the rate-limit counter.
    The guard, the handler and the configuration are parameters; the rate-limit
    counters, the session and the durable login are the state it changes. */
module LoginRequest {
  import opened Wrappers
  import opened Config
  import ThrottleKey
  import RateLimiter
  import TwoFactor

  /** The validated form input plus the client address. */
  datatype Request = Request(login: string, password: string, remember: bool, ip: string)

  type Credentials = map<string, string>

  /** The auth guard's two ways of checking credentials: `once` validates for
      this request only, `attempt` also logs the user in durably. Each answers
      with the user it validated, or nothing. */
  datatype Guard = Guard(
    once: Credentials -> Option<TwoFactor.User>,
    attempt: Credentials -> Option<TwoFactor.User>
  )

  /** A durable login, as `attempt` establishes it. */
  datatype AuthSession = AuthSession(user: TwoFactor.User, remember: bool)

  datatype State = State(
    counters: RateLimiter.Counters,
    session: TwoFactor.Session,
    auth: Option<AuthSession>
  )

  /** `Authenticated` is a normal return; the other three are the distinct
      exceptions the request throws (the throttle message, the invalid
      credentials message, and the needs-2fa signal). */
  datatype Outcome = Authenticated | Throttled | InvalidCredentials | NeedsTwoFactor

  /** The externally visible steps, in the order they happen. */
  datatype Effect =
    | Lockout(request: Request)
    | Once(credentials: Credentials)
    | Attempt(credentials: Credentials, remember: bool)
    | ChallengeWritten(userId: TwoFactor.Identifier, remember: bool)
    | Hit(key: string)
    | Clear(key: string)

  datatype Result = Result(state: State, outcome: Outcome, effects: seq<Effect>)

  function ThrottleKeyOf(req: Request): (key: string) {
    ThrottleKey.Key(req.login, req.ip)
  }

  /** The credentials array, keyed by the configured attribute names. When
      both names coincide the password entry, written last, wins. */
  function CredentialsFor(cfg: Config, req: Request): (c: Credentials)
    ensures c.Keys == {LoginAttribute(cfg), PasswordAttribute(cfg)}
    ensures c[PasswordAttribute(cfg)] == req.password
    ensures LoginAttribute(cfg) != PasswordAttribute(cfg) ==> c[LoginAttribute(cfg)] == req.login
  {
    map[LoginAttribute(cfg) := req.login, PasswordAttribute(cfg) := req.password]
  }

  /** `ensureIsNotRateLimited()`: true when the request may go on. It only
      reads the counter. Stated against the limiter's attempt count: an
      explicit `false` always passes, a key with no live window always passes,
      and otherwise (for a maximum of at least one) the request passes exactly
      while fewer attempts than the maximum were recorded. */
  predicate NotRateLimited(cfg: Config, counters: RateLimiter.Counters, key: string)
    ensures RateLimitingDisabled(cfg) ==> NotRateLimited(cfg, counters, key)
    ensures key !in counters ==> NotRateLimited(cfg, counters, key)
    ensures !NotRateLimited(cfg, counters, key) ==>
      !RateLimitingDisabled(cfg) && RateLimiter.Attempts(counters, key) >= MaxAttempts(cfg)
    ensures !RateLimitingDisabled(cfg) && MaxAttempts(cfg) >= 1 ==>
      (NotRateLimited(cfg, counters, key) <==> RateLimiter.Attempts(counters, key) < MaxAttempts(cfg))
  {
    RateLimitingDisabled(cfg) || !RateLimiter.TooManyAttempts(counters, key, MaxAttempts(cfg))
  }

  /** What `attemptToLogin` ends in: the needs-2fa exception after the slot
      was written, or the durable attempt's answer. */
  datatype LoginAttempt =
    | Challenged(session: TwoFactor.Session, effects: seq<Effect>)
    | Attempted(user: Option<TwoFactor.User>, effects: seq<Effect>)

  /** `attemptToLogin(remember)`. A challenge is opened exactly when 2FA is
      on, `once` accepts the credentials and the handler enables the user;
      then no durable attempt is made. Otherwise the answer is the durable
      attempt's, and the session is not looked at. */
  function AttemptToLogin(cfg: Config, guard: Guard, handler: TwoFactor.Handler, req: Request,
                          remember: bool, session: TwoFactor.Session): (a: LoginAttempt)
    ensures var c := CredentialsFor(cfg, req);
      a.Challenged? <==>
        TwoFactorEnabled(cfg) && guard.once(c).Some? && handler.isEnabledFor(guard.once(c).value)
    ensures var c := CredentialsFor(cfg, req);
      a.Challenged? ==>
        && TwoFactor.UserId(a.session) == Some(guard.once(c).value.id)
        && TwoFactor.Remember(a.session) == remember
        && TwoFactor.SameOutsideSlot(session, a.session)
        && a.effects == [Once(c), ChallengeWritten(guard.once(c).value.id, remember)]
    ensures var c := CredentialsFor(cfg, req);
      a.Attempted? ==>
        && a.user == guard.attempt(c)
        && |a.effects| >= 1 && a.effects[|a.effects| - 1] == Attempt(c, remember)
        && (TwoFactorEnabled(cfg) <==> a.effects == [Once(c), Attempt(c, remember)])
        && (!TwoFactorEnabled(cfg) <==> a.effects == [Attempt(c, remember)])
  {
    var c := CredentialsFor(cfg, req);
    var checked := if TwoFactorEnabled(cfg) then [Once(c)] else [];
    if TwoFactorEnabled(cfg) && guard.once(c).Some? && handler.isEnabledFor(guard.once(c).value) then
      var user := guard.once(c).value;
      Challenged(TwoFactor.GenerateCodeFor(session, user, remember), checked + [ChallengeWritten(user.id, remember)])
    else
      Attempted(guard.attempt(c), checked + [Attempt(c, remember)])
  }

  /** The order the steps of one request may come in: a lockout comes alone;
      a challenge follows a credential check and excludes any durable attempt
      and any counter change; a hit or a clear comes last, right after the
      durable attempt. */
  ghost predicate Ordered(effects: seq<Effect>) {
    && (forall i :: 0 <= i < |effects| && effects[i].Lockout? ==> |effects| == 1)
    && (forall i :: 0 <= i < |effects| && effects[i].ChallengeWritten? ==>
          i >= 1 && effects[i - 1].Once?
          && forall j :: 0 <= j < |effects| ==> !effects[j].Attempt? && !effects[j].Hit? && !effects[j].Clear?)
    && (forall i :: 0 <= i < |effects| && (effects[i].Hit? || effects[i].Clear?) ==>
          i == |effects| - 1 && i >= 1 && effects[i - 1].Attempt?)
  }

  /** `authenticate()`. */
  function Authenticate(cfg: Config, guard: Guard, handler: TwoFactor.Handler, req: Request, st: State): (r: Result)
    // The gate: throttled exactly when limiting is on and the key's live
    // counter has reached the maximum; then nothing but the lockout happens.
    ensures var key := ThrottleKeyOf(req);
      r.outcome == Throttled <==>
        cfg.rateLimitingEnabled != Bool(false) && key in st.counters && st.counters[key] >= MaxAttempts(cfg)
    ensures r.outcome == Throttled ==> r.state == st && r.effects == [Lockout(req)]
    ensures RateLimitingDisabled(cfg) ==> r.outcome != Throttled
    // A failed attempt charges exactly the throttle key, by one.
    ensures var key := ThrottleKeyOf(req);
      r.outcome == InvalidCredentials ==>
        && RateLimiter.Attempts(r.state.counters, key) == RateLimiter.Attempts(st.counters, key) + 1
        && (forall k :: k != key ==> RateLimiter.Attempts(r.state.counters, k) == RateLimiter.Attempts(st.counters, k))
        && r.state.auth == st.auth
    // A durable login forgives the throttle key and nothing else.
    ensures var key, c := ThrottleKeyOf(req), CredentialsFor(cfg, req);
      r.outcome == Authenticated ==>
        && key !in r.state.counters
        && (forall k :: k != key ==> RateLimiter.Attempts(r.state.counters, k) == RateLimiter.Attempts(st.counters, k))
        && guard.attempt(c).Some?
        && r.state.auth == Some(AuthSession(guard.attempt(c).value, SuggestRememberMe(cfg) && req.remember))
    // The second factor: the slot holds the validated user and the remember
    // flag, and neither the counters nor the durable login move.
    ensures var c := CredentialsFor(cfg, req);
      r.outcome == NeedsTwoFactor ==>
        && guard.once(c).Some?
        && TwoFactor.UserId(r.state.session) == Some(guard.once(c).value.id)
        && TwoFactor.Remember(r.state.session) == (SuggestRememberMe(cfg) && req.remember)
        && TwoFactor.SameOutsideSlot(st.session, r.state.session)
        && r.state.counters == st.counters
        && r.state.auth == st.auth
    ensures r.outcome != NeedsTwoFactor ==> r.state.session == st.session
    // The steps taken: a challenge follows `once` and no durable attempt is
    // made; a failure or a success ends with the durable attempt, then the
    // hit or the clear of the throttle key.
    ensures var c, remember := CredentialsFor(cfg, req), SuggestRememberMe(cfg) && req.remember;
      r.outcome == NeedsTwoFactor ==>
        r.effects == [Once(c), ChallengeWritten(guard.once(c).value.id, remember)]
    ensures var key, c, remember := ThrottleKeyOf(req), CredentialsFor(cfg, req), SuggestRememberMe(cfg) && req.remember;
      r.outcome == InvalidCredentials ==>
        |r.effects| >= 2 && r.effects[|r.effects| - 2] == Attempt(c, remember) && r.effects[|r.effects| - 1] == Hit(key)
    ensures var key, c, remember := ThrottleKeyOf(req), CredentialsFor(cfg, req), SuggestRememberMe(cfg) && req.remember;
      r.outcome == Authenticated ==>
        |r.effects| >= 2 && r.effects[|r.effects| - 2] == Attempt(c, remember) && r.effects[|r.effects| - 1] == Clear(key)
    // Past the gate, which of the three remaining outcomes comes is decided by
    // the flags and the guard's answers alone.
    ensures var c := CredentialsFor(cfg, req);
      r.outcome != Throttled ==>
        if TwoFactorEnabled(cfg) && guard.once(c).Some? && handler.isEnabledFor(guard.once(c).value)
        then r.outcome == NeedsTwoFactor
        else r.outcome == (if guard.attempt(c).Some? then Authenticated else InvalidCredentials)
  {
    var key := ThrottleKeyOf(req);
    if !NotRateLimited(cfg, st.counters, key) then
      Result(st, Throttled, [Lockout(req)])
    else
      var remember := SuggestRememberMe(cfg) && req.remember;
      match AttemptToLogin(cfg, guard, handler, req, remember, st.session)
      case Challenged(session, effects) =>
        Result(st.(session := session), NeedsTwoFactor, effects)
      case Attempted(None, effects) =>
        Result(st.(counters := RateLimiter.Hit(st.counters, key)), InvalidCredentials, effects + [Hit(key)])
      case Attempted(Some(user), effects) =>
        Result(st.(counters := RateLimiter.Clear(st.counters, key), auth := Some(AuthSession(user, remember))),
               Authenticated, effects + [Clear(key)])
  }

  /** Every request performs its steps in the permitted order. */
  lemma AuthenticateIsOrdered(cfg: Config, guard: Guard, handler: TwoFactor.Handler, req: Request, st: State)
    ensures Ordered(Authenticate(cfg, guard, handler, req, st).effects)
  {
  }
}
