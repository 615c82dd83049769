/** Properties of the login flow across several requests. */
module LoginScenarios {
  import opened Wrappers
  import opened Config
  import RateLimiter
  import TwoFactor
  import opened LoginRequest

  datatype Trace = Trace(state: State, outcomes: seq<Outcome>)

  /** Handles the requests one after another, each seeing the state the
      previous one left. */
  function Run(cfg: Config, guard: Guard, handler: TwoFactor.Handler, reqs: seq<Request>, st: State): (t: Trace)
    ensures |t.outcomes| == |reqs|
    decreases |reqs|
  {
    if |reqs| == 0 then Trace(st, [])
    else
      var first := Authenticate(cfg, guard, handler, reqs[0], st);
      var rest := Run(cfg, guard, handler, reqs[1..], first.state);
      Trace(rest.state, [first.outcome] + rest.outcomes)
  }

  function Repeat(req: Request, n: nat): (reqs: seq<Request>)
    ensures |reqs| == n && forall i :: 0 <= i < n ==> reqs[i] == req
  {
    seq(n, _ => req)
  }

  function Min(a: int, b: int): (m: int) {
    if a <= b then a else b
  }

  /** Resubmitting wrong credentials: each try is answered "invalid" and
      charged once until the counter reaches the maximum, after which every
      try is throttled and charges nothing. No challenge and no login ever
      appear, and no other throttle key moves. */
  lemma {:induction false} RepeatedFailuresLockOut(
    cfg: Config, guard: Guard, handler: TwoFactor.Handler, req: Request, n: nat, st: State)
    requires !RateLimitingDisabled(cfg) && MaxAttempts(cfg) >= 1
    requires guard.once(CredentialsFor(cfg, req)).None? && guard.attempt(CredentialsFor(cfg, req)).None?
    ensures var t, key := Run(cfg, guard, handler, Repeat(req, n), st), ThrottleKeyOf(req);
      var a0, max := RateLimiter.Attempts(st.counters, key), MaxAttempts(cfg);
      && (forall i :: 0 <= i < n ==> t.outcomes[i] == if a0 + i < max then InvalidCredentials else Throttled)
      && RateLimiter.Attempts(t.state.counters, key) == (if a0 >= max then a0 else Min(a0 + n, max))
      && (forall k :: k != key ==> RateLimiter.Attempts(t.state.counters, k) == RateLimiter.Attempts(st.counters, k))
      && t.state.session == st.session
      && t.state.auth == st.auth
    decreases n
  {
    if n > 0 {
      var key := ThrottleKeyOf(req);
      var a0, max := RateLimiter.Attempts(st.counters, key), MaxAttempts(cfg);
      var first := Authenticate(cfg, guard, handler, req, st);
      assert Repeat(req, n)[0] == req;
      assert Repeat(req, n)[1..] == Repeat(req, n - 1);
      RepeatedFailuresLockOut(cfg, guard, handler, req, n - 1, first.state);
      var t := Run(cfg, guard, handler, Repeat(req, n), st);
      var rest := Run(cfg, guard, handler, Repeat(req, n - 1), first.state);
      assert t.outcomes == [first.outcome] + rest.outcomes;
      if a0 < max {
        assert first.outcome == InvalidCredentials;
        assert RateLimiter.Attempts(first.state.counters, key) == a0 + 1;
      } else {
        assert first.outcome == Throttled;
      }
    }
  }

  /** A durable login forgives earlier failures: the next failure from the
      same throttle key is counted as the first. */
  lemma SuccessRestartsCounting(
    cfg: Config, guard: Guard, handler: TwoFactor.Handler, good: Request, bad: Request, st: State)
    requires ThrottleKeyOf(good) == ThrottleKeyOf(bad)
    requires Authenticate(cfg, guard, handler, good, st).outcome == Authenticated
    requires Authenticate(cfg, guard, handler, bad, Authenticate(cfg, guard, handler, good, st).state).outcome == InvalidCredentials
    ensures RateLimiter.Attempts(Authenticate(cfg, guard, handler, bad, Authenticate(cfg, guard, handler, good, st).state).state.counters,
                                 ThrottleKeyOf(bad)) == 1
  {
  }

  /** With the base handler every user takes the second factor: once 2FA is
      on and the credentials are right, a password alone never logs in. */
  lemma DefaultHandlerAlwaysChallenges(
    cfg: Config, guard: Guard, getSecret: Option<TwoFactor.Identifier> -> string, req: Request, st: State)
    requires TwoFactorEnabled(cfg)
    requires guard.once(CredentialsFor(cfg, req)).Some?
    ensures var r := Authenticate(cfg, guard, TwoFactor.DefaultHandler(getSecret), req, st);
      && (r.outcome == Throttled || r.outcome == NeedsTwoFactor)
      && r.state.auth == st.auth
  {
  }

  /** A request that is challenged leaves the handler ready for the second
      step: the pending user and remember flag are readable, and a code is
      checked against that user's secret. */
  lemma ChallengeFeedsSecondStep(
    cfg: Config, guard: Guard, handler: TwoFactor.Handler, engine: TwoFactor.Engine, cipher: TwoFactor.Cipher,
    req: Request, st: State, code: string)
    requires Authenticate(cfg, guard, handler, req, st).outcome == NeedsTwoFactor
    ensures var s, u := Authenticate(cfg, guard, handler, req, st).state.session, guard.once(CredentialsFor(cfg, req)).value;
      && TwoFactor.IsExpectingLogin(s)
      && TwoFactor.CheckCode(handler, engine, cipher, s, code)
           == engine.verify(code, cipher.decrypt(handler.getUserEncryptedSecret(Some(u.id))))
  {
  }
}
