/** The API client of src/http.ts: an OAuth 2.0 client-credentials token
    (section 4.4 of RFC 6749) cached until shortly before it expires, and a
    response interceptor that refreshes the token once on 401 Unauthorized
    (section 15.5.2 of RFC 9110) and retries server errors and network
    failures with exponential backoff. The token endpoint, the transport, the
    clock and the jitter are oracles indexed by call or attempt number. */
module Http {
  import opened Wrappers
  import opened Text

  /** `Number(process.env.X || dflt)`: None stands for NaN. */
  function NumberSetting(env: Option<string>, dflt: int): Option<int> {
    if env.Some? && env.value != "" then NumberFromString(env.value) else Some(dflt)
  }

  /** MAX_RETRIES, default 3. */
  function MaxRetriesSetting(env: Option<string>): Option<int> {
    NumberSetting(env, 3)
  }

  /** BACKOFF_BASE_MS, default 500. */
  function BackoffSetting(env: Option<string>): Option<int> {
    NumberSetting(env, 500)
  }

  /** An unset or empty setting takes the default; a numeral takes its value. */
  lemma SettingDefaults(env: Option<string>, n: int)
    ensures env.None? ==> MaxRetriesSetting(env) == Some(3) && BackoffSetting(env) == Some(500)
    ensures env == Some("") ==> MaxRetriesSetting(env) == Some(3) && BackoffSetting(env) == Some(500)
    ensures env == Some(IntToString(n)) ==> MaxRetriesSetting(env) == Some(n) && BackoffSetting(env) == Some(n)
  {
    NumberFromIntToString(n);
  }

  // ---------------------------------------------------------------------------
  // Token cache

  /** `cachedToken` (None for null) and `tokenExpiryTs` in epoch milliseconds. */
  datatype Token = Token(cached: Option<string>, expiry: int)

  /** What the token endpoint returns: `access_token` and, optionally,
      `expires_in` in seconds (None for null or missing). */
  datatype TokenReply = TokenReply(accessToken: string, expiresIn: Option<int>)

  /** `!force && cachedToken && now < tokenExpiryTs`: an empty token is falsy. */
  predicate CacheHit(t: Token, force: bool, now: int) {
    !force && t.cached.Some? && t.cached.value != "" && now < t.expiry
  }

  /** The expiry set after a fetch at `now`: `expires_in ?? 3600` seconds less
      a margin of 60 seconds. */
  function Expiry(now: int, expiresIn: Option<int>): int {
    now + (expiresIn.GetOr(3600) - 60) * 1000
  }

  /** The cache after a successful fetch at `now`. */
  function Fetched(now: int, reply: TokenReply): Token {
    Token(Some(reply.accessToken), Expiry(now, reply.expiresIn))
  }

  /** A token fetched at `now` is served from the cache by every unforced call
      before its expiry and by no call at or after it; a forced call never
      uses the cache. */
  lemma CacheWindow(now: int, reply: TokenReply, t: int)
    requires reply.accessToken != ""
    ensures CacheHit(Fetched(now, reply), false, t) <==> t < Expiry(now, reply.expiresIn)
    ensures !CacheHit(Fetched(now, reply), true, t)
  {
  }

  /** Without `expires_in` the token is reused for 59 minutes. */
  lemma DefaultLifetime(now: int, token: string)
    ensures Expiry(now, None) == now + 3_540_000
    ensures Fetched(now, TokenReply(token, None)).expiry - now == 59 * 60 * 1000
  {
  }

  /** A token that lives 60 seconds or less is never reused: every later
      call fetches again. */
  lemma ShortLivedNeverCached(now: int, reply: TokenReply, t: int)
    requires reply.expiresIn.Some? && reply.expiresIn.value <= 60 && now <= t
    ensures !CacheHit(Fetched(now, reply), false, t)
  {
  }

  // ---------------------------------------------------------------------------
  // Retry policy

  /** The per-request counters `__retryCount` and `__refreshed`; None while a
      counter is absent from the request config. Only the interceptors write
      them, so a present retry count is a natural number. */
  datatype Counters = Counters(retryCount: Option<nat>, refreshed: Option<bool>)

  /** The request interceptor: `__retryCount || 0` and `__refreshed || false`. */
  function Init(c: Counters): (r: Counters) {
    Counters(Some(if c.retryCount.Some? && c.retryCount.value != 0 then c.retryCount.value else 0),
             match c.refreshed
             case Some(b) => Some(b)
             case None => Some(false))
  }

  /** A request interceptor that runs again on a re-issued request keeps both
      counters: it only fills in absent ones, with 0 and false. */
  lemma InitKeepsCounters(c: Counters)
    ensures c.retryCount.Some? ==> Init(c).retryCount == c.retryCount
    ensures c.refreshed.Some? ==> Init(c).refreshed == c.refreshed
    ensures c.retryCount.None? ==> Init(c).retryCount == Some(0)
    ensures c.refreshed.None? ==> Init(c).refreshed == Some(false)
    ensures Init(Init(c)) == Init(c)
  {
  }

  /** A failed request: `error.response?.status || 0` (0 when there was no
      response) and `error.code` (None when undefined). */
  datatype Failure = Failure(status: int, code: Option<string>)

  const NetworkCodes: seq<string> := ["ECONNRESET", "ECONNABORTED", "ETIMEDOUT", "ENOTFOUND", "EAI_AGAIN"]

  /** `is5xx || isNetErr`; `String(undefined)` is "undefined", which is not a
      network code. */
  predicate Retryable(f: Failure) {
    (500 <= f.status < 600) || (f.code.Some? && f.code.value in NetworkCodes)
  }

  /** `cfg.__retryCount < MAX_RETRIES`: false when either side is not a number. */
  predicate Below(retryCount: Option<nat>, maxRetries: Option<int>) {
    retryCount.Some? && maxRetries.Some? && retryCount.value < maxRetries.value
  }

  /** What the response interceptor does with a failure. */
  datatype Action = Refresh | Retry(attempt: nat) | GiveUp

  /** The decision of the response interceptor. */
  function Decide(c: Counters, f: Failure, maxRetries: Option<int>): Action {
    if f.status == 401 && c.refreshed != Some(true) then Refresh
    else if Retryable(f) && Below(c.retryCount, maxRetries) then Retry(c.retryCount.value + 1)
    else GiveUp
  }

  /** The counters after the action: a successful refresh sets `__refreshed`,
      a retry increments `__retryCount`. */
  function After(c: Counters, a: Action): Counters {
    match a
    case Refresh => c.(refreshed := Some(true))
    case Retry(n) => c.(retryCount := Some(n))
    case GiveUp => c
  }

  /** How many leading failures of `fs` are retryable. */
  function LeadingRetryable(fs: seq<Failure>): nat
    decreases |fs|
  {
    if fs == [] || !Retryable(fs[0]) then 0 else 1 + LeadingRetryable(fs[1..])
  }

  /** The re-issues the response interceptor makes when the attempts of one
      request fail with `fs` in turn, every refresh succeeding: it stops at
      its first give-up, or when `fs` runs out. */
  function Reissues(c: Counters, fs: seq<Failure>, maxRetries: Option<int>): nat
    decreases |fs|
  {
    if fs == [] then 0
    else match Decide(c, fs[0], maxRetries)
      case GiveUp => 0
      case a => 1 + Reissues(After(c, a), fs[1..], maxRetries)
  }

  /** The counters after the interceptor has decided on each failure of `fs`
      in turn, every refresh succeeding. */
  function Replayed(c: Counters, fs: seq<Failure>, maxRetries: Option<int>): Counters
    decreases |fs|
  {
    if fs == [] then c else Replayed(After(c, Decide(c, fs[0], maxRetries)), fs[1..], maxRetries)
  }

  /** When every failure so far was re-issued, one more failure is decided on
      the replayed counters, and counts as a re-issue unless it gives up. */
  lemma {:induction false} ReplayAppend(c: Counters, fs: seq<Failure>, f: Failure, maxRetries: Option<int>)
    requires Reissues(c, fs, maxRetries) == |fs|
    ensures var r := Replayed(c, fs, maxRetries);
            var a := Decide(r, f, maxRetries);
            Replayed(c, fs + [f], maxRetries) == After(r, a)
            && Reissues(c, fs + [f], maxRetries) == |fs| + (if a.GiveUp? then 0 else 1)
    decreases |fs|
  {
    if fs == [] {
      assert [f][1..] == [];
    } else {
      var a := Decide(c, fs[0], maxRetries);
      assert !a.GiveUp?;
      assert (fs + [f])[0] == fs[0] && (fs + [f])[1..] == fs[1..] + [f];
      ReplayAppend(After(c, a), fs[1..], f, maxRetries);
    }
  }

  /** Without 401s, a request that has been retried k times is retried once
      for each leading retryable failure, until MAX_RETRIES retries in all:
      the number of re-issues is the shorter of that run and the retries left. */
  lemma {:induction false} RetryRun(k: nat, refreshed: Option<bool>, fs: seq<Failure>, m: int)
    requires forall i :: 0 <= i < |fs| ==> fs[i].status != 401
    ensures var left := if m > k then m - k else 0;
            Reissues(Counters(Some(k), refreshed), fs, Some(m))
            == if LeadingRetryable(fs) < left then LeadingRetryable(fs) else left
    decreases |fs|
  {
    if fs != [] && Retryable(fs[0]) && k < m {
      assert Decide(Counters(Some(k), refreshed), fs[0], Some(m)) == Retry(k + 1);
      RetryRun(k + 1, refreshed, fs[1..], m);
    }
  }

  /** The two counters are independent: the refresh path leaves the retry
      count alone and the retry path leaves the refresh flag alone. */
  lemma CountersIndependent(c: Counters, f: Failure, maxRetries: Option<int>)
    ensures After(c, Decide(c, f, maxRetries)).retryCount == c.retryCount || Decide(c, f, maxRetries).Retry?
    ensures After(c, Decide(c, f, maxRetries)).refreshed == c.refreshed || Decide(c, f, maxRetries).Refresh?
    ensures Decide(c, f, maxRetries).Refresh? ==> After(c, Refresh).retryCount == c.retryCount
    ensures Decide(c, f, maxRetries).Retry? ==> After(c, Decide(c, f, maxRetries)).refreshed == c.refreshed
  {
  }

  /** The token is refreshed at most once per request: after a refresh no
      failure, 401 or other, asks for another. A 401 after the refresh is
      thrown unless its code is a network code. */
  lemma OneRefresh(c: Counters, f: Failure, g: Failure, maxRetries: Option<int>)
    requires Decide(c, f, maxRetries).Refresh?
    ensures !Decide(After(c, Refresh), g, maxRetries).Refresh?
    ensures g.status == 401 && !(g.code.Some? && g.code.value in NetworkCodes) ==>
              Decide(After(c, Refresh), g, maxRetries) == GiveUp
  {
  }

  /** The retry count never passes MAX_RETRIES, and once it has reached
      MAX_RETRIES the failure is thrown (a 401 may still refresh once). */
  lemma RetryCountCapped(c: Counters, f: Failure, maxRetries: Option<int>)
    requires maxRetries.Some? && c.retryCount.Some? && c.retryCount.value <= maxRetries.value
    ensures After(c, Decide(c, f, maxRetries)).retryCount.value <= maxRetries.value
    ensures c.retryCount.value == maxRetries.value && !Decide(c, f, maxRetries).Refresh? ==>
              Decide(c, f, maxRetries) == GiveUp
  {
  }

  /** When MAX_RETRIES is not a number nothing is ever retried. */
  lemma NaNMaxNeverRetries(c: Counters, f: Failure)
    ensures !Decide(c, f, None).Retry?
  {
  }

  /** How many more re-issues the counters allow: one refresh while the flag
      is not set, plus the retries left. */
  function Budget(c: Counters, maxRetries: Option<int>): nat {
    (if c.refreshed == Some(true) then 0 else 1)
    + (if Below(c.retryCount, maxRetries) then maxRetries.value - c.retryCount.value else 0)
  }

  /** Every re-issue uses up one unit of the budget. */
  lemma ReissueSpendsBudget(c: Counters, f: Failure, maxRetries: Option<int>)
    requires !Decide(c, f, maxRetries).GiveUp?
    ensures Budget(After(c, Decide(c, f, maxRetries)), maxRetries) == Budget(c, maxRetries) - 1
  {
  }

  /** The counters after a re-issue, for the retry loop: a retry adds one to
      `__retryCount`, within MAX_RETRIES; a refresh only sets `__refreshed`. */
  lemma ReissueCounts(c: Counters, f: Failure, maxRetries: Option<int>)
    requires c.retryCount.Some? && c.refreshed.Some? && !Decide(c, f, maxRetries).GiveUp?
    ensures var a := Decide(c, f, maxRetries);
            var c2 := After(c, a);
            Init(c2) == c2
            && c2.retryCount == Some(c.retryCount.value + (if a.Retry? then 1 else 0))
            && (a.Retry? ==> a.attempt == c.retryCount.value + 1 && maxRetries.Some? && a.attempt <= maxRetries.value
                             && c2.refreshed == c.refreshed)
            && (a.Refresh? ==> c2.refreshed == Some(true) && c.refreshed != Some(true))
  {
  }

  /** A new request may be re-issued at most MAX_RETRIES + 1 times. */
  lemma FreshBudget(maxRetries: Option<int>)
    ensures Budget(Init(Counters(None, None)), maxRetries) ==
              1 + (if maxRetries.Some? && maxRetries.value > 0 then maxRetries.value else 0)
  {
  }

  /** One re-issue inside the retry loop of a request that started from the
      counters `c0`: the retries waited so far, the refresh, the attempts
      sent and the budget left stay in step. */
  lemma ReissueStep(c0: Counters, c: Counters, f: Failure, maxRetries: Option<int>, base: Option<int>,
                    jitter: nat -> int, attempts: nat, delays: seq<Option<int>>)
    requires c0.retryCount.Some? && c.refreshed.Some? && !Decide(c, f, maxRetries).GiveUp?
    requires c.retryCount == Some(c0.retryCount.value + |delays|)
    requires c.refreshed == c0.refreshed || c.refreshed == Some(true)
    requires attempts == |delays| + (if c.refreshed != c0.refreshed then 1 else 0)
    requires delays == Delays(base, c0.retryCount.value, |delays|, jitter)
    requires |delays| > 0 ==> maxRetries.Some? && c0.retryCount.value + |delays| <= maxRetries.value
    requires attempts + Budget(c, maxRetries) <= Budget(c0, maxRetries)
    ensures var a := Decide(c, f, maxRetries);
            var c2 := After(c, a);
            var ds := delays + (if a.Retry? then [Delay(base, a.attempt, jitter(a.attempt))] else []);
            Init(c2) == c2
            && c2.retryCount == Some(c0.retryCount.value + |ds|)
            && (c2.refreshed == c0.refreshed || c2.refreshed == Some(true))
            && attempts + 1 == |ds| + (if c2.refreshed != c0.refreshed then 1 else 0)
            && ds == Delays(base, c0.retryCount.value, |ds|, jitter)
            && (|ds| > 0 ==> maxRetries.Some? && c0.retryCount.value + |ds| <= maxRetries.value)
            && attempts + 1 + Budget(c2, maxRetries) <= Budget(c0, maxRetries)
  {
    ReissueSpendsBudget(c, f, maxRetries);
    ReissueCounts(c, f, maxRetries);
    DelaysAppend(base, c0.retryCount.value, |delays|, jitter);
  }

  /** 2^n. */
  function Pow2(n: nat): (r: nat)
    ensures r >= 1
  {
    if n == 0 then 1 else 2 * Pow2(n - 1)
  }

  /** `jittered(BACKOFF_BASE_MS * 2^(n-1))` for retry number n >= 1, with the
      jitter `floor(random * 100)` given as `j`; None when the base is NaN. */
  function Delay(base: Option<int>, n: int, j: int): Option<int>
    requires n >= 1
  {
    if base.Some? then Some(base.value * Pow2(n - 1) + j) else None
  }

  /** The delays waited before retries `from + 1` to `from + n`, in order. */
  function Delays(base: Option<int>, from: nat, n: nat, jitter: nat -> int): seq<Option<int>> {
    seq(n, i requires 0 <= i < n => Delay(base, from + i + 1, jitter(from + i + 1)))
  }

  /** One more retry appends its delay. */
  lemma DelaysAppend(base: Option<int>, from: nat, n: nat, jitter: nat -> int)
    ensures Delays(base, from, n + 1, jitter) == Delays(base, from, n, jitter) + [Delay(base, from + n + 1, jitter(from + n + 1))]
  {
  }

  /** The delay before retry n lies in [base * 2^(n-1), base * 2^(n-1) + 100),
      and without jitter each retry waits twice as long as the one before. */
  lemma DelayRange(base: int, n: int, j: int)
    requires n >= 1 && 0 <= j < 100
    ensures base * Pow2(n - 1) <= Delay(Some(base), n, j).value < base * Pow2(n - 1) + 100
    ensures Delay(Some(base), n + 1, 0).value == 2 * Delay(Some(base), n, 0).value
  {
  }

  // ---------------------------------------------------------------------------
  // The client

  /** What the transport returns for one attempt. */
  datatype Reply = Success(body: string) | Fail(failure: Failure)

  /** How a request ends: with the response, with the error of its last
      attempt, or without being sent because no token could be fetched. */
  datatype Outcome = Resolved(body: string) | Rejected(failure: Failure) | NoToken

  /** The config of one request as the interceptors see and update it. */
  class RequestConfig {
    var retryCount: Option<nat>
    var refreshed: Option<bool>

    constructor ()
      ensures retryCount.None? && refreshed.None?
    {
      retryCount := None;
      refreshed := None;
    }

    function Counts(): Counters
      reads this
    {
      Counters(retryCount, refreshed)
    }

    /** The counter part of the request interceptor. */
    method InitCounters()
      modifies this
      ensures Counts() == Init(old(Counts()))
    {
      retryCount := if retryCount.Some? && retryCount.value != 0 then retryCount else Some(0);
      refreshed := if refreshed.Some? then refreshed else Some(false);
    }
  }

  /** The module state of src/http.ts: the settings and the token cache.
      `exchanges` counts the calls to the token endpoint; the n-th call
      returns `exchange(n)`, where None is a failed call. */
  class Client {
    const maxRetries: Option<int>
    const backoffBaseMs: Option<int>
    var cachedToken: Option<string>
    var tokenExpiryTs: int
    var exchanges: nat

    constructor (maxRetries: Option<int>, backoffBaseMs: Option<int>)
      ensures this.maxRetries == maxRetries && this.backoffBaseMs == backoffBaseMs
      ensures cachedToken.None? && tokenExpiryTs == 0 && exchanges == 0
    {
      this.maxRetries := maxRetries;
      this.backoffBaseMs := backoffBaseMs;
      cachedToken := None;
      tokenExpiryTs := 0;
      exchanges := 0;
    }

    function Cache(): Token
      reads this
    {
      Token(cachedToken, tokenExpiryTs)
    }

    /** `getToken(force)` at time `now`: the cached token on a hit; otherwise
        one call to the token endpoint, whose token is cached and returned. A
        failed call throws (None) and leaves the cache as it was. */
    method GetToken(force: bool, now: int, exchange: nat -> Option<TokenReply>) returns (t: Option<string>)
      modifies this
      ensures CacheHit(old(Cache()), force, now) ==>
                t == old(cachedToken) && Cache() == old(Cache()) && exchanges == old(exchanges)
      ensures !CacheHit(old(Cache()), force, now) ==>
                exchanges == old(exchanges) + 1
                && match exchange(old(exchanges))
                   case None => t.None? && Cache() == old(Cache())
                   case Some(reply) => t == Some(reply.accessToken) && Cache() == Fetched(now, reply)
      ensures t.None? <==> exchanges == old(exchanges) + 1 && exchange(old(exchanges)).None?
      ensures t.None? ==> exchanges >= 1 && exchange(exchanges - 1).None?
    {
      if !force && cachedToken.Some? && cachedToken.value != "" && now < tokenExpiryTs {
        return cachedToken;
      }
      var data := exchange(exchanges);
      exchanges := exchanges + 1;
      if data.None? {
        return None;
      }
      cachedToken := Some(data.value.accessToken);
      tokenExpiryTs := Expiry(now, data.value.expiresIn);
      t := cachedToken;
    }

    /** The response interceptor on a failed attempt: a first 401 refreshes
        the token (a failed refresh rejects), a retryable failure below the
        retry limit waits its delay, anything else rejects. Returns whether
        the request is re-issued, and the delay waited before it, if any. */
    method Intercept(cfg: RequestConfig, f: Failure, now: int, exchange: nat -> Option<TokenReply>, jitter: nat -> int)
      returns (again: bool, delay: seq<Option<int>>)
      modifies this, cfg
      ensures var c := old(cfg.Counts());
              var a := Decide(c, f, maxRetries);
              (a.GiveUp? ==> !again)
              && (a.Retry? ==> again)
              && (again ==> cfg.Counts() == After(c, a))
              && (!again ==> cfg.Counts() == c)
              && delay == (if a.Retry? then [Delay(backoffBaseMs, a.attempt, jitter(a.attempt))] else [])
      ensures var a := Decide(old(cfg.Counts()), f, maxRetries);
              (a.Refresh? ==> exchanges == old(exchanges) + 1 && (again <==> exchange(old(exchanges)).Some?))
              && (!a.Refresh? ==> exchanges == old(exchanges))
      ensures var a := Decide(cfg.Counts(), f, maxRetries);
              !again ==> !a.Retry? && (a.Refresh? ==> exchanges >= 1 && exchange(exchanges - 1).None?)
      ensures var c := old(cfg.Counts());
              again && c.retryCount.Some? && c.refreshed.Some? ==>
                Init(cfg.Counts()) == cfg.Counts()
                && cfg.retryCount == Some(c.retryCount.value + |delay|)
                && (cfg.refreshed == c.refreshed || cfg.refreshed == Some(true))
                && (|delay| == 0 <==> cfg.refreshed != c.refreshed)
                && Budget(cfg.Counts(), maxRetries) == Budget(c, maxRetries) - 1
                && (|delay| > 0 ==>
                      maxRetries.Some? && cfg.retryCount.value <= maxRetries.value
                      && delay == [Delay(backoffBaseMs, cfg.retryCount.value, jitter(cfg.retryCount.value))])
    {
      ghost var c := cfg.Counts();
      var action := Decide(cfg.Counts(), f, maxRetries);
      if !action.GiveUp? {
        ReissueSpendsBudget(c, f, maxRetries);
        if c.retryCount.Some? && c.refreshed.Some? {
          ReissueCounts(c, f, maxRetries);
        }
      }
      if action.Refresh? {
        var renewed := GetToken(true, now, exchange);
        if renewed.None? {
          return false, [];
        }
        cfg.refreshed := Some(true);
        return true, [];
      } else if action.Retry? {
        cfg.retryCount := Some(action.attempt);
        return true, [Delay(backoffBaseMs, action.attempt, jitter(action.attempt))];
      }
      return false, [];
    }

    /** Attempt k of a request: the request interceptor (counters and
        token at time `now`), the transport, and on a failure the response
        interceptor at time `later`. `done` is None when the request is
        re-issued, with the delay waited before it, if any. */
    method Attempt(cfg: RequestConfig, k: nat, now: int, later: int, transport: nat -> Reply,
                   exchange: nat -> Option<TokenReply>, jitter: nat -> int)
      returns (done: Option<Outcome>, delay: seq<Option<int>>)
      modifies this, cfg
      ensures var c := Init(old(cfg.Counts()));
              done.None? ==>
                Init(cfg.Counts()) == cfg.Counts()
                && cfg.retryCount == Some(c.retryCount.value + |delay|)
                && (cfg.refreshed == c.refreshed || cfg.refreshed == Some(true))
                && (|delay| == 0 <==> cfg.refreshed != c.refreshed)
                && Budget(cfg.Counts(), maxRetries) == Budget(c, maxRetries) - 1
                && (|delay| > 0 ==>
                      maxRetries.Some? && cfg.retryCount.value <= maxRetries.value
                      && delay == [Delay(backoffBaseMs, cfg.retryCount.value, jitter(cfg.retryCount.value))])
      ensures done.None? ==>
                transport(k).Fail?
                && var c := Init(old(cfg.Counts()));
                   var a := Decide(c, transport(k).failure, maxRetries);
                   !a.GiveUp? && cfg.Counts() == After(c, a)
                   && delay == (if a.Retry? then [Delay(backoffBaseMs, a.attempt, jitter(a.attempt))] else [])
      ensures done.Some? ==> cfg.Counts() == Init(old(cfg.Counts()))
      ensures done == Some(NoToken) ==> exchanges >= 1 && exchange(exchanges - 1).None?
      ensures done.Some? && done.value.Resolved? ==> transport(k) == Success(done.value.body)
      ensures done.Some? && done.value.Rejected? ==>
                transport(k) == Fail(done.value.failure)
                && var a := Decide(cfg.Counts(), done.value.failure, maxRetries);
                   !a.Retry? && (a.Refresh? ==> exchanges >= 1 && exchange(exchanges - 1).None?)
    {
      cfg.InitCounters();
      var token := GetToken(false, now, exchange);
      if token.None? {
        return Some(NoToken), [];
      }
      var reply := transport(k);
      if reply.Success? {
        return Some(Resolved(reply.body)), [];
      }
      var again;
      again, delay := Intercept(cfg, reply.failure, later, exchange, jitter);
      if !again {
        return Some(Rejected(reply.failure)), [];
      }
      done := None;
    }

    /** One request through both interceptors. Attempt k is sent at time
        `clock(k)` and answered by `transport(k)`; retry number n waits
        `Delay(backoffBaseMs, n, jitter(n))`. Returns the outcome, the number
        of attempts sent and the delays waited, in order. */
    method Request(cfg: RequestConfig, clock: nat -> int, transport: nat -> Reply,
                   exchange: nat -> Option<TokenReply>, jitter: nat -> int)
      returns (outcome: Outcome, attempts: nat, delays: seq<Option<int>>, ghost fails: seq<Failure>)
      modifies this, cfg
      ensures var c0 := Init(old(cfg.Counts()));
              attempts == |fails| + (if outcome.NoToken? then 0 else 1)
              && (forall i :: 0 <= i < |fails| ==> transport(i) == Fail(fails[i]))
              && Reissues(c0, fails, maxRetries) == |fails|
              && cfg.Counts() == Replayed(c0, fails, maxRetries)
      ensures var c0 := Init(old(cfg.Counts()));
              attempts <= 1 + Budget(c0, maxRetries)
              && cfg.retryCount == Some(c0.retryCount.value + |delays|)
              && (forall i :: 0 <= i < |delays| ==>
                    delays[i] == Delay(backoffBaseMs, c0.retryCount.value + i + 1, jitter(c0.retryCount.value + i + 1)))
              && (|delays| > 0 ==> maxRetries.Some? && c0.retryCount.value + |delays| <= maxRetries.value)
              && attempts == |delays| + (if cfg.refreshed != c0.refreshed then 1 else 0) + (if outcome.NoToken? then 0 else 1)
      ensures outcome.Resolved? ==> attempts >= 1 && transport(attempts - 1) == Success(outcome.body)
      ensures outcome.Rejected? ==> attempts >= 1 && transport(attempts - 1) == Fail(outcome.failure)
      ensures outcome.Rejected? ==>
                var a := Decide(cfg.Counts(), outcome.failure, maxRetries);
                !a.Retry? && (a.Refresh? ==> exchanges >= 1 && exchange(exchanges - 1).None?)
      ensures outcome.NoToken? ==> exchanges >= 1 && exchange(exchanges - 1).None?
    {
      ghost var c0 := Init(cfg.Counts());
      attempts := 0;
      delays := [];
      fails := [];
      while true
        invariant attempts == |fails| && (forall i :: 0 <= i < |fails| ==> transport(i) == Fail(fails[i]))
        invariant Reissues(c0, fails, maxRetries) == |fails| && Init(cfg.Counts()) == Replayed(c0, fails, maxRetries)
        invariant Init(cfg.Counts()).retryCount == Some(c0.retryCount.value + |delays|)
        invariant Init(cfg.Counts()).refreshed == c0.refreshed || Init(cfg.Counts()).refreshed == Some(true)
        invariant attempts == |delays| + (if Init(cfg.Counts()).refreshed != c0.refreshed then 1 else 0)
        invariant delays == Delays(backoffBaseMs, c0.retryCount.value, |delays|, jitter)
        invariant |delays| > 0 ==> maxRetries.Some? && c0.retryCount.value + |delays| <= maxRetries.value
        invariant attempts + Budget(Init(cfg.Counts()), maxRetries) <= Budget(c0, maxRetries)
        decreases Budget(Init(cfg.Counts()), maxRetries)
      {
        ghost var cur := Init(cfg.Counts());
        var done, delay := Attempt(cfg, attempts, clock(attempts), clock(attempts + 1), transport, exchange, jitter);
        if done.Some? {
          outcome := done.value;
          if !outcome.NoToken? {
            attempts := attempts + 1;
          }
          return;
        }
        ReissueStep(c0, cur, transport(attempts).failure, maxRetries, backoffBaseMs, jitter, attempts, delays);
        ReplayAppend(c0, fails, transport(attempts).failure, maxRetries);
        fails := fails + [transport(attempts).failure];
        attempts := attempts + 1;
        delays := delays + delay;
      }
    }
  }
}
