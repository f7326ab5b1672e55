/** How Start turns one entry of the backends table into a Backend: the
    resolved URLs, the TLS setup and the ordered list of backend options. */
module Backends {
  import opened Outcomes
  import opened GoInt
  import opened ProxydConfig

  /** time.Second, in nanoseconds. */
  const SECOND: int := 1_000_000_000

  /** A time.Duration: nanoseconds in an int64. */
  type Duration = int64

  /** secondsToDuration: the count of seconds times time.Second, computed in
      int64 and therefore wrapped on overflow. */
  function SecondsToDuration(seconds: int64): (d: Duration)
    ensures -(MAX_INT64 / SECOND) <= seconds <= MAX_INT64 / SECOND ==> d == seconds * SECOND
    ensures (seconds * SECOND - d) % TWO_64 == 0
  {
    Wrap64(seconds * SECOND)
  }

  /** The options Start can pass to NewBackend. */
  datatype BackendOpt =
    | WithTimeout(timeout: Duration)
    | WithMaxRetries(retries: int64)
    | WithMaxResponseSize(bytes: int64)
    | WithOutOfServiceDuration(duration: Duration)
    | WithMaxRPS(rps: int64)
    | WithMaxWSConns(conns: int64)
    | WithBasicAuth(username: string, password: string)
    | WithTLSConfig(tls: TLSConfig)
    | WithStrippedTrailingXFF
    | WithProxydIP(ip: string)

  /** The position of each kind of option in the order Start appends them. */
  function Rank(o: BackendOpt): nat
  {
    match o
    case WithTimeout(_) => 0
    case WithMaxRetries(_) => 1
    case WithMaxResponseSize(_) => 2
    case WithOutOfServiceDuration(_) => 3
    case WithMaxRPS(_) => 4
    case WithMaxWSConns(_) => 5
    case WithBasicAuth(_, _) => 6
    case WithTLSConfig(_) => 7
    case WithStrippedTrailingXFF => 8
    case WithProxydIP(_) => 9
  }

  /** Option `x` is one the configuration asks for, carrying the configured value. */
  ghost predicate Justified(x: BackendOpt, o: BackendOptions, cfg: BackendConfig, password: string, tls: Option<TLSConfig>, ip: string)
  {
    match x
    case WithTimeout(d) => o.responseTimeoutSeconds != 0 && d == SecondsToDuration(o.responseTimeoutSeconds)
    case WithMaxRetries(n) => o.maxRetries != 0 && n == o.maxRetries
    case WithMaxResponseSize(n) => o.maxResponseSizeBytes != 0 && n == o.maxResponseSizeBytes
    case WithOutOfServiceDuration(d) => o.outOfServiceSeconds != 0 && d == SecondsToDuration(o.outOfServiceSeconds)
    case WithMaxRPS(n) => cfg.maxRPS != 0 && n == cfg.maxRPS
    case WithMaxWSConns(n) => cfg.maxWSConns != 0 && n == cfg.maxWSConns
    case WithBasicAuth(u, p) => cfg.password != "" && u == cfg.username && p == password
    case WithTLSConfig(t) => tls == Some(t)
    case WithStrippedTrailingXFF => cfg.stripTrailingXFF
    case WithProxydIP(i) => i == ip
  }

  /** `opts` is exactly the option list the configuration calls for: only
      justified options, every option whose field is set (non-zero, non-empty,
      true), each kind at most once and in the fixed order, and the proxy-IP
      option always present and last. `password` is the resolved password and
      `tls` the outcome of the TLS setup. */
  ghost predicate OptionsFor(opts: seq<BackendOpt>, o: BackendOptions, cfg: BackendConfig, password: string, tls: Option<TLSConfig>, ip: string)
  {
    && AllJustified(opts, o, cfg, password, tls, ip)
    && (o.responseTimeoutSeconds != 0 ==> WithTimeout(SecondsToDuration(o.responseTimeoutSeconds)) in opts)
    && (o.maxRetries != 0 ==> WithMaxRetries(o.maxRetries) in opts)
    && (o.maxResponseSizeBytes != 0 ==> WithMaxResponseSize(o.maxResponseSizeBytes) in opts)
    && (o.outOfServiceSeconds != 0 ==> WithOutOfServiceDuration(SecondsToDuration(o.outOfServiceSeconds)) in opts)
    && (cfg.maxRPS != 0 ==> WithMaxRPS(cfg.maxRPS) in opts)
    && (cfg.maxWSConns != 0 ==> WithMaxWSConns(cfg.maxWSConns) in opts)
    && (cfg.password != "" ==> WithBasicAuth(cfg.username, password) in opts)
    && (tls.Some? ==> WithTLSConfig(tls.value) in opts)
    && (cfg.stripTrailingXFF ==> WithStrippedTrailingXFF in opts)
    && |opts| > 0 && opts[|opts| - 1] == WithProxydIP(ip)
    && RankSorted(opts)
  }

  /** A client certificate is attached only when both its files are named. */
  predicate ClientCertConfigured(cfg: BackendConfig)
  {
    cfg.clientCertFile != "" && cfg.clientKeyFile != ""
  }

  /** configureBackendTLS: no TLS setup without a CA file; otherwise the
      client built from the CA file, with the client key pair attached when
      both its files are named. Errors of the loaders are passed on. */
  function ConfigureBackendTLS(cfg: BackendConfig, env: Env): (r: Result<Option<TLSConfig>>)
    ensures cfg.caFile == "" ==> r == Ok(None)
    ensures r.Ok? <==> (cfg.caFile == "" ||
      (env.createTLSClient(cfg.caFile).Ok? &&
       (ClientCertConfigured(cfg) ==> env.parseKeyPair(cfg.clientCertFile, cfg.clientKeyFile).Ok?)))
    ensures r.Ok? && cfg.caFile != "" ==>
      r.value.Some? && r.value.value.caFile == env.createTLSClient(cfg.caFile).value.caFile &&
      r.value.value.certificates ==
        if ClientCertConfigured(cfg) then [env.parseKeyPair(cfg.clientCertFile, cfg.clientKeyFile).value]
        else env.createTLSClient(cfg.caFile).value.certificates
    ensures cfg.caFile != "" && env.createTLSClient(cfg.caFile).Err? ==>
      r == Err(env.createTLSClient(cfg.caFile).error)
    ensures r.Err? ==>
      (env.createTLSClient(cfg.caFile).Err? && r.error == env.createTLSClient(cfg.caFile).error) ||
      (env.parseKeyPair(cfg.clientCertFile, cfg.clientKeyFile).Err? &&
       r.error == env.parseKeyPair(cfg.clientCertFile, cfg.clientKeyFile).error)
  {
    if cfg.caFile == "" then Ok(None)
    else
      var client :- env.createTLSClient(cfg.caFile);
      if ClientCertConfigured(cfg) then
        var cert :- env.parseKeyPair(cfg.clientCertFile, cfg.clientKeyFile);
        Ok(Some(client.(certificates := [cert])))
      else
        Ok(Some(client))
  }

  /** What NewBackend is given for one backend besides its name. */
  datatype BackendPlan = BackendPlan(rpcURL: string, wsURL: string, opts: seq<BackendOpt>)

  /** The body of Start's loop over the backends table, up to NewBackend:
      resolve both URLs, reject an empty one, then collect the options,
      resolving the password and building the TLS setup on the way. */
  function ConfigureBackend(name: string, cfg: BackendConfig, o: BackendOptions, env: Env): (r: Result<BackendPlan>)
    ensures r.Ok? <==>
      && env.resolve(cfg.rpcURL).Ok? && env.resolve(cfg.rpcURL).value != ""
      && env.resolve(cfg.wsURL).Ok? && env.resolve(cfg.wsURL).value != ""
      && (cfg.password != "" ==> env.resolve(cfg.password).Ok?)
      && ConfigureBackendTLS(cfg, env).Ok?
    ensures r.Ok? ==>
      && r.value.rpcURL == env.resolve(cfg.rpcURL).value && r.value.rpcURL != ""
      && r.value.wsURL == env.resolve(cfg.wsURL).value && r.value.wsURL != ""
      && OptionsFor(r.value.opts, o, cfg,
           if cfg.password != "" then env.resolve(cfg.password).value else "",
           ConfigureBackendTLS(cfg, env).value, env.proxydIP)
    ensures env.resolve(cfg.rpcURL).Err? ==> r == Err(env.resolve(cfg.rpcURL).error)
    ensures env.resolve(cfg.rpcURL) == Ok("") && env.resolve(cfg.wsURL).Ok? ==> r == Err(MissingRPCURL(name))
    ensures env.resolve(cfg.rpcURL).Ok? && env.resolve(cfg.rpcURL).value != "" && env.resolve(cfg.wsURL) == Ok("") ==>
      r == Err(MissingWSURL(name))
    ensures env.resolve(cfg.rpcURL).Ok? && env.resolve(cfg.wsURL).Err? ==> r == Err(env.resolve(cfg.wsURL).error)
    ensures
      && env.resolve(cfg.rpcURL).Ok? && env.resolve(cfg.rpcURL).value != ""
      && env.resolve(cfg.wsURL).Ok? && env.resolve(cfg.wsURL).value != ""
      && ConfigureOptions(cfg, o, env).Err?
      ==> r == Err(ConfigureOptions(cfg, o, env).error)
  {
    var rpcURL :- env.resolve(cfg.rpcURL);
    var wsURL :- env.resolve(cfg.wsURL);
    if rpcURL == "" then Err(MissingRPCURL(name))
    else if wsURL == "" then Err(MissingWSURL(name))
    else
      var opts :- ConfigureOptions(cfg, o, env);
      Ok(BackendPlan(rpcURL, wsURL, opts))
  }

  /** The option part of the loop body: the password is resolved when one is
      set and the TLS setup is built, in that order; the first failure is
      returned. */
  function ConfigureOptions(cfg: BackendConfig, o: BackendOptions, env: Env): (r: Result<seq<BackendOpt>>)
    ensures r.Ok? <==> (cfg.password != "" ==> env.resolve(cfg.password).Ok?) && ConfigureBackendTLS(cfg, env).Ok?
    ensures r.Ok? ==>
      OptionsFor(r.value, o, cfg,
        if cfg.password != "" then env.resolve(cfg.password).value else "",
        ConfigureBackendTLS(cfg, env).value, env.proxydIP)
    ensures cfg.password != "" && env.resolve(cfg.password).Err? ==> r == Err(env.resolve(cfg.password).error)
    ensures (cfg.password == "" || env.resolve(cfg.password).Ok?) && ConfigureBackendTLS(cfg, env).Err? ==>
      r == Err(ConfigureBackendTLS(cfg, env).error)
  {
    var password :- if cfg.password != "" then env.resolve(cfg.password) else Ok("");
    var tls :- ConfigureBackendTLS(cfg, env);
    Ok(BackendOpts(o, cfg, password, tls, env.proxydIP))
  }

  /** The ranks of `opts` strictly increase. */
  ghost predicate RankSorted(opts: seq<BackendOpt>)
  {
    forall i, j | 0 <= i < j < |opts| :: Rank(opts[i]) < Rank(opts[j])
  }

  ghost predicate AllJustified(opts: seq<BackendOpt>, o: BackendOptions, cfg: BackendConfig, password: string, tls: Option<TLSConfig>, ip: string)
  {
    forall x | x in opts :: Justified(x, o, cfg, password, tls, ip)
  }

  /** What the k-th of the ten appends of Start's backend loop adds: None when
      its condition is false. The last one, the proxy IP, is unconditional. */
  function Candidate(k: nat, o: BackendOptions, cfg: BackendConfig, password: string, tls: Option<TLSConfig>, ip: string): (c: Option<BackendOpt>)
    requires k < 10
    ensures c.Some? ==> Rank(c.value) == k && Justified(c.value, o, cfg, password, tls, ip)
  {
    if k == 0 then (if o.responseTimeoutSeconds != 0 then Some(WithTimeout(SecondsToDuration(o.responseTimeoutSeconds))) else None)
    else if k == 1 then (if o.maxRetries != 0 then Some(WithMaxRetries(o.maxRetries)) else None)
    else if k == 2 then (if o.maxResponseSizeBytes != 0 then Some(WithMaxResponseSize(o.maxResponseSizeBytes)) else None)
    else if k == 3 then (if o.outOfServiceSeconds != 0 then Some(WithOutOfServiceDuration(SecondsToDuration(o.outOfServiceSeconds))) else None)
    else if k == 4 then (if cfg.maxRPS != 0 then Some(WithMaxRPS(cfg.maxRPS)) else None)
    else if k == 5 then (if cfg.maxWSConns != 0 then Some(WithMaxWSConns(cfg.maxWSConns)) else None)
    else if k == 6 then (if cfg.password != "" then Some(WithBasicAuth(cfg.username, password)) else None)
    else if k == 7 then (if tls.Some? then Some(WithTLSConfig(tls.value)) else None)
    else if k == 8 then (if cfg.stripTrailingXFF then Some(WithStrippedTrailingXFF) else None)
    else Some(WithProxydIP(ip))
  }

  /** The option list after the first `k` appends: each present candidate in turn. */
  function AppendedUpTo(k: nat, o: BackendOptions, cfg: BackendConfig, password: string, tls: Option<TLSConfig>, ip: string): (opts: seq<BackendOpt>)
    requires k <= 10
  {
    if k == 0 then []
    else
      var before := AppendedUpTo(k - 1, o, cfg, password, tls, ip);
      match Candidate(k - 1, o, cfg, password, tls, ip)
      case None => before
      case Some(x) => before + [x]
  }

  /** The whole option list Start hands to NewBackend. */
  function BackendOpts(o: BackendOptions, cfg: BackendConfig, password: string, tls: Option<TLSConfig>, ip: string): (opts: seq<BackendOpt>)
    ensures OptionsFor(opts, o, cfg, password, tls, ip)
  {
    AppendedOptionsFor(o, cfg, password, tls, ip);
    AppendedUpTo(10, o, cfg, password, tls, ip)
  }

  lemma AppendedOptionsFor(o: BackendOptions, cfg: BackendConfig, password: string, tls: Option<TLSConfig>, ip: string)
    ensures OptionsFor(AppendedUpTo(10, o, cfg, password, tls, ip), o, cfg, password, tls, ip)
  {
    AppendedWellFormed(10, o, cfg, password, tls, ip);
    ProxydIPLast(o, cfg, password, tls, ip);
    SharedOptionsPresent(o, cfg, password, tls, ip);
    OwnOptionsPresent(o, cfg, password, tls, ip);
  }

  /** After the first `k` appends every option is justified and of rank
      below `k`, and the ranks strictly increase. */
  lemma {:induction false} AppendedWellFormed(k: nat, o: BackendOptions, cfg: BackendConfig, password: string, tls: Option<TLSConfig>, ip: string)
    requires k <= 10
    ensures var opts := AppendedUpTo(k, o, cfg, password, tls, ip);
      && AllJustified(opts, o, cfg, password, tls, ip)
      && (forall x | x in opts :: Rank(x) < k)
      && RankSorted(opts)
  {
    if k > 0 {
      AppendedWellFormed(k - 1, o, cfg, password, tls, ip);
      var before := AppendedUpTo(k - 1, o, cfg, password, tls, ip);
      var next := Candidate(k - 1, o, cfg, password, tls, ip);
      if next.Some? {
        AppendKeepsSorted(before, next.value);
      }
    }
  }

  lemma AppendKeepsSorted(opts: seq<BackendOpt>, x: BackendOpt)
    requires RankSorted(opts) && forall y | y in opts :: Rank(y) < Rank(x)
    ensures RankSorted(opts + [x])
  {
  }

  /** The option of the `j`-th append, when there is one, stays in the list. */
  lemma {:induction false} CandidateKept(j: nat, k: nat, o: BackendOptions, cfg: BackendConfig, password: string, tls: Option<TLSConfig>, ip: string)
    requires j < k <= 10 && Candidate(j, o, cfg, password, tls, ip).Some?
    ensures Candidate(j, o, cfg, password, tls, ip).value in AppendedUpTo(k, o, cfg, password, tls, ip)
  {
    if j < k - 1 {
      CandidateKept(j, k - 1, o, cfg, password, tls, ip);
    }
  }

  /** The unconditional proxy-IP option ends the list. */
  lemma ProxydIPLast(o: BackendOptions, cfg: BackendConfig, password: string, tls: Option<TLSConfig>, ip: string)
    ensures var opts := AppendedUpTo(10, o, cfg, password, tls, ip);
      |opts| > 0 && opts[|opts| - 1] == WithProxydIP(ip)
  {
    var opts := AppendedUpTo(10, o, cfg, password, tls, ip);
    AppendedWellFormed(10, o, cfg, password, tls, ip);
    CandidateKept(9, 10, o, cfg, password, tls, ip);
    var i :| 0 <= i < |opts| && opts[i] == WithProxydIP(ip);
    // nothing ranks above the proxy-IP option, so it is the last one
    assert Rank(opts[i]) <= Rank(opts[|opts| - 1]);
  }

  /** Every option whose shared field is set is in the list. */
  lemma SharedOptionsPresent(o: BackendOptions, cfg: BackendConfig, password: string, tls: Option<TLSConfig>, ip: string)
    ensures var opts := AppendedUpTo(10, o, cfg, password, tls, ip);
      && (o.responseTimeoutSeconds != 0 ==> WithTimeout(SecondsToDuration(o.responseTimeoutSeconds)) in opts)
      && (o.maxRetries != 0 ==> WithMaxRetries(o.maxRetries) in opts)
      && (o.maxResponseSizeBytes != 0 ==> WithMaxResponseSize(o.maxResponseSizeBytes) in opts)
      && (o.outOfServiceSeconds != 0 ==> WithOutOfServiceDuration(SecondsToDuration(o.outOfServiceSeconds)) in opts)
  {
    if o.responseTimeoutSeconds != 0 { CandidateKept(0, 10, o, cfg, password, tls, ip); }
    if o.maxRetries != 0 { CandidateKept(1, 10, o, cfg, password, tls, ip); }
    if o.maxResponseSizeBytes != 0 { CandidateKept(2, 10, o, cfg, password, tls, ip); }
    if o.outOfServiceSeconds != 0 { CandidateKept(3, 10, o, cfg, password, tls, ip); }
  }

  /** Every option whose field of the backend's own entry is set is in the list. */
  lemma OwnOptionsPresent(o: BackendOptions, cfg: BackendConfig, password: string, tls: Option<TLSConfig>, ip: string)
    ensures var opts := AppendedUpTo(10, o, cfg, password, tls, ip);
      && (cfg.maxRPS != 0 ==> WithMaxRPS(cfg.maxRPS) in opts)
      && (cfg.maxWSConns != 0 ==> WithMaxWSConns(cfg.maxWSConns) in opts)
      && (cfg.password != "" ==> WithBasicAuth(cfg.username, password) in opts)
      && (tls.Some? ==> WithTLSConfig(tls.value) in opts)
      && (cfg.stripTrailingXFF ==> WithStrippedTrailingXFF in opts)
  {
    if cfg.maxRPS != 0 { CandidateKept(4, 10, o, cfg, password, tls, ip); }
    if cfg.maxWSConns != 0 { CandidateKept(5, 10, o, cfg, password, tls, ip); }
    if cfg.password != "" { CandidateKept(6, 10, o, cfg, password, tls, ip); }
    if tls.Some? { CandidateKept(7, 10, o, cfg, password, tls, ip); }
    if cfg.stripTrailingXFF { CandidateKept(8, 10, o, cfg, password, tls, ip); }
  }

  /** A backend as built by NewBackend. Every backend shares the one rate
      limiter and the one concurrency semaphore (modelled by its weight). */
  class Backend {
    const name: string
    const rpcURL: string
    const wsURL: string
    const limiter: Limiter
    const concurrencyCap: int64
    const opts: seq<BackendOpt>

    constructor (name: string, rpcURL: string, wsURL: string, limiter: Limiter, concurrencyCap: int64, opts: seq<BackendOpt>)
      ensures this.name == name && this.rpcURL == rpcURL && this.wsURL == wsURL
      ensures this.limiter == limiter && this.concurrencyCap == concurrencyCap && this.opts == opts
    {
      this.name := name;
      this.rpcURL := rpcURL;
      this.wsURL := wsURL;
      this.limiter := limiter;
      this.concurrencyCap := concurrencyCap;
      this.opts := opts;
    }
  }

  /** The rate limiter Start picks: local unless a Redis URL resolves to a non-empty string. */
  datatype Limiter = LocalLimiter | RedisLimiter(url: string)
}
