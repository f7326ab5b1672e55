/** What Start builds, and the rules that decide whether it builds it: the
    set of errors a configuration can be rejected with, and the shape of the
    topology handed to the server when it is accepted. */
module Wiring {
  import opened Outcomes
  import opened GoInt
  import opened ProxydConfig
  import opened Backends

  /** A named, ordered pool of backends. The members are the very Backend
      objects of the backends table, shared, not copies. */
  class BackendGroup {
    const name: string
    const backends: seq<Backend>

    constructor (name: string, backends: seq<Backend>)
      ensures this.name == name && this.backends == backends
    {
      this.name := name;
      this.backends := backends;
    }
  }

  /** Replacements for the messages of the over-rate-limit, method-not-
      whitelisted and too-many-batch-requests errors (Go overwrites shared
      error values; here they are one immutable value). */
  datatype ErrorMessages = ErrorMessages(
    overRateLimit: Option<string>,
    methodNotWhitelisted: Option<string>,
    tooManyBatchRequests: Option<string>)

  datatype CacheStore = RedisStore(url: string) | MemoryStore

  /** The response cache's wiring: the resolved block-sync URL the last-value
      caches poll, the backing store, and the confirmation depth. */
  datatype CacheSetup = CacheSetup(blockSyncRPCURL: string, store: CacheStore, numBlockConfirmations: int64)

  /** What Start builds besides the backends and groups. */
  datatype ServerParts = ServerParts(
    wsBackendGroup: Option<BackendGroup>,
    resolvedAuth: Option<map<string, string>>,
    cache: Option<CacheSetup>)

  /** Everything Start hands to NewServer. */
  datatype Topology = Topology(
    limiter: Limiter,
    errorMessages: ErrorMessages,
    maxConcurrentRPCs: int64,
    backendNames: seq<string>,
    backendsByName: map<string, Backend>,
    backendGroups: map<string, BackendGroup>,
    wsBackendGroup: Option<BackendGroup>,
    resolvedAuth: Option<map<string, string>>,
    cache: Option<CacheSetup>)

  /** The weight of the semaphore bounding in-flight RPCs: 0 means unbounded. */
  function ConcurrencyCap(configured: int64): (cap: int64)
    ensures cap != 0
    ensures configured != 0 ==> cap == configured
    ensures configured == 0 ==> cap == MAX_INT64
  {
    if configured == 0 then MAX_INT64 else configured
  }

  /** An empty message leaves the built-in one in place. */
  function Override(message: string): (r: Option<string>)
    ensures r.None? <==> message == ""
    ensures r.Some? ==> r.value == message
  {
    if message == "" then None else Some(message)
  }

  /** The three messages Start overrides, each only when configured non-empty. */
  function ErrorMessagesFor(c: Config): (m: ErrorMessages)
    ensures m.overRateLimit.Some? <==> c.rateLimitErrorMessage != ""
    ensures m.overRateLimit.Some? ==> m.overRateLimit.value == c.rateLimitErrorMessage
    ensures m.methodNotWhitelisted.Some? <==> c.whitelistErrorMessage != ""
    ensures m.methodNotWhitelisted.Some? ==> m.methodNotWhitelisted.value == c.whitelistErrorMessage
    ensures m.tooManyBatchRequests.Some? <==> c.batchErrorMessage != ""
    ensures m.tooManyBatchRequests.Some? ==> m.tooManyBatchRequests.value == c.batchErrorMessage
  {
    ErrorMessages(Override(c.rateLimitErrorMessage), Override(c.whitelistErrorMessage), Override(c.batchErrorMessage))
  }

  /** The Redis URL in effect: empty when none is configured (or it resolves to
      the empty string), the resolved value otherwise. */
  function RedisURL(c: Config, env: Env): (u: string)
    ensures c.redisURL == "" ==> u == ""
    ensures c.redisURL != "" && env.resolve(c.redisURL).Ok? ==> u == env.resolve(c.redisURL).value
  {
    if c.redisURL == "" then ""
    else match env.resolve(c.redisURL)
      case Ok(u) => u
      case Err(_) => ""
  }

  /** The local limiter without Redis, the Redis limiter on its URL otherwise. */
  function LimiterFor(redisURL: string): (lim: Limiter)
    ensures lim.LocalLimiter? <==> redisURL == ""
    ensures lim.RedisLimiter? ==> lim.url == redisURL
  {
    if redisURL == "" then LocalLimiter else RedisLimiter(redisURL)
  }

  /** The position of the first member not in `defined`, if any. */
  function FirstUndefined(members: seq<string>, defined: set<string>): (r: Option<nat>)
    ensures r.None? <==> forall i | 0 <= i < |members| :: members[i] in defined
    ensures r.Some? ==>
      && r.value < |members| && members[r.value] !in defined
      && forall i | 0 <= i < r.value :: members[i] in defined
  {
    if members == [] then None
    else if members[0] !in defined then Some(0)
    else match FirstUndefined(members[1..], defined)
      case None => None
      case Some(k) => Some(k + 1)
  }

  predicate HasNoneAuthKey(c: Config)
  {
    c.authentication.Some? && "none" in c.authentication.value
  }

  // ---------------------------------------------------------------------
  // Rejection: which errors a configuration can make Start return

  ghost function BackendRejections(c: Config, env: Env): set<Error>
  {
    set n | n in c.backends && ConfigureBackend(n, c.backends[n], c.backendOptions, env).Err? ::
      ConfigureBackend(n, c.backends[n], c.backendOptions, env).error
  }

  ghost function GroupRejections(groups: map<string, seq<string>>, defined: set<string>): set<Error>
  {
    set g | g in groups && FirstUndefined(groups[g], defined).Some? ::
      UndefinedBackend(groups[g][FirstUndefined(groups[g], defined).value])
  }

  ghost function MappingRejections(mappings: map<string, string>, groups: set<string>): set<Error>
  {
    set m | m in mappings && mappings[m] !in groups :: UndefinedGroup(mappings[m])
  }

  ghost function AuthRejections(auth: map<string, string>, resolve: string -> Result<string>): set<Error>
  {
    set s | s in auth && resolve(s).Err? :: resolve(s).error
  }

  /** The errors Start may return for `c`, empty when it succeeds. The checks
      run in the source's order and the first failing one decides; where that
      check walks a Go map, whose order is unspecified, the error of any
      offending entry may be the one reported. */
  ghost function Rejections(c: Config, env: Env): set<Error>
  {
    if c.backends == map[] then {NoBackends}
    else if c.backendGroups == map[] then {NoBackendGroups}
    else if c.rpcMethodMappings == map[] then {NoMethodMappings}
    else if HasNoneAuthKey(c) then {NoneAuthKey}
    else if c.redisURL != "" && env.resolve(c.redisURL).Err? then {env.resolve(c.redisURL).error}
    else if BackendRejections(c, env) != {} then BackendRejections(c, env)
    else if GroupRejections(c.backendGroups, c.backends.Keys) != {} then GroupRejections(c.backendGroups, c.backends.Keys)
    else LateRejections(c, env)
  }

  /** The checks that follow the construction of the backend groups. */
  ghost function LateRejections(c: Config, env: Env): set<Error>
  {
    if c.wsBackendGroup != "" && c.wsBackendGroup !in c.backendGroups then {MissingWSGroup(c.wsBackendGroup)}
    else if c.wsBackendGroup == "" && c.server.wsPort != 0 then {WSPortWithoutGroup}
    else if MappingRejections(c.rpcMethodMappings, c.backendGroups.Keys) != {} then MappingRejections(c.rpcMethodMappings, c.backendGroups.Keys)
    else if c.authentication.Some? && AuthRejections(c.authentication.value, env.resolve) != {} then AuthRejections(c.authentication.value, env.resolve)
    else if c.cache.enabled && c.cache.blockSyncRPCURL == "" then {NoBlockSyncURL}
    else if c.cache.enabled && env.resolve(c.cache.blockSyncRPCURL).Err? then {env.resolve(c.cache.blockSyncRPCURL).error}
    else {}
  }

  /** A backend entry whose URLs resolve to non-empty strings, whose password
      (if any) resolves and whose TLS files load. */
  ghost predicate BackendAcceptable(cfg: BackendConfig, env: Env)
  {
    && env.resolve(cfg.rpcURL).Ok? && env.resolve(cfg.rpcURL).value != ""
    && env.resolve(cfg.wsURL).Ok? && env.resolve(cfg.wsURL).value != ""
    && (cfg.password != "" ==> env.resolve(cfg.password).Ok?)
    && ConfigureBackendTLS(cfg, env).Ok?
  }

  /** The configuration rules, each stated on its own and in no order. */
  ghost predicate Acceptable(c: Config, env: Env)
  {
    && c.backends != map[] && c.backendGroups != map[] && c.rpcMethodMappings != map[]
    && !HasNoneAuthKey(c)
    && (c.redisURL != "" ==> env.resolve(c.redisURL).Ok?)
    && (forall n | n in c.backends :: BackendAcceptable(c.backends[n], env))
    && (forall g, i | g in c.backendGroups && 0 <= i < |c.backendGroups[g]| :: c.backendGroups[g][i] in c.backends)
    && (c.wsBackendGroup != "" ==> c.wsBackendGroup in c.backendGroups)
    && (c.server.wsPort != 0 ==> c.wsBackendGroup != "")
    && (forall m | m in c.rpcMethodMappings :: c.rpcMethodMappings[m] in c.backendGroups)
    && (c.authentication.Some? ==> forall s | s in c.authentication.value :: env.resolve(s).Ok?)
    && (c.cache.enabled ==> c.cache.blockSyncRPCURL != "" && env.resolve(c.cache.blockSyncRPCURL).Ok?)
  }

  lemma BackendRejectionsEmpty(c: Config, env: Env)
    ensures BackendRejections(c, env) == {} <==> forall n | n in c.backends :: BackendAcceptable(c.backends[n], env)
  {
    if n :| n in c.backends && !BackendAcceptable(c.backends[n], env) {
      assert ConfigureBackend(n, c.backends[n], c.backendOptions, env).error in BackendRejections(c, env);
    }
  }

  lemma GroupRejectionsEmpty(groups: map<string, seq<string>>, defined: set<string>)
    ensures GroupRejections(groups, defined) == {} <==>
      forall g, i | g in groups && 0 <= i < |groups[g]| :: groups[g][i] in defined
  {
    if g, i :| g in groups && 0 <= i < |groups[g]| && groups[g][i] !in defined {
      var k := FirstUndefined(groups[g], defined);
      assert UndefinedBackend(groups[g][k.value]) in GroupRejections(groups, defined);
    }
  }

  /** A group with no members is never rejected: there is no member that
      could be undefined. */
  lemma EmptyGroupsAccepted(groups: map<string, seq<string>>, defined: set<string>)
    requires forall g | g in groups :: groups[g] == []
    ensures GroupRejections(groups, defined) == {}
  {
    GroupRejectionsEmpty(groups, defined);
  }

  lemma MappingRejectionsEmpty(mappings: map<string, string>, groups: set<string>)
    ensures MappingRejections(mappings, groups) == {} <==> forall m | m in mappings :: mappings[m] in groups
  {
    if m :| m in mappings && mappings[m] !in groups {
      assert UndefinedGroup(mappings[m]) in MappingRejections(mappings, groups);
    }
  }

  lemma AuthRejectionsEmpty(auth: map<string, string>, resolve: string -> Result<string>)
    ensures AuthRejections(auth, resolve) == {} <==> forall s | s in auth :: resolve(s).Ok?
  {
    if s :| s in auth && resolve(s).Err? {
      assert resolve(s).error in AuthRejections(auth, resolve);
    }
  }

  /** Start rejects a configuration exactly when one of the rules fails. */
  lemma RejectionsEmptyIffAcceptable(c: Config, env: Env)
    ensures Rejections(c, env) == {} <==> Acceptable(c, env)
  {
    if Acceptable(c, env) {
      AcceptableNotRejected(c, env);
    } else {
      RejectedUnlessAcceptable(c, env);
    }
  }

  lemma AcceptableNotRejected(c: Config, env: Env)
    requires Acceptable(c, env)
    ensures Rejections(c, env) == {}
  {
    BackendRejectionsEmpty(c, env);
    GroupRejectionsEmpty(c.backendGroups, c.backends.Keys);
    MappingRejectionsEmpty(c.rpcMethodMappings, c.backendGroups.Keys);
    if c.authentication.Some? {
      AuthRejectionsEmpty(c.authentication.value, env.resolve);
    }
  }

  lemma RejectedUnlessAcceptable(c: Config, env: Env)
    requires !Acceptable(c, env)
    ensures Rejections(c, env) != {}
  {
    BackendRejectionsEmpty(c, env);
    GroupRejectionsEmpty(c.backendGroups, c.backends.Keys);
    MappingRejectionsEmpty(c.rpcMethodMappings, c.backendGroups.Keys);
    if c.authentication.Some? {
      AuthRejectionsEmpty(c.authentication.value, env.resolve);
    }
  }

  // ---------------------------------------------------------------------
  // Wiring: the topology Start builds from an accepted configuration

  /** Backend `b` is the one Start builds for entry `n`. */
  ghost predicate BackendMatches(c: Config, env: Env, n: string, b: Backend, lim: Limiter, cap: int64)
    requires n in c.backends
  {
    && b.name == n && b.limiter == lim && b.concurrencyCap == cap
    && ConfigureBackend(n, c.backends[n], c.backendOptions, env) == Ok(BackendPlan(b.rpcURL, b.wsURL, b.opts))
  }

  /** The backends of the entries in `keys` are built: `names` lists each of
      them exactly once, `byName` maps each to its Backend. */
  ghost predicate BackendsBuilt(c: Config, env: Env, keys: set<string>, names: seq<string>,
                                byName: map<string, Backend>, lim: Limiter, cap: int64)
  {
    && keys <= c.backends.Keys
    && byName.Keys == keys
    && (forall i, j | 0 <= i < j < |names| :: names[i] != names[j])
    && (forall n :: n in names <==> n in keys)
    && (forall n | n in byName :: BackendMatches(c, env, n, byName[n], lim, cap))
  }

  /** Group `group` holds, in order, the Backend objects its members name. */
  ghost predicate GroupMatches(name: string, members: seq<string>, byName: map<string, Backend>, group: BackendGroup)
  {
    && group.name == name
    && |group.backends| == |members|
    && forall i | 0 <= i < |members| :: members[i] in byName && group.backends[i] == byName[members[i]]
  }

  ghost predicate GroupsBuilt(config: map<string, seq<string>>, keys: set<string>, byName: map<string, Backend>,
                              groups: map<string, BackendGroup>)
  {
    && keys <= config.Keys
    && groups.Keys == keys
    && forall g | g in groups :: GroupMatches(g, config[g], byName, groups[g])
  }

  /** Every secret of `keys` is resolved; each resolved secret maps to the
      alias of a secret that resolves to it (when two secrets resolve to the
      same value, which alias survives depends on map order). */
  ghost predicate AuthResolved(auth: map<string, string>, keys: set<string>, resolve: string -> Result<string>,
                               resolved: map<string, string>)
  {
    && keys <= auth.Keys
    && (forall s | s in keys :: resolve(s).Ok? && resolve(s).value in resolved)
    && (forall k | k in resolved :: exists s | s in keys :: resolve(s) == Ok(k) && resolved[k] == auth[s])
  }

  /** `t` is the topology Start builds for the accepted configuration `c`. */
  ghost predicate Wired(c: Config, env: Env, t: Topology)
  {
    && t.limiter == LimiterFor(RedisURL(c, env))
    && t.errorMessages == ErrorMessagesFor(c)
    && t.maxConcurrentRPCs == ConcurrencyCap(c.server.maxConcurrentRPCs)
    && BackendsBuilt(c, env, c.backends.Keys, t.backendNames, t.backendsByName, t.limiter, t.maxConcurrentRPCs)
    && GroupsBuilt(c.backendGroups, c.backendGroups.Keys, t.backendsByName, t.backendGroups)
    && PartsWired(c, env, t.backendGroups, ServerParts(t.wsBackendGroup, t.resolvedAuth, t.cache))
  }

  /** The WebSocket group, the resolved authentication table and the cache
      setup Start hands to the server with the groups `groups`. */
  ghost predicate PartsWired(c: Config, env: Env, groups: map<string, BackendGroup>, p: ServerParts)
  {
    && (c.wsBackendGroup == "" ==> p.wsBackendGroup.None?)
    && (c.wsBackendGroup != "" ==>
          c.wsBackendGroup in groups && p.wsBackendGroup == Some(groups[c.wsBackendGroup]))
    && (c.authentication.None? ==> p.resolvedAuth.None?)
    && (c.authentication.Some? ==>
          p.resolvedAuth.Some? &&
          AuthResolved(c.authentication.value, c.authentication.value.Keys, env.resolve, p.resolvedAuth.value))
    && (!c.cache.enabled ==> p.cache.None?)
    && (c.cache.enabled ==>
          && p.cache.Some?
          && env.resolve(c.cache.blockSyncRPCURL) == Ok(p.cache.value.blockSyncRPCURL)
          && p.cache.value.store == (if RedisURL(c, env) == "" then MemoryStore else RedisStore(RedisURL(c, env)))
          && p.cache.value.numBlockConfirmations == c.cache.numBlockConfirmations)
  }

  /** What a wired topology promises about its backends: one per configured
      entry, each name listed once, both URLs resolved and non-empty, every
      backend sharing the one limiter and concurrency cap, and each carrying
      the option list its configuration calls for. */
  lemma WiredBackends(c: Config, env: Env, t: Topology)
    requires Wired(c, env, t)
    ensures t.backendsByName.Keys == c.backends.Keys
    ensures forall n :: n in t.backendNames <==> n in c.backends
    ensures forall i, j | 0 <= i < j < |t.backendNames| :: t.backendNames[i] != t.backendNames[j]
    ensures forall n | n in t.backendsByName ::
      && t.backendsByName[n].name == n
      && t.backendsByName[n].rpcURL != "" && env.resolve(c.backends[n].rpcURL) == Ok(t.backendsByName[n].rpcURL)
      && t.backendsByName[n].wsURL != "" && env.resolve(c.backends[n].wsURL) == Ok(t.backendsByName[n].wsURL)
      && t.backendsByName[n].limiter == t.limiter
      && t.backendsByName[n].concurrencyCap == t.maxConcurrentRPCs
    ensures forall n | n in t.backendsByName ::
      OptionsFor(t.backendsByName[n].opts, c.backendOptions, c.backends[n],
        if c.backends[n].password != "" then env.resolve(c.backends[n].password).value else "",
        ConfigureBackendTLS(c.backends[n], env).value, env.proxydIP)
  {
    forall n | n in t.backendsByName
      ensures OptionsFor(t.backendsByName[n].opts, c.backendOptions, c.backends[n],
        if c.backends[n].password != "" then env.resolve(c.backends[n].password).value else "",
        ConfigureBackendTLS(c.backends[n], env).value, env.proxydIP)
    {
      assert BackendMatches(c, env, n, t.backendsByName[n], t.limiter, t.maxConcurrentRPCs);
    }
  }
}
