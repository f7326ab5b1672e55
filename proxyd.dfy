/** Start: validate the configuration and wire up backends, groups, the
    WebSocket group, authentication and the response cache. Go map iteration
    order is unspecified; each loop over a map picks the next key with `:|`. */
module Proxyd {
  import opened Outcomes
  import opened GoInt
  import opened ProxydConfig
  import opened Backends
  import opened Wiring

  datatype BackendTable = BackendTable(names: seq<string>, byName: map<string, Backend>)

  /** The loop over the backends table: build each backend, recording its
      name in `backendNames` and its object in `backendsByName`; stop at the
      first entry that fails. */
  method BuildBackends(c: Config, env: Env, lim: Limiter, cap: int64) returns (r: Result<BackendTable>)
    ensures r.Err? <==> BackendRejections(c, env) != {}
    ensures r.Err? ==> r.error in BackendRejections(c, env)
    ensures r.Ok? ==> BackendsBuilt(c, env, c.backends.Keys, r.value.names, r.value.byName, lim, cap)
  {
    var names: seq<string> := [];
    var byName: map<string, Backend> := map[];
    var todo := c.backends.Keys;
    ghost var done: set<string> := {};
    while todo != {}
      invariant done + todo == c.backends.Keys && done !! todo
      invariant BackendsBuilt(c, env, done, names, byName, lim, cap)
      decreases todo
    {
      var name :| name in todo;
      var built := BuildBackend(c, env, name, lim, cap);
      if built.Err? {
        assert built.error in BackendRejections(c, env);
        return Err(built.error);
      }
      var back := built.value;
      BackendsBuiltStep(c, env, done, names, byName, lim, cap, name, back);
      names := names + [name];
      byName := byName[name := back];
      todo := todo - {name};
      done := done + {name};
    }
    BuiltBackendsNotRejected(c, env, names, byName, lim, cap);
    return Ok(BackendTable(names, byName));
  }

  /** One iteration of the backends loop: resolve the URLs, reject an empty
      one, collect the options in their fixed order (resolving the password
      and building the TLS setup on the way) and create the Backend. */
  method BuildBackend(c: Config, env: Env, name: string, lim: Limiter, cap: int64) returns (r: Result<Backend>)
    requires name in c.backends
    ensures r.Err? <==> ConfigureBackend(name, c.backends[name], c.backendOptions, env).Err?
    ensures r.Err? ==> r.error == ConfigureBackend(name, c.backends[name], c.backendOptions, env).error
    ensures r.Ok? ==> BackendMatches(c, env, name, r.value, lim, cap)
  {
    var cfg := c.backends[name];
    var o := c.backendOptions;
    var rpcURL :- env.resolve(cfg.rpcURL);
    var wsURL :- env.resolve(cfg.wsURL);
    if rpcURL == "" {
      return Err(MissingRPCURL(name));
    }
    if wsURL == "" {
      return Err(MissingWSURL(name));
    }

    var opts :- CollectOptions(cfg, o, env);
    var back := new Backend(name, rpcURL, wsURL, lim, cap, opts);
    return Ok(back);
  }

  /** The appends of the loop body, in the source's order. */
  method CollectOptions(cfg: BackendConfig, o: BackendOptions, env: Env) returns (r: Result<seq<BackendOpt>>)
    ensures r == ConfigureOptions(cfg, o, env)
  {
    // the password and TLS setup the later appends will use, if they succeed
    ghost var password := if cfg.password != "" && env.resolve(cfg.password).Ok? then env.resolve(cfg.password).value else "";
    ghost var tls := if ConfigureBackendTLS(cfg, env).Ok? then ConfigureBackendTLS(cfg, env).value else None;
    ghost var ip := env.proxydIP;

    var opts := LimitOptions(cfg, o, password, tls, ip);
    if cfg.password != "" {
      var passwordVal :- env.resolve(cfg.password);
      opts := opts + [WithBasicAuth(cfg.username, passwordVal)];
    }
    assert opts == AppendedUpTo(7, o, cfg, password, tls, ip);
    var tlsConfig :- ConfigureBackendTLS(cfg, env);
    if tlsConfig.Some? {
      opts := opts + [WithTLSConfig(tlsConfig.value)];
    }
    assert opts == AppendedUpTo(8, o, cfg, password, tls, ip);
    if cfg.stripTrailingXFF {
      opts := opts + [WithStrippedTrailingXFF];
    }
    assert opts == AppendedUpTo(9, o, cfg, password, tls, ip);
    opts := opts + [WithProxydIP(env.proxydIP)];
    assert opts == BackendOpts(o, cfg, password, tls, ip);
    return Ok(opts);
  }

  /** The first six appends: the shared timeout, retry, response-size and
      out-of-service options, then the backend's own rate and connection
      limits. None of them can fail. */
  method LimitOptions(cfg: BackendConfig, o: BackendOptions, ghost password: string, ghost tls: Option<TLSConfig>,
                      ghost ip: string) returns (opts: seq<BackendOpt>)
    ensures opts == AppendedUpTo(6, o, cfg, password, tls, ip)
  {
    opts := [];
    if o.responseTimeoutSeconds != 0 {
      opts := opts + [WithTimeout(SecondsToDuration(o.responseTimeoutSeconds))];
    }
    assert opts == AppendedUpTo(1, o, cfg, password, tls, ip);
    if o.maxRetries != 0 {
      opts := opts + [WithMaxRetries(o.maxRetries)];
    }
    assert opts == AppendedUpTo(2, o, cfg, password, tls, ip);
    if o.maxResponseSizeBytes != 0 {
      opts := opts + [WithMaxResponseSize(o.maxResponseSizeBytes)];
    }
    assert opts == AppendedUpTo(3, o, cfg, password, tls, ip);
    if o.outOfServiceSeconds != 0 {
      opts := opts + [WithOutOfServiceDuration(SecondsToDuration(o.outOfServiceSeconds))];
    }
    assert opts == AppendedUpTo(4, o, cfg, password, tls, ip);
    if cfg.maxRPS != 0 {
      opts := opts + [WithMaxRPS(cfg.maxRPS)];
    }
    assert opts == AppendedUpTo(5, o, cfg, password, tls, ip);
    if cfg.maxWSConns != 0 {
      opts := opts + [WithMaxWSConns(cfg.maxWSConns)];
    }
  }

  /** Adding one more built backend keeps the tables consistent. */
  lemma BackendsBuiltStep(c: Config, env: Env, done: set<string>, names: seq<string>, byName: map<string, Backend>,
                          lim: Limiter, cap: int64, name: string, back: Backend)
    requires BackendsBuilt(c, env, done, names, byName, lim, cap)
    requires name in c.backends && name !in done
    requires BackendMatches(c, env, name, back, lim, cap)
    ensures BackendsBuilt(c, env, done + {name}, names + [name], byName[name := back], lim, cap)
  {
    assert name !in names;
  }

  lemma BuiltBackendsNotRejected(c: Config, env: Env, names: seq<string>, byName: map<string, Backend>, lim: Limiter, cap: int64)
    requires BackendsBuilt(c, env, c.backends.Keys, names, byName, lim, cap)
    ensures BackendRejections(c, env) == {}
  {
    forall n | n in c.backends
      ensures BackendAcceptable(c.backends[n], env)
    {
      assert BackendMatches(c, env, n, byName[n], lim, cap);
    }
    BackendRejectionsEmpty(c, env);
  }

  /** The inner loop over one group's member names: the Backend of each, in
      order, or an error for the first name that is not a backend. */
  method CollectMembers(members: seq<string>, byName: map<string, Backend>) returns (r: Result<seq<Backend>>)
    ensures r.Ok? <==> forall i | 0 <= i < |members| :: members[i] in byName
    ensures r.Err? ==> r.error == UndefinedBackend(members[FirstUndefined(members, byName.Keys).value])
    ensures r.Ok? ==>
      && |r.value| == |members|
      && forall i | 0 <= i < |members| :: r.value[i] == byName[members[i]]
  {
    var backends: seq<Backend> := [];
    for i := 0 to |members|
      invariant |backends| == i
      invariant forall j | 0 <= j < i :: members[j] in byName && backends[j] == byName[members[j]]
    {
      if members[i] !in byName {
        return Err(UndefinedBackend(members[i]));
      }
      backends := backends + [byName[members[i]]];
    }
    return Ok(backends);
  }

  /** The loop over the backend groups: one BackendGroup per entry, holding
      the shared Backend objects its members name. */
  method BuildGroups(config: map<string, seq<string>>, byName: map<string, Backend>) returns (r: Result<map<string, BackendGroup>>)
    ensures r.Err? <==> GroupRejections(config, byName.Keys) != {}
    ensures r.Err? ==> r.error in GroupRejections(config, byName.Keys)
    ensures r.Ok? ==> GroupsBuilt(config, config.Keys, byName, r.value)
  {
    var groups: map<string, BackendGroup> := map[];
    var todo := config.Keys;
    while todo != {}
      invariant todo <= config.Keys
      invariant GroupsBuilt(config, config.Keys - todo, byName, groups)
      invariant forall g | g in config.Keys - todo :: FirstUndefined(config[g], byName.Keys).None?
      decreases todo
    {
      var name :| name in todo;
      var members := CollectMembers(config[name], byName);
      if members.Err? {
        assert members.error in GroupRejections(config, byName.Keys);
        return Err(members.error);
      }
      var group := new BackendGroup(name, members.value);
      groups := groups[name := group];
      todo := todo - {name};
    }
    assert config.Keys - todo == config.Keys;
    GroupRejectionsEmpty(config, byName.Keys);
    return Ok(groups);
  }

  /** The loop over the method mappings: every target must be a group. */
  method CheckMappings(mappings: map<string, string>, groups: set<string>) returns (r: Option<Error>)
    ensures r.None? <==> MappingRejections(mappings, groups) == {}
    ensures r.Some? ==> r.value in MappingRejections(mappings, groups)
  {
    var todo := mappings.Keys;
    while todo != {}
      invariant todo <= mappings.Keys
      invariant forall m | m in mappings.Keys - todo :: mappings[m] in groups
      decreases todo
    {
      var method_ :| method_ in todo;
      if mappings[method_] !in groups {
        assert UndefinedGroup(mappings[method_]) in MappingRejections(mappings, groups);
        return Some(UndefinedGroup(mappings[method_]));
      }
      todo := todo - {method_};
    }
    MappingRejectionsEmpty(mappings, groups);
    return None;
  }

  /** The loop over the authentication table: store each alias under its
      resolved secret. */
  method ResolveAuth(auth: map<string, string>, resolve: string -> Result<string>) returns (r: Result<map<string, string>>)
    ensures r.Err? <==> AuthRejections(auth, resolve) != {}
    ensures r.Err? ==> r.error in AuthRejections(auth, resolve)
    ensures r.Ok? ==> AuthResolved(auth, auth.Keys, resolve, r.value)
  {
    var resolved: map<string, string> := map[];
    var todo := auth.Keys;
    while todo != {}
      invariant todo <= auth.Keys
      invariant AuthResolved(auth, auth.Keys - todo, resolve, resolved)
      decreases todo
    {
      var secret :| secret in todo;
      var resolvedSecret := resolve(secret);
      if resolvedSecret.Err? {
        assert resolvedSecret.error in AuthRejections(auth, resolve);
        return Err(resolvedSecret.error);
      }
      resolved := resolved[resolvedSecret.value := auth[secret]];
      todo := todo - {secret};
    }
    assert auth.Keys - todo == auth.Keys;
    AuthRejectionsEmpty(auth, resolve);
    return Ok(resolved);
  }

  /** Start, up to the construction of the server: reject the configuration
      with one of the errors it warrants, or return the wired topology. */
  method Start(c: Config, env: Env) returns (r: Result<Topology>)
    ensures r.Err? <==> Rejections(c, env) != {}
    ensures r.Ok? <==> Acceptable(c, env)
    ensures r.Err? ==> r.error in Rejections(c, env)
    ensures r.Ok? ==> Wired(c, env, r.value)
    // the first three checks come before anything is resolved
    ensures c.backends == map[] ==> r == Err(NoBackends)
    ensures c.backends != map[] && c.backendGroups == map[] ==> r == Err(NoBackendGroups)
    ensures c.backends != map[] && c.backendGroups != map[] && c.rpcMethodMappings == map[] ==> r == Err(NoMethodMappings)
    ensures c.backends != map[] && c.backendGroups != map[] && c.rpcMethodMappings != map[] && HasNoneAuthKey(c) ==>
      r == Err(NoneAuthKey)
  {
    RejectionsEmptyIffAcceptable(c, env);
    if c.backends == map[] {
      return Err(NoBackends);
    }
    if c.backendGroups == map[] {
      return Err(NoBackendGroups);
    }
    if c.rpcMethodMappings == map[] {
      return Err(NoMethodMappings);
    }
    if c.authentication.Some? && "none" in c.authentication.value {
      return Err(NoneAuthKey);
    }

    var redisURL := "";
    if c.redisURL != "" {
      var resolved := env.resolve(c.redisURL);
      if resolved.Err? {
        return Err(resolved.error);
      }
      redisURL := resolved.value;
    }
    assert redisURL == RedisURL(c, env);
    var lim := LimiterFor(redisURL);
    var messages := ErrorMessagesFor(c);
    var cap := ConcurrencyCap(c.server.maxConcurrentRPCs);

    var backends := BuildBackends(c, env, lim, cap);
    if backends.Err? {
      return Err(backends.error);
    }
    var byName := backends.value.byName;

    var groups := BuildGroups(c.backendGroups, byName);
    if groups.Err? {
      return Err(groups.error);
    }

    var parts :- FinishWiring(c, env, redisURL, groups.value);
    return Ok(Topology(lim, messages, cap, backends.value.names, byName, groups.value,
                       parts.wsBackendGroup, parts.resolvedAuth, parts.cache));
  }

  /** The rest of Start once the backends and groups exist: the WebSocket
      group, the method mappings, authentication and the response cache. */
  method FinishWiring(c: Config, env: Env, redisURL: string, groups: map<string, BackendGroup>)
    returns (r: Result<ServerParts>)
    requires redisURL == RedisURL(c, env) && groups.Keys == c.backendGroups.Keys
    ensures r.Err? <==> LateRejections(c, env) != {}
    ensures r.Err? ==> r.error in LateRejections(c, env)
    ensures r.Ok? ==> PartsWired(c, env, groups, r.value)
  {
    var wsGroup: Option<BackendGroup> := None;
    if c.wsBackendGroup != "" {
      if c.wsBackendGroup !in groups {
        return Err(MissingWSGroup(c.wsBackendGroup));
      }
      wsGroup := Some(groups[c.wsBackendGroup]);
    }
    if wsGroup.None? && c.server.wsPort != 0 {
      return Err(WSPortWithoutGroup);
    }

    var unmapped := CheckMappings(c.rpcMethodMappings, groups.Keys);
    if unmapped.Some? {
      return Err(unmapped.value);
    }

    var resolvedAuth: Option<map<string, string>> := None;
    if c.authentication.Some? {
      var auth := ResolveAuth(c.authentication.value, env.resolve);
      if auth.Err? {
        return Err(auth.error);
      }
      resolvedAuth := Some(auth.value);
    }

    var cache :- SetupCache(c.cache, env, redisURL);

    return Ok(ServerParts(wsGroup, resolvedAuth, cache));
  }

  /** The response cache: none when caching is off; otherwise the block-sync
      URL must be set and resolve, and the cache lives in Redis when a Redis
      URL is in effect and in memory when not. */
  method SetupCache(cache: CacheConfig, env: Env, redisURL: string) returns (r: Result<Option<CacheSetup>>)
    ensures r.Ok? <==> !cache.enabled || (cache.blockSyncRPCURL != "" && env.resolve(cache.blockSyncRPCURL).Ok?)
    ensures !cache.enabled ==> r == Ok(None)
    ensures cache.enabled && cache.blockSyncRPCURL == "" ==> r == Err(NoBlockSyncURL)
    ensures cache.enabled && cache.blockSyncRPCURL != "" && env.resolve(cache.blockSyncRPCURL).Err? ==>
      r == Err(env.resolve(cache.blockSyncRPCURL).error)
    ensures r.Ok? && cache.enabled ==>
      && r.value.Some?
      && env.resolve(cache.blockSyncRPCURL) == Ok(r.value.value.blockSyncRPCURL)
      && r.value.value.store == (if redisURL == "" then MemoryStore else RedisStore(redisURL))
      && r.value.value.numBlockConfirmations == cache.numBlockConfirmations
  {
    if cache.enabled {
      if cache.blockSyncRPCURL == "" {
        return Err(NoBlockSyncURL);
      }
      var blockSync := env.resolve(cache.blockSyncRPCURL);
      if blockSync.Err? {
        return Err(blockSync.error);
      }
      var store := if redisURL != "" then RedisStore(redisURL) else MemoryStore;
      return Ok(Some(CacheSetup(blockSync.value, store, cache.numBlockConfirmations)));
    }
    return Ok(None);
  }
}
