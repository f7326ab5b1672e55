/** The part of proxyd's configuration that Start reads, and the collaborators
    it calls whose code is not part of this model. */
module ProxydConfig {
  import opened Outcomes
  import opened GoInt

  /** Options applied to every backend. */
  datatype BackendOptions = BackendOptions(
    responseTimeoutSeconds: int64,
    maxRetries: int64,
    maxResponseSizeBytes: int64,
    outOfServiceSeconds: int64)

  /** One entry of the backends table. URLs and the password are unresolved:
      each may name an environment variable or secret. */
  datatype BackendConfig = BackendConfig(
    username: string,
    password: string,
    rpcURL: string,
    wsURL: string,
    maxRPS: int64,
    maxWSConns: int64,
    caFile: string,
    clientCertFile: string,
    clientKeyFile: string,
    stripTrailingXFF: bool)

  datatype ServerConfig = ServerConfig(wsPort: int64, maxConcurrentRPCs: int64)

  datatype CacheConfig = CacheConfig(enabled: bool, blockSyncRPCURL: string, numBlockConfirmations: int64)

  /** The error-message overrides and Redis settings are flattened into the record. */
  datatype Config = Config(
    server: ServerConfig,
    cache: CacheConfig,
    redisURL: string,
    rateLimitErrorMessage: string,
    whitelistErrorMessage: string,
    batchErrorMessage: string,
    backendOptions: BackendOptions,
    backends: map<string, BackendConfig>,
    /** group name to the names of its members, in order */
    backendGroups: map<string, seq<string>>,
    /** RPC method to the name of the group that serves it */
    rpcMethodMappings: map<string, string>,
    wsBackendGroup: string,
    /** None when the authentication table is absent (a nil Go map); otherwise secret to alias */
    authentication: Option<map<string, string>>)

  datatype Certificate = Certificate(certFile: string, keyFile: string)

  datatype TLSConfig = TLSConfig(caFile: string, certificates: seq<Certificate>)

  /** What Start consults outside the configuration: ReadFromEnvOrConfig
      (`resolve`), CreateTLSClient, ParseKeyPair, and the PROXYD_IP
      environment variable. */
  datatype Env = Env(
    resolve: string -> Result<string>,
    createTLSClient: string -> Result<TLSConfig>,
    parseKeyPair: (string, string) -> Result<Certificate>,
    proxydIP: string)
}
