# proxyd start-up: configuration validation and topology wiring

This project models how proxyd's `Start` (proxyd/proxyd.go) checks a configuration and wires the proxy together. Start does these things in order:

- It rejects a configuration with no backends, no backend groups or no method mappings, or one that uses the literal `"none"` as an authentication key.
- It resolves the Redis URL and chooses the local or the Redis rate limiter.
- It records the three optional error-message overrides and defaults the concurrency cap.
- It builds one `Backend` per entry of the backends table. Each backend gets resolved RPC and WebSocket URLs and an ordered list of options.
- It builds one `BackendGroup` per group. A group holds the shared `Backend` objects its members name, in order.
- It picks the WebSocket group and checks the method mappings.
- It resolves the authentication table and sets up the response cache.

It also models the small helpers in the same file:

- `secondsToDuration`, with Go's 64-bit wrap-around;
- the branching of `configureBackendTLS`;
- the read function built by `makeUint64LastValueFn`, which turns the cached text into a `uint64` with `strconv.ParseUint(s, 10, 64)`;
- the block-number and gas-price updaters that write that text.

Modules:

- `Outcomes` (outcomes.dfy): `Option`, the `Error` values, and a `Result` that supports `:-`.
- `GoInt` (goint.dfy): `int64`/`uint64` and two's-complement wrap-around.
- `ProxydConfig` (config.dfy): the configuration fields Start reads, and `Env`. `Env` holds the collaborators defined outside proxyd.go: `ReadFromEnvOrConfig` (`resolve`), `CreateTLSClient`, `ParseKeyPair` and the `PROXYD_IP` variable. They are total functions, so every outcome, errors included, is a parameter. config.go is not part of this model; the records are taken from how proxyd.go uses them.
- `Backends` (backend.dfy): the per-backend part of Start. `ConfigureBackend` is the function that specifies one iteration of the backends loop. `OptionsFor` says exactly which option list a backend gets. `Backend` is a class, because groups and the WebSocket group share the very objects in `backendsByName`.
- `Wiring` (wiring.dfy): groups, the topology, and the rejection rules.
  - `Rejections(c, env)` is the set of errors Start may return. The checks run in the source's order and the first failing check decides. Where that check walks a Go map, whose iteration order is unspecified, any offending entry's error may be the one returned.
  - `Acceptable(c, env)` states the same rules unordered, as a conjunction.
  - `Wired` describes the topology built from an accepted configuration.
- `Proxyd` (proxyd.dfy): `Start` and its loops as imperative methods. Each loop over a Go map picks its next key with `:|`, so the proofs hold for every iteration order.
- `LastValue` (lastvalue.dfy): decimal formatting and `ParseUint`, the read function, the two updaters, and their round trips.

Two behaviours worth knowing:

- Start does not reject a group with no members (`Wiring.EmptyGroupsAccepted`).
- A stored last value that does not parse gives the error `strconv.ParseUint` returns: a syntax error or a range error (`Malformed` / `OutOfRange` here), whichever the left-to-right scan meets first.

## Model

| member | source | states |
|---|---|---|
| Proxyd.Start | proxyd/proxyd.go:20-203 | Start fails exactly when the configuration warrants an error, and the error it returns is one of those. It succeeds exactly when every rule of `Acceptable` holds, and then returns a topology satisfying `Wired`. The four checks on empty tables and the `"none"` key come first and decide the error before anything is resolved. |
| Wiring.RejectionsEmptyIffAcceptable | proxyd/proxyd.go:20-203 | The ordered checks reject nothing exactly when every rule holds. |
| Wiring.AcceptableNotRejected | proxyd/proxyd.go:20-203 | A configuration satisfying every rule is not rejected. |
| Wiring.RejectedUnlessAcceptable | proxyd/proxyd.go:20-203 | A configuration breaking any rule is rejected with some error. |
| Proxyd.BuildBackends | proxyd/proxyd.go:78-140 | The backends loop fails exactly when some entry is faulty, returning that entry's error. On success every configured name is listed exactly once, `backendsByName` has exactly the configured names as keys, and each backend is the one its entry specifies. |
| Proxyd.BackendsBuiltStep | proxyd/proxyd.go:136-138 | Appending a new name and storing its backend keeps the name list duplicate-free and in step with the map. |
| Proxyd.BuiltBackendsNotRejected | proxyd/proxyd.go:78-140 | Once every entry is built, no backend entry is faulty. |
| Proxyd.BuildBackend | proxyd/proxyd.go:83-137 | One loop iteration fails exactly when `ConfigureBackend` does, with the same error. Otherwise it creates a Backend with the resolved URLs, the shared limiter and cap, and the specified options. |
| Proxyd.CollectOptions | proxyd/proxyd.go:98-135 | The imperative appends, including password resolution and TLS setup, give exactly `ConfigureOptions`. |
| Proxyd.LimitOptions | proxyd/proxyd.go:98-115 | The options of the first six appends whose field is set, in order (zero to six options). |
| Backends.ConfigureBackend | proxyd/proxyd.go:83-135 | A backend entry is accepted exactly when both URLs resolve to non-empty strings, the password (if set) resolves, and TLS setup succeeds. The plan then carries the resolved URLs and an option list satisfying `OptionsFor`. The errors come in the source's order: RPC-URL resolution, then WS-URL resolution, then the empty RPC URL, then the empty WS URL, then the password or TLS error of `ConfigureOptions`. |
| Backends.ConfigureOptions | proxyd/proxyd.go:116-135 | The options are built exactly when the password and the TLS setup succeed. A password error is returned before a TLS error. |
| Backends.BackendOpts | proxyd/proxyd.go:98-135 | The option list satisfies `OptionsFor`: every option carries its configured value; every option whose field is non-zero, non-empty or true is present; at most one of each kind, in the fixed order; `WithProxydIP` always last. |
| Backends.AppendedOptionsFor | proxyd/proxyd.go:98-135 | The ten appends yield a list satisfying `OptionsFor`. |
| Backends.AppendedWellFormed | proxyd/proxyd.go:98-135 | After the first k appends every option is justified by the configuration, of rank below k, and in strictly increasing rank. |
| Backends.CandidateKept | proxyd/proxyd.go:98-135 | An option appended at step j is still in the list after every later step. |
| Backends.Candidate | proxyd/proxyd.go:98-135 | The option of the k-th append, when its condition holds, has rank k and carries the configured value. |
| Backends.AppendKeepsSorted | proxyd/proxyd.go:98-135 | Appending an option of higher rank than all before it keeps the ranks strictly increasing. |
| Backends.ProxydIPLast | proxyd/proxyd.go:135 | The unconditional `WithProxydIP` option is present and is the last option. |
| Backends.SharedOptionsPresent | proxyd/proxyd.go:98-110 | Each non-zero shared setting puts its option in the list: timeout, retries, response size, out-of-service period. |
| Backends.OwnOptionsPresent | proxyd/proxyd.go:111-132 | Each set field of the entry puts its option in the list: max RPS, max WS connections, basic auth with the resolved password, TLS, trailing-XFF stripping. |
| Backends.ConfigureBackendTLS | proxyd/proxyd.go:310-329 | No CA file means no TLS setup and no error. Otherwise setup succeeds exactly when the CA client loads and, if both client-cert files are named, the key pair loads. The key pair then replaces the certificates. A CA-client error is returned before the key pair is loaded; any other error is the key pair's. |
| Backends.SecondsToDuration | proxyd/proxyd.go:306-308 | Seconds times 10^9 nanoseconds: exact when the product fits in int64, and otherwise congruent to it modulo 2^64 (Go's wrap-around). |
| GoInt.Wrap64 | proxyd/proxyd.go:306-308 | The int64 congruent to x modulo 2^64; it is x itself when x fits. |
| Backends.Backend.constructor | proxyd/proxyd.go:136 | The new backend holds the given name, URLs, limiter, concurrency cap and options. |
| Wiring.ConcurrencyCap | proxyd/proxyd.go:72-75 | A configured cap of 0 becomes MaxInt64 and any other value is kept, so the cap is never 0. |
| Wiring.Override | proxyd/proxyd.go:62-70 | An error-message override applies exactly when the configured message is non-empty. |
| Wiring.ErrorMessagesFor | proxyd/proxyd.go:62-70 | Each of the rate-limit, not-whitelisted and batch messages is overridden exactly when its configured message is non-empty, and then by that message. |
| Wiring.RedisURL | proxyd/proxyd.go:37-44 | No configured Redis URL means no Redis; a configured one that resolves is used as resolved (a resolution error makes Start fail, see `Rejections`). |
| Wiring.LimiterFor | proxyd/proxyd.go:46-51 | The local limiter is chosen exactly when no Redis URL is in effect; otherwise the Redis limiter on that URL. |
| Wiring.FirstUndefined | proxyd/proxyd.go:144-148 | Returns the first member name that is not a defined backend, or none when all are defined. |
| Proxyd.CollectMembers | proxyd/proxyd.go:143-150 | A group's members are collected exactly when all are defined; otherwise the error names the first undefined member. On success the list has the configured length and holds, position by position, the `Backend` object of that name. |
| Proxyd.BuildGroups | proxyd/proxyd.go:142-156 | The groups loop fails exactly when some group names an undefined backend, returning such an error. On success every configured group is built, keeps its name and member order, and shares the backend objects. |
| Wiring.BackendGroup.constructor | proxyd/proxyd.go:151-154 | The group holds the given name and member objects. |
| Wiring.GroupRejectionsEmpty | proxyd/proxyd.go:142-150 | No group is rejected exactly when every member of every group is a defined backend. |
| Wiring.EmptyGroupsAccepted | proxyd/proxyd.go:142-150 | Groups with no members are never rejected. |
| Wiring.BackendRejectionsEmpty | proxyd/proxyd.go:80-135 | No backend entry is rejected exactly when every entry's URLs, password and TLS setup are acceptable. |
| Proxyd.FinishWiring | proxyd/proxyd.go:158-203 | The checks after group construction fail exactly when the late rules do. These are: the WS group exists if named; a WS port requires a WS group; mappings target existing groups; secrets resolve; caching has a block-sync URL that resolves. On success the WS group, authentication table and cache are as `PartsWired` states. |
| Proxyd.CheckMappings | proxyd/proxyd.go:170-174 | Returns no error exactly when every method maps to an existing group; otherwise it returns an `UndefinedGroup` error for some such target. |
| Wiring.MappingRejectionsEmpty | proxyd/proxyd.go:170-174 | No mapping is rejected exactly when every target group exists. |
| Proxyd.ResolveAuth | proxyd/proxyd.go:176-187 | Fails exactly when some secret fails to resolve, with that error. On success every secret's resolved value is a key, and each key maps to the alias of a secret resolving to it. |
| Wiring.AuthRejectionsEmpty | proxyd/proxyd.go:176-187 | No authentication entry is rejected exactly when every secret resolves. |
| Proxyd.SetupCache | proxyd/proxyd.go:194-216 | With caching off there is no cache. With caching on, an empty block-sync URL is an error, and so is a resolution error. Otherwise the cache uses the resolved URL, lives in Redis when a Redis URL is in effect and in memory otherwise, and keeps the configured confirmation depth. |
| Wiring.WiredBackends | proxyd/proxyd.go:78-140 | In a wired topology the backend map's keys are the configured names. Every name is listed once. Every backend has non-empty resolved RPC and WS URLs, shares the one limiter and cap, and carries exactly the option list `OptionsFor` prescribes for its entry. |
| LastValue.ReadUint64 | proxyd/proxyd.go:334-347 | A read error is passed on, and an empty value is an "unavailable" error for the key. Otherwise the result is the number when the text is all digits and at most 2^64 - 1, and a syntax or range error on that text when not. |
| LastValue.ParseUint10 | proxyd/proxyd.go:342-345 | Succeeds exactly on non-empty all-digit text spelling at most 2^64 - 1, giving that number. All-digit text that is too large is a range error. Text of at most twenty characters containing a non-digit is a syntax error. |
| LastValue.ScanAccepts | proxyd/proxyd.go:342-345 | The left-to-right scan ends with a value exactly when the text is all digits within range, and the value is the number spelled. |
| LastValue.ShortScanFits | proxyd/proxyd.go:342-345 | At most nineteen characters never overflow, and the value is below 10 to the length. |
| LastValue.OverflowNeedsDigits | proxyd/proxyd.go:342-345 | At most twenty characters overflow only when all are digits. |
| LastValue.LeadingNonDigit | proxyd/proxyd.go:342-345 | Text starting with a non-digit is a syntax error, however long. |
| LastValue.FormatDecimal | proxyd/proxyd.go:353 | `FormatUint(n, 10)` is canonical digit text (no leading zero) spelling n. |
| LastValue.CanonicalRoundTrip | proxyd/proxyd.go:353 | Formatting is the inverse of reading on canonical digit text. |
| LastValue.FormatThenParse | proxyd/proxyd.go:342-353 | Parsing formatted text gives n back when n fits in uint64, and a range error otherwise. |
| LastValue.BigIntString | proxyd/proxyd.go:363 | big.Int's decimal text: canonical digits spelling a non-negative value, or a minus sign followed by canonical digits spelling the magnitude of a negative one. |
| LastValue.BlockNumberUpdate | proxyd/proxyd.go:351-354 | The updater returns canonical decimal text of the block number and passes the client's error along with it. |
| LastValue.GasPriceUpdate | proxyd/proxyd.go:358-364 | On a client error the updater returns empty text with that error. Otherwise it returns the gas price's decimal text and no error. |
| LastValue.BlockNumberRoundTrip | proxyd/proxyd.go:334-354 | The read function returns exactly the block number whose text the updater returned. |
| LastValue.GasPriceRoundTrip | proxyd/proxyd.go:334-364 | The read function returns the gas price the updater wrote when it fits in uint64. A larger price reads as a range error and a negative one as a syntax error. |

## Left out

- Creating the Redis rate limiter, the Redis and in-memory caches and the compressing cache wrapper, and their failures (proxyd/proxyd.go:50-55, 209-216, 226). These are calls into code defined outside proxyd.go. The model records only which limiter and store Start chooses.
- Dialing the block-sync node with `ethclient.Dial` and its failure (proxyd/proxyd.go:218-222). This is network I/O; the cache setup holds the resolved URL instead.
- `NewServer` and its failure, the metrics, RPC and WebSocket listeners, the start-up timer and the shutdown function (proxyd/proxyd.go:228-303). These are concurrency and network I/O. `Start` stops where the topology is handed to `NewServer`.
- The last-value caches' background refresh loop (`newLVC`, `Start`, `Stop`) and the cache read itself. These are concurrency, and their code is not part of this model. The read function takes the read's outcome as a parameter, and each updater takes the node client's answer as a parameter.
- What `NewBackend` and `NewServer` do with their arguments. A backend is modelled by the values it is given.
- Logging, and the Go error strings themselves. Errors are constructors that carry the names the messages mention.
- The mutation of the global error values (proxyd/proxyd.go:62-70) is modelled as three optional overrides in the topology, not as shared state.
- Go's `int` is taken to be 64 bits wide.
- Backends.ConfigureBackendTLS: `CreateTLSClient` and `ParseKeyPair` are opaque functions of `Env`. Reading files and building the certificate pool are not modelled.
- What the last-value cache does with an update that carries an error (whether it keeps the last good value or stores the returned text) is not modelled; its code is not part of this model. The round-trip lemmas speak only of the text an updater returns, so after a client error the model says nothing about what a later read gives.
- Proxyd.Start: the topology does not model `rpcCache`'s `blockNumFn` and `gasPriceFn`, which are built from the last-value caches. `LastValue` models them on their own.
