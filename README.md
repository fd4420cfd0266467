# Kubernetes secret header middleware — Dafny model

A model of the Traefik middleware plugin `k8ssecretheader`: on every request
it sets one configured header to the value of one key of a Kubernetes Secret
and forwards the request, keeping the value in a per-instance cache with a
fixed time-to-live so that the Kubernetes API is not read on every request.

The model covers:

- the cache (`secretCache`): one value, the instant of its last write and a
  fixed TTL; `get` hits exactly while the elapsed time is at most the TTL,
  `set` overwrites the value and stamps the current instant
  (module `SecretCache`, file `cache.dfy`);
- the configuration (`Config`, `CreateConfig`) and the pure checks of `New`:
  the required fields in their checking order, the namespace default
  (module `PluginConfig`, file `config.dfy`);
- `New` and `ServeHTTP` (module `SecretHeaderPlugin`, file `middleware.dfy`):
  a function `Serve` gives the decision of one request on values (hit, miss
  with a failed read, miss with the key absent, miss with the key present),
  and the class `SecretHeader` carries it out on objects: the cache, the
  request's header map, a Kubernetes client that logs the reads it is asked
  for, a next handler that logs the headers it receives and a response writer
  that keeps the status written by `http.Error`;
- sequences of requests through one instance (module `Replay`, file
  `replay.dfy`), proved by induction: one API read per TTL window, one read
  per request with a zero TTL, the cache untouched while the secret cannot be
  read, and every injected header value coming from the cache or the API;
- the repository's test scenarios as client methods that use only the
  contracts of `New` and `ServeHTTP` (module `Scenarios`, file `scenarios.dfy`).

Time is an integer clock in nanoseconds (the unit of Go's `time.Duration`),
passed to each operation; the TTL is `CacheTTL * 1_000_000_000`. What the
Kubernetes API answers is an input of each request (`FetchResult`); a
successful answer carries the instant at which the read returned, because
`get` reads the clock when the request arrives but `set` reads it again only
after the read, so the cache's lifetime starts when the read finished; that
instant is never earlier than the request's arrival. Whether the in-cluster
client can be created is an input of `New` (`ClientSetup`).

Behaviour of the code that the model keeps, and that is easy to get wrong:

- The code compares `time.Since(lastFetch) > ttl`, so a read at exactly the
  TTL still hits, and with a TTL of zero a read at the very instant of the
  write hits (`SecretCache.RecordThenLookup`); a zero TTL misses only once
  time has advanced (`SecretCache.NonPositiveTtlExpires`).
- There is no value prefix and no base64 decoding: the header is set to the
  secret's data for the key as it is.
- A negative `CacheTTL` is not rejected; such a cache never hits
  (`SecretCache.NegativeTtlNeverHits`).
- The namespace is defaulted in place after the field checks and before the
  client is created, so a failing client setup still leaves `"default"` in
  the caller's configuration (`Scenarios.ClientFailureAfterDefault`).
- The test file is written against a different version of the plugin (a
  different package name and an HTTP-based client type); only its scenarios
  are used.

## Model

| member | source | states |
|---|---|---|
| `SecretCache.Cache.constructor` | k8s_secret_header.go:96-98 | a new cache is empty, never written, with the given TTL |
| `SecretCache.Fresh` | k8s_secret_header.go:54 | a read is a hit exactly when the cache was written and the read is no later than the last write plus the TTL; the consequences are proved in `NeverWrittenMisses`, `NonPositiveTtlExpires`, `NegativeTtlNeverHits` and `ExpiryIsPermanent` |
| `SecretCache.Lookup` | k8s_secret_header.go:50-58 | `get` on values: a hit exactly when written and the elapsed time is at most the TTL; the cached value on a hit, the empty string on a miss; its round trip with `Record` is `LookupAfterRecord` and `RecordThenLookup` |
| `SecretCache.Record` | k8s_secret_header.go:60-66 | `set` on values: the value and stamp are replaced, the TTL is kept; what a later read sees is `LookupAfterRecord` |
| `SecretCache.Cache.Get` | k8s_secret_header.go:50-58 | answers as `Lookup` on the cache's state; changes nothing (no modifies clause) |
| `SecretCache.Cache.Set` | k8s_secret_header.go:60-66 | value becomes the argument and the stamp the current instant; the TTL is a constant |
| `SecretCache.NeverWrittenMisses` | k8s_secret_header.go:46-56 | a cache that was never written misses at every instant |
| `SecretCache.LookupAfterRecord` | k8s_secret_header.go:54-65 | after a write at t, a read at now >= t hits exactly while now <= t + ttl, and then returns the written value |
| `SecretCache.RecordThenLookup` | k8s_secret_header.go:54-65 | with a TTL >= 0 (zero included) a read at the instant of the write returns the written value |
| `SecretCache.NonPositiveTtlExpires` | k8s_secret_header.go:54-56 | with a TTL <= 0 every read strictly after the last write misses |
| `SecretCache.NegativeTtlNeverHits` | k8s_secret_header.go:54-56 | with a negative TTL no read on a non-decreasing clock hits |
| `SecretCache.ExpiryIsPermanent` | k8s_secret_header.go:54-56 | a miss stays a miss at every later instant until the next write |
| `PluginConfig.Config.Create` | k8s_secret_header.go:27-31 | `CreateConfig`: all strings empty, CacheTTL 300 |
| `PluginConfig.FirstMissing` | k8s_secret_header.go:70-78 | no error exactly when all three required fields are non-empty; otherwise the reported field is empty and every field checked before it is non-empty |
| `PluginConfig.NamespaceOrDefault` | k8s_secret_header.go:80-83 | the resulting namespace is never empty; a configured one is kept, an empty one becomes "default" |
| `SecretHeaderPlugin.Serve` | k8s_secret_header.go:112-157 | `ServeHTTP`'s decision on values; a request is either forwarded or rejected with 500, nothing else |
| `SecretHeaderPlugin.HitUsesCache` | k8s_secret_header.go:114-117 | on a hit: forwarded, no API read, cache unchanged, header set to the cached value |
| `SecretHeaderPlugin.FetchExactlyOnMiss` | k8s_secret_header.go:114-125 | the API is read exactly when the cache misses |
| `SecretHeaderPlugin.FailedFetchRejects` | k8s_secret_header.go:126-140 | a request is rejected exactly on a miss whose read fails or lacks the key; a rejection is status 500 with cache and headers unchanged |
| `SecretHeaderPlugin.SuccessfulFetchCaches` | k8s_secret_header.go:144-156 | a miss whose secret holds the key caches that value stamped with the instant the read returned, sets the header to it and forwards |
| `SecretHeaderPlugin.OnlyConfiguredHeaderChanges` | k8s_secret_header.go:115-154 | no header other than the configured one changes; the TTL stays; a forwarded request's header equals the value the cache holds afterwards |
| `SecretHeaderPlugin.Client.GetSecret` | k8s_secret_header.go:121-125 | each read is logged with the namespace and secret name asked for |
| `SecretHeaderPlugin.Next.ServeHTTP` | k8s_secret_header.go:116 | the next handler logs the headers of each request it receives |
| `SecretHeaderPlugin.ResponseWriter.Error` | k8s_secret_header.go:129 | `http.Error` records the status written |
| `SecretHeaderPlugin.SecretHeader.constructor` | k8s_secret_header.go:103-109 | the instance keeps the next handler, name, configuration, client and cache it is given |
| `SecretHeaderPlugin.SecretHeader.ServeHTTP` | k8s_secret_header.go:112-157 | for a read that returns no earlier than the request arrived, cache and headers afterwards follow `Serve` (the cache stamped when the read returned); the configured namespace/secret is read from the API only on a miss; the next handler is called once with the new headers when forwarded and not at all otherwise; status 500 is written exactly on rejection |
| `SecretHeaderPlugin.New` | k8s_secret_header.go:69-110 | the first empty required field is reported and the configuration left alone; otherwise the namespace is defaulted in place, then a client failure is reported; success exactly when all fields are set and the client is created, giving a fresh empty cache with TTL CacheTTL seconds and an unused client; only the namespace can change |
| `Replay.Run` | k8s_secret_header.go:112-157 | sequential requests, each starting from the cache the previous one left; one step per request |
| `Replay.FetchCount` | k8s_secret_header.go:120-125 | the number of API reads in a run, the quantity `OneFetchWithinTtl`, `EveryRequestFetches` and `Scenarios.ServeTwice` measure; a structural bound of one per step |
| `Replay.HitsWhileFresh` | k8s_secret_header.go:114-117 | requests all inside the cache's lifetime read nothing and all carry the cached value |
| `Replay.OneFetchWithinTtl` | k8s_secret_header_test.go:213-236 | a first successful miss followed by requests within the TTL of the instant its read returned costs exactly one API read, and all carry that read's value |
| `Replay.EveryRequestFetches` | k8s_secret_header_test.go:289-304 | with a TTL <= 0 and each request arriving after the previous one (and its read) finished, every request reads the API |
| `Replay.UnreadableSecretKeepsCache` | k8s_secret_header.go:126-140 | while the secret cannot be read the cache never changes; requests in its lifetime are forwarded, the others rejected with 500 |
| `Replay.StepProvenance` | k8s_secret_header.go:114-154 | one request injects and caches only what the cache held or what the API returned for the key to this request's own read; on a hit its answer contributes nothing |
| `Replay.HeaderComesFromStore` | k8s_secret_header.go:114-154 | every injected header value was held by the cache at the start or returned by the API for the key to this or an earlier request that actually read it |
| `Scenarios.SecretFound` | k8s_secret_header_test.go:53-69 | the next handler is called once and sees `X-Auth-Token: my-secret-token`; no error status |
| `Scenarios.SecretMissing` | k8s_secret_header_test.go:70-82 | status 500, next handler never called, nothing cached |
| `Scenarios.KeyMissing` | k8s_secret_header_test.go:83-98 | status 500, next handler never called, nothing cached |
| `Scenarios.TwoRequestsWithinTtl` | k8s_secret_header_test.go:213-241 | a second request within 300 s of the first one's read: one API read, both forwarded with the same value, whatever the second answer would be |
| `Scenarios.TwoRequestsWithoutTtl` | k8s_secret_header_test.go:289-304 | two requests with TTL 0, the second after the first one's read: two API reads |
| `Scenarios.ServeTwice` | k8s_secret_header_test.go:213-227 | two `ServeHTTP` calls in a row on one instance end as `Replay.Run` says: same cache and headers, and the API log grows by exactly `FetchCount` reads of the configured secret |
| `Scenarios.DefaultConfigRefused` | k8s_secret_header.go:70-72 | `New` on `CreateConfig`'s result alone reports the secret name and leaves the namespace empty |
| `Scenarios.ClientFailureAfterDefault` | k8s_secret_header.go:81-89 | a failing in-cluster config is reported after the namespace was already set to "default" |

## Left out

- Locking (`sync.RWMutex`) and parallel requests: the cache is modelled sequentially, so torn reads and redundant concurrent reads are not modelled.
- `rest.InClusterConfig` and `kubernetes.NewForConfig`: replaced by the `ClientSetup` input of `New`.
- The `CoreV1().Secrets().Get` network call and its cancellation by the request context: replaced by the `FetchResult` answer given to each request; every kind of read error is one `FetchErr`.
- Logging to stdout and stderr, and the body text of `http.Error`: I/O; only the status is kept.
- The `ctx` parameter of `New` (unused by it) and the use of `name` (only logged).
- SecretHeaderPlugin.New: the TTL is an unbounded integer; the int64 wrap-around of `time.Duration(CacheTTL) * time.Second` for a huge CacheTTL is not modelled.
- Wall-clock details of `time.Since` (monotonic versus wall time): the clock is an integer that the caller supplies; the zero `time.Time` of a new cache is `Never`, which always misses (Go's saturated `time.Since` is not modelled).
- `http.Header.Set` canonicalisation of header names and multi-valued headers: names are opaque strings with one value each.
- What the next handler itself does (the tests' handler writes 200): it only records the headers it receives.
- The test file's mock TLS server and base64 encoding: test scaffolding for a different client type.
