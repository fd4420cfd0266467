/**
 * The repository's request scenarios, run through `New` and `ServeHTTP`
 * using nothing but their contracts: a secret found, a secret missing, a
 * key missing, two requests within the TTL, two requests with a zero TTL.
 */
module Scenarios {
  import opened Wrappers
  import opened PluginConfig
  import opened SecretCache
  import opened SecretHeaderPlugin
  import opened Replay

  /** The configuration the scenarios use, on top of `CreateConfig`'s defaults. */
  method ScenarioConfig(secretName: string, secretKey: string, cacheTTL: int) returns (config: Config)
    ensures fresh(config)
    ensures config.secretName == secretName && config.secretKey == secretKey
    ensures config.headerName == "X-Auth-Token" && config.namespace == "default" && config.cacheTTL == cacheTTL
  {
    config := new Config.Create();
    config.secretName := secretName;
    config.secretKey := secretKey;
    config.headerName := "X-Auth-Token";
    config.namespace := "default";
    config.cacheTTL := cacheTTL;
  }

  /** A request for a secret that holds the key: the next handler is called once and sees the secret's value. */
  method SecretFound(now: int) returns (header: string, forwarded: nat, status: Option<int>)
    ensures header == "my-secret-token" && forwarded == 1 && status == None
  {
    var config := ScenarioConfig("my-secret", "token", DefaultCacheTTL);
    var next := new Next();
    var r := New(next, config, "test-middleware", ClientReady);
    var h := r.value;
    var rw := new ResponseWriter();
    var req := new Request(map[]);
    h.ServeHTTP(rw, req, now, Fetched(map["token" := "my-secret-token"], now));
    header := next.received[0]["X-Auth-Token"];
    forwarded := |next.received|;
    status := rw.status;
  }

  /** A request when the secret cannot be read: status 500, the next handler never called, nothing cached. */
  method SecretMissing(now: int) returns (forwarded: nat, status: Option<int>, cached: bool)
    ensures forwarded == 0 && status == Some(StatusInternalServerError) && !cached
  {
    var config := ScenarioConfig("missing-secret", "token", DefaultCacheTTL);
    var next := new Next();
    var r := New(next, config, "test-middleware", ClientReady);
    var h := r.value;
    var rw := new ResponseWriter();
    var req := new Request(map[]);
    h.ServeHTTP(rw, req, now, FetchErr);
    forwarded := |next.received|;
    status := rw.status;
    var _, hit := h.cache.Get(now);
    cached := hit;
  }

  /** A request whose secret lacks the configured key: status 500, the next handler never called, nothing cached. */
  method KeyMissing(now: int) returns (forwarded: nat, status: Option<int>, cached: bool)
    ensures forwarded == 0 && status == Some(StatusInternalServerError) && !cached
  {
    var config := ScenarioConfig("my-secret", "missing-key", DefaultCacheTTL);
    var next := new Next();
    var r := New(next, config, "test-middleware", ClientReady);
    var h := r.value;
    var rw := new ResponseWriter();
    var req := new Request(map[]);
    h.ServeHTTP(rw, req, now, Fetched(map["other-key" := "some-value"], now));
    forwarded := |next.received|;
    status := rw.status;
    var _, hit := h.cache.Get(now);
    cached := hit;
  }

  /**
   * A request at `t1` whose read returns at `done`, then one at `t2` within
   * 300 seconds of that: one API read, both forwarded with the same value,
   * whatever the API would have answered the second time.
   */
  method TwoRequestsWithinTtl(t1: int, done: int, t2: int, second: FetchResult) returns (apiReads: nat, first: string, again: string, forwarded: nat)
    requires t1 <= done <= t2 <= done + DefaultCacheTTL * NanosPerSecond
    requires second.Fetched? ==> t2 <= second.at
    ensures apiReads == 1 && forwarded == 2
    ensures first == "my-secret-token" && again == "my-secret-token"
  {
    var config := ScenarioConfig("my-secret", "token", DefaultCacheTTL);
    var next := new Next();
    var r := New(next, config, "test-middleware", ClientReady);
    var h := r.value;
    var rw1 := new ResponseWriter();
    var req1 := new Request(map[]);
    h.ServeHTTP(rw1, req1, t1, Fetched(map["token" := "my-secret-token"], done));
    var rw2 := new ResponseWriter();
    var req2 := new Request(map[]);
    h.ServeHTTP(rw2, req2, t2, second);
    apiReads := |h.client.requests|;
    forwarded := |next.received|;
    first := next.received[0]["X-Auth-Token"];
    again := next.received[1]["X-Auth-Token"];
  }

  /** Two requests with a TTL of zero, the second arriving after the first one's read returned: the API is read for each. */
  method TwoRequestsWithoutTtl(t1: int, done: int, t2: int) returns (apiReads: nat, forwarded: nat)
    requires t1 <= done < t2
    ensures apiReads == 2 && forwarded == 2
  {
    var config := ScenarioConfig("my-secret", "token", 0);
    var next := new Next();
    var r := New(next, config, "test-middleware", ClientReady);
    var h := r.value;
    var rw1 := new ResponseWriter();
    var req1 := new Request(map[]);
    h.ServeHTTP(rw1, req1, t1, Fetched(map["token" := "my-secret-token"], done));
    var rw2 := new ResponseWriter();
    var req2 := new Request(map[]);
    h.ServeHTTP(rw2, req2, t2, Fetched(map["token" := "my-secret-token"], t2));
    apiReads := |h.client.requests|;
    forwarded := |next.received|;
  }

  /** `CreateConfig` alone is refused by `New`: the secret name is reported, and the namespace is left empty. */
  method DefaultConfigRefused() returns (r: Result<SecretHeader, InitError>, namespace: string)
    ensures r == Failure(EmptyField(SecretName)) && namespace == ""
  {
    var config := new Config.Create();
    var next := new Next();
    r := New(next, config, "test-middleware", ClientReady);
    namespace := config.namespace;
  }

  /** A failing client setup is reported after the namespace has already been defaulted in place. */
  method ClientFailureAfterDefault() returns (r: Result<SecretHeader, InitError>, namespace: string)
    ensures r == Failure(InClusterConfigFailed) && namespace == DefaultNamespace
  {
    var config := new Config.Create();
    config.secretName, config.secretKey, config.headerName := "my-secret", "token", "X-Auth-Token";
    var next := new Next();
    r := New(next, config, "test-middleware", InClusterConfigFails);
    namespace := config.namespace;
  }

  /**
   * Two requests served one after the other by the same middleware do what
   * `Run` says of them: the cache and both requests' headers end as its steps
   * say, and the API log grows by exactly `FetchCount` reads of the
   * configured secret.
   */
  method ServeTwice(h: SecretHeader, rw1: ResponseWriter, req1: Request, now1: int, answer1: FetchResult,
                    rw2: ResponseWriter, req2: Request, now2: int, answer2: FetchResult)
    requires req1 != req2
    requires answer1.Fetched? ==> now1 <= answer1.at
    requires answer2.Fetched? ==> now2 <= answer2.at
    modifies h.cache, h.client, h.next, rw1, req1, rw2, req2
    ensures var steps := Run(old(h.cache.State()), h.config.secretKey, h.config.headerName,
                             [Incoming(now1, old(req1.header), answer1), Incoming(now2, old(req2.header), answer2)]);
      h.cache.State() == steps[1].entry && req1.header == steps[0].header && req2.header == steps[1].header
    ensures var steps := Run(old(h.cache.State()), h.config.secretKey, h.config.headerName,
                             [Incoming(now1, old(req1.header), answer1), Incoming(now2, old(req2.header), answer2)]);
      var ref := SecretRef(h.config.namespace, h.config.secretName);
      h.client.requests == old(h.client.requests) + seq(FetchCount(steps), _ => ref)
  {
    ghost var e := h.cache.State();
    ghost var rs := [Incoming(now1, req1.header, answer1), Incoming(now2, req2.header, answer2)];
    ghost var ref := SecretRef(h.config.namespace, h.config.secretName);
    ghost var log := h.client.requests;
    h.ServeHTTP(rw1, req1, now1, answer1);
    ghost var s1 := Serve(e, h.config.secretKey, h.config.headerName, rs[0].header, now1, answer1);
    h.ServeHTTP(rw2, req2, now2, answer2);
    ghost var s2 := Serve(s1.entry, h.config.secretKey, h.config.headerName, rs[1].header, now2, answer2);
    RunCons(e, h.config.secretKey, h.config.headerName, rs);
    RunCons(s1.entry, h.config.secretKey, h.config.headerName, rs[1..]);
    ghost var steps := Run(e, h.config.secretKey, h.config.headerName, rs);
    assert steps[0] == s1 && steps[1] == s2;
    assert FetchCount(steps) == (if s1.fetched then 1 else 0) + (if s2.fetched then 1 else 0);
    assert h.client.requests
        == log + (if s1.fetched then [ref] else []) + (if s2.fetched then [ref] else []);
    assert seq(FetchCount(steps), _ => ref)
        == (if s1.fetched then [ref] else []) + (if s2.fetched then [ref] else []);
  }
}
