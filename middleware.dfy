/**
 * The middleware (`SecretHeader`): construction by `New` and the per-request
 * decision of `ServeHTTP` (cache hit, cache miss with a fetch, fetch failure).
 *
 * The Kubernetes API, the next handler, the request and the response writer
 * are modelled as small objects that record what the middleware does to them.
 * What the API answers is an input of each request.
 */
module SecretHeaderPlugin {
  import opened Wrappers
  import opened SecretCache
  import opened PluginConfig

  /** Request headers, one value per name; names are opaque (no case folding). */
  type Header = map<string, string>

  /** `http.StatusInternalServerError`. */
  const StatusInternalServerError := 500

  /**
   * What the secret read answers: an error (not found, denied, transport,
   * cancelled), or the secret's data together with the instant `at` at which
   * the read returned, which is when `set` reads the clock.
   */
  datatype FetchResult = FetchErr | Fetched(data: map<string, string>, at: int)

  /** A secret the middleware asked the Kubernetes API for. */
  datatype SecretRef = SecretRef(namespace: string, name: string)

  /** How creating the in-cluster Kubernetes client turns out. */
  datatype ClientSetup = ClientReady | InClusterConfigFails | NewForConfigFails

  /** Why `New` refuses to build the middleware. */
  datatype InitError = EmptyField(field: RequiredField) | InClusterConfigFailed | ClientCreationFailed

  /** How a request ends: handed to the next handler, or answered with an error status. */
  datatype Outcome = Forwarded | Rejected(status: int)

  /** What one pass through `ServeHTTP` does: the cache and headers afterwards, the outcome, whether the API was read. */
  datatype Step = Step(entry: Entry, header: Header, outcome: Outcome, fetched: bool)

  /**
   * The decision `ServeHTTP` makes, on values, for a request arriving at `now`:
   * a hit sets the header from the cache; a miss reads the secret, and either
   * rejects with 500 (read error or key absent) or caches the key's value
   * stamped with the instant the read returned, sets the header and forwards.
   * A request is never answered in any other way.
   */
  function Serve(e: Entry, secretKey: string, headerName: string, header: Header, now: int, answer: FetchResult): (s: Step)
    ensures s.outcome == Forwarded || s.outcome == Rejected(StatusInternalServerError)
  {
    var (cached, ok) := Lookup(e, now);
    if ok then Step(e, header[headerName := cached], Forwarded, false)
    else match answer
      case FetchErr => Step(e, header, Rejected(StatusInternalServerError), true)
      case Fetched(data, at) =>
        if secretKey !in data then Step(e, header, Rejected(StatusInternalServerError), true)
        else
          var value := data[secretKey];
          Step(Record(e, value, at), header[headerName := value], Forwarded, true)
  }

  /** A hit forwards with the cached value in the header, reads nothing from the API and leaves the cache as it was. */
  lemma HitUsesCache(e: Entry, secretKey: string, headerName: string, header: Header, now: int, answer: FetchResult)
    requires Lookup(e, now).1
    ensures var s := Serve(e, secretKey, headerName, header, now, answer);
      s.outcome == Forwarded && !s.fetched && s.entry == e && s.header == header[headerName := e.value]
  {
  }

  /** The API is read exactly on a miss, whatever it answers. */
  lemma FetchExactlyOnMiss(e: Entry, secretKey: string, headerName: string, header: Header, now: int, answer: FetchResult)
    ensures Serve(e, secretKey, headerName, header, now, answer).fetched <==> !Lookup(e, now).1
  {
  }

  /**
   * A miss whose read fails, or whose secret lacks the key, is rejected with
   * 500 and changes neither the cache nor the headers; these are the only rejections.
   */
  lemma FailedFetchRejects(e: Entry, secretKey: string, headerName: string, header: Header, now: int, answer: FetchResult)
    ensures var s := Serve(e, secretKey, headerName, header, now, answer);
      s.outcome.Rejected? <==> !Lookup(e, now).1 && (answer.FetchErr? || secretKey !in answer.data)
    ensures var s := Serve(e, secretKey, headerName, header, now, answer);
      s.outcome.Rejected? ==> s.outcome.status == StatusInternalServerError && s.entry == e && s.header == header
  {
  }

  /**
   * A miss whose secret holds the key caches that value stamped with the
   * instant the read returned (not the request's arrival), puts it in the
   * header and forwards.
   */
  lemma SuccessfulFetchCaches(e: Entry, secretKey: string, headerName: string, header: Header, now: int, data: map<string, string>, at: int)
    requires !Lookup(e, now).1
    requires secretKey in data
    ensures var s := Serve(e, secretKey, headerName, header, now, Fetched(data, at));
      s.outcome == Forwarded && s.fetched && s.entry == Record(e, data[secretKey], at)
      && s.header == header[headerName := data[secretKey]]
  {
  }

  /**
   * Whatever happens, no header other than the configured one changes, the
   * TTL stays, and a forwarded request carries what the cache holds afterwards.
   */
  lemma OnlyConfiguredHeaderChanges(e: Entry, secretKey: string, headerName: string, header: Header, now: int, answer: FetchResult)
    ensures var s := Serve(e, secretKey, headerName, header, now, answer);
      forall k :: k != headerName ==> (k in s.header <==> k in header) && (k in header ==> s.header[k] == header[k])
    ensures var s := Serve(e, secretKey, headerName, header, now, answer);
      s.entry.ttl == e.ttl && (s.outcome == Forwarded ==> headerName in s.header && s.header[headerName] == s.entry.value)
  {
  }

  /** The Kubernetes client; it records every secret read it is asked for. */
  class Client {
    var requests: seq<SecretRef>

    constructor ()
      ensures requests == []
    {
      requests := [];
    }

    /** `CoreV1().Secrets(namespace).Get(ctx, name)`; its answer is given. */
    method GetSecret(namespace: string, name: string, answer: FetchResult) returns (r: FetchResult)
      modifies this
      ensures requests == old(requests) + [SecretRef(namespace, name)]
      ensures r == answer
    {
      requests := requests + [SecretRef(namespace, name)];
      r := answer;
    }
  }

  /** The next handler in the chain; it records the headers of every request it receives. */
  class Next {
    var received: seq<Header>

    constructor ()
      ensures received == []
    {
      received := [];
    }

    method ServeHTTP(rw: ResponseWriter, req: Request)
      modifies this
      ensures received == old(received) + [req.header]
    {
      received := received + [req.header];
    }
  }

  /** An incoming request; only its headers matter here. */
  class Request {
    var header: Header

    constructor (header: Header)
      ensures this.header == header
    {
      this.header := header;
    }
  }

  /** The response writer; only the status the middleware writes is kept (None: nothing written). */
  class ResponseWriter {
    var status: Option<int>

    constructor ()
      ensures status == None
    {
      status := None;
    }

    /** `http.Error`: writes the status (the body text is not modelled). */
    method Error(code: int)
      modifies this
      ensures status == Some(code)
    {
      status := Some(code);
    }
  }

  /** The middleware instance. */
  class SecretHeader {
    const next: Next
    const name: string
    const config: Config
    const client: Client
    const cache: Cache

    constructor (next: Next, name: string, config: Config, client: Client, cache: Cache)
      ensures this.next == next && this.name == name && this.config == config
      ensures this.client == client && this.cache == cache
    {
      this.next := next;
      this.name := name;
      this.config := config;
      this.client := client;
      this.cache := cache;
    }

    /**
     * `ServeHTTP` for a request arriving at instant `now`, where `answer` is
     * what the Kubernetes API would answer if asked (and, on success, the
     * instant the read returned, which cannot precede the request). The
     * cache, headers and outcome follow `Serve`; the API is asked for the
     * configured secret only on a miss; the next handler is called once on
     * the success paths and never otherwise.
     */
    method ServeHTTP(rw: ResponseWriter, req: Request, now: int, answer: FetchResult)
      requires answer.Fetched? ==> now <= answer.at
      modifies rw, req, cache, client, next
      ensures var s := Serve(old(cache.State()), config.secretKey, config.headerName, old(req.header), now, answer);
        cache.State() == s.entry && req.header == s.header
      ensures var s := Serve(old(cache.State()), config.secretKey, config.headerName, old(req.header), now, answer);
        client.requests == old(client.requests) + (if s.fetched then [SecretRef(config.namespace, config.secretName)] else [])
      ensures var s := Serve(old(cache.State()), config.secretKey, config.headerName, old(req.header), now, answer);
        next.received == old(next.received) + (if s.outcome == Forwarded then [s.header] else [])
      ensures var s := Serve(old(cache.State()), config.secretKey, config.headerName, old(req.header), now, answer);
        rw.status == (if s.outcome.Rejected? then Some(s.outcome.status) else old(rw.status))
    {
      var cached, ok := cache.Get(now);
      if ok {
        req.header := req.header[config.headerName := cached];
        next.ServeHTTP(rw, req);
        return;
      }

      var secret := client.GetSecret(config.namespace, config.secretName, answer);
      if secret.FetchErr? {
        rw.Error(StatusInternalServerError);
        return;
      }

      if config.secretKey !in secret.data {
        rw.Error(StatusInternalServerError);
        return;
      }
      var value := secret.data[config.secretKey];

      cache.Set(value, secret.at);
      req.header := req.header[config.headerName := value];
      next.ServeHTTP(rw, req);
    }
  }

  /**
   * `New`: refuses an empty secret name, secret key or header name (the first
   * one in that order), then defaults the namespace in place, then creates the
   * Kubernetes client, and finally builds a middleware with an empty cache whose
   * TTL is `CacheTTL` seconds. Only the namespace of the configuration can change.
   */
  method New(next: Next, config: Config, name: string, setup: ClientSetup) returns (r: Result<SecretHeader, InitError>)
    modifies config
    ensures config.secretName == old(config.secretName) && config.secretKey == old(config.secretKey)
    ensures config.headerName == old(config.headerName) && config.cacheTTL == old(config.cacheTTL)
    ensures var missing := FirstMissing(old(config.secretName), old(config.secretKey), old(config.headerName));
      missing.Some? ==> r == Failure(EmptyField(missing.value)) && config.namespace == old(config.namespace)
    ensures var missing := FirstMissing(old(config.secretName), old(config.secretKey), old(config.headerName));
      missing.None? ==> config.namespace == NamespaceOrDefault(old(config.namespace))
    ensures var missing := FirstMissing(old(config.secretName), old(config.secretKey), old(config.headerName));
      missing.None? && setup == InClusterConfigFails ==> r == Failure(InClusterConfigFailed)
    ensures var missing := FirstMissing(old(config.secretName), old(config.secretKey), old(config.headerName));
      missing.None? && setup == NewForConfigFails ==> r == Failure(ClientCreationFailed)
    ensures r.Success? <==> FirstMissing(old(config.secretName), old(config.secretKey), old(config.headerName)).None? && setup == ClientReady
    ensures r.Success? ==>
      var h := r.value;
      fresh(h) && fresh(h.cache) && fresh(h.client)
      && h.next == next && h.name == name && h.config == config
      && h.cache.State() == Entry("", Never, config.cacheTTL * NanosPerSecond)
      && h.client.requests == []
  {
    var missing := FirstMissing(config.secretName, config.secretKey, config.headerName);
    if missing.Some? {
      return Failure(EmptyField(missing.value));
    }

    if config.namespace == "" {
      config.namespace := DefaultNamespace;
    }

    if setup == InClusterConfigFails {
      return Failure(InClusterConfigFailed);
    }
    if setup == NewForConfigFails {
      return Failure(ClientCreationFailed);
    }
    var client := new Client();

    var cache := new Cache(config.cacheTTL * NanosPerSecond);

    var h := new SecretHeader(next, name, config, client, cache);
    return Success(h);
  }
}
