/**
 * Sequences of requests through one middleware instance, each request
 * starting from the cache the previous one left: what the cache buys
 * (one read while the TTL lasts), what a zero TTL costs (one read per
 * request), and where injected header values come from.
 */
module Replay {
  import opened SecretCache
  import opened SecretHeaderPlugin

  /** One request: its instant, its incoming headers and what the API would answer it. */
  datatype Incoming = Incoming(now: int, header: Header, answer: FetchResult)

  /** The steps of `ServeHTTP` over a sequence of requests, one per request. */
  function Run(e: Entry, secretKey: string, headerName: string, rs: seq<Incoming>): (steps: seq<Step>)
    ensures |steps| == |rs|
    decreases |rs|
  {
    if rs == [] then []
    else
      var s := Serve(e, secretKey, headerName, rs[0].header, rs[0].now, rs[0].answer);
      [s] + Run(s.entry, secretKey, headerName, rs[1..])
  }

  /** The number of steps that read the secret from the API; never more than one per request. */
  function FetchCount(steps: seq<Step>): (n: nat)
    ensures n <= |steps|
  {
    if steps == [] then 0 else (if steps[0].fetched then 1 else 0) + FetchCount(steps[1..])
  }

  /** The value a request's answer offers for the key, if the read succeeded and the key is there. */
  function Offered(r: Incoming, secretKey: string): set<string>
  {
    if r.answer.Fetched? && secretKey in r.answer.data then {r.answer.data[secretKey]} else {}
  }

  /** What a request obtained from the API for the key: its answer's value, but only if its step read the API. */
  function Obtained(s: Step, r: Incoming, secretKey: string): set<string>
  {
    if s.fetched then Offered(r, secretKey) else {}
  }

  /** Every value the API returned for the key to the requests of `rs` whose steps in `steps` read it. */
  function Supplied(secretKey: string, rs: seq<Incoming>, steps: seq<Step>): set<string>
    requires |steps| == |rs|
  {
    if rs == [] then {} else Obtained(steps[0], rs[0], secretKey) + Supplied(secretKey, rs[1..], steps[1..])
  }

  /** What a cache can hand out without a read: its value once it has been written. */
  function Held(e: Entry): set<string>
  {
    if e.lastFetch.At? then {e.value} else {}
  }

  /** Unfolds the first request of a run. */
  lemma RunCons(e: Entry, secretKey: string, headerName: string, rs: seq<Incoming>)
    requires rs != []
    ensures var s := Serve(e, secretKey, headerName, rs[0].header, rs[0].now, rs[0].answer);
      Run(e, secretKey, headerName, rs)[0] == s
      && Run(e, secretKey, headerName, rs)[1..] == Run(s.entry, secretKey, headerName, rs[1..])
      && FetchCount(Run(e, secretKey, headerName, rs))
         == (if s.fetched then 1 else 0) + FetchCount(Run(s.entry, secretKey, headerName, rs[1..]))
  {
    var s := Serve(e, secretKey, headerName, rs[0].header, rs[0].now, rs[0].answer);
    assert ([s] + Run(s.entry, secretKey, headerName, rs[1..]))[1..] == Run(s.entry, secretKey, headerName, rs[1..]);
  }

  /** While every request falls inside the cache's lifetime, no request reads the API and all carry the cached value. */
  lemma {:induction false} HitsWhileFresh(e: Entry, secretKey: string, headerName: string, rs: seq<Incoming>)
    requires forall i :: 0 <= i < |rs| ==> Fresh(e, rs[i].now)
    ensures FetchCount(Run(e, secretKey, headerName, rs)) == 0
    ensures forall i :: 0 <= i < |rs| ==>
      Run(e, secretKey, headerName, rs)[i] == Step(e, rs[i].header[headerName := e.value], Forwarded, false)
    decreases |rs|
  {
    if rs != [] {
      RunCons(e, secretKey, headerName, rs);
      HitsWhileFresh(e, secretKey, headerName, rs[1..]);
      var steps := Run(e, secretKey, headerName, rs);
      forall i | 0 <= i < |rs|
        ensures steps[i] == Step(e, rs[i].header[headerName := e.value], Forwarded, false)
      {
        if i > 0 {
          assert steps[i] == steps[1..][i - 1];
          assert rs[i] == rs[1..][i - 1];
        }
      }
    }
  }

  /**
   * A first request that misses and reads the secret successfully, followed
   * by requests arriving after that read returned and within the TTL of it,
   * costs exactly one API read, and every request carries the value read.
   */
  lemma {:induction false} OneFetchWithinTtl(e: Entry, secretKey: string, headerName: string, rs: seq<Incoming>)
    requires |rs| > 0 && e.ttl >= 0
    requires !Fresh(e, rs[0].now)
    requires rs[0].answer.Fetched? && secretKey in rs[0].answer.data
    requires forall i :: 1 <= i < |rs| ==> rs[0].answer.at <= rs[i].now <= rs[0].answer.at + e.ttl
    ensures FetchCount(Run(e, secretKey, headerName, rs)) == 1
    ensures forall i :: 0 <= i < |rs| ==>
      Run(e, secretKey, headerName, rs)[i].outcome == Forwarded
      && Run(e, secretKey, headerName, rs)[i].header == rs[i].header[headerName := rs[0].answer.data[secretKey]]
  {
    var v := rs[0].answer.data[secretKey];
    var written := Record(e, v, rs[0].answer.at);
    RunCons(e, secretKey, headerName, rs);
    assert Serve(e, secretKey, headerName, rs[0].header, rs[0].now, rs[0].answer).entry == written;
    forall j | 0 <= j < |rs[1..]| ensures Fresh(written, rs[1..][j].now) {
      assert rs[1..][j] == rs[j + 1];
    }
    HitsWhileFresh(written, secretKey, headerName, rs[1..]);
    var steps := Run(e, secretKey, headerName, rs);
    forall i | 0 <= i < |rs|
      ensures steps[i].outcome == Forwarded && steps[i].header == rs[i].header[headerName := v]
    {
      if i > 0 {
        assert steps[i] == steps[1..][i - 1];
        assert rs[i] == rs[1..][i - 1];
      }
    }
  }

  /**
   * With a zero or negative TTL and a clock that advances between requests
   * (each request arriving after the previous one's read returned), every
   * request reads the API, whatever the answers are.
   */
  lemma {:induction false} EveryRequestFetches(e: Entry, secretKey: string, headerName: string, rs: seq<Incoming>)
    requires e.ttl <= 0
    requires forall i, j :: 0 <= i < j < |rs| ==> rs[i].now < rs[j].now
    requires forall i, j :: 0 <= i < j < |rs| && rs[i].answer.Fetched? ==> rs[i].answer.at < rs[j].now
    requires |rs| > 0 && e.lastFetch.At? ==> e.lastFetch.time < rs[0].now
    ensures FetchCount(Run(e, secretKey, headerName, rs)) == |rs|
    decreases |rs|
  {
    if rs != [] {
      var s := Serve(e, secretKey, headerName, rs[0].header, rs[0].now, rs[0].answer);
      RunCons(e, secretKey, headerName, rs);
      assert s.fetched;
      assert s.entry.ttl == e.ttl;
      assert s.entry.lastFetch == e.lastFetch || (rs[0].answer.Fetched? && s.entry.lastFetch == At(rs[0].answer.at));
      if |rs| > 1 {
        assert rs[1..][0] == rs[1];
        assert rs[1].now > rs[0].now;
        assert rs[0].answer.Fetched? ==> rs[0].answer.at < rs[1].now;
      }
      forall i, j | 0 <= i < j < |rs[1..]|
        ensures rs[1..][i].now < rs[1..][j].now
        ensures rs[1..][i].answer.Fetched? ==> rs[1..][i].answer.at < rs[1..][j].now
      {
        assert rs[1..][i] == rs[i + 1] && rs[1..][j] == rs[j + 1];
      }
      EveryRequestFetches(s.entry, secretKey, headerName, rs[1..]);
    }
  }

  /**
   * While the secret cannot be read (read error or key absent), the cache
   * never changes: requests in its lifetime are served from it, all others
   * are rejected with 500.
   */
  lemma {:induction false} UnreadableSecretKeepsCache(e: Entry, secretKey: string, headerName: string, rs: seq<Incoming>)
    requires forall i :: 0 <= i < |rs| ==> rs[i].answer.FetchErr? || secretKey !in rs[i].answer.data
    ensures forall i :: 0 <= i < |rs| ==> Run(e, secretKey, headerName, rs)[i].entry == e
    ensures forall i :: 0 <= i < |rs| ==>
      Run(e, secretKey, headerName, rs)[i].outcome
      == (if Fresh(e, rs[i].now) then Forwarded else Rejected(StatusInternalServerError))
    decreases |rs|
  {
    if rs != [] {
      RunCons(e, secretKey, headerName, rs);
      forall j | 0 <= j < |rs[1..]|
        ensures rs[1..][j].answer.FetchErr? || secretKey !in rs[1..][j].answer.data
      {
        assert rs[1..][j] == rs[j + 1];
      }
      UnreadableSecretKeepsCache(e, secretKey, headerName, rs[1..]);
      var steps := Run(e, secretKey, headerName, rs);
      forall i | 0 <= i < |rs|
        ensures steps[i].entry == e
        ensures steps[i].outcome == (if Fresh(e, rs[i].now) then Forwarded else Rejected(StatusInternalServerError))
      {
        if i > 0 {
          assert steps[i] == steps[1..][i - 1];
          assert rs[i] == rs[1..][i - 1];
        }
      }
    }
  }

  /**
   * One request hands out only what the cache held or what it obtained by
   * reading the API itself, and the cache keeps nothing else; an answer the
   * request never asked for (a hit) contributes nothing.
   */
  lemma StepProvenance(e: Entry, secretKey: string, headerName: string, r: Incoming)
    ensures var s := Serve(e, secretKey, headerName, r.header, r.now, r.answer);
      Held(s.entry) <= Held(e) + Obtained(s, r, secretKey)
      && (s.outcome == Forwarded ==>
            headerName in s.header && s.header[headerName] in Held(e) + Obtained(s, r, secretKey))
  {
  }

  /**
   * Every header value the middleware injects was held by the cache at the
   * start or returned by the API for the configured key to this or an
   * earlier request that read it; for a new middleware (empty cache) only
   * the latter.
   */
  lemma {:induction false} HeaderComesFromStore(e: Entry, secretKey: string, headerName: string, rs: seq<Incoming>)
    ensures forall i :: 0 <= i < |rs| && Run(e, secretKey, headerName, rs)[i].outcome == Forwarded ==>
      headerName in Run(e, secretKey, headerName, rs)[i].header
      && Run(e, secretKey, headerName, rs)[i].header[headerName]
         in Held(e) + Supplied(secretKey, rs[..i + 1], Run(e, secretKey, headerName, rs)[..i + 1])
    decreases |rs|
  {
    if rs != [] {
      var s := Serve(e, secretKey, headerName, rs[0].header, rs[0].now, rs[0].answer);
      RunCons(e, secretKey, headerName, rs);
      StepProvenance(e, secretKey, headerName, rs[0]);
      HeaderComesFromStore(s.entry, secretKey, headerName, rs[1..]);
      var steps := Run(e, secretKey, headerName, rs);
      forall i | 0 <= i < |rs| && steps[i].outcome == Forwarded
        ensures headerName in steps[i].header
        ensures steps[i].header[headerName] in Held(e) + Supplied(secretKey, rs[..i + 1], steps[..i + 1])
      {
        var prefix, done := rs[..i + 1], steps[..i + 1];
        assert prefix[0] == rs[0] && prefix[1..] == rs[1..][..i];
        assert done[0] == steps[0] && done[1..] == steps[1..][..i];
        assert Supplied(secretKey, prefix, done)
            == Obtained(s, rs[0], secretKey) + Supplied(secretKey, rs[1..][..i], steps[1..][..i]);
        if i > 0 {
          assert steps[i] == steps[1..][i - 1];
        }
      }
    }
  }
}
