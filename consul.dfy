/** consul.go: the discovery engine (server choice, one discovery cycle, one
    refresh of the cached node list, the bounded wait for the first list) and
    the per-request handler that rewrites a request to a discovered node.

    What the goroutine, the sleeps and the network decide is given as input:
    `health(q, k)` is the reply to the k-th health query of a cycle, and
    `published(k)` is the cached list as the polling loop sees it after k
    waits. */
module Discovery {
  import opened Base
  import opened Api
  import opened ConsulConfig
  import Retrier

  /** The pause between two looks at the cache. */
  const DefaultWaitInterval: Duration := 100 * Millisecond

  /** The polling loop gives up once its counter exceeds this. */
  const MaxWaitLoops: nat := 100

  const ErrDiscoveryTimeout: Error := Error("consul: cannot discover servers due to timeout")

  /** The model's own text for the 502 answer of the corrected handler when
      discovery gave an empty list and no error; the source has no such text
      and panics there instead. */
  const ErrNoNodes: Error := Error("consul: no healthy servers discovered")

  const StatusBadGateway: int := 502

  /** A load balancer: picks one of a non-empty list of nodes, or fails. */
  datatype Balancer = Balancer(balance: seq<string> -> Result<string>)

  /** The balancer only ever picks one of the nodes it is given. */
  ghost predicate PicksMember(b: Balancer)
  {
    forall nodes :: |nodes| > 0 && b.balance(nodes).Success? ==> b.balance(nodes).value in nodes
  }

  /** The server chosen for an attempt and whether servers remain after it;
      `IndexOutOfRange` is the panic of indexing an empty server list. */
  datatype Pick = Pick(server: ClientConfig, more: bool) | IndexOutOfRange

  /** The server for attempt cursor `index`: the server at that position, or
      the first one once the cursor has run past the end. */
  function NextConsulServer(servers: seq<ClientConfig>, index: nat): (p: Pick)
    ensures p.IndexOutOfRange? <==> |servers| == 0
    ensures p.Pick? ==> p.server == servers[if index < |servers| then index else 0]
    ensures p.Pick? ==> (p.more <==> index < |servers| - 1)
  {
    if index < |servers| then Pick(servers[index], index != |servers| - 1)
    else if |servers| == 0 then IndexOutOfRange
    else Pick(servers[0], false)
  }

  /** With no server configured the first attempt of a cycle indexes an
      empty list. A cycle's first attempt picks with cursor 0, as the loop of
      `Consul.UpdateNodes` does; the source starts that cycle even with zero
      servers, so this pick is the panic of its refresh goroutine. */
  lemma NoServersFirstAttemptPanics()
    ensures NextConsulServer([], 0).IndexOutOfRange?
  {
  }

  /** The error of each attempt of a cycle that always asks query `q`. */
  function AttemptErrors(health: (Query, nat) -> HealthReply, q: Query): nat -> Option<Error>
  {
    (k: nat) => health(q, k).err
  }

  /** The duplicate of MapConsulEntries that a discovery cycle uses. */
  method MapNodes(entries: seq<ServiceEntry>) returns (instances: seq<string>)
    ensures instances == MapEntries(entries)
  {
    var a := new string[|entries|];
    for i := 0 to |entries|
      invariant forall j :: 0 <= j < i ==> a[j] == Instance(entries[j])
    {
      var addr := entries[i].node.address;
      if entries[i].service.address != "" {
        addr := entries[i].service.address;
      }
      a[i] := Fmt.HostPort(addr, entries[i].service.port);
    }
    instances := a[..];
  }

  /** What GetNodes returns, with the number of waits it took. */
  datatype Fetched = Fetched(nodes: seq<string>, err: Option<Error>, waits: nat)

  /** The polling protocol from loop counter `loops` on: return the first
      list seen; give up when the counter has passed MaxWaitLoops. */
  function Poll(published: nat -> Option<seq<string>>, loops: nat): Fetched
    requires loops <= MaxWaitLoops + 1
    decreases MaxWaitLoops + 1 - loops
  {
    if published(loops).Some? then Fetched(published(loops).value, None, loops)
    else if loops > MaxWaitLoops then Fetched([], Some(ErrDiscoveryTimeout), loops)
    else Poll(published, loops + 1)
  }

  lemma {:induction false} PollSkipsEmptyLooks(published: nat -> Option<seq<string>>, loops: nat, k: nat)
    requires loops <= k <= MaxWaitLoops + 1
    requires forall j :: loops <= j < k ==> published(j).None?
    ensures Poll(published, loops) == Poll(published, k)
    decreases k - loops
  {
    if loops < k {
      PollSkipsEmptyLooks(published, loops + 1, k);
    }
  }

  /** A list first seen after k waits is returned as it is, with no error. */
  lemma PollReturnsFirstList(published: nat -> Option<seq<string>>, k: nat)
    requires k <= MaxWaitLoops + 1 && published(k).Some?
    requires forall j :: 0 <= j < k ==> published(j).None?
    ensures Poll(published, 0) == Fetched(published(k).value, None, k)
  {
    PollSkipsEmptyLooks(published, 0, k);
  }

  /** A cache that stays nil gives the timeout error after exactly 101 waits,
      which is about ten seconds of sleeping, not five. */
  lemma PollTimesOut(published: nat -> Option<seq<string>>)
    requires forall j :: 0 <= j <= MaxWaitLoops + 1 ==> published(j).None?
    ensures Poll(published, 0) == Fetched([], Some(ErrDiscoveryTimeout), MaxWaitLoops + 1)
    ensures Poll(published, 0).waits * DefaultWaitInterval == 10 * Second + 100 * Millisecond
  {
    PollSkipsEmptyLooks(published, 0, MaxWaitLoops + 1);
  }

  /** The cache as every look sees it when nothing refreshes it meanwhile. */
  function Unchanging(cache: Option<seq<string>>): nat -> Option<seq<string>>
  {
    _ => cache
  }

  /** Chooses the target among non-empty `nodes`: the first node when there
      is no balancer, otherwise whatever the balancer answers. */
  function GetTargetHost(balancer: Option<Balancer>, nodes: seq<string>): (r: Result<string>)
    requires |nodes| > 0
    ensures balancer.None? ==> r == Success(nodes[0])
    ensures balancer.Some? ==> r == balancer.value.balance(nodes)
  {
    if balancer.None? then Success(nodes[0]) else balancer.value.balance(nodes)
  }

  /** How a request ends: handed on untouched, handed on to a target, answered
      with a status, or the handler panicked. */
  datatype Outcome = PassedThrough | Forwarded(target: string) | StatusWritten(code: int, body: string) | Panicked

  /** The body of the 502 answer. */
  function BadGatewayBody(err: Option<Error>): string
  {
    if err.Some? then err.value.message else ErrNoNodes.message
  }

  /** The handler's decision as the source writes it: on an empty list with a
      nil error it calls `Error()` on the nil error. */
  function HandleOutcomeAsWritten(instanceCount: nat, fetched: Fetched, balancer: Option<Balancer>): (o: Outcome)
    ensures o.Panicked? <==> instanceCount > 0 && fetched.err.None? && |fetched.nodes| == 0
    ensures o.StatusWritten? ==> fetched.err.Some? && o == StatusWritten(StatusBadGateway, fetched.err.value.message)
  {
    if instanceCount == 0 then PassedThrough
    else if fetched.err.Some? || |fetched.nodes| == 0 then
      if fetched.err.None? then Panicked else StatusWritten(StatusBadGateway, fetched.err.value.message)
    else
      match GetTargetHost(balancer, fetched.nodes)
      case Failure(_) => PassedThrough
      case Success(target) => Forwarded(target)
  }

  /** The handler's decision: pass through without servers; 502 when
      discovery failed or found nothing; pass through when the balancer
      fails; otherwise forward to the balancer's target. */
  function HandleOutcome(instanceCount: nat, fetched: Fetched, balancer: Option<Balancer>): (o: Outcome)
    ensures !o.Panicked?
    ensures o.StatusWritten? <==> instanceCount > 0 && (fetched.err.Some? || |fetched.nodes| == 0)
    ensures o.StatusWritten? ==> o.code == StatusBadGateway
    ensures o.PassedThrough? <==>
      (instanceCount == 0 ||
       (fetched.err.None? && |fetched.nodes| > 0 && GetTargetHost(balancer, fetched.nodes).Failure?))
    ensures o.Forwarded? ==>
      (fetched.err.None? && |fetched.nodes| > 0 && GetTargetHost(balancer, fetched.nodes) == Success(o.target))
  {
    if instanceCount == 0 then PassedThrough
    else if fetched.err.Some? || |fetched.nodes| == 0 then StatusWritten(StatusBadGateway, BadGatewayBody(fetched.err))
    else
      match GetTargetHost(balancer, fetched.nodes)
      case Failure(_) => PassedThrough
      case Success(target) => Forwarded(target)
  }

  /** The source panics exactly on a configured handler that got an empty
      list with no error, and agrees with the corrected handler everywhere else. */
  lemma AsWrittenPanicsOnlyOnEmptyList(instanceCount: nat, fetched: Fetched, balancer: Option<Balancer>)
    ensures HandleOutcomeAsWritten(instanceCount, fetched, balancer).Panicked? <==>
      (instanceCount > 0 && fetched.err.None? && |fetched.nodes| == 0)
    ensures !HandleOutcomeAsWritten(instanceCount, fetched, balancer).Panicked? ==>
      HandleOutcomeAsWritten(instanceCount, fetched, balancer) == HandleOutcome(instanceCount, fetched, balancer)
  {
  }

  /** A forwarded request goes to one of the discovered nodes, whenever the
      balancer picks among the nodes it is given. */
  lemma ForwardedTargetIsDiscovered(instanceCount: nat, fetched: Fetched, balancer: Option<Balancer>)
    requires balancer.Some? ==> PicksMember(balancer.value)
    requires HandleOutcome(instanceCount, fetched, balancer).Forwarded?
    ensures HandleOutcome(instanceCount, fetched, balancer).target in fetched.nodes
  {
  }

  /** The scenario of TestConsulSimpleClient: one configured server whose
      cache holds the one instance 127.0.0.1:80; the request goes there. */
  lemma ForwardsToOnlyInstance(balancer: Option<Balancer>)
    requires balancer.Some? ==> PicksMember(balancer.value) && balancer.value.balance(["127.0.0.1:80"]).Success?
    ensures HandleOutcome(1, Poll(Unchanging(Some(MapEntries([LocalWebEntry]))), 0), balancer) == Forwarded("127.0.0.1:80")
  {
    MapLocalWebEntry();
    if balancer.Some? {
      assert balancer.value.balance(["127.0.0.1:80"]).value in ["127.0.0.1:80"];
    }
  }

  /** The parts of an `*http.Request` the handler rewrites. */
  class Request {
    var host: string
    var urlHost: string

    constructor (host: string, urlHost: string)
      ensures this.host == host && this.urlHost == urlHost
    {
      this.host := host;
      this.urlHost := urlHost;
    }
  }

  class Consul {
    /** The cached node list; `None` until the first refresh. */
    var nodes: Option<seq<string>>
    var config: Config
    var retrier: Retrier.Backoff
    var balancer: Option<Balancer>

    /** New: a client with the default retrier and the given default
        balancer, and nothing cached yet. */
    constructor (config: Config, defaultBalancer: Balancer)
      ensures this.config == config && retrier == Retrier.DefaultRetrier
      ensures balancer == Some(defaultBalancer) && nodes.None?
    {
      this.config := config;
      retrier := Retrier.DefaultRetrier;
      balancer := Some(defaultBalancer);
      nodes := None;
    }

    /** The health query for `server` with this config's service, tag and options. */
    function QueryTo(server: ClientConfig): Query
      reads this, config
    {
      Query(server, config.service, config.tag, config.queryOptions)
    }

    /** One discovery cycle: the retry loop of the retrier with the query
        closure inlined. The closure's cursor starts at 0 and is only ever
        reset to 0, so every attempt asks the first server. The result is the
        mapped entries of the last attempt with the retrier's error. */
    method UpdateNodes(health: (Query, nat) -> HealthReply) returns (found: seq<string>, err: Option<Error>, queries: seq<Query>)
      requires |config.instances| > 0
      ensures |queries| >= 1
      ensures forall q <- queries :: q == QueryTo(config.instances[0])
      ensures Retrier.IsRunOf(|retrier.waits|, AttemptErrors(health, queries[0]), err, |queries|)
      ensures found == MapEntries(health(queries[0], |queries|).entries)
    {
      var retries: nat := 0;
      var entries: seq<ServiceEntry> := [];
      var calls: nat := 0;
      var budget := |retrier.waits|;
      ghost var op := AttemptErrors(health, QueryTo(config.instances[0]));
      queries := [];
      err := None;
      while calls == 0 || (err.Some? && calls <= budget)
        invariant calls <= budget + 1
        invariant retries == 0
        invariant |queries| == calls
        invariant forall q <- queries :: q == QueryTo(config.instances[0])
        invariant forall k :: 1 <= k < calls ==> op(k).Some?
        invariant calls >= 1 ==> err == op(calls) && entries == health(QueryTo(config.instances[0]), calls).entries
        decreases budget + 1 - calls
      {
        calls := calls + 1;
        var pick := NextConsulServer(config.instances, retries);
        if !pick.more {
          retries := 0;
        }
        var q := QueryTo(pick.server);
        queries := queries + [q];
        var reply := health(q, calls);
        entries := reply.entries;
        err := reply.err;
      }
      assert queries[0] in queries;
      found := MapNodes(entries);
    }

    /** One turn of the refresh loop: the cache becomes exactly what the
        cycle returned, error or not, empty or not. With no server configured
        the cycle is skipped. */
    method RefreshStep(health: (Query, nat) -> HealthReply) returns (err: Option<Error>, queries: seq<Query>)
      modifies this`nodes
      ensures |config.instances| == 0 ==> nodes == old(nodes) && err.None? && queries == []
      ensures |config.instances| > 0 ==>
        (|queries| >= 1 &&
         (forall q <- queries :: q == QueryTo(config.instances[0])) &&
         Retrier.IsRunOf(|retrier.waits|, AttemptErrors(health, queries[0]), err, |queries|) &&
         nodes == Some(MapEntries(health(queries[0], |queries|).entries)))
    {
      if |config.instances| == 0 {
        return None, [];
      }
      var found;
      found, err, queries := UpdateNodes(health);
      nodes := Some(found);
    }

    /** Polls the cache until it holds a list, giving up after the counter
        passes MaxWaitLoops. */
    method GetNodes(published: nat -> Option<seq<string>>) returns (fetched: Fetched)
      requires published(0) == nodes
      ensures fetched == Poll(published, 0)
    {
      var loops := 0;
      while published(loops).None?
        invariant loops <= MaxWaitLoops + 1
        invariant Poll(published, loops) == Poll(published, 0)
        decreases MaxWaitLoops + 1 - loops
      {
        if loops > MaxWaitLoops {
          return Fetched([], Some(ErrDiscoveryTimeout), loops);
        }
        loops := loops + 1;
      }
      return Fetched(published(loops).value, None, loops);
    }

    /** Handles one request; `nextCalls` counts the calls of the next
        handler. */
    method HandleHTTP(r: Request, published: nat -> Option<seq<string>>) returns (outcome: Outcome, nextCalls: nat)
      requires published(0) == nodes
      modifies r
      ensures outcome == HandleOutcome(|config.instances|, Poll(published, 0), balancer)
      ensures nextCalls == if outcome.StatusWritten? then 0 else 1
      ensures outcome.Forwarded? ==> r.host == outcome.target && r.urlHost == outcome.target
      ensures !outcome.Forwarded? ==> r.host == old(r.host) && r.urlHost == old(r.urlHost)
    {
      nextCalls := 0;
      if |config.instances| == 0 {
        nextCalls := nextCalls + 1;
        return PassedThrough, nextCalls;
      }
      var fetched := GetNodes(published);
      if fetched.err.Some? || |fetched.nodes| == 0 {
        return StatusWritten(StatusBadGateway, BadGatewayBody(fetched.err)), nextCalls;
      }
      var target := GetTargetHost(balancer, fetched.nodes);
      if target.Failure? {
        nextCalls := nextCalls + 1;
        return PassedThrough, nextCalls;
      }
      r.host := target.value;
      r.urlHost := target.value;
      nextCalls := nextCalls + 1;
      return Forwarded(target.value), nextCalls;
    }
  }

  /** A Consul server whose every health reply is the one instance of
      TestConsulSimpleClient. */
  function LocalWebHealth(q: Query, k: nat): HealthReply
  {
    HealthReply([LocalWebEntry], None)
  }

  /** The scenario of TestConsulSimpleClient end to end: one configured
      server answers every health query with the one instance 127.0.0.1:80;
      after a refresh, a request is rewritten to that instance and handed on
      once. */
  method SimpleClientExample(parse: string -> Result<Url>, defaults: ClientConfig, roundRobin: Balancer)
    returns (outcome: Outcome, nextCalls: nat, host: string, urlHost: string)
    requires parse("http://consul.io") == Success(Url("http", "consul.io"))
    requires roundRobin.balance(["127.0.0.1:80"]) == Success("127.0.0.1:80")
    ensures outcome == Forwarded("127.0.0.1:80") && nextCalls == 1
    ensures host == "127.0.0.1:80" && urlHost == "127.0.0.1:80"
  {
    var config := new Config("web", ["http://consul.io"], parse, defaults);
    assert "http://consul.io" in ["http://consul.io"];
    assert |config.instances| == 1;
    var consul := new Consul(config, roundRobin);
    var err, queries := consul.RefreshStep(LocalWebHealth);
    assert consul.nodes == Some(MapEntries([LocalWebEntry]));
    assert |consul.config.instances| == 1 && consul.balancer == Some(roundRobin);
    var req := new Request("", "");
    var cached := Unchanging(consul.nodes);
    assert cached == Unchanging(Some(MapEntries([LocalWebEntry])));
    outcome, nextCalls := consul.HandleHTTP(req, cached);
    MapLocalWebEntry();
    assert outcome == Forwarded("127.0.0.1:80");
    host, urlHost := req.host, req.urlHost;
  }

  /** A server whose every health query fails with `e`. */
  function FailingHealth(e: Error): (Query, nat) -> HealthReply
  {
    (q: Query, k: nat) => HealthReply([], Some(e))
  }

  /** One configured server whose every health query fails: the refresh
      makes RetryTimes + 1 queries, returns the error and caches an empty,
      non-nil list. The next request then finds that list at once; the
      handler as written panics on it, the corrected one answers 502. */
  method FailedRefreshExample(parse: string -> Result<Url>, defaults: ClientConfig, roundRobin: Balancer, e: Error)
    returns (err: Option<Error>, calls: nat, cached: Option<seq<string>>, asWritten: Outcome, corrected: Outcome)
    requires parse("http://consul.io") == Success(Url("http", "consul.io"))
    ensures calls == Retrier.RetryTimes + 1 && err == Some(e)
    ensures cached == Some([])
    ensures asWritten == Panicked
    ensures corrected == StatusWritten(StatusBadGateway, ErrNoNodes.message)
  {
    var config := new Config("web", ["http://consul.io"], parse, defaults);
    assert "http://consul.io" in ["http://consul.io"];
    assert |config.instances| == 1;
    var consul := new Consul(config, roundRobin);
    var queries;
    err, queries := consul.RefreshStep(FailingHealth(e));
    calls := |queries|;
    assert |consul.retrier.waits| == Retrier.RetryTimes;
    assert AttemptErrors(FailingHealth(e), queries[0])(calls) == Some(e);
    cached := consul.nodes;
    assert |consul.config.instances| == 1;
    asWritten := HandleOutcomeAsWritten(|consul.config.instances|, Poll(Unchanging(cached), 0), consul.balancer);
    var req := new Request("", "");
    var nextCalls;
    corrected, nextCalls := consul.HandleHTTP(req, Unchanging(cached));
  }
}
