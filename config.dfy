/** config.go: the discovery configuration, the per-server client configs
    built from it, and the default entry mapper.

    `url.Parse` is the parameter `parse`; `consul.DefaultConfig()`, which reads
    the process environment, is the parameter `defaults`. */
module ConsulConfig {
  import opened Base
  import opened Api
  import opened Fmt

  /** How often the background job asks Consul again. */
  const DefaultRefreshTime: Duration := 5 * Minute

  /** The address an entry is reached at: the service's own address when it
      registered one, otherwise the address of its node. */
  function EntryAddress(e: ServiceEntry): string
  {
    if e.service.address != "" then e.service.address else e.node.address
  }

  /** The `"host:port"` string of one entry. */
  function Instance(e: ServiceEntry): string
  {
    HostPort(EntryAddress(e), e.service.port)
  }

  /** The instance strings of `entries`: one per entry, in the same order,
      each made from its own entry only. */
  function MapEntries(entries: seq<ServiceEntry>): (r: seq<string>)
    ensures |r| == |entries|
    ensures forall i :: 0 <= i < |entries| ==> r[i] == Instance(entries[i])
  {
    if entries == [] then [] else [Instance(entries[0])] + MapEntries(entries[1..])
  }

  /** Mapping a concatenation maps each part on its own. */
  lemma MapEntriesAppend(a: seq<ServiceEntry>, b: seq<ServiceEntry>)
    ensures MapEntries(a + b) == MapEntries(a) + MapEntries(b)
  {
  }

  /** Every instance string gives back the address and port of its entry. */
  lemma MapEntriesRecoverable(entries: seq<ServiceEntry>, i: nat)
    requires i < |entries|
    ensures SplitHostPort(MapEntries(entries)[i]) == Some((EntryAddress(entries[i]), entries[i].service.port))
  {
    HostPortRoundTrip(EntryAddress(entries[i]), entries[i].service.port);
  }

  /** The entry of the mapper test: node 127.0.0.1, no service address, port 80. */
  const LocalWebEntry: ServiceEntry :=
    ServiceEntry(Node("foo", "127.0.0.1"), AgentService("foo", "", 80))

  lemma MapLocalWebEntry()
    ensures MapEntries([LocalWebEntry]) == ["127.0.0.1:80"]
  {
    assert Digits(8) == "8";
    assert DecimalString(80) == "80";
    assert MapEntries([LocalWebEntry])[0] == "127.0.0.1:80";
  }

  /** The `Mapper` field: the default mapper or one supplied by the user. */
  datatype Mapper = DefaultMapper | CustomMapper(f: seq<ServiceEntry> -> seq<string>)

  /** Fills a slice of the entries' length, one instance string per entry. */
  method MapConsulEntries(entries: seq<ServiceEntry>) returns (instances: seq<string>)
    ensures instances == MapEntries(entries)
  {
    var a := new string[|entries|];
    for i := 0 to |entries|
      invariant forall j :: 0 <= j < i ==> a[j] == Instance(entries[j])
    {
      var addr := entries[i].node.address;
      if entries[i].service.address != "" {
        addr := entries[i].service.address;
      }
      a[i] := HostPort(addr, entries[i].service.port);
    }
    instances := a[..];
  }

  class Config {
    var service: string
    var tag: string
    var queryOptions: Option<QueryOptions>
    var instances: seq<ClientConfig>
    var datacenter: string
    var token: string
    var httpClient: Option<HttpClient>
    var httpAuth: Option<HttpBasicAuth>
    var waitTime: Duration
    var refreshTime: Duration
    var mapper: Mapper

    /** `c` is the client config for server `u`: its address and scheme come
        from `u`, and each of the five inherited fields is this config's value
        when that is set (non-zero), otherwise the library default's. */
    ghost predicate IsChildConfig(c: ClientConfig, u: Url, defaults: ClientConfig)
      reads this
    {
      && c.address == u.host
      && c.scheme == u.scheme
      && c.datacenter == (if datacenter != "" then datacenter else defaults.datacenter)
      && c.httpClient == (if httpClient.Some? then httpClient else defaults.httpClient)
      && c.httpAuth == (if httpAuth.Some? then httpAuth else defaults.httpAuth)
      && c.waitTime == (if waitTime != 0 then waitTime else defaults.waitTime)
      && c.token == (if token != "" then token else defaults.token)
    }

    /** NewConfig: a config for `service` whose servers are `servers`. The
        error of the nested SetServer call is dropped, so a URI that does not
        parse leaves the instance list empty. */
    constructor (service: string, servers: seq<string>, parse: string -> Result<Url>, defaults: ClientConfig)
      ensures this.service == service && tag == "" && queryOptions.None?
      ensures refreshTime == DefaultRefreshTime && mapper.DefaultMapper?
      ensures datacenter == "" && token == "" && httpClient.None? && httpAuth.None? && waitTime == 0
      ensures (forall uri <- servers :: parse(uri).Success?) ==>
        (|instances| == |servers| &&
         forall i :: 0 <= i < |servers| ==>
           instances[i] == defaults.(address := parse(servers[i]).value.host, scheme := parse(servers[i]).value.scheme))
      ensures !(forall uri <- servers :: parse(uri).Success?) ==> instances == []
    {
      this.service := service;
      tag := "";
      queryOptions := None;
      instances := [];
      datacenter := "";
      token := "";
      httpClient := None;
      httpAuth := None;
      waitTime := 0;
      refreshTime := DefaultRefreshTime;
      mapper := DefaultMapper;
      new;
      var _ := SetServer(servers, parse, defaults);
    }

    /** Builds one client config per URI, in order, and installs the list
        only when every URI parsed; otherwise returns the first parse error
        and leaves the instances as they were. */
    method SetServer(servers: seq<string>, parse: string -> Result<Url>, defaults: ClientConfig) returns (err: Option<Error>)
      modifies this`instances
      ensures err.None? <==> forall uri <- servers :: parse(uri).Success?
      ensures err.Some? ==> instances == old(instances)
      ensures err.Some? ==>
        exists i :: (0 <= i < |servers| && parse(servers[i]) == Failure(err.value) &&
                     forall j :: 0 <= j < i ==> parse(servers[j]).Success?)
      ensures err.None? ==>
        (|instances| == |servers| &&
         forall i :: 0 <= i < |servers| ==> IsChildConfig(instances[i], parse(servers[i]).value, defaults))
    {
      var built: seq<ClientConfig> := [];
      for i := 0 to |servers|
        invariant instances == old(instances)
        invariant |built| == i
        invariant forall j :: 0 <= j < i ==> parse(servers[j]).Success?
        invariant forall j :: 0 <= j < i ==> IsChildConfig(built[j], parse(servers[j]).value, defaults)
      {
        match parse(servers[i])
        case Failure(e) =>
          return Some(e);
        case Success(u) =>
          var child := NewConsulConfig(u, defaults);
          built := built + [child];
      }
      instances := built;
      return None;
    }

    /** Starts from the library defaults, takes address and scheme from `u`,
        then lays every non-zero inherited field of this config over them. */
    method NewConsulConfig(u: Url, defaults: ClientConfig) returns (config: ClientConfig)
      ensures IsChildConfig(config, u, defaults)
    {
      config := defaults;
      config := config.(address := u.host);
      config := config.(scheme := u.scheme);
      if datacenter != "" {
        config := config.(datacenter := datacenter);
      }
      if httpClient.Some? {
        config := config.(httpClient := httpClient);
      }
      if httpAuth.Some? {
        config := config.(httpAuth := httpAuth);
      }
      if waitTime != 0 {
        config := config.(waitTime := waitTime);
      }
      if token != "" {
        config := config.(token := token);
      }
    }
  }

  /** The configuration test: instances are snapshots taken when the servers
      are set, so a token or datacenter set on the config afterwards does not
      reach them. */
  method SnapshotExample(parse: string -> Result<Url>, defaults: ClientConfig)
    returns (service: string, refreshTime: Duration, token: string, datacenter: string, instances: seq<ClientConfig>)
    requires parse("http://foo.com") == Success(Url("http", "foo.com"))
    requires parse("http://bar.com") == Success(Url("http", "bar.com"))
    requires defaults.token == "" && defaults.datacenter == ""
    ensures service == "web" && refreshTime == DefaultRefreshTime
    ensures token == "foo" && datacenter == "foo"
    ensures |instances| == 2 && instances[0].address == "foo.com" && instances[1].address == "bar.com"
    ensures forall c <- instances :: c.token == "" && c.datacenter == ""
  {
    var config := new Config("web", ["http://foo.com", "http://bar.com"], parse, defaults);
    config.token := "foo";
    config.datacenter := "foo";
    assert |config.instances| == 2;
    service, refreshTime := config.service, config.refreshTime;
    token, datacenter, instances := config.token, config.datacenter, config.instances;
  }
}
