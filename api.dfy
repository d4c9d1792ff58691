/** The records the core exchanges with the Consul client library and with
    `net/url`. Only the fields the core reads or writes are kept. */
module Api {
  import opened Base

  /** The catalogue node an entry runs on (`consul.Node`). */
  datatype Node = Node(name: string, address: string)

  /** The registered service instance (`consul.AgentService`); `address` is
      empty when the instance did not register an address of its own. */
  datatype AgentService = AgentService(service: string, address: string, port: int)

  /** One healthy instance as the health endpoint reports it (`consul.ServiceEntry`). */
  datatype ServiceEntry = ServiceEntry(node: Node, service: AgentService)

  /** A `*http.Client` value, told apart by identity. */
  datatype HttpClient = HttpClient(id: nat)

  /** `consul.HttpBasicAuth`. */
  datatype HttpBasicAuth = HttpBasicAuth(username: string, password: string)

  /** `consul.QueryOptions`, passed through to the health query untouched. */
  datatype QueryOptions = QueryOptions(parameters: map<string, string>)

  /** `consul.Config`: how to reach one Consul server. */
  datatype ClientConfig = ClientConfig(
    address: string,
    scheme: string,
    datacenter: string,
    httpClient: Option<HttpClient>,
    httpAuth: Option<HttpBasicAuth>,
    waitTime: Duration,
    token: string)

  /** The parts of a parsed `*url.URL` that the core reads. */
  datatype Url = Url(scheme: string, host: string)

  /** One health query: the server asked and the arguments of `Health`. */
  datatype Query = Query(server: ClientConfig, service: string, tag: string, options: Option<QueryOptions>)

  /** What `Health` returns: the entries and the error, as Go returns both. */
  datatype HealthReply = HealthReply(entries: seq<ServiceEntry>, err: Option<Error>)
}
