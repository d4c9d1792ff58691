# Consul service discovery middleware, modelled in Dafny

The Go package `consul` is an HTTP middleware that asks a Consul server for the
healthy instances of one service. It caches them as `"host:port"` strings and
rewrites each request's host to one of them. This project models its core and
proves what it does:

- **Entry mapping** (`mapNodes`, `MapConsulEntries`). One instance string per
  entry, in order. The service address is used when it is set, otherwise the
  node address, followed by `:` and the decimal port. The formatting is written
  out (`Fmt`) and shown to lose nothing: host and port can be read back from
  every instance string.
- **The discovery engine** (`Discovery.Consul`):
  - the choice of server by cursor;
  - one discovery cycle (`UpdateNodes`), with the retry loop and the query
    closure inlined, so that the proof shows the cursor is never advanced;
  - one turn of the refresh loop;
  - the bounded polling wait for the first list, counted in waits;
  - the target choice;
  - the per-request handler: pass through, 502, pass through on a balancer
    error, or rewrite and forward.
- **Configuration** (`ConsulConfig.Config`):
  - `NewConfig`;
  - `SetServer`, which installs the new list only when every URI parses;
  - `newConsulConfig`, which lays the parent's non-zero fields over the
    library defaults.
- **Retry wrapper** (`Retrier`): `Retry.Run` delegates to a backoff strategy.
  The strategy's attempt loop is modelled as the go-resiliency retrier runs it
  with its default classifier. The wrapper makes at most `RetryTimes + 1` calls,
  stops at the first success and otherwise returns the last error.

Time, the network and library calls are inputs:

- `health(q, k)` is the reply to the k-th query of a cycle.
- `published(k)` is the cache as the polling loop sees it after k waits.
- `parse` stands for `url.Parse`.
- `defaults` stands for `consul.DefaultConfig()`.
- A `Balancer` is a function from the node list to a target or an error.

Modules: `Base` (Go's nil-able values, errors, durations), `Fmt`, `Api` (the
Consul client's records), `Retrier` (retrier.go), `ConsulConfig` (config.go),
`Discovery` (consul.go).

Where the code and the intended design differ, the model follows the code,
with two exceptions: the two crashes listed under "## Findings". Each is
modelled as written by its own member and lemma. `Discovery.Consul.HandleHTTP`
and `Discovery.Consul.RefreshStep` take the corrected behaviour instead.
`HandleHTTP` answers 502 with the model's own text `ErrNoNodes` where the
source panics at consul.go:154. `RefreshStep` does nothing with zero servers,
where the source's refresh goroutine panics at consul.go:65. Otherwise:

- A refresh overwrites the cache with whatever the cycle returned. A failed
  cycle therefore replaces a good list with an empty one; nothing keeps the
  last good list.
- The server cursor is only ever reset to 0, so every attempt asks the first
  configured server. No failover to another server happens.
- The wait gives up after 101 waits of 100 ms, about ten seconds. The comment
  at consul.go:124 says five.
- The default retrier makes `RetryTimes = 5` retries. The comment at
  retrier.go:25 says three.

## Model

| member | source | states |
|---|---|---|
| `Fmt.DecimalStringRoundTrip` | consul.go:183 | the `%d` rendering of any port reads back to that port |
| `Fmt.HostPortRoundTrip` | consul.go:183 | splitting `addr:port` at its last colon gives back exactly `addr` and the port, whatever `addr` holds |
| `Fmt.HostPortInjective` | consul.go:183 | two instance strings are equal only if their hosts and ports are equal |
| `ConsulConfig.MapEntries` | config.go:110-124 | the mapped list has the entries' length; element i is entry i's service address (else node address), a colon and its port |
| `ConsulConfig.MapEntriesAppend` | config.go:113-121 | mapping preserves order: mapping a concatenation is the concatenation of the mapped parts |
| `ConsulConfig.MapEntriesRecoverable` | config.go:114-120 | each instance string yields back its entry's chosen address and port |
| `ConsulConfig.MapLocalWebEntry` | config_test.go:34-41 | node 127.0.0.1, empty service address, port 80 maps to `["127.0.0.1:80"]` |
| `ConsulConfig.MapConsulEntries` | config.go:110-124 | the loop filling a preallocated slice returns exactly the mapped list |
| `ConsulConfig.Config.constructor` | config.go:61-65 | NewConfig sets the service, `RefreshTime = DefaultRefreshTime` (5 min), the default mapper, an empty tag and zero inherited fields; each instance is the library default with the URI's host and scheme; if a URI fails to parse, the dropped error leaves no instances |
| `ConsulConfig.Config.SetServer` | config.go:68-79 | succeeds iff every URI parses; then one child config per URI, in order; otherwise returns the first parse error and leaves the old instances; no URIs gives the empty list |
| `ConsulConfig.Config.NewConsulConfig` | config.go:83-106 | address and scheme come from the URL; datacenter, HTTP client, HTTP auth, wait time and token come from the parent when set, else from the defaults |
| `Retrier.Backoff.Run` | retrier.go:17-26 | between 1 and retries+1 calls; every call before the last failed; the last call's error is returned; it stops early only on success; the pauses slept are the strategy's first calls-1 waits |
| `Retrier.NewRetrier` | retrier.go:42-44 | the wrapper stores the strategy it is given |
| `Retrier.Retry.Run` | retrier.go:48-50 | the wrapper's run has exactly the attempt behaviour of its stored strategy |
| `Retrier.RunIsDetermined` | retrier.go:48-50 | that attempt behaviour fixes the call count and the returned error |
| `Retrier.ConstantBackoffStopsAtFirstSuccess` | retrier_test.go:10-24 | with the constant backoff, an operation first succeeding on call 4 is called 4 times and the run returns nil |
| `Retrier.ConstantBackoffExhausted` | retrier_test.go:26-38 | with the constant backoff, an always-failing operation is called `RetryTimes + 1` times and its error is returned |
| `Discovery.NextConsulServer` | consul.go:60-66 | a cursor inside the list picks that server, past the end the first; `more` holds iff servers remain after the pick; an empty list is an index-out-of-range panic |
| `Discovery.NoServersFirstAttemptPanics` | consul.go:60-66 | with no servers, the first attempt's pick is out of range. The cursor is 0, as the first attempt of every cycle uses (see Findings) |
| `Discovery.MapNodes` | consul.go:173-187 | the duplicate mapper returns exactly the mapped list |
| `Discovery.Consul.constructor` | consul.go:53-57 | New stores the config, the default retrier and the default balancer, with nothing cached |
| `Discovery.Consul.UpdateNodes` | consul.go:69-86 | every attempt queries the first server with the config's service, tag and options; calls and error follow the retrier's attempt behaviour on those replies; the result is the last attempt's entries mapped |
| `Discovery.Consul.RefreshStep` | consul.go:104-113 | the cache becomes exactly the cycle's mapped list, non-nil even when empty or on error; with no servers the step does nothing (see Findings) |
| `Discovery.Consul.GetNodes` | consul.go:119-134 | the polling loop returns what the polling protocol `Poll` defines |
| `Discovery.PollReturnsFirstList` | consul.go:122-133 | a list first seen after k ≤ 101 waits is returned unchanged with no error after k waits |
| `Discovery.PollTimesOut` | consul.go:122-129 | a cache that stays nil gives `ErrDiscoveryTimeout` after exactly 101 waits, 10.1 s of sleeping |
| `Discovery.GetTargetHost` | consul.go:136-141 | no balancer: the first node with no error; otherwise exactly the balancer's answer |
| `Discovery.HandleOutcome` | consul.go:144-170 | 502 iff servers are configured and discovery errored or found nothing; pass through iff no servers or the balancer failed; forward only to the balancer's target; never a panic |
| `Discovery.AsWrittenPanicsOnlyOnEmptyList` | consul.go:152-155 | the handler as written panics exactly on an empty list with a nil error, and otherwise agrees with `HandleOutcome` |
| `Discovery.ForwardedTargetIsDiscovered` | consul.go:158-169 | a forwarded request goes to a discovered node whenever the balancer picks among its inputs |
| `Discovery.ForwardsToOnlyInstance` | consul_test.go:12-35 | with the single cached instance 127.0.0.1:80, the request is forwarded there |
| `Discovery.Consul.HandleHTTP` | consul.go:144-170 | the outcome is `HandleOutcome` of the poll; next is called once unless a status was written; host and URL host are set to the target only when forwarding; an empty list with a nil error gets the corrected 502 with `ErrNoNodes`, not the source's panic (see Findings) |
| `Discovery.HandleOutcomeAsWritten` | consul.go:144-170 | the handler as written: it panics iff servers are configured and discovery returned an empty list with a nil error; any 502 it writes carries the discovery error's text |
| `Discovery.FailedRefreshExample` | consul.go:104-113 | one server whose every query fails: the refresh makes `RetryTimes + 1` queries and returns the error; the cache becomes the empty non-nil list; on the next request the handler as written panics and the corrected one answers 502 |
| `Discovery.SimpleClientExample` | consul_test.go:12-35 | after a refresh against a server reporting 127.0.0.1:80, the request is forwarded there; next is called once; Host and URL.Host are both 127.0.0.1:80 |
| `ConsulConfig.SnapshotExample` | config_test.go:10-31 | NewConfig with two servers gives service "web", the default refresh time, and instances foo.com and bar.com; a token and datacenter set on the config afterwards do not reach the instances |

## Left out

- Goroutines, `Start`, `Stop`, the `quit` channel, the mutex and `time.Sleep` (consul.go:89-116, 128) are concurrency and wall-clock time. The model has one refresh step, and the poll counts waits over a given schedule of cache values. The unlocked read of the cache at consul.go:123 is a data race and is not modelled. `quit` is never created, so `Stop` would close a nil channel and panic; this is not modelled.
- `Discovery.Consul.constructor`: New does not start the refresh job in the model, because the job is the goroutine above.
- `Discovery.Consul.GetNodes`: the final locked read and the loop check that ended the loop are taken at the same wait count.
- client.go (`NewClient`, `Health`) is a wrapper over the Consul HTTP client. It is the parameter `health`, indexed by query and attempt number.
- `url.Parse` and `consul.DefaultConfig()` are parameters. Every real `DefaultConfig()` call returns a fresh HTTP client, but the model gives all servers of one `SetServer` call the same default record.
- Balancer algorithms (vinxi) are not modelled. A balancer is an arbitrary function; properties that need it to pick one of its inputs say so.
- `Retrier.Backoff.Run`: only strategies built from a list of pauses with the default classifier are modelled, that is the library's constant and exponential backoff. A user-supplied `Retrier` with other behaviour is not. The doubling pauses of `ExponentialBackoff` follow the library, whose source is not part of this model.
- The `Mapper` field is stored but never used by the cycle (consul.go:85 calls `mapNodes` directly), so nothing routes through it.
- The response body write and the `http.Handler` plumbing are reduced to the outcome (status and body text), the count of next-handler calls and the two rewritten host fields. The sharing of one `*url.URL` between requests is not modelled.

## Findings

| source | as written | input that shows it | evidently intended | confidence | as-written member | corrected member |
|---|---|---|---|---|---|---|
| consul.go:152-155 | With an empty node list and a nil error, the handler writes 502 and then calls `Error()` on the nil error, which panics | one configured server, a refresh whose attempts all fail (the cache becomes a non-nil empty list), then any request | answer 502 with an error text, without panicking | high; not executed | `Discovery.FailedRefreshExample`, `Discovery.HandleOutcomeAsWritten` | `Discovery.HandleOutcome`, `Discovery.Consul.HandleHTTP` |
| consul.go:53-66 | New starts the refresh job even with zero servers; the first attempt of its cycle picks with cursor 0, which indexes `Instances[0]` of an empty list, and the panic in the goroutine ends the process | `NewConfig("web")` with no servers, then `New(config)` | zero servers disables discovery (the handler passes such requests through), so no refresh runs | high; not executed | `Discovery.NoServersFirstAttemptPanics` | `Discovery.Consul.RefreshStep` |
