# Redis external scaler for KEDA — Dafny model

This project models the core of a KEDA external-scaler gRPC server. For each
workload it answers two questions: "does this workload have pending work?"
and "what is its current load?". It answers by reading the length of a Redis
list. The server keeps a registry, the `scalers` map, keyed by
`namespace + "/" + name`. The RPCs behave as follows:

- `New` parses the workload's metadata into a `RedisScaler` entry and stores it.
- `Close` removes the entry.
- `IsActive`, `GetMetricSpec` and `GetMetrics` look the entry up and shape a
  response from the Redis list length.

Modules, one per concern of `main.go`:

- `Wrappers` (wrappers.dfy): `Option` and `Result`. `Result` stands for Go's
  `(value, error)` returns.
- `StrConv` (strconv.dfy): Go's `strconv.Atoi` in base 10 on a 64-bit
  platform. It follows the real call chain, Atoi → ParseInt → ParseUint, down
  to ParseUint's digit loop with its `cutoff` and `maxVal` checks. That loop is
  proved equal to a declarative reference (`ScanReference`). `Atoi` is then
  characterised by a grammar: an optional `+` or `-`, then one or more ASCII
  digits, with the value inside the int64 range. The error kind is modelled as
  Go reports it. A range error wins over a syntax error when the digit run
  before the first bad character already exceeds 2^64-1. `FormatInt` is the
  inverse used for round trips. strconv is Go's standard library; it is
  modelled from its definition.
- `Scaler` (scaler.dfy) holds:
  - the constants of main.go:18-22;
  - the `RedisScaler` record;
  - the workload identity `UniqueName`;
  - the metadata parser `ParseRedisMetadata`;
  - the error datatype.
- `Server` (server.dfy): the five RPCs. Each is a pure function from
  (registry, request, Redis oracle) to (registry, reply or error).
- `Trace` (trace.dfy): runs of many RPCs. It proves the registry invariant:
  an entry exists exactly when the last RPC that wrote the key was a
  successful `New`.

The Redis query `getRedisListLength(ctx, address, password, listName)` becomes
an oracle parameter of type `Connection -> ListLength`. The oracle returns
either an int64 length or an opaque `StoreError`. Every contract about
`IsActive` and `GetMetrics` is stated relative to the oracle's answer for the
entry's address, password and list name.

The code holds no lock around `scalers` and never reads `ctx`, so each RPC
is modelled as one atomic sequential step (see "## Left out").
`GetMetrics` never reads `request.MetricName` (main.go:182-207);
`Server.GetMetricsIgnoresMetricName` proves the model does the same.

## Model

| member | source | states |
|---|---|---|
| StrConv.Scan | main.go:107 | ParseUint's digit loop, with the cutoff check before the multiplication and the maxVal check after the addition, returns exactly the reference outcome: a range error if the leading digit run exceeds 2^64-1, else a syntax error if a non-digit follows, else the digits' value |
| StrConv.ParseUint | main.go:107 | the empty string is a syntax error; any other input gets the reference outcome of the scan |
| StrConv.DigitRun | main.go:107 | the length of the longest all-digit prefix: that prefix is all digits, and the next character, if any, is not a digit |
| StrConv.ParseInt | main.go:107 | the middle step of Atoi: strips one sign, maps ParseUint's range failure to 2^64-1, applies the signed int64 bound; succeeds iff the input is an optional sign followed by one or more ASCII digits whose value is an int64, with that signed value; a failure is a range error exactly when the digit run exceeds 2^64-1 or the well-formed value leaves int64 |
| StrConv.Atoi | main.go:106-110 | succeeds iff the input is an optional sign followed by one or more ASCII digits and its value lies in the int64 range; the result is that signed value; every error carries the whole input; the error is a range error exactly when the digit run exceeds 2^64-1 or the well-formed value leaves int64 |
| StrConv.AtoiFormatInt | main.go:107 | Atoi reads back every int64 written in canonical decimal |
| Scaler.UniqueName | main.go:61-63 | the key is the namespace, then '/', then the name, character for character, with nothing dropped or normalised |
| Scaler.SplitUniqueNameRoundTrip | main.go:61-63 | when the namespace contains no '/', splitting the key at its first '/' recovers namespace and name |
| Scaler.UniqueNameInjective | main.go:61-63 | workloads whose namespaces contain no '/' never share a key |
| Scaler.UniqueNameCollides | main.go:61-63 | the key is plain concatenation: namespace "a/b" with name "c" and namespace "a" with name "b/c" share a key |
| Scaler.ParseRedisMetadata | main.go:102-132 | fails iff listLength is present and Atoi rejects it, or listName is absent; the listLength failure is reported first and carries Atoi's error; when listLength is absent or accepted, a missing listName gives the "no list name given" error; on success listLength is 5 when absent and otherwise the signed value of the text, listName is copied verbatim (even empty), address is the in-cluster default iff the key is absent, empty or the default itself, and password is the given value or "" |
| Scaler.ParseIgnoresOtherKeys | main.go:102-132 | adding or changing any key other than listLength, listName, address and password leaves the parse result unchanged |
| Scaler.ParseMetadataRoundTrip | main.go:102-132 | parsing the written-out metadata of any scaler with a non-empty address yields that scaler |
| Scaler.ParseDefaults | main.go:103-129 | metadata holding only listName yields the default address, the empty password and target length 5 |
| Server.New | main.go:66-85 | on a successful parse the workload's key maps to exactly the parsed entry, whether or not it was registered before; on failure the parser's error is returned and the registry is unchanged; every other key keeps its entry or absence; at most the workload's key is added |
| Server.Close | main.go:88-100 | always succeeds; afterwards the key is absent, every other key is unchanged, and an unregistered key leaves the registry equal to before |
| Server.IsActive | main.go:135-157 | never changes the registry; an unregistered key gives "Cannot find scaler" with the key; for a registered key it succeeds iff Redis returns a length, reports active iff that length is positive, and otherwise returns Redis's error unchanged |
| Server.GetMetricSpec | main.go:160-179 | never changes the registry; succeeds iff the key is registered, otherwise "Cannot find scaler"; the reply is exactly one spec named RedisListLength whose target size is the entry's listLength |
| Server.GetMetrics | main.go:182-207 | never changes the registry; unregistered gives "Cannot find scaler"; registered gives exactly one value named RedisListLength equal to Redis's length, or Redis's error unchanged |
| Server.NewReplaces | main.go:75-80 | registering the same workload twice leaves the registry as if only the second, successful registration had happened |
| Server.CloseUndoesNew | main.go:93-95 | registering an unregistered workload and then closing it restores the original registry |
| Server.CloseIdempotent | main.go:93-95 | closing twice gives the same registry and reply as closing once |
| Server.QueriesAfterCloseFail | main.go:135-207 | after Close, IsActive, GetMetricSpec and GetMetrics on that workload all fail with "Cannot find scaler" |
| Server.SpecAfterNew | main.go:165-175 | after a successful New, GetMetricSpec reports the parsed target length under RedisListLength |
| Server.MetricNamesAgree | main.go:165-197 | when both succeed, the spec and the value for one workload carry the same metric name |
| Server.GetMetricsIgnoresMetricName | main.go:182-207 | the requested metric name has no influence on GetMetrics |
| Server.IsActiveAgreesWithGetMetrics | main.go:140-203 | given the same Redis answer, IsActive and GetMetrics succeed together, IsActive is true iff the reported value is positive, and both fail with the same error |
| Server.Scenario | main.go:66-207 | register default/worker with list "jobs" and length "10"; with 3 items queued, IsActive is true, the spec target is 10 and the metric value is 3; after Close, IsActive fails with "Cannot find scaler default/worker" |
| Trace.RunFollowsLastWrite | main.go:66-100 | after any sequence of RPCs, each served against its own Redis answer, each key holds what the last write to it left: the entry of a successful New, nothing after a Close, or the starting entry if nothing wrote the key; queries and failed registrations write nothing |
| Trace.RegisteredIffLastWriteIsNew | main.go:66-100 | from an empty registry, a workload is registered iff the last RPC writing its key was a successful New, and its entry is that New's parse |
| Trace.RunIgnoresOracle | main.go:135-207 | whatever Redis answers at each step of a run, lengths or errors, the registry after the run is the same |

## Left out

- `main` (main.go:26-46) is not modelled. It covers the TCP listener on port 8080, the `CERT_PATH` variable, TLS loading and gRPC registration. This is I/O plumbing with no state of the core.
- `getRedisListLength` (main.go:209-223) is not modelled internally. It opens a Redis client and sends LLEN over the network. It is replaced by the oracle parameter, and its `-1` value on error is not modelled because the handlers discard it.
- Logging (`log.Printf`) is not modelled. It has no effect on state or replies.
- Concurrency is not modelled. The Go map has no lock and RPCs may run concurrently; each RPC is modelled as one atomic sequential step.
- `context.Context` is not modelled. The code never reads it.
- The lazy creation of the map in `New` (main.go:68-70) is not modelled. A nil map and an empty map are the same empty registry, since Go reads and deletes on a nil map as on an empty one.
- Error message text is not modelled. This covers `fmt.Errorf` formatting and strconv's quoting of the input. Errors are a datatype carrying the same information: the kind, the Atoi input and its error kind, or the missing key.
- A request whose `ScaledObjectRef` is nil is not modelled. Go would panic on the nil pointer; in the model a reference is always present.
- StrConv.Atoi: does not model Atoi's fast path for inputs shorter than 19 bytes separately. That path gives the same result and error kind as the ParseInt path it bypasses. Go `int` is taken to be 64 bits wide.
- StrConv.Atoi: works on Dafny characters rather than UTF-8 bytes. Any non-ASCII character is a non-digit in both, so the result is the same.
