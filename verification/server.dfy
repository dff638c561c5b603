/** The RPC handlers of RedisExternalScalerServer over its `scalers` map.
    Each RPC is one atomic step from a registry (and, for the two that read
    the list length, the Redis client's answer) to a new registry and a
    reply. The Redis query is an oracle: a function from the connection
    details of an entry to either a length or an opaque store error. */
module Server {
  import opened Wrappers
  import opened StrConv
  import opened Scaler

  /** The `scalers` map; a nil map and an empty map are the same registry. */
  type Registry = map<string, RedisScaler>

  datatype NewRequest = NewRequest(scaledObjectRef: ScaledObjectRef, metadata: map<string, string>)
  datatype GetMetricsRequest = GetMetricsRequest(scaledObjectRef: ScaledObjectRef, metricName: string)

  datatype Empty = Empty
  datatype IsActiveResponse = IsActiveResponse(result: bool)
  datatype MetricSpec = MetricSpec(metricName: string, targetSize: Int64)
  datatype GetMetricSpecResponse = GetMetricSpecResponse(metricSpecs: seq<MetricSpec>)
  datatype MetricValue = MetricValue(metricName: string, metricValue: Int64)
  datatype GetMetricsResponse = GetMetricsResponse(metricValues: seq<MetricValue>)

  /** The arguments of getRedisListLength. */
  datatype Connection = Connection(address: string, password: string, listName: string)

  /** What getRedisListLength returns: the list's length or the client's error. */
  datatype ListLength = Length(n: Int64) | LengthError(error: StoreError)

  type Oracle = Connection -> ListLength

  /** The registry after an RPC, and the RPC's reply or error. */
  datatype Outcome<R> = Outcome(registry: Registry, reply: Result<R, ScalerError>)

  function ConnectionOf(s: RedisScaler): Connection {
    Connection(s.address, s.password, s.listName)
  }

  function Lookup(reg: Registry, id: string): Option<RedisScaler> {
    if id in reg then Some(reg[id]) else None
  }

  /** `a` and `b` hold the same entry (or none) under every key but `id`. */
  ghost predicate AgreeExcept(a: Registry, b: Registry, id: string) {
    forall k :: k != id ==> Lookup(a, k) == Lookup(b, k)
  }

  /** New: parse the metadata; on success store the entry under the
      workload's key, replacing any earlier one; on failure change nothing. */
  function New(reg: Registry, request: NewRequest): (o: Outcome<Empty>)
    ensures AgreeExcept(reg, o.registry, UniqueName(request.scaledObjectRef))
    ensures o.reply.Success? <==> ParseRedisMetadata(request.metadata).Success?
    ensures o.reply.Success? ==>
      Lookup(o.registry, UniqueName(request.scaledObjectRef)) == Some(ParseRedisMetadata(request.metadata).value)
    ensures o.reply.Failure? ==>
      o.registry == reg && o.reply.error == ParseRedisMetadata(request.metadata).error
    ensures o.registry.Keys == reg.Keys || o.registry.Keys == reg.Keys + {UniqueName(request.scaledObjectRef)}
  {
    var name := UniqueName(request.scaledObjectRef);
    match ParseRedisMetadata(request.metadata)
    case Failure(e) => Outcome(reg, Failure(e))
    case Success(scaler) => Outcome(reg[name := scaler], Success(Empty))
  }

  /** Close: forget the workload if it is registered; never fails. */
  function Close(reg: Registry, request: ScaledObjectRef): (o: Outcome<Empty>)
    ensures o.reply == Success(Empty)
    ensures UniqueName(request) !in o.registry
    ensures AgreeExcept(reg, o.registry, UniqueName(request))
    ensures o.registry.Keys == reg.Keys - {UniqueName(request)}
    ensures UniqueName(request) !in reg ==> o.registry == reg
  {
    var name := UniqueName(request);
    if name in reg then Outcome(reg - {name}, Success(Empty)) else Outcome(reg, Success(Empty))
  }

  /** IsActive: a registered workload is active exactly when its list is
      non-empty; a failed list query is the reply, not `false`. */
  function IsActive(reg: Registry, request: ScaledObjectRef, oracle: Oracle): (o: Outcome<IsActiveResponse>)
    ensures o.registry == reg
    ensures UniqueName(request) !in reg ==> o.reply == Failure(ScalerNotFound(UniqueName(request)))
    ensures o.reply.Success? <==>
      UniqueName(request) in reg && oracle(ConnectionOf(reg[UniqueName(request)])).Length?
    ensures o.reply.Success? ==>
      (o.reply.value.result <==> oracle(ConnectionOf(reg[UniqueName(request)])).n > 0)
    ensures o.reply.Failure? && UniqueName(request) in reg ==>
      o.reply.error == Store(oracle(ConnectionOf(reg[UniqueName(request)])).error)
  {
    var name := UniqueName(request);
    if name in reg then
      match oracle(ConnectionOf(reg[name]))
      case LengthError(e) => Outcome(reg, Failure(Store(e)))
      case Length(result) => Outcome(reg, Success(IsActiveResponse(result > 0)))
    else
      Outcome(reg, Failure(ScalerNotFound(name)))
  }

  /** GetMetricSpec: one spec, named by the shared metric name, whose target
      is the registered list length. Redis is not consulted. */
  function GetMetricSpec(reg: Registry, request: ScaledObjectRef): (o: Outcome<GetMetricSpecResponse>)
    ensures o.registry == reg
    ensures o.reply.Success? <==> UniqueName(request) in reg
    ensures o.reply.Failure? ==> o.reply.error == ScalerNotFound(UniqueName(request))
    ensures o.reply.Success? ==>
      |o.reply.value.metricSpecs| == 1
      && o.reply.value.metricSpecs[0].metricName == ListLengthMetricName
      && o.reply.value.metricSpecs[0].targetSize == reg[UniqueName(request)].listLength
  {
    var name := UniqueName(request);
    if name in reg then
      var spec := MetricSpec(ListLengthMetricName, reg[name].listLength);
      Outcome(reg, Success(GetMetricSpecResponse([spec])))
    else
      Outcome(reg, Failure(ScalerNotFound(name)))
  }

  /** GetMetrics: one value, named by the shared metric name, equal to the
      list length Redis reports; the requested metric name is not read. */
  function GetMetrics(reg: Registry, request: GetMetricsRequest, oracle: Oracle): (o: Outcome<GetMetricsResponse>)
    ensures o.registry == reg
    ensures UniqueName(request.scaledObjectRef) !in reg ==>
      o.reply == Failure(ScalerNotFound(UniqueName(request.scaledObjectRef)))
    ensures o.reply.Success? <==>
      UniqueName(request.scaledObjectRef) in reg
      && oracle(ConnectionOf(reg[UniqueName(request.scaledObjectRef)])).Length?
    ensures o.reply.Success? ==>
      |o.reply.value.metricValues| == 1
      && o.reply.value.metricValues[0].metricName == ListLengthMetricName
      && o.reply.value.metricValues[0].metricValue == oracle(ConnectionOf(reg[UniqueName(request.scaledObjectRef)])).n
    ensures o.reply.Failure? && UniqueName(request.scaledObjectRef) in reg ==>
      o.reply.error == Store(oracle(ConnectionOf(reg[UniqueName(request.scaledObjectRef)])).error)
  {
    var name := UniqueName(request.scaledObjectRef);
    if name in reg then
      match oracle(ConnectionOf(reg[name]))
      case LengthError(e) => Outcome(reg, Failure(Store(e)))
      case Length(listLen) =>
        var value := MetricValue(ListLengthMetricName, listLen);
        Outcome(reg, Success(GetMetricsResponse([value])))
    else
      Outcome(reg, Failure(ScalerNotFound(name)))
  }

  /** Registering twice keeps only the second entry: re-registration
      replaces, it does not merge, and the first registration leaves no trace. */
  lemma NewReplaces(reg: Registry, first: NewRequest, second: NewRequest)
    requires first.scaledObjectRef == second.scaledObjectRef
    requires ParseRedisMetadata(second.metadata).Success?
    ensures New(New(reg, first).registry, second).registry == New(reg, second).registry
  {
  }

  /** Registering a new workload and closing it again restores the registry. */
  lemma CloseUndoesNew(reg: Registry, request: NewRequest)
    requires UniqueName(request.scaledObjectRef) !in reg
    ensures Close(New(reg, request).registry, request.scaledObjectRef).registry == reg
  {
    var o := New(reg, request).registry;
    var c := Close(o, request.scaledObjectRef).registry;
    assert c.Keys == reg.Keys;
  }

  /** Closing twice is the same as closing once. */
  lemma CloseIdempotent(reg: Registry, request: ScaledObjectRef)
    ensures Close(Close(reg, request).registry, request) == Close(reg, request)
  {
  }

  /** After Close, every query about the workload fails as unregistered. */
  lemma QueriesAfterCloseFail(reg: Registry, request: GetMetricsRequest, oracle: Oracle)
    ensures var r := Close(reg, request.scaledObjectRef).registry;
      var notFound := ScalerNotFound(UniqueName(request.scaledObjectRef));
      && IsActive(r, request.scaledObjectRef, oracle).reply == Failure(notFound)
      && GetMetricSpec(r, request.scaledObjectRef).reply == Failure(notFound)
      && GetMetrics(r, request, oracle).reply == Failure(notFound)
  {
  }

  /** After a successful New, the spec reports the parsed target length. */
  lemma SpecAfterNew(reg: Registry, request: NewRequest)
    requires ParseRedisMetadata(request.metadata).Success?
    ensures GetMetricSpec(New(reg, request).registry, request.scaledObjectRef).reply ==
      Success(GetMetricSpecResponse([MetricSpec(ListLengthMetricName, ParseRedisMetadata(request.metadata).value.listLength)]))
  {
  }

  /** The spec and the value of one workload carry the same metric name,
      which is how the autoscaler pairs them. */
  lemma MetricNamesAgree(reg: Registry, request: GetMetricsRequest, oracle: Oracle)
    requires GetMetricSpec(reg, request.scaledObjectRef).reply.Success?
    requires GetMetrics(reg, request, oracle).reply.Success?
    ensures GetMetricSpec(reg, request.scaledObjectRef).reply.value.metricSpecs[0].metricName ==
      GetMetrics(reg, request, oracle).reply.value.metricValues[0].metricName
  {
  }

  /** GetMetrics answers the same whatever metric name the request carries. */
  lemma GetMetricsIgnoresMetricName(reg: Registry, ref: ScaledObjectRef, a: string, b: string, oracle: Oracle)
    ensures GetMetrics(reg, GetMetricsRequest(ref, a), oracle) == GetMetrics(reg, GetMetricsRequest(ref, b), oracle)
  {
  }

  /** With the same list-length answer, IsActive says active exactly when
      GetMetrics reports a positive value, and both fail together. */
  lemma IsActiveAgreesWithGetMetrics(reg: Registry, request: GetMetricsRequest, oracle: Oracle)
    ensures var a := IsActive(reg, request.scaledObjectRef, oracle).reply;
      var m := GetMetrics(reg, request, oracle).reply;
      && (a.Success? <==> m.Success?)
      && (a.Success? ==> (a.value.result <==> m.value.metricValues[0].metricValue > 0))
      && (a.Failure? ==> a.error == m.error)
  {
  }

  /** The lifecycle of one workload: register with list "jobs" and target 10,
      query with 3 items queued, deregister, query again. */
  lemma Scenario(oracle: Oracle)
    requires oracle(Connection(DefaultRedisAddress, "", "jobs")) == Length(3)
    ensures var ref := ScaledObjectRef("default", "worker");
      var r1 := New(map[], NewRequest(ref, map["listName" := "jobs", "listLength" := "10"])).registry;
      var r2 := Close(r1, ref).registry;
      && IsActive(r1, ref, oracle).reply == Success(IsActiveResponse(true))
      && GetMetricSpec(r1, ref).reply == Success(GetMetricSpecResponse([MetricSpec(ListLengthMetricName, 10)]))
      && GetMetrics(r1, GetMetricsRequest(ref, ""), oracle).reply ==
           Success(GetMetricsResponse([MetricValue(ListLengthMetricName, 3)]))
      && IsActive(r2, ref, oracle).reply == Failure(ScalerNotFound("default/worker"))
  {
    var ref := ScaledObjectRef("default", "worker");
    var md := map["listName" := "jobs", "listLength" := "10"];
    AtoiFormatInt(10);
    assert FormatInt(10) == "10";
    assert Atoi("10") == Success(10);
    assert ParseRedisMetadata(md) == Success(RedisScaler(DefaultRedisAddress, "", "jobs", 10));
    assert UniqueName(ref) == "default/worker";
    var r1 := New(map[], NewRequest(ref, md)).registry;
    assert r1 == map["default/worker" := RedisScaler(DefaultRedisAddress, "", "jobs", 10)];
  }
}
