/** The per-workload configuration of the Redis external scaler: the
    constants of main.go, the scaler record, the workload identity used as
    the registry key, the metadata parser, and the errors the RPCs return. */
module Scaler {
  import opened Wrappers
  import opened StrConv

  /** The one metric name shared by GetMetricSpec and GetMetrics. */
  const ListLengthMetricName: string := "RedisListLength"
  const DefaultTargetListLength: Int64 := 5
  const DefaultRedisAddress: string := "redis-master.default.svc.cluster.local:6379"
  const DefaultRedisPassword: string := ""

  /** One registered scaler: where the Redis list lives and the target length. */
  datatype RedisScaler = RedisScaler(
    address: string,
    password: string,
    listName: string,
    listLength: Int64)

  /** The workload a request refers to. */
  datatype ScaledObjectRef = ScaledObjectRef(namespace: string, name: string)

  /** The Redis client's failure, passed through without inspection. */
  datatype StoreError = StoreError(message: string)

  /** Everything an RPC can fail with. */
  datatype ScalerError =
    | ListLengthParse(numError: NumError)  // "List length parsing error ..."
    | NoListName                          // "no list name given"
    | ScalerNotFound(name: string)        // "Cannot find scaler <name>"
    | Store(cause: StoreError)            // returned unchanged from the list query

  /** The registry key of a workload: its namespace, a slash, its name. */
  function UniqueName(ref: ScaledObjectRef): (id: string)
    ensures |id| == |ref.namespace| + 1 + |ref.name|
    ensures id[..|ref.namespace|] == ref.namespace
    ensures id[|ref.namespace|] == '/'
    ensures id[|ref.namespace| + 1..] == ref.name
  {
    ref.namespace + "/" + ref.name
  }

  /** Index of the first '/' in `s`, or |s| when there is none. */
  function FirstSlash(s: string): (k: nat)
    ensures k <= |s|
    ensures forall i | 0 <= i < k :: s[i] != '/'
    ensures k < |s| ==> s[k] == '/'
  {
    if |s| == 0 || s[0] == '/' then 0 else 1 + FirstSlash(s[1..])
  }

  /** Reads a registry key back as a reference, splitting at the first '/'. */
  function SplitUniqueName(id: string): Option<ScaledObjectRef> {
    var k := FirstSlash(id);
    if k == |id| then None else Some(ScaledObjectRef(id[..k], id[k + 1..]))
  }

  /** A Kubernetes namespace never contains '/', and then the key determines
      the reference: splitting at the first '/' gives it back. */
  lemma SplitUniqueNameRoundTrip(ref: ScaledObjectRef)
    requires forall i | 0 <= i < |ref.namespace| :: ref.namespace[i] != '/'
    ensures SplitUniqueName(UniqueName(ref)) == Some(ref)
  {
    var id := UniqueName(ref);
    var n := |ref.namespace|;
    var k := FirstSlash(id);
    assert forall i | 0 <= i < n :: id[i] == ref.namespace[i];
    assert k == n;
  }

  /** Two slash-free namespaces give the same key only for the same workload. */
  lemma UniqueNameInjective(a: ScaledObjectRef, b: ScaledObjectRef)
    requires forall i | 0 <= i < |a.namespace| :: a.namespace[i] != '/'
    requires forall i | 0 <= i < |b.namespace| :: b.namespace[i] != '/'
    requires UniqueName(a) == UniqueName(b)
    ensures a == b
  {
    SplitUniqueNameRoundTrip(a);
    SplitUniqueNameRoundTrip(b);
  }

  /** The key is plain concatenation: a '/' inside the namespace makes two
      different workloads share one key. */
  lemma UniqueNameCollides()
    ensures UniqueName(ScaledObjectRef("a/b", "c")) == UniqueName(ScaledObjectRef("a", "b/c"))
  {
  }

  /** A metadata value, or the default when the key is absent or empty. */
  function OrDefault(metadata: map<string, string>, key: string, default: string): string {
    if key in metadata && metadata[key] != "" then metadata[key] else default
  }

  /** The `listLength` option: the default when absent, else Atoi's verdict. */
  function ListLengthOption(metadata: map<string, string>): Result<Int64, ScalerError> {
    if "listLength" !in metadata then Success(DefaultTargetListLength)
    else match Atoi(metadata["listLength"])
      case Success(n) => Success(n)
      case Failure(e) => Failure(ListLengthParse(e))
  }

  /** parseRedisMetadata: `listLength` is checked before `listName`. */
  function ParseRedisMetadata(metadata: map<string, string>): (r: Result<RedisScaler, ScalerError>)
    ensures "listLength" in metadata && Atoi(metadata["listLength"]).Failure? ==>
      r == Failure(ListLengthParse(Atoi(metadata["listLength"]).error))
    ensures "listName" !in metadata ==> r.Failure?
    ensures r.Failure? && ("listLength" !in metadata || Atoi(metadata["listLength"]).Success?) ==>
      r.error == NoListName
    ensures r.Failure? && r.error != NoListName ==>
      "listLength" in metadata && r.error.ListLengthParse? && r.error.numError.num == metadata["listLength"]
    ensures r.Success? <==>
      "listName" in metadata && ("listLength" in metadata ==> Atoi(metadata["listLength"]).Success?)
    ensures r.Success? ==> r.value.listName == metadata["listName"]
    ensures r.Success? && "listLength" !in metadata ==> r.value.listLength == DefaultTargetListLength
    ensures r.Success? && "listLength" in metadata ==>
      r.value.listLength as int == SignedValue(metadata["listLength"])
    ensures r.Success? ==> r.value.address != ""
    ensures r.Success? ==>
      ((r.value.address == DefaultRedisAddress) <==>
       ("address" !in metadata || metadata["address"] in {"", DefaultRedisAddress}))
    ensures r.Success? && "address" in metadata && metadata["address"] != "" ==>
      r.value.address == metadata["address"]
    ensures r.Success? ==>
      r.value.password == (if "password" in metadata then metadata["password"] else "")
  {
    var listLength :- ListLengthOption(metadata);
    var listName :- if "listName" in metadata then Success(metadata["listName"]) else Failure(NoListName);
    Success(RedisScaler(
      OrDefault(metadata, "address", DefaultRedisAddress),
      OrDefault(metadata, "password", DefaultRedisPassword),
      listName,
      listLength))
  }

  /** Only the four recognised options matter: any other key is ignored. */
  lemma ParseIgnoresOtherKeys(metadata: map<string, string>, key: string, value: string)
    requires key !in {"listLength", "listName", "address", "password"}
    ensures ParseRedisMetadata(metadata[key := value]) == ParseRedisMetadata(metadata)
  {
  }

  /** The metadata a user would write for a scaler: every field spelled out,
      the target length in canonical decimal. */
  function Metadata(s: RedisScaler): map<string, string> {
    map["address" := s.address, "password" := s.password,
        "listName" := s.listName, "listLength" := FormatInt(s.listLength)]
  }

  /** Parsing the written-out metadata of a scaler gives the scaler back,
      for every scaler the parser can produce (its address is never empty). */
  lemma ParseMetadataRoundTrip(s: RedisScaler)
    requires s.address != ""
    ensures ParseRedisMetadata(Metadata(s)) == Success(s)
  {
    AtoiFormatInt(s.listLength);
  }

  /** With only a list name given, every other field takes its default. */
  lemma ParseDefaults(listName: string)
    ensures ParseRedisMetadata(map["listName" := listName]) ==
      Success(RedisScaler(DefaultRedisAddress, DefaultRedisPassword, listName, DefaultTargetListLength))
  {
  }
}
