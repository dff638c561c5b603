/** Sequences of RPCs against one server. The registry is caller-driven:
    after any sequence of RPCs, a workload has an entry exactly when the last
    RPC that wrote its key was a successful New, and the entry is what that
    New parsed. Queries and failed registrations write nothing, and the
    answers Redis gives never influence the registry. */
module Trace {
  import opened Wrappers
  import opened Scaler
  import opened Server

  /** One RPC of the external-scaler contract, with its request. */
  datatype Rpc =
    | NewRpc(newRequest: NewRequest)
    | CloseRpc(ref: ScaledObjectRef)
    | IsActiveRpc(ref: ScaledObjectRef)
    | GetMetricSpecRpc(ref: ScaledObjectRef)
    | GetMetricsRpc(metricsRequest: GetMetricsRequest)

  /** The registry after serving one RPC. */
  function Step(reg: Registry, rpc: Rpc, oracle: Oracle): Registry {
    match rpc
    case NewRpc(req) => New(reg, req).registry
    case CloseRpc(ref) => Close(reg, ref).registry
    case IsActiveRpc(ref) => IsActive(reg, ref, oracle).registry
    case GetMetricSpecRpc(ref) => GetMetricSpec(reg, ref).registry
    case GetMetricsRpc(req) => GetMetrics(reg, req, oracle).registry
  }

  /** The registry after serving `rpcs` in order, one at a time; RPC `i`
      sees Redis as `oracles[i]` describes it at that moment. */
  function Run(reg: Registry, rpcs: seq<Rpc>, oracles: seq<Oracle>): Registry
    requires |oracles| == |rpcs|
    decreases |rpcs|
  {
    if |rpcs| == 0 then reg
    else
      var n := |rpcs| - 1;
      Step(Run(reg, rpcs[..n], oracles[..n]), rpcs[n], oracles[n])
  }

  /** How an RPC writes the key `id`: None when it leaves the key alone,
      Some(Some(e)) when it stores `e` there, Some(None) when it removes it. */
  function WriteOf(rpc: Rpc, id: string): Option<Option<RedisScaler>> {
    match rpc
    case NewRpc(req) =>
      if UniqueName(req.scaledObjectRef) == id && ParseRedisMetadata(req.metadata).Success?
      then Some(Some(ParseRedisMetadata(req.metadata).value))
      else None
    case CloseRpc(ref) => if UniqueName(ref) == id then Some(None) else None
    case _ => None
  }

  /** The last write to `id` in `rpcs`, if any RPC wrote it. */
  function LastWrite(rpcs: seq<Rpc>, id: string): Option<Option<RedisScaler>>
    decreases |rpcs|
  {
    if |rpcs| == 0 then None
    else match WriteOf(rpcs[|rpcs| - 1], id)
      case Some(w) => Some(w)
      case None => LastWrite(rpcs[..|rpcs| - 1], id)
  }

  /** After a run, the entry under every key is what the last write to that
      key left there, or the starting entry when nothing wrote the key. */
  lemma {:induction false} RunFollowsLastWrite(reg: Registry, rpcs: seq<Rpc>, oracles: seq<Oracle>, id: string)
    requires |oracles| == |rpcs|
    ensures Lookup(Run(reg, rpcs, oracles), id) ==
      match LastWrite(rpcs, id)
      case None => Lookup(reg, id)
      case Some(w) => w
    decreases |rpcs|
  {
    if |rpcs| > 0 {
      var n := |rpcs| - 1;
      RunFollowsLastWrite(reg, rpcs[..n], oracles[..n], id);
      var prev := Run(reg, rpcs[..n], oracles[..n]);
      match rpcs[n]
      case NewRpc(req) =>
        var o := New(prev, req);
        if UniqueName(req.scaledObjectRef) != id {
          assert Lookup(o.registry, id) == Lookup(prev, id);
        }
      case CloseRpc(ref) =>
        var o := Close(prev, ref);
        if UniqueName(ref) != id {
          assert Lookup(o.registry, id) == Lookup(prev, id);
        }
      case IsActiveRpc(ref) =>
      case GetMetricSpecRpc(ref) =>
      case GetMetricsRpc(req) =>
    }
  }

  /** Starting from the empty registry, a workload is registered exactly when
      the last RPC writing its key was a successful New, with that New's entry. */
  lemma RegisteredIffLastWriteIsNew(rpcs: seq<Rpc>, oracles: seq<Oracle>, id: string)
    requires |oracles| == |rpcs|
    ensures id in Run(map[], rpcs, oracles) <==> LastWrite(rpcs, id).Some? && LastWrite(rpcs, id).value.Some?
    ensures id in Run(map[], rpcs, oracles) ==> Run(map[], rpcs, oracles)[id] == LastWrite(rpcs, id).value.value
  {
    RunFollowsLastWrite(map[], rpcs, oracles, id);
  }

  /** The list lengths Redis reports never change the registry: a failed
      store query for one workload affects no entry. */
  lemma {:induction false} RunIgnoresOracle(reg: Registry, rpcs: seq<Rpc>, oracles1: seq<Oracle>, oracles2: seq<Oracle>)
    requires |oracles1| == |rpcs| && |oracles2| == |rpcs|
    ensures Run(reg, rpcs, oracles1) == Run(reg, rpcs, oracles2)
    decreases |rpcs|
  {
    if |rpcs| > 0 {
      var n := |rpcs| - 1;
      RunIgnoresOracle(reg, rpcs[..n], oracles1[..n], oracles2[..n]);
    }
  }
}
