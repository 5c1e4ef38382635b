/**
 * Building the wire form of a container-creation request (wire/create.go)
 * from the client's ContainerSpec.
 */
module WireCreate {
  import opened Wrappers
  import opened WireHelpers
  import opened GoStrings

  type Uint8 = x: int | 0 <= x < 0x100
  type Uint32 = x: int | 0 <= x < 0x1_0000_0000

  /** garden.BindMountMode (RO = 0, RW = 1) and garden.BindMountOrigin (Host = 0, Container = 1). */
  type BindMountMode = Uint8
  type BindMountOrigin = Uint8

  const NanosPerSecond: nat := 1_000_000_000

  /** garden.BindMount. */
  datatype BindMount = BindMount(srcPath: string, dstPath: string, mode: BindMountMode, origin: BindMountOrigin)

  /** garden.ContainerSpec; graceTime is a time.Duration in nanoseconds, properties is garden.Properties. */
  datatype ContainerSpec = ContainerSpec(
    handle: string,
    graceTime: int,
    rootFSPath: string,
    bindMounts: seq<BindMount>,
    network: string,
    properties: map<string, string>,
    env: seq<string>,
    privileged: bool)

  /** CreateRequest_BindMount. */
  datatype WireBindMount = WireBindMount(
    srcPath: Option<string>, dstPath: Option<string>, mode: Option<BindMountMode>, origin: Option<BindMountOrigin>)

  datatype Property = Property(key: Option<string>, value: Option<string>)

  datatype EnvironmentVariable = EnvironmentVariable(key: Option<string>, value: Option<string>)

  /** CreateRequest (a nil slice and an empty slice are both []). */
  datatype CreateRequest = CreateRequest(
    bindMounts: seq<WireBindMount>,
    graceTime: Option<Uint32>,
    handle: Option<string>,
    network: Option<string>,
    rootfs: Option<string>,
    properties: seq<Property>,
    env: seq<EnvironmentVariable>,
    privileged: Option<bool>)

  /**
   * `ConvertEnvironmentVariables`: each "KEY=VALUE" string splits at its first
   * '='. A string without '=' makes the Go code index segs[1] out of range, so
   * every input must contain one.
   */
  method ConvertEnvironmentVariables(environmentVariables: seq<string>) returns (converted: seq<EnvironmentVariable>)
    requires forall i :: 0 <= i < |environmentVariables| ==> '=' in environmentVariables[i]
    ensures |converted| == |environmentVariables|
    ensures forall i :: 0 <= i < |converted| ==>
      converted[i].key.Some? && converted[i].value.Some? && '=' !in converted[i].key.value &&
      converted[i].key.value + "=" + converted[i].value.value == environmentVariables[i]
  {
    converted := [];
    for i := 0 to |environmentVariables|
      invariant |converted| == i
      invariant forall j :: 0 <= j < i ==>
        converted[j].key.Some? && converted[j].value.Some? && '=' !in converted[j].key.value &&
        converted[j].key.value + "=" + converted[j].value.value == environmentVariables[j]
    {
      var segs := SplitN2(environmentVariables[i], '=');
      converted := converted + [EnvironmentVariable(Some(segs[0]), Some(segs[1]))];
    }
  }

  /** `pBindMountMode` / `pBindMountOrigin`: a pointer to a copy. */
  function PUint8(b: Uint8): (p: Option<Uint8>)
    ensures p.Some? && p.value == b
  {
    Some(b)
  }

  /** `ConvertBindMounts`: one wire bind mount per bind mount, in order, every field present and copied. */
  method ConvertBindMounts(srcBms: seq<BindMount>) returns (tgtBms: seq<WireBindMount>)
    ensures |tgtBms| == |srcBms|
    ensures forall i :: 0 <= i < |tgtBms| ==>
      tgtBms[i] == WireBindMount(Some(srcBms[i].srcPath), Some(srcBms[i].dstPath), Some(srcBms[i].mode), Some(srcBms[i].origin))
  {
    tgtBms := [];
    for i := 0 to |srcBms|
      invariant |tgtBms| == i
      invariant forall j :: 0 <= j < i ==>
        tgtBms[j] == WireBindMount(Some(srcBms[j].srcPath), Some(srcBms[j].dstPath), Some(srcBms[j].mode), Some(srcBms[j].origin))
    {
      var bm := srcBms[i];
      tgtBms := tgtBms + [WireBindMount(PString(bm.srcPath), PString(bm.dstPath), PUint8(bm.mode), PUint8(bm.origin))];
    }
  }

  /** props lists exactly the entries of m, once each, in some order. */
  ghost predicate ListsExactly(props: seq<Property>, m: map<string, string>)
  {
    && |props| == |m|
    && (forall i :: 0 <= i < |props| ==>
          props[i].key.Some? && props[i].value.Some? &&
          props[i].key.value in m && m[props[i].key.value] == props[i].value.value)
    && (forall k :: k in m ==> exists i :: 0 <= i < |props| && props[i] == Property(Some(k), Some(m[k])))
    && (forall i, j :: 0 <= i < j < |props| ==> props[i].key != props[j].key)
  }

  /** `ConvertProperties`: ranges over the map in an unspecified order, one property per entry. */
  method ConvertProperties(srcProps: map<string, string>) returns (tgtProps: seq<Property>)
    ensures ListsExactly(tgtProps, srcProps)
  {
    tgtProps := [];
    var remaining := srcProps.Keys;
    while remaining != {}
      invariant remaining <= srcProps.Keys
      invariant |tgtProps| + |remaining| == |srcProps|
      invariant forall i :: 0 <= i < |tgtProps| ==>
        tgtProps[i].key.Some? && tgtProps[i].value.Some? &&
        tgtProps[i].key.value in srcProps.Keys - remaining && srcProps[tgtProps[i].key.value] == tgtProps[i].value.value
      invariant forall k :: k in srcProps.Keys - remaining ==>
        exists i :: 0 <= i < |tgtProps| && tgtProps[i] == Property(Some(k), Some(srcProps[k]))
      invariant forall i, j :: 0 <= i < j < |tgtProps| ==> tgtProps[i].key != tgtProps[j].key
      decreases remaining
    {
      var key :| key in remaining;
      ghost var before := tgtProps;
      tgtProps := tgtProps + [Property(PString(key), PString(srcProps[key]))];
      assert forall i :: 0 <= i < |before| ==> tgtProps[i] == before[i];
      assert tgtProps[|before|] == Property(Some(key), Some(srcProps[key]));
      remaining := remaining - {key};
    }
  }

  /**
   * `OptTimeSecs`: nil for a zero duration, otherwise the whole number of
   * seconds (truncated). Modelled on integer nanoseconds for durations that
   * are non-negative and whose seconds fit in a uint32.
   */
  function OptTimeSecs(tm: int): (r: Option<Uint32>)
    requires 0 <= tm && tm / NanosPerSecond < 0x1_0000_0000
    ensures r.None? <==> tm == 0
    ensures r.Some? ==> r.value * NanosPerSecond <= tm < (r.value + 1) * NanosPerSecond
  {
    if tm == 0 then None else Some(tm / NanosPerSecond)
  }

  /** `NewCreateRequest`. */
  method NewCreateRequest(spec: ContainerSpec) returns (req: CreateRequest)
    requires forall i :: 0 <= i < |spec.env| ==> '=' in spec.env[i]
    requires 0 <= spec.graceTime && spec.graceTime / NanosPerSecond < 0x1_0000_0000
    ensures req.handle.None? <==> spec.handle == ""
    ensures req.rootfs.None? <==> spec.rootFSPath == ""
    ensures req.network.None? <==> spec.network == ""
    ensures req.handle.Some? ==> req.handle.value == spec.handle
    ensures req.rootfs.Some? ==> req.rootfs.value == spec.rootFSPath
    ensures req.network.Some? ==> req.network.value == spec.network
    ensures req.graceTime.None? <==> spec.graceTime == 0
    ensures req.graceTime.Some? ==> req.graceTime.value == spec.graceTime / NanosPerSecond
    ensures req.privileged == Some(spec.privileged)
    ensures |req.env| == |spec.env| && |req.bindMounts| == |spec.bindMounts|
    ensures forall i :: 0 <= i < |req.env| ==>
      req.env[i].key.Some? && req.env[i].value.Some? && '=' !in req.env[i].key.value &&
      req.env[i].key.value + "=" + req.env[i].value.value == spec.env[i]
    ensures forall i :: 0 <= i < |req.bindMounts| ==>
      var bm := spec.bindMounts[i];
      req.bindMounts[i] == WireBindMount(Some(bm.srcPath), Some(bm.dstPath), Some(bm.mode), Some(bm.origin))
    ensures ListsExactly(req.properties, spec.properties)
  {
    var env := ConvertEnvironmentVariables(spec.env);
    var bindMounts := ConvertBindMounts(spec.bindMounts);
    var properties := ConvertProperties(spec.properties);
    req := CreateRequest(
      bindMounts,
      OptTimeSecs(spec.graceTime),
      OptString(spec.handle),
      OptString(spec.network),
      OptString(spec.rootFSPath),
      properties,
      env,
      PBool(spec.privileged));
  }
}
