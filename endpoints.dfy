/**
 * Discovering the cluster's etcd: the endpoints of the `coc-kube-etcd` service in
 * `kube-system` become a comma-separated list of `ip:port` addresses, all with the
 * port of the first subset's first port entry.
 */
module EtcdEndpoints {
  import opened K8s
  import opened Strings

  const NsKubeSystem := "kube-system"
  const SvcKubeSystemEtcd := "coc-kube-etcd"

  datatype EndpointAddress = EndpointAddress(ip: string)
  datatype EndpointPort = EndpointPort(port: int)
  datatype EndpointSubset = EndpointSubset(addresses: seq<EndpointAddress>, ports: seq<EndpointPort>)
  datatype Endpoints = Endpoints(subsets: seq<EndpointSubset>)

  const NoSubsets := Failure("0 >= len(epEtcd.Subsets[0]")
  const NoPorts := Failure("0 >= len(epEtcd.Subsets[0].Ports")
  const NoAddresses := Failure("0 >= len(epEtcd.Subsets[0].Addresses")

  /** `fmt.Sprintf("%s:%d", ip, port)`. */
  function HostPort(ip: string, port: int): string {
    ip + ":" + Decimal(port)
  }

  /** One `ip:port` entry per address, in the order the endpoints list them. */
  function HostPorts(addresses: seq<EndpointAddress>, port: int): (r: seq<string>)
    ensures |r| == |addresses|
    ensures forall i :: 0 <= i < |r| ==> r[i] == HostPort(addresses[i].ip, port)
  {
    seq(|addresses|, i requires 0 <= i < |addresses| => HostPort(addresses[i].ip, port))
  }

  /**
   * What `GetKubeSystemEtcdEndpoints` returns for a given lookup result: the lookup
   * error, one of three errors for a missing first subset, first port or first address
   * (checked in that order), or the joined address list.
   */
  function EtcdAddress(ep: Result<Endpoints>): Result<string> {
    if ep.Fail? then Fail(ep.err)
    else if |ep.value.subsets| == 0 then Fail(NoSubsets)
    else if |ep.value.subsets[0].ports| == 0 then Fail(NoPorts)
    else if |ep.value.subsets[0].addresses| == 0 then Fail(NoAddresses)
    else Ok(Join(HostPorts(ep.value.subsets[0].addresses, ep.value.subsets[0].ports[0].port), ','))
  }

  /**
   * `GetKubeSystemEtcdEndpoints`, given the endpoints lookup: append every `ip:port`
   * followed by a comma, then cut the trailing comma.
   */
  method GetKubeSystemEtcdEndpoints(getEndpoints: (string, string) -> Result<Endpoints>) returns (r: Result<string>)
    ensures r == EtcdAddress(getEndpoints(NsKubeSystem, SvcKubeSystemEtcd))
  {
    var epEtcd := getEndpoints(NsKubeSystem, SvcKubeSystemEtcd);
    if epEtcd.Fail? {
      return Fail(epEtcd.err);
    }
    if |epEtcd.value.subsets| == 0 {
      return Fail(NoSubsets);
    }
    if |epEtcd.value.subsets[0].ports| == 0 {
      return Fail(NoPorts);
    }
    if |epEtcd.value.subsets[0].addresses| == 0 {
      return Fail(NoAddresses);
    }
    var addresses := epEtcd.value.subsets[0].addresses;
    var port := epEtcd.value.subsets[0].ports[0].port;
    ghost var parts := HostPorts(addresses, port);
    var addr := "";
    var i := 0;
    while i < |addresses|
      invariant 0 <= i <= |addresses|
      invariant addr == Terminated(parts[..i], ',')
    {
      var ipPort := HostPort(addresses[i].ip, port);
      addr := addr + ipPort;
      addr := addr + ",";
      assert parts[..i + 1][..i] == parts[..i];
      i := i + 1;
    }
    assert parts[..i] == parts;
    TerminatedIsJoinPlusSep(parts, ',');
    addr := addr[..|addr| - 1];
    return Ok(addr);
  }

  /** An `ip:port` entry has a comma only if the address itself has one. */
  lemma HostPortNoComma(ip: string, port: int)
    requires ',' !in ip
    ensures ',' !in HostPort(ip, port)
  {
    var d := Decimal(port);
    assert ',' !in d by {
      forall i | 0 <= i < |d| ensures d[i] != ',' {
      }
    }
    assert HostPort(ip, port) == ip + ":" + d;
  }

  /**
   * Splitting the returned list on commas gives back one `ip:port` per address of the
   * first subset, in order, provided no address contains a comma; and the list holds
   * exactly one comma fewer than there are addresses.
   */
  lemma EtcdAddressRoundTrip(ep: Endpoints)
    requires |ep.subsets| > 0 && |ep.subsets[0].ports| > 0 && |ep.subsets[0].addresses| > 0
    requires forall i :: 0 <= i < |ep.subsets[0].addresses| ==> ',' !in ep.subsets[0].addresses[i].ip
    ensures EtcdAddress(Ok(ep)).Ok?
    ensures Split(EtcdAddress(Ok(ep)).value, ',') == HostPorts(ep.subsets[0].addresses, ep.subsets[0].ports[0].port)
    ensures Count(EtcdAddress(Ok(ep)).value, ',') == |ep.subsets[0].addresses| - 1
  {
    var addresses := ep.subsets[0].addresses;
    var port := ep.subsets[0].ports[0].port;
    var parts := HostPorts(addresses, port);
    forall i | 0 <= i < |parts|
      ensures ',' !in parts[i]
    {
      HostPortNoComma(addresses[i].ip, port);
    }
    SplitJoin(parts, ',');
    JoinSeparatorCount(parts, ',');
  }

  /** The result is an error exactly when the lookup fails or the first subset lacks a port or an address. */
  lemma EtcdAddressErrors(ep: Result<Endpoints>)
    ensures EtcdAddress(ep).Fail? <==>
      ep.Fail? || |ep.value.subsets| == 0 || |ep.value.subsets[0].ports| == 0 || |ep.value.subsets[0].addresses| == 0
    ensures ep.Fail? ==> EtcdAddress(ep) == Fail(ep.err)
    ensures EtcdAddress(ep).Ok? ==> |EtcdAddress(ep).value| > 0
  {
    if EtcdAddress(ep).Ok? {
      var parts := HostPorts(ep.value.subsets[0].addresses, ep.value.subsets[0].ports[0].port);
      JoinNonEmpty(parts, ',');
    }
  }

  lemma {:induction false} JoinNonEmpty(parts: seq<string>, sep: char)
    requires |parts| > 0
    requires forall i :: 0 <= i < |parts| ==> |parts[i]| > 0
    ensures |Join(parts, sep)| >= |parts[0]|
    decreases |parts|
  {
    if |parts| > 1 {
      JoinNonEmpty(parts[..|parts| - 1], sep);
    }
  }
}
