/**
 * Running commands inside the Redis pods: finding the target container, the outcome
 * of one exec, the replication command (ordinal 1 becomes a replica of ordinal 0),
 * the address the replica is pointed at, and the credential push to both ordinals.
 *
 * The Kubernetes client, the exec transport, IP parsing and base64 are collaborators:
 * their answers are fields of `ExecEnv` or parameters.
 */
module RedisExec {
  import opened Wrappers
  import opened K8s
  import opened Strings
  import opened ReconcileSpec

  /** One exec request: the pod, the container inside it, and the argv. */
  datatype Command = Command(pod: string, container: string, argv: seq<string>)

  /** What the exec stream produced: its standard output, standard error and error. */
  datatype Stream = Stream(stdout: string, stderr: string, err: Option<Err>)

  /** The answers of the collaborators an exec goes through. */
  datatype ExecEnv = ExecEnv(
    config: Option<Err>,            // generateK8sConfig
    pods: string -> Result<Pod>,    // Pods(namespace).Get(podName)
    executor: Option<Err>,          // remotecommand.NewSPDYExecutor
    stream: Command -> Stream,      // exec.Stream for the issued request
    isIPv4: string -> bool)         // net.ParseIP(ip).To4() != nil

  /**
   * The pod a lookup yields. A failed lookup is only logged, and the client then
   * hands back an empty pod: no containers and an empty IP.
   */
  function FetchedPod(r: Result<Pod>): Pod {
    match r
    case Ok(p) => p
    case Fail(_) => Pod("", "", [])
  }

  /** The index of the first container called `name`, or -1 when there is none. */
  function ContainerIndex(cs: seq<Container>, name: string): (i: int)
    ensures -1 <= i < |cs|
    ensures i >= 0 ==> cs[i].name == name && forall j :: 0 <= j < i ==> cs[j].name != name
    ensures i == -1 <==> forall j :: 0 <= j < |cs| ==> cs[j].name != name
    decreases |cs|
  {
    if |cs| == 0 then -1
    else if cs[0].name == name then 0
    else
      var k := ContainerIndex(cs[1..], name);
      assert forall j :: 1 <= j < |cs| ==> cs[j] == cs[1..][j - 1];
      if k < 0 then -1 else k + 1
  }

  /** `getContainerID`: look the pod up and scan its containers for the one named after the resource. */
  method GetContainerID(x: ExecEnv, crName: string, podName: string) returns (targetContainer: int, pod: Pod)
    ensures pod == FetchedPod(x.pods(podName))
    ensures targetContainer == ContainerIndex(pod.containers, crName)
  {
    pod := FetchedPod(x.pods(podName));
    targetContainer := -1;
    var containerID := 0;
    while containerID < |pod.containers|
      invariant 0 <= containerID <= |pod.containers|
      invariant targetContainer == -1
      invariant forall j :: 0 <= j < containerID ==> pod.containers[j].name != crName
    {
      if pod.containers[containerID].name == crName {
        targetContainer := containerID;
        break;
      }
      containerID := containerID + 1;
    }
  }

  /** The outcome of `executeCommand`, and the request it issued if it got that far. */
  datatype ExecResult = ExecResult(out: string, err: Option<Err>, issued: Option<Command>)

  const NoContainer := Failure("Could not find pod to execute")

  /** What `executeCommand` returns for running `cmd` in pod `podName`. */
  function Exec(x: ExecEnv, crName: string, cmd: seq<string>, podName: string): ExecResult {
    if x.config.Some? then ExecResult("", x.config, None)
    else
      var pod := FetchedPod(x.pods(podName));
      var idx := ContainerIndex(pod.containers, crName);
      if idx < 0 then ExecResult("", Some(NoContainer), None)
      else if x.executor.Some? then ExecResult("", x.executor, None)
      else
        var c := Command(podName, pod.containers[idx].name, cmd);
        var s := x.stream(c);
        if s.err.Some? then ExecResult("", s.err, Some(c)) else ExecResult(s.stdout, None, Some(c))
  }

  /** `executeCommand`: load the config, find the container, build the executor, stream. */
  method ExecuteCommand(x: ExecEnv, crName: string, cmd: seq<string>, podName: string)
    returns (out: string, err: Option<Err>, ghost issued: Option<Command>)
    ensures out == Exec(x, crName, cmd, podName).out && err == Exec(x, crName, cmd, podName).err
    ensures issued == Exec(x, crName, cmd, podName).issued
  {
    issued := None;
    if x.config.Some? {
      return "", x.config, issued;
    }
    var targetContainer, pod := GetContainerID(x, crName, podName);
    if targetContainer < 0 {
      return "", Some(NoContainer), issued;
    }
    if x.executor.Some? {
      return "", x.executor, issued;
    }
    var req := Command(podName, pod.containers[targetContainer].name, cmd);
    issued := Some(req);
    var s := x.stream(req);
    if s.err.Some? {
      return "", s.err, issued;
    }
    return s.stdout, None, issued;
  }

  /**
   * The exec contract: standard output comes back only on success (standard error is
   * always dropped) and the empty string with the error otherwise; an exec succeeds
   * exactly when every step does, and a pod without a container named after the
   * resource fails before anything is issued. An issued request targets that container.
   */
  lemma ExecContract(x: ExecEnv, crName: string, cmd: seq<string>, podName: string)
    ensures var r := Exec(x, crName, cmd, podName);
      var cs := FetchedPod(x.pods(podName)).containers;
      && (r.err.Some? ==> r.out == "")
      && (r.err.None? <==>
            x.config.None? && ContainerIndex(cs, crName) >= 0 && x.executor.None? && r.issued.Some?
            && x.stream(r.issued.value).err.None?)
      && (r.err.None? ==> r.out == x.stream(r.issued.value).stdout)
      && (ContainerIndex(cs, crName) < 0 ==> r.issued.None? && r.err.Some?)
      && (r.issued.Some? ==> r.issued.value == Command(podName, crName, cmd))
  {
  }

  // ---------------------------------------------------------------------------
  // The replica's upstream address.
  // ---------------------------------------------------------------------------

  /** A non-IPv4 address is taken to be IPv6 and wrapped in square brackets. */
  function Bracketed(ip: string, isIPv4: bool): string {
    if isIPv4 then ip else "[" + ip + "]"
  }

  /** The address inside an optional pair of square brackets. */
  function Unbracketed(s: string): string {
    if |s| >= 2 && s[0] == '[' && s[|s| - 1] == ']' then s[1..|s| - 1] else s
  }

  /** Removing the brackets gives the pod IP back, whichever family it is. */
  lemma BracketRoundTrip(ip: string, isIPv4: bool)
    requires isIPv4 ==> |ip| == 0 || ip[0] != '['
    ensures Unbracketed(Bracketed(ip, isIPv4)) == ip
    ensures Bracketed(ip, isIPv4) == ip <==> isIPv4
  {
    if !isIPv4 {
      var s := "[" + ip + "]";
      assert s[1..|s| - 1] == ip;
      assert |s| != |ip|;
    }
  }

  /** `getRedisServerIP`: the pod's IP, bracketed unless IPv4. A failed lookup yields the empty IP. */
  function ServerIP(x: ExecEnv, podName: string): string {
    var ip := FetchedPod(x.pods(podName)).podIP;
    Bracketed(ip, x.isIPv4(ip))
  }

  // ---------------------------------------------------------------------------
  // Wiring replication.
  // ---------------------------------------------------------------------------

  /** The name of a pod of the statefulset, `<name>-<ordinal>`. */
  function PodName(crName: string, ordinal: nat): string {
    crName + "-" + Decimal(ordinal)
  }

  const NotOk := Failure("ExecuteRedisCreateHA fail, out not ok")

  /** The replication command: make this server a replica of `masterIP` on the Redis port. */
  function ReplicationArgv(masterIP: string): seq<string> {
    ["redis-cli", "-p", "6379", "slaveof", masterIP, "6379"]
  }

  /** The exec `ExecuteRedisCreateHA` performs: on ordinal 1, pointing at ordinal 0. */
  function ReplicationExec(x: ExecEnv, crName: string): ExecResult {
    Exec(x, crName, ReplicationArgv(ServerIP(x, crName + "-0")), crName + "-1")
  }

  /** What `ExecuteRedisCreateHA` returns. */
  function CreateHA(x: ExecEnv, crName: string): Option<Err> {
    var r := ReplicationExec(x, crName);
    if r.err.Some? then r.err
    else if !Contains(r.out, "OK") then Some(NotOk)
    else None
  }

  /** `ExecuteRedisCreateHA`, building the argv by appending as the operator does. */
  method ExecuteRedisCreateHA(x: ExecEnv, crName: string) returns (err: Option<Err>)
    ensures err == CreateHA(x, crName)
  {
    var cmd := ["redis-cli", "-p", "6379", "slaveof"];
    var pod := crName + "-0";
    var masterIP := ServerIP(x, pod);
    cmd := cmd + [masterIP];
    cmd := cmd + ["6379"];
    assert cmd == ReplicationArgv(masterIP);
    var out, e, _ := ExecuteCommand(x, crName, cmd, crName + "-1");
    if e.Some? {
      return e;
    }
    if !Contains(out, "OK") {
      return Some(NotOk);
    }
    return None;
  }

  /**
   * Wiring replication succeeds exactly when the exec succeeds and its output contains
   * "OK"; an exec error is returned unchanged. The one request issued runs
   * `redis-cli -p 6379 slaveof <ip of ordinal 0> 6379` on ordinal 1.
   */
  lemma CreateHAContract(x: ExecEnv, crName: string)
    ensures var r := ReplicationExec(x, crName);
      && (CreateHA(x, crName).None? <==> r.err.None? && exists i: nat :: OccursAt(r.out, "OK", i))
      && (r.err.Some? ==> CreateHA(x, crName) == r.err)
      && (r.issued.Some? ==> r.issued.value == Command(crName + "-1", crName,
            ["redis-cli", "-p", "6379", "slaveof", ServerIP(x, crName + "-0"), "6379"]))
  {
    ExecContract(x, crName, ReplicationArgv(ServerIP(x, crName + "-0")), crName + "-1");
  }

  /** Nothing that happens on ordinal 0's exec stream can change the outcome: the command runs only on ordinal 1. */
  lemma CreateHARunsOnOrdinalOne(x: ExecEnv, other: Command -> Stream, crName: string)
    requires forall c: Command :: c.pod == crName + "-1" ==> other(c) == x.stream(c)
    ensures CreateHA(x.(stream := other), crName) == CreateHA(x, crName)
  {
    ExecContract(x, crName, ReplicationArgv(ServerIP(x, crName + "-0")), crName + "-1");
  }

  // ---------------------------------------------------------------------------
  // Pushing the etcd credentials.
  // ---------------------------------------------------------------------------

  /** The credential push command: the save script, then base64 of certificate, key and CA. */
  function CredentialArgv(cert: string, key: string, ca: string, base64: string -> string): seq<string> {
    ["/usr/bin/etcd-save-crt.sh", base64(cert), base64(key), base64(ca)]
  }

  /** What `ExecuteRedisSetEtcdCrd` returns: the first failing ordinal's error, 0 before 1. */
  function SetEtcdCrt(x: ExecEnv, crName: string, cmd: seq<string>): Option<Err> {
    var r0 := Exec(x, crName, cmd, PodName(crName, 0));
    if r0.err.Some? then r0.err else Exec(x, crName, cmd, PodName(crName, 1)).err
  }

  /**
   * `ExecuteRedisSetEtcdCrd`: run the push on ordinal 0, then ordinal 1, returning the
   * first error at once. `visited` lists the pods the loop reached.
   */
  method ExecuteRedisSetEtcdCrd(x: ExecEnv, crName: string, cert: string, key: string, ca: string,
                                base64: string -> string)
    returns (err: Option<Err>, ghost visited: seq<string>)
    ensures err == SetEtcdCrt(x, crName, CredentialArgv(cert, key, ca, base64))
    ensures visited == if Exec(x, crName, CredentialArgv(cert, key, ca, base64), PodName(crName, 0)).err.Some?
                       then [PodName(crName, 0)]
                       else [PodName(crName, 0), PodName(crName, 1)]
  {
    var cmd := [];
    cmd := cmd + ["/usr/bin/etcd-save-crt.sh", base64(cert), base64(key), base64(ca)];
    assert cmd == CredentialArgv(cert, key, ca, base64);
    visited := [];
    var i := 0;
    while i <= 1
      invariant 0 <= i <= 2
      invariant visited == seq(i, j requires 0 <= j => PodName(crName, j))
      invariant forall j: nat :: j < i ==> Exec(x, crName, cmd, PodName(crName, j)).err.None?
    {
      var podName := crName + "-" + Decimal(i);
      visited := visited + [podName];
      var _, e, _ := ExecuteCommand(x, crName, cmd, podName);
      if e.Some? {
        return e, visited;
      }
      i := i + 1;
    }
    assert Exec(x, crName, cmd, PodName(crName, 0)).err.None?;
    assert Exec(x, crName, cmd, PodName(crName, 1)).err.None?;
    return None, visited;
  }

  /**
   * The push succeeds only when both ordinals succeed; a failure on ordinal 0 is
   * returned as is and ordinal 1 is then never contacted, so its stream has no say.
   */
  lemma SetEtcdCrtContract(x: ExecEnv, crName: string, cmd: seq<string>, other: Command -> Stream)
    ensures SetEtcdCrt(x, crName, cmd).None? <==>
      Exec(x, crName, cmd, PodName(crName, 0)).err.None? && Exec(x, crName, cmd, PodName(crName, 1)).err.None?
    ensures Exec(x, crName, cmd, PodName(crName, 0)).err.Some? ==>
      && SetEtcdCrt(x, crName, cmd) == Exec(x, crName, cmd, PodName(crName, 0)).err
      && SetEtcdCrt(x.(stream := (c: Command) => if c.pod == PodName(crName, 1) then other(c) else x.stream(c)),
                    crName, cmd) == SetEtcdCrt(x, crName, cmd)
  {
    var x' := x.(stream := (c: Command) => if c.pod == PodName(crName, 1) then other(c) else x.stream(c));
    PodNamesDiffer(crName);
    ExecContract(x, crName, cmd, PodName(crName, 0));
    ExecContract(x', crName, cmd, PodName(crName, 0));
  }

  /** Ordinals 0 and 1 name different pods, and `PodName` spells `<name>-0` and `<name>-1`. */
  lemma PodNamesDiffer(crName: string)
    ensures PodName(crName, 0) == crName + "-0"
    ensures PodName(crName, 1) == crName + "-1"
    ensures PodName(crName, 0) != PodName(crName, 1)
  {
    assert Decimal(0) == "0";
    assert Decimal(1) == "1";
    assert PodName(crName, 0)[|crName| + 1] == '0';
  }

  // ---------------------------------------------------------------------------
  // How the reconciler sees these outcomes.
  // ---------------------------------------------------------------------------

  /**
   * With the replication command as its collaborator, phase 9 moves to the steady
   * state exactly when the exec succeeded and the reply contains "OK".
   */
  lemma ReplicationPhaseFollowsReply(name: string, namespace: string, st: Status, env: Env, x: ExecEnv)
    requires env.fetch.None? && env.statusWrite.None? && st.crStatus == 9
    requires env.createHA == CreateHA(x, name)
    ensures Reconciled(name, namespace, st, env).crStatus == 12 <==>
      ReplicationExec(x, name).err.None? && Contains(ReplicationExec(x, name).out, "OK")
    ensures Reconciled(name, namespace, st, env).beSlaveOf <==>
      st.beSlaveOf || (ReplicationExec(x, name).err.None? && Contains(ReplicationExec(x, name).out, "OK"))
  {
  }

  /**
   * With the credential push as its collaborator, phase 13 records installed
   * credentials exactly when they were already installed or both ordinals accepted them.
   */
  lemma CredentialPhaseFollowsPush(name: string, namespace: string, st: Status, env: Env, x: ExecEnv,
                                   cert: string, key: string, ca: string, base64: string -> string)
    requires env.fetch.None? && env.statusWrite.None? && st.crStatus == 13
    requires env.setEtcdCrt == SetEtcdCrt(x, name, CredentialArgv(cert, key, ca, base64))
    ensures var cmd := CredentialArgv(cert, key, ca, base64);
      Reconciled(name, namespace, st, env).beSetEtcdCrt <==>
        st.beSetEtcdCrt || (Exec(x, name, cmd, name + "-0").err.None? && Exec(x, name, cmd, name + "-1").err.None?)
  {
    PodNamesDiffer(name);
    SetEtcdCrtContract(x, name, CredentialArgv(cert, key, ca, base64), x.stream);
  }
}
