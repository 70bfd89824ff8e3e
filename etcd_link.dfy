/**
 * The Redis server's link to etcd: a per-server client object created lazily by the
 * server cron, connected on a later tick, and, once connected, used by a master to
 * publish its presence under a fixed key. Replicas publish nothing.
 *
 * The C client library is not part of this model: `etcd_Client_WithUrl` is the
 * `connect` argument of a tick (a handle, or `None` for NULL), and the `etcd_add` call
 * a tick makes is returned as data.
 */
module EtcdLink {
  import opened Wrappers

  // enum etcdLinkState
  const ETCD_UNINIT := 0
  const ETCD_WAIT_CONNECT := 1
  const ETCD_CONNECTED := 2
  const ETCD_DIS_CONNECT := 3

  /** The key, value and time-to-live a master writes on every connected tick. */
  const MasterPath := "/sys-redis-ha-default-redis-test"
  const MasterValue := "value"
  const MasterTtl := 1

  /** An opaque client handle returned by the etcd library. */
  datatype EtcdHandle = EtcdHandle(url: string)

  /** An `etcd_add(etcd, path, value, ttl)` call. */
  datatype EtcdAdd = EtcdAdd(etcd: Option<EtcdHandle>, path: string, value: string, ttl: int)

  /** What a server's link looks like from outside: no client yet, or a client's state and handle. */
  datatype Link = NoClient | Client(state: int, etcd: Option<EtcdHandle>)

  // ---------------------------------------------------------------------------
  // The specification: one tick on values.
  // ---------------------------------------------------------------------------

  /** `etcdLinkInitServer` on a client's state and handle. */
  function Init(state: int, etcd: Option<EtcdHandle>, connect: Option<EtcdHandle>): Link {
    if etcd.Some? then Client(ETCD_CONNECTED, etcd)
    else if connect.None? then Client(state, None)
    else Client(ETCD_CONNECTED, connect)
  }

  /** One `etcdLinkCron` tick: the link afterwards and the etcd call it made, if any. */
  function Tick(etcdAddr: Option<string>, masterhost: Option<string>, link: Link, connect: Option<EtcdHandle>)
    : (Link, Option<EtcdAdd>)
  {
    if etcdAddr.None? then (link, None)
    else if link.NoClient? then (Client(ETCD_UNINIT, None), None)
    else if link.state == ETCD_WAIT_CONNECT then (link, None)
    else if link.state == ETCD_UNINIT || link.state == ETCD_DIS_CONNECT then (Init(link.state, link.etcd, connect), None)
    else if link.state != ETCD_CONNECTED then (link, None)
    else if masterhost.None? then (link, Some(EtcdAdd(link.etcd, MasterPath, MasterValue, MasterTtl)))
    else (link, None)
  }

  /** The links a run of ticks goes through, one per tick, each tick with its own connect result. */
  function Ticks(etcdAddr: Option<string>, masterhost: Option<string>, link: Link, connects: seq<Option<EtcdHandle>>)
    : (r: seq<Link>)
    ensures |r| == |connects|
    decreases |connects|
  {
    if |connects| == 0 then []
    else
      var next := Tick(etcdAddr, masterhost, link, connects[0]).0;
      [next] + Ticks(etcdAddr, masterhost, next, connects[1..])
  }

  /**
   * The links the code can reach: no client, a client not yet connected and holding no
   * handle, or a connected client holding one. Nothing ever sets WAIT_CONNECT or
   * DIS_CONNECT.
   */
  predicate Reachable(link: Link) {
    link.NoClient? ||
    (link.state == ETCD_UNINIT && link.etcd.None?) ||
    (link.state == ETCD_CONNECTED && link.etcd.Some?)
  }

  /** Progress order on links: no client, then unconnected, then connected. */
  function Rank(link: Link): nat {
    if link.NoClient? then 0 else if link.state == ETCD_CONNECTED then 2 else 1
  }

  // ---------------------------------------------------------------------------
  // The objects.
  // ---------------------------------------------------------------------------

  /** `etcdLinkClient`. */
  class EtcdLinkClient {
    var etcdstate: int
    const redisServer: RedisServer
    var etcd: Option<EtcdHandle>
    var etcdCreatePath: int
    var etcdOnWatch: int
    var etcdInReconnect: int
    var replacePath: Option<string>
    var replacePathDelTm: int

    /** `etcdLinkCreateClient`: unconnected, no handle, counters zero, no replacement path. */
    constructor(server: RedisServer)
      ensures etcdstate == ETCD_UNINIT && etcd.None? && redisServer == server
      ensures etcdCreatePath == 0 && etcdOnWatch == 0 && etcdInReconnect == 0
      ensures replacePath.None? && replacePathDelTm == 0
    {
      etcd := None;
      etcdstate := ETCD_UNINIT;
      redisServer := server;
      etcdCreatePath := 0;
      etcdOnWatch := 0;
      etcdInReconnect := 0;
      replacePath := None;
      replacePathDelTm := 0;
    }

    function View(): Link
      reads this
    {
      Client(etcdstate, etcd)
    }

    /**
     * `etcdLinkInitServer`: a client that already has a handle is marked connected
     * without reconnecting; otherwise it connects, and only a successful connect
     * changes anything.
     */
    method InitServer(connect: Option<EtcdHandle>)
      modifies this
      ensures View() == Init(old(etcdstate), old(etcd), connect)
      ensures old(etcd).Some? ==> etcd == old(etcd)
      ensures old(etcd).None? && connect.None? ==> etcdstate == old(etcdstate) && etcd.None?
      ensures etcdCreatePath == old(etcdCreatePath) && etcdOnWatch == old(etcdOnWatch)
      ensures etcdInReconnect == old(etcdInReconnect)
      ensures replacePath == old(replacePath) && replacePathDelTm == old(replacePathDelTm)
    {
      if etcd.Some? {
        etcdstate := ETCD_CONNECTED;
        return;
      }
      etcd := connect;
      if etcd.None? {
        return;
      }
      etcdstate := ETCD_CONNECTED;
    }

    /** `etcdLinkUpdate`: a master (no `masterhost`) adds the fixed key; a replica does nothing. */
    method Update() returns (issued: Option<EtcdAdd>)
      ensures issued.Some? <==> redisServer.masterhost.None?
      ensures issued.Some? ==> issued.value == EtcdAdd(etcd, MasterPath, MasterValue, MasterTtl)
    {
      var wasMaster := redisServer.masterhost.None?;
      if wasMaster {
        issued := UpdateMaster();
      } else {
        issued := None;
      }
    }

    /** `etcdLinkUpdateMaster`: the add's return code is only logged. */
    method UpdateMaster() returns (issued: Option<EtcdAdd>)
      ensures issued == Some(EtcdAdd(etcd, MasterPath, MasterValue, MasterTtl))
    {
      issued := Some(EtcdAdd(etcd, MasterPath, MasterValue, MasterTtl));
    }
  }

  /** The fields of `struct redisServer` the link uses. */
  class RedisServer {
    var etcdAddr: Option<string>
    var masterhost: Option<string>
    var etcdClient: EtcdLinkClient?

    constructor(etcdAddr: Option<string>, masterhost: Option<string>)
      ensures this.etcdAddr == etcdAddr && this.masterhost == masterhost && etcdClient == null
    {
      this.etcdAddr := etcdAddr;
      this.masterhost := masterhost;
      etcdClient := null;
    }

    /** The client, once created, points back at this server. */
    predicate Valid()
      reads this, etcdClient
    {
      etcdClient != null ==> etcdClient.redisServer == this
    }

    function View(): Link
      reads this, etcdClient
    {
      if etcdClient == null then NoClient else etcdClient.View()
    }

    /**
     * `etcdLinkCron`: one tick, following `Tick`. The server's address and master
     * fields are not touched; a client is created at most once and, once there, stays.
     */
    method Cron(connect: Option<EtcdHandle>) returns (issued: Option<EtcdAdd>)
      requires Valid()
      modifies this, etcdClient
      ensures Valid()
      ensures (View(), issued) == Tick(old(etcdAddr), old(masterhost), old(View()), connect)
      ensures etcdAddr == old(etcdAddr) && masterhost == old(masterhost)
      ensures old(etcdClient) != null ==> etcdClient == old(etcdClient)
      ensures old(etcdClient) == null && etcdClient != null ==>
                fresh(etcdClient) && etcdClient.etcdCreatePath == 0 && etcdClient.replacePath.None?
    {
      if etcdAddr.None? {
        return None;
      }
      if etcdClient == null {
        etcdClient := new EtcdLinkClient(this);
        return None;
      }
      var etcdc := etcdClient;
      if etcdc.etcdstate == ETCD_WAIT_CONNECT {
        return None;
      }
      if etcdc.etcdstate == ETCD_UNINIT {
        etcdc.InitServer(connect);
        return None;
      }
      if etcdc.etcdstate == ETCD_DIS_CONNECT {
        etcdc.InitServer(connect);
        return None;
      }
      if etcdc.etcdstate != ETCD_CONNECTED {
        return None;
      }
      issued := etcdc.Update();
    }
  }

  /** `etcdLinkTryCreateOldMasterPath`: always reports failure (0). */
  function TryCreateOldMasterPath(server: RedisServer): (r: int)
    ensures r == 0
  {
    0
  }

  // ---------------------------------------------------------------------------
  // Properties of the tick.
  // ---------------------------------------------------------------------------

  /** A tick keeps the link reachable, and never moves it backwards. */
  lemma TickPreservesReachable(etcdAddr: Option<string>, masterhost: Option<string>, link: Link, connect: Option<EtcdHandle>)
    requires Reachable(link)
    ensures Reachable(Tick(etcdAddr, masterhost, link, connect).0)
    ensures Rank(link) <= Rank(Tick(etcdAddr, masterhost, link, connect).0)
  {
  }

  /** A master issues an add exactly on the ticks where it is connected, and the add carries its handle. */
  lemma AddOnlyWhenConnected(etcdAddr: Option<string>, masterhost: Option<string>, link: Link, connect: Option<EtcdHandle>)
    requires Reachable(link)
    ensures var (_, issued) := Tick(etcdAddr, masterhost, link, connect);
      && (issued.Some? <==> etcdAddr.Some? && masterhost.None? && link.Client? && link.state == ETCD_CONNECTED)
      && (issued.Some? ==> issued.value.etcd.Some? && issued.value.etcd == link.etcd
                           && issued.value.path == MasterPath && issued.value.ttl == MasterTtl)
  {
  }

  /** Along any run of ticks every link is reachable and the progress order never decreases. */
  lemma {:induction false} TicksStayReachable(etcdAddr: Option<string>, masterhost: Option<string>, link: Link,
                                              connects: seq<Option<EtcdHandle>>)
    requires Reachable(link)
    ensures forall i :: 0 <= i < |connects| ==> Reachable(Ticks(etcdAddr, masterhost, link, connects)[i])
    ensures forall i :: 0 <= i < |connects| ==> Rank(link) <= Rank(Ticks(etcdAddr, masterhost, link, connects)[i])
    ensures forall i, j :: 0 <= i < j < |connects| ==>
              Rank(Ticks(etcdAddr, masterhost, link, connects)[i]) <= Rank(Ticks(etcdAddr, masterhost, link, connects)[j])
    decreases |connects|
  {
    if |connects| > 0 {
      var next := Tick(etcdAddr, masterhost, link, connects[0]).0;
      TickPreservesReachable(etcdAddr, masterhost, link, connects[0]);
      TicksStayReachable(etcdAddr, masterhost, next, connects[1..]);
      var r := Ticks(etcdAddr, masterhost, link, connects);
      assert r == [next] + Ticks(etcdAddr, masterhost, next, connects[1..]);
      assert forall i :: 1 <= i < |connects| ==> r[i] == Ticks(etcdAddr, masterhost, next, connects[1..])[i - 1];
    }
  }

  /**
   * From a server with an address and no client, the first tick creates the client,
   * the second connects it when the library hands back a handle, and from the third on
   * a master adds its key with that handle.
   */
  lemma ConnectsOnSecondTick(etcdAddr: string, h: EtcdHandle, any: Option<EtcdHandle>)
    ensures var first := Tick(Some(etcdAddr), None, NoClient, any);
      var second := Tick(Some(etcdAddr), None, first.0, Some(h));
      var third := Tick(Some(etcdAddr), None, second.0, any);
      && first == (Client(ETCD_UNINIT, None), None)
      && second == (Client(ETCD_CONNECTED, Some(h)), None)
      && third == (Client(ETCD_CONNECTED, Some(h)), Some(EtcdAdd(Some(h), MasterPath, MasterValue, MasterTtl)))
  {
  }

  /** While the library keeps failing, a created client stays unconnected and nothing is written. */
  lemma {:induction false} FailedConnectsChangeNothing(etcdAddr: string, masterhost: Option<string>, n: nat)
    ensures Ticks(Some(etcdAddr), masterhost, Client(ETCD_UNINIT, None), seq(n, _ => None))
         == seq(n, _ => Client(ETCD_UNINIT, None))
    decreases n
  {
    if n > 0 {
      FailedConnectsChangeNothing(etcdAddr, masterhost, n - 1);
      var connects: seq<Option<EtcdHandle>> := seq(n, _ => None);
      assert connects[1..] == seq(n - 1, _ => None);
    }
  }
}
