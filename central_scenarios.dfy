/**
 * Runs of the central controller from a fresh activity that exhibit how its
 * callbacks compose: the first scan result wins for as long as nothing
 * disconnects, a disconnect re-opens the selection, discovery on a dropped
 * handle still enables notification, and a disconnect without a held handle
 * dereferences null.
 */
module CentralScenarios {
  import opened Wrappers
  import opened Uuids
  import opened Protocol
  import opened Central

  /** No command in the log is a disconnect. */
  predicate NoDisconnect(cmds: seq<Command>)
  {
    forall k :: 0 <= k < |cmds| ==> !cmds[k].Disconnect?
  }

  /** Every connection in the log is opened to the given device. */
  predicate ConnectsOnlyTo(cmds: seq<Command>, device: Address)
  {
    forall k :: 0 <= k < |cmds| ==> cmds[k].ConnectGatt? ==> cmds[k].device == device
  }

  /**
   * The log after n scan results when the first went to device: empty for
   * none; otherwise it opens with a stop and a connection to device, holds
   * between n and 2n commands, exactly n stops, no disconnect and no
   * connection elsewhere.
   */
  predicate FirstWins(cmds: seq<Command>, device: Address, n: nat)
  {
    if n == 0 then cmds == [] else
    && |cmds| >= 2 && cmds[0] == StopScan && cmds[1].ConnectGatt? && cmds[1].device == device
    && n <= |cmds| <= 2 * n
    && multiset(cmds)[StopScan] == n
    && NoDisconnect(cmds) && ConnectsOnlyTo(cmds, device)
  }

  /**
   * One more scan result appends a stop and at most one connection to the
   * same device, which keeps FirstWins with one more result.
   */
  lemma ScanResultStep(before: seq<Command>, rest: seq<Command>, device: Address, n: nat)
    requires FirstWins(before, device, n)
    requires |rest| <= 1 && (n == 0 ==> |rest| == 1)
    requires forall k :: 0 <= k < |rest| ==> rest[k].ConnectGatt? && rest[k].device == device
    ensures FirstWins(before + [StopScan] + rest, device, n + 1)
  {
    var after := before + [StopScan] + rest;
    if n == 0 {
      assert after == [StopScan, rest[0]];
    }
    forall k | 0 <= k < |after|
      ensures !after[k].Disconnect? && (after[k].ConnectGatt? ==> after[k].device == device)
    {
      if k > |before| {
        assert after[k] == rest[k - |before| - 1];
      }
    }
    assert multiset(after) == multiset(before) + multiset{StopScan} + multiset(rest);
  }

  /**
   * Scan results arriving one after another, each with what the held
   * handle's connect() reports at that moment: every connection goes to the
   * first result's device, nothing is ever disconnected (a handle whose
   * connect() fails is replaced without a disconnect), and the log holds
   * exactly one stop of the scan per result.
   */
  method FirstMatchWins(results: seq<ScanResult>, viable: seq<bool>) returns (cmds: seq<Command>)
    requires |viable| == |results|
    ensures results == [] ==> cmds == []
    ensures results != [] ==> |cmds| >= 2 && cmds[0] == StopScan
    ensures results != [] ==> cmds[1].ConnectGatt? && cmds[1].device == results[0].device
    ensures |results| <= |cmds| <= 2 * |results|
    ensures NoDisconnect(cmds)
    ensures results != [] ==> ConnectsOnlyTo(cmds, results[0].device)
    ensures multiset(cmds)[StopScan] == |results|
  {
    var c := new CentralController();
    var i := 0;
    while i < |results|
      invariant 0 <= i <= |results|
      invariant c.Valid()
      invariant i == 0 ==> c.gatt == null && c.target == None
      invariant i > 0 ==> c.target == Some(results[0]) && c.gatt != null && c.gatt.device == results[0].device
      invariant results != [] ==> FirstWins(c.commands, results[0].device, i)
      invariant results == [] ==> c.commands == []
    {
      ghost var before := c.commands;
      c.OnFound(results[i], viable[i]);
      ghost var rest := if i > 0 && viable[i] then [] else [ConnectGatt(results[0].device, c.gatt)];
      assert c.commands == before + [StopScan] + rest;
      ScanResultStep(before, rest, results[0].device, i);
      i := i + 1;
    }
    cmds := c.commands;
  }

  /**
   * A connection that reports CONNECTED with a failure status runs onConnect
   * and then onDisConnect; the selection is then clear, so the next result
   * is selected and connected even though it is another device.
   */
  method ReselectAfterFailedConnect(first: ScanResult, second: ScanResult, status: int) returns (cmds: seq<Command>)
    requires status != GattSuccess
    ensures |cmds| == 7 && cmds[1].ConnectGatt? && cmds[6].ConnectGatt?
    ensures var g := cmds[1].handle;
      cmds == [StopScan, ConnectGatt(first.device, g), RequestMtu(g, RequestedMtu), DiscoverServices(g),
               Disconnect(g), StopScan, ConnectGatt(second.device, cmds[6].handle)]
    ensures cmds[6].handle != cmds[1].handle
  {
    var c := new CentralController();
    c.OnFound(first, true);
    var g := c.gatt;
    var outcome := c.OnConnectionStateChange(g, status, StateConnected);
    c.OnFound(second, true);
    cmds := c.commands;
  }

  /**
   * Discovery that completes after the connection dropped still enables
   * notification on the dropped handle: the controller then holds no handle
   * and no selection, yet the last command targets the old handle.
   */
  method StaleDiscoveryAfterDisconnect(device: ScanResult, status: int, services: map<Uuid, set<Uuid>>)
    returns (cmds: seq<Command>, held: bool, selected: bool)
    requires status != GattSuccess
    requires ServiceUuid in services && WriteUuid in services[ServiceUuid]
    ensures !held && !selected
    ensures |cmds| == 6 && cmds[1].ConnectGatt?
    ensures cmds[4] == Disconnect(cmds[1].handle)
    ensures cmds[5] == SetNotification(cmds[1].handle, ServiceUuid, WriteUuid, true)
  {
    var c := new CentralController();
    c.OnFound(device, true);
    var g := c.gatt;
    var _ := c.OnConnectionStateChange(g, GattSuccess, StateConnected);
    var _ := c.OnConnectionStateChange(g, status, 0);
    g.services := services;
    c.OnServicesDiscovered(g, GattSuccess);
    cmds := c.commands;
    held := c.gatt != null;
    selected := c.target.Some?;
  }

  /**
   * A connection that reports CONNECTED with a failure status runs onConnect
   * and then onDisConnect, which drops the handle; a second failure on the
   * same connection then reaches onDisConnect with no handle held, which
   * throws: the log ends with the first disconnect and nothing more.
   */
  method DisconnectWithoutHandle(device: ScanResult, status: int, newState: int)
    returns (outcome: Outcome, cmds: seq<Command>, held: bool)
    requires status != GattSuccess && newState != StateConnected
    ensures outcome == NullDereference && !held
    ensures |cmds| == 5 && cmds[1].ConnectGatt?
    ensures var g := cmds[1].handle;
      cmds == [StopScan, ConnectGatt(device.device, g), RequestMtu(g, RequestedMtu), DiscoverServices(g), Disconnect(g)]
  {
    var c := new CentralController();
    c.OnFound(device, true);
    var g := c.gatt;
    var _ := c.OnConnectionStateChange(g, status, StateConnected);
    outcome := c.OnConnectionStateChange(g, status, newState);
    cmds := c.commands;
    held := c.gatt != null;
  }
}
