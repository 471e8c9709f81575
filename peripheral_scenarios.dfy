/**
 * Runs of the peripheral controller from a fresh activity: start, stop and
 * start again through the button, and destruction after a start.
 */
module PeripheralScenarios {
  import opened Peripheral

  /** Some command adds a service to a server that an earlier command closed. */
  predicate AddsAfterClose(cmds: seq<Command>)
  {
    exists i, j :: 0 <= i < j < |cmds| && cmds[i].Close? && cmds[j].AddService? && cmds[j].server == cmds[i].server
  }

  /**
   * Start, stop, start: the stop closes the server but keeps the reference,
   * so the second start registers the schema on the closed server and
   * advertises again with the same advertiser, opening and acquiring nothing.
   */
  method RestartReusesClosedServer() returns (cmds: seq<Command>)
    ensures |cmds| == 9 && cmds[0].OpenGattServer? && cmds[2].AcquireAdvertiser?
    ensures var s, a := cmds[0].server, cmds[2].advertiser;
      && cmds[1] == AddService(s, ServiceSchema())
      && cmds[3] == StartAdvertising(a, AdvertiseSettingsConfig(), AdvertiseDataConfig())
      && cmds[4..7] == [ClearServices(s), Close(s), StopAdvertising(a)]
      && cmds[7..] == [AddService(s, ServiceSchema()), StartAdvertising(a, AdvertiseSettingsConfig(), AdvertiseDataConfig())]
    ensures AddsAfterClose(cmds)
  {
    var p := new PeripheralController();
    p.StartBleAdClicked(true, true);
    p.StartBleAdClicked(true, true);
    p.StartBleAdClicked(true, true);
    cmds := p.commands;
    assert cmds[5].Close? && cmds[7].AddService? && cmds[7].server == cmds[5].server;
  }

  /**
   * Destroying after a start stops what was started and releases both
   * references; a second destruction issues nothing.
   */
  method DestroyAfterStart() returns (cmds: seq<Command>, released: bool)
    ensures released
    ensures |cmds| == 7 && cmds[0].OpenGattServer? && cmds[2].AcquireAdvertiser?
    ensures cmds[4..] == [ClearServices(cmds[0].server), Close(cmds[0].server), StopAdvertising(cmds[2].advertiser)]
  {
    var p := new PeripheralController();
    p.StartBleAdClicked(true, true);
    p.OnDestroy();
    p.OnDestroy();
    cmds := p.commands;
    released := p.server == null && p.advertiser == null;
  }
}
