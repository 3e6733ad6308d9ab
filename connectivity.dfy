/** Bluetooth peripheral bookkeeping: discovery with de-duplication by
    identifier, first-found selection, connection, failure and reconnection. */
module Connectivity {
  import opened CarTypes

  /** Whether some entry of `list` has identifier `id`: what the loop at the top
      of the discovery handler looks for. */
  function HasIdentifier(list: seq<Discovery>, id: Uuid): (found: bool)
    ensures found <==> exists i :: 0 <= i < |list| && list[i].peripheral.identifier == id
  {
    if list == [] then false
    else if list[0].peripheral.identifier == id then true
    else
      assert forall i :: 0 <= i < |list| && list[i].peripheral.identifier == id ==>
        1 <= i && list[1..][i - 1].peripheral.identifier == id;
      HasIdentifier(list[1..], id)
  }

  /** No identifier occurs twice in the discovery list. */
  predicate DistinctIds(list: seq<Discovery>) {
    forall i, j :: 0 <= i < j < |list| ==> list[i].peripheral.identifier != list[j].peripheral.identifier
  }

  /** While the list is non-empty, its first entry is the selected peripheral. */
  predicate FirstSelected(s: State) {
    s.peripherals != [] ==> s.selectedPeripheral == Some(s.peripherals[0].peripheral)
  }

  /** The connectivity invariant: no duplicates, first entry selected, and the
      actuator-control object exists (built for a selected peripheral) once the
      link has been made ready. */
  predicate BleInv(s: State) {
    DistinctIds(s.peripherals) && FirstSelected(s)
    && (s.control.Some? ==> s.selectedPeripheral.Some?)
    && (s.bleReady ==> s.control.Some?)
  }

  /** Fields the connectivity handlers never touch (the camera side). */
  predicate SameCapture(s: State, r: State) {
    r.setupResult == s.setupResult && r.isSessionRunning == s.isSessionRunning
    && r.movieFileOutput == s.movieFileOutput && r.backgroundRecordingID == s.backgroundRecordingID
    && r.recordingsStarted == s.recordingsStarted
  }

  /** didDiscover: a known identifier is ignored; a new one is appended, the first
      entry is (re)selected, scanning stops and a connection to it is attempted. */
  function Discover(s: State, d: Discovery): (r: State)
    ensures HasIdentifier(s.peripherals, d.peripheral.identifier) ==> r == s
    ensures HasIdentifier(r.peripherals, d.peripheral.identifier)
    ensures DistinctIds(s.peripherals) ==> DistinctIds(r.peripherals)
    ensures FirstSelected(s) ==> FirstSelected(r)
    ensures s.peripherals <= r.peripherals && |r.peripherals| <= |s.peripherals| + 1
    ensures FirstSelected(s) && s.peripherals != [] ==> r.selectedPeripheral == s.selectedPeripheral
    ensures !HasIdentifier(s.peripherals, d.peripheral.identifier) ==>
      r.peripherals == s.peripherals + [d] &&
      r.log == s.log + [StopScan, Connect(r.peripherals[0].peripheral)]
    ensures r.(peripherals := s.peripherals, selectedPeripheral := s.selectedPeripheral, log := s.log) == s
  {
    if HasIdentifier(s.peripherals, d.peripheral.identifier) then s
    else
      var ps := s.peripherals + [d];
      var selected := ps[0].peripheral;
      assert ps[|s.peripherals|] == d;
      s.(peripherals := ps, selectedPeripheral := Some(selected), log := s.log + [StopScan, Connect(selected)])
  }

  /** servoEnable: switch analog outputs 0 and 6, if the control object exists. */
  function ServoEnable(s: State, enable: bool): (r: State)
    ensures s.control.Some? ==>
      r.log == s.log + [AnalogOutEnable(SteeringChannel, enable), AnalogOutEnable(ThrottleChannel, enable)]
    ensures s.control.None? ==> r == s
    ensures r.(log := s.log) == s
  {
    if s.control.Some? then
      s.(log := s.log + [AnalogOutEnable(SteeringChannel, enable), AnalogOutEnable(ThrottleChannel, enable)])
    else s
  }

  /** initBLEControl: with a selected peripheral, build the control object for it,
      initialise the device, enable outputs 0 and 6 and mark the link ready. */
  function InitBLEControl(s: State): (r: State)
    ensures s.selectedPeripheral.None? ==> r == s
    ensures s.selectedPeripheral.Some? ==>
      r.control == s.selectedPeripheral && r.bleReady &&
      r.log == s.log + [InitDevice(s.selectedPeripheral.value, MaxAnalogOut, MaxLcdLines),
                        AnalogOutEnable(SteeringChannel, true), AnalogOutEnable(ThrottleChannel, true)]
    ensures r.(control := s.control, bleReady := s.bleReady, log := s.log) == s
  {
    match s.selectedPeripheral
    case None => s
    case Some(p) =>
      var built := s.(control := Some(p), log := s.log + [InitDevice(p, MaxAnalogOut, MaxLcdLines)]);
      ServoEnable(built, true).(bleReady := true)
  }

  /** didConnect: the link is up; the device is initialised when a peripheral is selected. */
  function DidConnect(s: State): (r: State)
    ensures r.bleConnected
    ensures BleInv(s) ==> BleInv(r)
    ensures s.selectedPeripheral.Some? ==> r.bleReady && r.control == s.selectedPeripheral
    ensures s.log <= r.log
    ensures s.selectedPeripheral.Some? ==>
      r.log[|s.log|..] == [InitDevice(s.selectedPeripheral.value, MaxAnalogOut, MaxLcdLines),
                           AnalogOutEnable(SteeringChannel, true), AnalogOutEnable(ThrottleChannel, true)]
    ensures s.selectedPeripheral.None? ==> r == s.(bleConnected := true)
    ensures r.(bleConnected := s.bleConnected, bleReady := s.bleReady, control := s.control, log := s.log) == s
  {
    InitBLEControl(s.(bleConnected := true))
  }

  /** tryReconnect: stop scanning, forget every discovered peripheral, scan again. */
  function TryReconnect(s: State): (r: State)
    ensures r.peripherals == [] && r.log == s.log + [StopScan, StartScan]
    ensures r.(peripherals := s.peripherals, log := s.log) == s
  {
    s.(peripherals := [], log := s.log + [StopScan, StartScan])
  }

  /** tryReconnect does not depend on what the discovery list held before. */
  lemma TryReconnectForgetsList(s: State, ps: seq<Discovery>)
    ensures TryReconnect(s.(peripherals := ps)) == TryReconnect(s)
  {
  }

  /** didFailToConnect: the link is down and a fresh scan starts. */
  function DidFailToConnect(s: State): (r: State)
    ensures !r.bleConnected && r.peripherals == []
    ensures r.log == s.log + [StopScan, StartScan]
    ensures r.selectedPeripheral == s.selectedPeripheral && r.bleReady == s.bleReady
    ensures r.(bleConnected := s.bleConnected, peripherals := s.peripherals, log := s.log) == s
  {
    TryReconnect(s.(bleConnected := false))
  }

  /** didDisconnect: same recovery as a failed connection. */
  function DidDisconnect(s: State): (r: State)
    ensures !r.bleConnected && r.peripherals == []
    ensures r.log == s.log + [StopScan, StartScan]
    ensures r.selectedPeripheral == s.selectedPeripheral && r.bleReady == s.bleReady
    ensures r.(bleConnected := s.bleConnected, peripherals := s.peripherals, log := s.log) == s
  {
    TryReconnect(s.(bleConnected := false))
  }

  /** didUpdateState: powering on starts a scan; every other radio state changes nothing. */
  function DidUpdateState(s: State, state: RadioState): (r: State)
    ensures state == PoweredOn ==> r == s.(log := s.log + [StartScan])
    ensures state != PoweredOn ==> r == s
  {
    if state == PoweredOn then s.(log := s.log + [StartScan]) else s
  }

  /** A sequence of discovery callbacks handled in order. */
  function DiscoverAll(s: State, ds: seq<Discovery>): State
    decreases |ds|
  {
    if ds == [] then s else DiscoverAll(Discover(s, ds[0]), ds[1..])
  }

  /** Discoveries keep the list free of duplicates, never lose or reorder an entry,
      and never change the selection once the list is non-empty. */
  lemma {:induction false} DiscoverAllKeeps(s: State, ds: seq<Discovery>)
    requires BleInv(s)
    ensures BleInv(DiscoverAll(s, ds))
    ensures s.peripherals <= DiscoverAll(s, ds).peripherals
    ensures s.peripherals != [] ==> DiscoverAll(s, ds).selectedPeripheral == s.selectedPeripheral
    ensures forall i :: 0 <= i < |ds| ==> HasIdentifier(DiscoverAll(s, ds).peripherals, ds[i].peripheral.identifier)
    ensures forall e :: e in DiscoverAll(s, ds).peripherals ==> e in s.peripherals || e in ds
    ensures SameCapture(s, DiscoverAll(s, ds)) && DiscoverAll(s, ds).bleConnected == s.bleConnected
    ensures DiscoverAll(s, ds).bleReady == s.bleReady && DiscoverAll(s, ds).control == s.control
    decreases |ds|
  {
    if ds != [] {
      var s1 := Discover(s, ds[0]);
      DiscoverAllKeeps(s1, ds[1..]);
      var r := DiscoverAll(s1, ds[1..]);
      forall i | 0 <= i < |ds| ensures HasIdentifier(r.peripherals, ds[i].peripheral.identifier) {
        if i == 0 {
          var k :| 0 <= k < |s1.peripherals| && s1.peripherals[k].peripheral.identifier == ds[0].peripheral.identifier;
          assert r.peripherals[k] == s1.peripherals[k];
        } else {
          assert ds[i] == ds[1..][i - 1];
        }
      }
      forall e | e in r.peripherals ensures e in s.peripherals || e in ds {
        if e !in s1.peripherals {
          assert e in ds[1..];
        }
      }
    }
  }

  /** First-found wins: in a scan cycle that starts from an empty list, the first
      discovery is the selected peripheral for the rest of the cycle, the list
      starts with it, and every identifier seen is listed exactly once. */
  lemma {:induction false} FirstDiscoveryWins(s: State, ds: seq<Discovery>)
    requires BleInv(s) && s.peripherals == [] && ds != []
    ensures DiscoverAll(s, ds).selectedPeripheral == Some(ds[0].peripheral)
    ensures |DiscoverAll(s, ds).peripherals| > 0 && DiscoverAll(s, ds).peripherals[0] == ds[0]
    ensures DistinctIds(DiscoverAll(s, ds).peripherals)
    ensures forall i :: 0 <= i < |ds| ==> HasIdentifier(DiscoverAll(s, ds).peripherals, ds[i].peripheral.identifier)
  {
    var s1 := Discover(s, ds[0]);
    assert s1.peripherals == [ds[0]];
    assert DiscoverAll(s, ds) == DiscoverAll(s1, ds[1..]);
    DiscoverAllKeeps(s1, ds[1..]);
    var r := DiscoverAll(s1, ds[1..]);
    assert |r.peripherals| >= 1 && r.peripherals[0] == s1.peripherals[0];
  }
}
