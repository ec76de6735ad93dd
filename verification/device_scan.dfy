/** DeviceScanActivity.kt: the list of glasses found by a scan, kept free of
    duplicate addresses and ordered by signal strength, and the hand-over to
    the connection state when the user picks one. */
module DeviceScan {
  import opened Wrappers
  import opened Sorting
  import opened Connection

  /** `ScannedDevice`. */
  datatype ScannedDevice = ScannedDevice(name: string, address: string, rssi: int)

  function Rssi(d: ScannedDevice): int {
    d.rssi
  }

  /** `deviceList.any { it.address == address }`. */
  predicate HasAddress(list: seq<ScannedDevice>, address: string) {
    exists i :: 0 <= i < |list| && list[i].address == address
  }

  predicate UniqueAddresses(list: seq<ScannedDevice>) {
    forall i, j :: 0 <= i < j < |list| ==> list[i].address != list[j].address
  }

  lemma ConsKeepsUnique(x: ScannedDevice, list: seq<ScannedDevice>)
    requires UniqueAddresses(list) && !HasAddress(list, x.address)
    ensures UniqueAddresses([x] + list)
  {
    var r := [x] + list;
    forall i, j | 0 <= i < j < |r| ensures r[i].address != r[j].address {
      assert r[j] == list[j - 1];
      if i > 0 {
        assert r[i] == list[i - 1];
      }
    }
  }

  /** An address in the list after an insertion was in the list before, or is
      the inserted device's. */
  lemma InsertedAddresses(list: seq<ScannedDevice>, d: ScannedDevice, address: string)
    ensures HasAddress(InsertDescending(list, d, Rssi), address) ==> HasAddress(list, address) || d.address == address
  {
    var r := InsertDescending(list, d, Rssi);
    if HasAddress(r, address) {
      var k :| 0 <= k < |r| && r[k].address == address;
      InsertDescendingPermutes(list, d, Rssi);
      assert r[k] in multiset(r);
      if r[k] != d {
        assert r[k] in multiset(list);
        var i :| 0 <= i < |list| && list[i] == r[k];
      }
    }
  }

  /** Inserting a device whose address is new keeps the addresses unique. */
  lemma {:induction false} InsertKeepsUnique(list: seq<ScannedDevice>, d: ScannedDevice)
    requires UniqueAddresses(list) && !HasAddress(list, d.address)
    ensures UniqueAddresses(InsertDescending(list, d, Rssi))
  {
    if list != [] && Rssi(list[0]) >= Rssi(d) {
      var tail := list[1..];
      forall i | 0 <= i < |tail| ensures tail[i].address != d.address && tail[i].address != list[0].address {
        assert tail[i] == list[i + 1];
      }
      assert UniqueAddresses(tail) by {
        forall i, j | 0 <= i < j < |tail| ensures tail[i].address != tail[j].address {
          assert tail[i] == list[i + 1] && tail[j] == list[j + 1];
        }
      }
      InsertKeepsUnique(tail, d);
      var rest := InsertDescending(tail, d, Rssi);
      InsertedAddresses(tail, d, list[0].address);
      ConsKeepsUnique(list[0], rest);
    } else {
      ConsKeepsUnique(d, list);
    }
  }

  /** What `onLeScan` does to a list that is valid: re-sorting after the add
      is an insertion, and the list stays unique and ordered. */
  lemma AddedDeviceKeepsListValid(list: seq<ScannedDevice>, d: ScannedDevice)
    requires UniqueAddresses(list) && SortedDescending(list, Rssi) && !HasAddress(list, d.address)
    ensures SortDescending(list + [d], Rssi) == InsertDescending(list, d, Rssi)
    ensures UniqueAddresses(SortDescending(list + [d], Rssi))
    ensures SortedDescending(SortDescending(list + [d], Rssi), Rssi)
    ensures multiset(SortDescending(list + [d], Rssi)) == multiset(list) + multiset{d}
  {
    SortAfterAppend(list, d, Rssi);
    InsertKeepsUnique(list, d);
    SortDescendingSorted(list + [d], Rssi);
    SortDescendingPermutes(list + [d], Rssi);
  }

  /** The device `onLeScan` would add, if any: a reported device with a
      non-empty name. */
  function Accepted(device: Option<Device>, rssi: int): Option<ScannedDevice> {
    if device.Some? && device.value.name.Some? && device.value.name.value != "" then
      Some(ScannedDevice(device.value.name.value, device.value.address, rssi))
    else None
  }

  /** `connectToDevice`'s writes: the chosen identity goes into the connection
      state and `DeviceManager`, then `connectDirectly` is called. */
  function ConnectToDeviceNext(w: World, device: ScannedDevice): World {
    World(w.conn.(deviceAddress := Some(device.address), deviceName := Some(device.name)),
          Some(device.address), w.trace + [Called(ConnectDirectly(device.address))])
  }

  class DeviceScanActivity {
    var deviceList: seq<ScannedDevice>
    var scanning: bool
    /** `setResult(RESULT_OK)` was called. */
    var resultOk: bool
    var finished: bool

    ghost predicate Valid()
      reads this
    {
      UniqueAddresses(deviceList) && SortedDescending(deviceList, Rssi)
    }

    constructor()
      ensures Valid() && deviceList == [] && !scanning && !resultOk && !finished
    {
      deviceList := [];
      scanning, resultOk, finished := false, false, false;
    }

    /** `startScanning`: the list starts empty on every scan. */
    method StartScanning()
      modifies this
      ensures deviceList == [] && scanning && Valid()
      ensures resultOk == old(resultOk) && finished == old(finished)
    {
      deviceList := [];
      scanning := true;
    }

    method StopScanning()
      modifies this
      ensures !scanning
      ensures deviceList == old(deviceList) && resultOk == old(resultOk) && finished == old(finished)
    {
      scanning := false;
    }

    /** `onLeScan`: a named device with a new address is appended and the list
        re-sorted by RSSI, strongest first; anything else is ignored. */
    method OnLeScan(device: Option<Device>, rssi: int) returns (added: bool)
      requires Valid()
      modifies this
      ensures Valid()
      ensures added <==> Accepted(device, rssi).Some? && !HasAddress(old(deviceList), device.value.address)
      ensures added ==> deviceList == SortDescending(old(deviceList) + [Accepted(device, rssi).value], Rssi)
      ensures added ==> multiset(deviceList) == multiset(old(deviceList)) + multiset{Accepted(device, rssi).value}
      ensures !added ==> deviceList == old(deviceList)
      ensures scanning == old(scanning) && resultOk == old(resultOk) && finished == old(finished)
    {
      added := false;
      if device.Some? && device.value.name.Some? && device.value.name.value != "" {
        var scanned := ScannedDevice(device.value.name.value, device.value.address, rssi);
        if !HasAddress(deviceList, scanned.address) {
          AddedDeviceKeepsListValid(deviceList, scanned);
          deviceList := SortDescending(deviceList + [scanned], Rssi);
          added := true;
        }
      }
    }

    /** `connectToDevice`: stops the scan and records the choice, leaving
        `isConnected` and `isReady` to the connection callbacks. */
    method ConnectToDevice(st: GlassesConnectionState, sdk: Sdk, device: ScannedDevice)
      modifies this, st, sdk
      ensures WorldOf(st, sdk) == ConnectToDeviceNext(old(WorldOf(st, sdk)), device)
      ensures st.deviceAddress == Some(device.address) && st.deviceName == Some(device.name)
      ensures st.isConnected == old(st.isConnected) && st.isReady == old(st.isReady)
      ensures sdk.managerAddress == Some(device.address)
      ensures sdk.trace == old(sdk.trace) + [Called(ConnectDirectly(device.address))]
      ensures !scanning && deviceList == old(deviceList)
      ensures resultOk == old(resultOk) && finished == old(finished)
    {
      StopScanning();
      st.deviceAddress := Some(device.address);
      st.deviceName := Some(device.name);
      sdk.managerAddress := Some(device.address);
      sdk.trace := sdk.trace + [Called(ConnectDirectly(device.address))];
    }

    /** `onBluetoothEvent`: a ready event returns RESULT_OK and closes the
        screen; a failure event only changes the status text. */
    method OnBluetoothEvent(e: BluetoothEvent)
      modifies this
      ensures e.connect ==> resultOk && finished
      ensures !e.connect ==> resultOk == old(resultOk) && finished == old(finished)
      ensures deviceList == old(deviceList) && scanning == old(scanning)
    {
      if e.connect {
        resultOk := true;
        finished := true;
      }
    }

    /** The connection timeout fires 15 s after `connectToDevice` and reports
        a timeout only while the glasses are still not ready. */
    method OnConnectionTimeout(st: GlassesConnectionState) returns (timedOut: bool)
      ensures timedOut <==> !st.isReady
    {
      timedOut := !st.isReady;
    }
  }
}
