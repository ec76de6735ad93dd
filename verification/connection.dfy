/** MyApplication.kt: the global `GlassesConnectionState` object and the two
    receivers that update it. The vendor SDK and the EventBus are outside the
    model; what the app asks of them is recorded, in order, in one trace, so
    that the order of `initEnable` and the ready event can be stated. */
module Connection {
  import opened Wrappers
  import opened Bytes

  /** The four fields of `GlassesConnectionState`. */
  datatype Conn = Conn(isConnected: bool, isReady: bool, deviceAddress: Option<string>, deviceName: Option<string>)

  /** The state at process start. */
  const Initial: Conn := Conn(false, false, None, None)

  /** The `BluetoothEvent` posted on the EventBus. */
  datatype BluetoothEvent = BluetoothEvent(connect: bool)

  /** Calls into the vendor SDK, and writes to its singletons' fields. */
  datatype SdkCall =
    | InitEnable                            // LargeDataHandler.initEnable()
    | SetOperateReady                       // BleOperateManager.isReady = true
    | SetDeviceManagerName(name: string)    // DeviceManager.deviceName = …
    | SetBluetoothTurnOff(on: bool)         // BleOperateManager.setBluetoothTurnOff(…)
    | Disconnect                            // BleOperateManager.disconnect()
    | SetReConnectMac(address: string)      // BleOperateManager.reConnectMac = …
    | ConnectDirectly(address: string)      // BleOperateManager.connectDirectly(…)
    | CreateBond(address: string)           // BleOperateManager.createBondBluetoothJieLi(…)
    | UnBindDevice                          // BleOperateManager.unBindDevice()
    | GlassesControl(command: seq<int8>)    // LargeDataHandler.glassesControl(…)

  datatype Effect = Called(call: SdkCall) | Posted(event: BluetoothEvent)

  /** A `BluetoothDevice` as the SDK hands it over: a nullable name and an address. */
  datatype Device = Device(name: Option<string>, address: string)

  /** Everything the connection handlers read or write: the connection state,
      `DeviceManager.deviceAddress` (read back when the adapter comes on), and
      the trace of SDK calls and posted events. */
  datatype World = World(conn: Conn, managerAddress: Option<string>, trace: seq<Effect>)

  /** `BluetoothAdapter.STATE_OFF` and `STATE_ON`. */
  const STATE_OFF: int := 10
  const STATE_ON: int := 12

  /** The system broadcasts `BluetoothStateReceiver` listens to. */
  datatype Broadcast =
    | StateChanged(state: int)
    | AclConnected
    | AclDisconnected
    | DeviceFound(device: Option<Device>)
    | OtherAction

  /** `connectStatue`. */
  function ConnectStatueNext(w: World, device: Option<Device>, connected: bool): World {
    if device.Some? && connected then
      var d := device.value;
      World(
        Conn(true, w.conn.isReady, Some(d.address), if d.name.Some? then d.name else w.conn.deviceName),
        w.managerAddress,
        w.trace + (if d.name.Some? then [Called(SetDeviceManagerName(d.name.value))] else []))
    else
      World(w.conn.(isConnected := false, isReady := false), w.managerAddress,
            w.trace + [Posted(BluetoothEvent(false))])
  }

  /** `onServiceDiscovered`. */
  function ServiceDiscoveredNext(w: World): World {
    World(w.conn.(isReady := true), w.managerAddress,
          w.trace + [Called(InitEnable), Called(SetOperateReady), Posted(BluetoothEvent(true))])
  }

  /** `BluetoothStateReceiver.onReceive`. */
  function BroadcastNext(w: World, b: Broadcast): World {
    match b
    case StateChanged(state) =>
      if state == STATE_OFF then
        World(w.conn.(isConnected := false, isReady := false), w.managerAddress,
              w.trace + [Called(SetBluetoothTurnOff(false)), Called(Disconnect), Posted(BluetoothEvent(false))])
      else if state == STATE_ON then
        var last := w.managerAddress;
        World(w.conn, w.managerAddress,
              w.trace + [Called(SetBluetoothTurnOff(true))]
              + (if last.Some? && last.value != "" then
                   [Called(SetReConnectMac(last.value)), Called(ConnectDirectly(last.value))]
                 else []))
      else w
    case AclConnected => w
    case AclDisconnected => w.(conn := w.conn.(isConnected := false, isReady := false))
    case DeviceFound(device) =>
      if device.Some? then w.(trace := w.trace + [Called(CreateBond(device.value.address))]) else w
    case OtherAction => w
  }

  class GlassesConnectionState {
    var isConnected: bool
    var isReady: bool
    var deviceAddress: Option<string>
    var deviceName: Option<string>

    constructor()
      ensures Snapshot() == Initial
    {
      isConnected, isReady := false, false;
      deviceAddress, deviceName := None, None;
    }

    function Snapshot(): Conn
      reads this
    {
      Conn(isConnected, isReady, deviceAddress, deviceName)
    }
  }

  /** The vendor SDK and the EventBus, as far as the app touches them. */
  class Sdk {
    /** `DeviceManager.deviceAddress`, which the SDK keeps across restarts. */
    var managerAddress: Option<string>
    var trace: seq<Effect>

    constructor(persisted: Option<string>)
      ensures managerAddress == persisted && trace == []
    {
      managerAddress := persisted;
      trace := [];
    }
  }

  function WorldOf(st: GlassesConnectionState, sdk: Sdk): World
    reads st, sdk
  {
    World(st.Snapshot(), sdk.managerAddress, sdk.trace)
  }

  /** `MyBluetoothReceiver.connectStatue`. A connected device records its
      address (and its name, when it has one) and sets `isConnected`, leaving
      `isReady` and the EventBus alone; anything else clears both flags and
      posts `BluetoothEvent(false)` but keeps the address and name. */
  method ConnectStatue(st: GlassesConnectionState, sdk: Sdk, device: Option<Device>, connected: bool)
    modifies st, sdk
    ensures WorldOf(st, sdk) == ConnectStatueNext(old(WorldOf(st, sdk)), device, connected)
    ensures device.Some? && connected ==>
      && st.isConnected && st.isReady == old(st.isReady)
      && st.deviceAddress == Some(device.value.address)
      && st.deviceName == (if device.value.name.Some? then device.value.name else old(st.deviceName))
      && forall i :: |old(sdk.trace)| <= i < |sdk.trace| ==> sdk.trace[i].Called?
    ensures !(device.Some? && connected) ==>
      && !st.isConnected && !st.isReady
      && st.deviceAddress == old(st.deviceAddress) && st.deviceName == old(st.deviceName)
      && sdk.trace == old(sdk.trace) + [Posted(BluetoothEvent(false))]
    ensures sdk.managerAddress == old(sdk.managerAddress)
  {
    if device.Some? && connected {
      var d := device.value;
      if d.name.Some? {
        sdk.trace := sdk.trace + [Called(SetDeviceManagerName(d.name.value))];
        st.deviceName := d.name;
      }
      st.deviceAddress := Some(d.address);
      st.isConnected := true;
    } else {
      st.isConnected := false;
      st.isReady := false;
      sdk.trace := sdk.trace + [Posted(BluetoothEvent(false))];
    }
  }

  /** `MyBluetoothReceiver.onServiceDiscovered`: `initEnable` first, then the
      ready flags, then `BluetoothEvent(true)`. It does not look at
      `isConnected`. */
  method OnServiceDiscovered(st: GlassesConnectionState, sdk: Sdk)
    modifies st, sdk
    ensures WorldOf(st, sdk) == ServiceDiscoveredNext(old(WorldOf(st, sdk)))
    ensures st.isReady && st.isConnected == old(st.isConnected)
    ensures st.deviceAddress == old(st.deviceAddress) && st.deviceName == old(st.deviceName)
    ensures sdk.trace == old(sdk.trace) + [Called(InitEnable), Called(SetOperateReady), Posted(BluetoothEvent(true))]
  {
    sdk.trace := sdk.trace + [Called(InitEnable)];
    sdk.trace := sdk.trace + [Called(SetOperateReady)];
    st.isReady := true;
    sdk.trace := sdk.trace + [Posted(BluetoothEvent(true))];
  }

  /** `BluetoothStateReceiver.onReceive`. Adapter off clears both flags and
      posts `BluetoothEvent(false)`; adapter on reconnects to the last known
      address, if there is a non-empty one, and leaves the flags alone; an ACL
      disconnect clears both flags without posting anything. */
  method OnReceive(st: GlassesConnectionState, sdk: Sdk, b: Broadcast)
    modifies st, sdk
    ensures WorldOf(st, sdk) == BroadcastNext(old(WorldOf(st, sdk)), b)
    ensures b == StateChanged(STATE_OFF) ==>
      && !st.isConnected && !st.isReady
      && sdk.trace == old(sdk.trace) + [Called(SetBluetoothTurnOff(false)), Called(Disconnect), Posted(BluetoothEvent(false))]
    ensures b == StateChanged(STATE_ON) ==>
      && st.Snapshot() == old(st.Snapshot())
      && var last := old(sdk.managerAddress);
         sdk.trace == old(sdk.trace) + [Called(SetBluetoothTurnOff(true))]
           + (if last.Some? && last.value != "" then [Called(SetReConnectMac(last.value)), Called(ConnectDirectly(last.value))] else [])
    ensures b == AclDisconnected ==>
      !st.isConnected && !st.isReady && sdk.trace == old(sdk.trace)
    ensures st.deviceAddress == old(st.deviceAddress) && st.deviceName == old(st.deviceName)
  {
    match b
    case StateChanged(state) =>
      if state == STATE_OFF {
        sdk.trace := sdk.trace + [Called(SetBluetoothTurnOff(false)), Called(Disconnect)];
        st.isConnected := false;
        st.isReady := false;
        sdk.trace := sdk.trace + [Posted(BluetoothEvent(false))];
      } else if state == STATE_ON {
        sdk.trace := sdk.trace + [Called(SetBluetoothTurnOff(true))];
        var lastAddress := sdk.managerAddress;
        if lastAddress.Some? && lastAddress.value != "" {
          sdk.trace := sdk.trace + [Called(SetReConnectMac(lastAddress.value)), Called(ConnectDirectly(lastAddress.value))];
        }
      }
    case AclConnected =>
    case AclDisconnected =>
      st.isConnected := false;
      st.isReady := false;
    case DeviceFound(device) =>
      if device.Some? {
        sdk.trace := sdk.trace + [Called(CreateBond(device.value.address))];
      }
    case OtherAction =>
  }
}
