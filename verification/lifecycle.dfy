/** The connection state over a whole run of the app: callbacks from the SDK,
    system broadcasts and user actions, each applied by the handler the app
    registers for it. The point of `updateConnectionUI`'s rule (controls
    follow `isReady`) is that no command reaches the glasses before the SDK
    has been initialised with `initEnable`; this module proves that it holds
    on every run, shows how `isReady` and `isConnected` can disagree, and
    shows that the buttons, which keep what the last redraw gave them, can
    stay enabled after an ACL disconnect has cleared `isReady`. */
module Lifecycle {
  import opened Wrappers
  import opened Bytes
  import opened Connection
  import opened MainScreen
  import opened DeviceScan

  datatype Stimulus =
    | Statue(device: Option<Device>, connected: bool)   // MyBluetoothReceiver.connectStatue
    | ServiceDiscovered                                 // MyBluetoothReceiver.onServiceDiscovered
    | SystemBroadcast(broadcast: Broadcast)             // BluetoothStateReceiver.onReceive
    | UserDisconnect(unbindThrows: bool)                // the Disconnect button
    | UserConnect(choice: ScannedDevice)                // a device picked in the scan list
    | UserCommand(command: seq<int8>)                   // a control button sending its SDK command
    | Resume                                            // onResume, or the scan screen returning RESULT_OK

  /** The world together with what `MainActivity` last drew: a button keeps
      the state the last `updateConnectionUI` gave it until the next redraw. */
  datatype Screen = Screen(world: World, drawn: ConnectionView)

  /** The receivers as the app has them, or with an ACL disconnect that also
      posts `BluetoothEvent(false)`, as the adapter-off branch does. */
  datatype Handlers = AsWritten | Corrected

  /** `BluetoothStateReceiver.onReceive` with the corrected ACL branch. */
  function CorrectedBroadcastNext(w: World, b: Broadcast): World {
    if b == AclDisconnected then
      World(w.conn.(isConnected := false, isReady := false), w.managerAddress,
            w.trace + [Posted(BluetoothEvent(false))])
    else BroadcastNext(w, b)
  }

  /** What a handler does to the world; a command is handled by `Step`. */
  function Handle(w: World, s: Stimulus, h: Handlers): World {
    match s
    case Statue(device, connected) => ConnectStatueNext(w, device, connected)
    case ServiceDiscovered => ServiceDiscoveredNext(w)
    case SystemBroadcast(b) => if h == Corrected then CorrectedBroadcastNext(w, b) else BroadcastNext(w, b)
    case UserDisconnect(unbindThrows) => DisconnectNext(w, unbindThrows)
    case UserConnect(choice) => ConnectToDeviceNext(w, choice)
    case UserCommand(_) => w
    case Resume => w
  }

  /** Whether the screen is redrawn afterwards: `onBluetoothEvent` redraws on
      every posted `BluetoothEvent`, `disconnectGlasses` redraws when the
      unbind succeeds, and so do `onResume` and the scan result. */
  function Redraws(s: Stimulus, h: Handlers): bool {
    match s
    case Statue(device, connected) => !(device.Some? && connected)
    case ServiceDiscovered => true
    case SystemBroadcast(b) => b == StateChanged(STATE_OFF) || (h == Corrected && b == AclDisconnected)
    case UserDisconnect(unbindThrows) => !unbindThrows
    case UserConnect(_) => false
    case UserCommand(_) => false
    case Resume => true
  }

  /** A control button only acts when the last redraw enabled it. Every
      command a control sends (`glassesControl`, and the `syncTime`,
      `syncBattery` and `syncDeviceInfo` requests) is recorded as one
      `GlassesControl` call, which is what the ordering after `initEnable`
      is about. */
  function Step(sc: Screen, s: Stimulus, h: Handlers): Screen {
    if s.UserCommand? then
      if sc.drawn.enabled != {} then
        sc.(world := sc.world.(trace := sc.world.trace + [Called(GlassesControl(s.command))]))
      else sc
    else
      var w := Handle(sc.world, s, h);
      Screen(w, if Redraws(s, h) then ConnectionUi(w.conn) else sc.drawn)
  }

  function Run(sc: Screen, ss: seq<Stimulus>, h: Handlers): Screen {
    if ss == [] then sc else Step(Run(sc, ss[..|ss| - 1], h), ss[|ss| - 1], h)
  }

  /** Process start: nothing known, nothing sent, the screen drawn from the
      initial state; the SDK may remember the last device's address. */
  function Start(persisted: Option<string>): Screen {
    Screen(World(Initial, persisted, []), ConnectionUi(Initial))
  }

  /** The effects that must come after `initEnable`: the ready event and any
      command to the glasses. */
  predicate Gated(e: Effect) {
    e == Posted(BluetoothEvent(true)) || (e.Called? && e.call.GlassesControl?)
  }

  predicate GatedAfterEnable(t: seq<Effect>) {
    forall i :: 0 <= i < |t| && Gated(t[i]) ==> Called(InitEnable) in t[..i]
  }

  predicate Inv(sc: Screen) {
    && (sc.world.conn.isReady ==> Called(InitEnable) in sc.world.trace)
    && (sc.drawn.enabled != {} ==> Called(InitEnable) in sc.world.trace)
    && GatedAfterEnable(sc.world.trace)
  }

  /** Appending effects none of which is gated keeps the order property. */
  lemma AppendUngated(t: seq<Effect>, e: seq<Effect>)
    requires GatedAfterEnable(t)
    requires forall j :: 0 <= j < |e| ==> !Gated(e[j])
    ensures GatedAfterEnable(t + e)
    ensures Called(InitEnable) in t ==> Called(InitEnable) in t + e
  {
    var r := t + e;
    forall i | 0 <= i < |r| && Gated(r[i]) ensures Called(InitEnable) in r[..i] {
      assert i < |t| && r[i] == t[i];
      assert r[..i] == t[..i];
    }
  }

  /** Once `initEnable` has been issued, anything may follow. */
  lemma AppendAfterEnable(t: seq<Effect>, e: seq<Effect>)
    requires GatedAfterEnable(t) && Called(InitEnable) in t
    ensures GatedAfterEnable(t + e) && Called(InitEnable) in t + e
  {
    var r := t + e;
    var k :| 0 <= k < |t| && t[k] == Called(InitEnable);
    forall i | 0 <= i < |r| && Gated(r[i]) ensures Called(InitEnable) in r[..i] {
      if i < |t| {
        assert r[i] == t[i] && r[..i] == t[..i];
      } else {
        assert r[..i][k] == Called(InitEnable);
      }
    }
  }

  /** `onServiceDiscovered`'s order (initEnable, then the ready flags, then the
      event) is what makes its ready event legal. */
  lemma ServiceDiscoveredOrdered(t: seq<Effect>)
    requires GatedAfterEnable(t)
    ensures GatedAfterEnable(t + [Called(InitEnable), Called(SetOperateReady), Posted(BluetoothEvent(true))])
    ensures Called(InitEnable) in t + [Called(InitEnable), Called(SetOperateReady), Posted(BluetoothEvent(true))]
  {
    var r := t + [Called(InitEnable), Called(SetOperateReady), Posted(BluetoothEvent(true))];
    forall i | 0 <= i < |r| && Gated(r[i]) ensures Called(InitEnable) in r[..i] {
      if i < |t| {
        assert r[i] == t[i] && r[..i] == t[..i];
      } else {
        assert i == |t| + 2;
        assert r[..i][|t|] == Called(InitEnable);
      }
    }
    assert r[|t|] == Called(InitEnable);
  }

  /** Every handler keeps the invariant, with either version of the ACL
      branch. */
  lemma StepKeepsInv(sc: Screen, s: Stimulus, h: Handlers)
    requires Inv(sc)
    ensures Inv(Step(sc, s, h))
  {
    var w := sc.world;
    var t := w.trace;
    match s
    case Statue(device, connected) =>
      if device.Some? && connected {
        var d := device.value;
        AppendUngated(t, if d.name.Some? then [Called(SetDeviceManagerName(d.name.value))] else []);
      } else {
        AppendUngated(t, [Posted(BluetoothEvent(false))]);
      }
    case ServiceDiscovered =>
      ServiceDiscoveredOrdered(t);
    case SystemBroadcast(b) =>
      match b {
      case StateChanged(state) =>
        if state == STATE_OFF {
          AppendUngated(t, [Called(SetBluetoothTurnOff(false)), Called(Disconnect), Posted(BluetoothEvent(false))]);
        } else if state == STATE_ON {
          var last := w.managerAddress;
          var reconnect := if last.Some? && last.value != "" then
                             [Called(SetReConnectMac(last.value)), Called(ConnectDirectly(last.value))]
                           else [];
          AppendUngated(t, [Called(SetBluetoothTurnOff(true))] + reconnect);
          assert t + [Called(SetBluetoothTurnOff(true))] + reconnect == t + ([Called(SetBluetoothTurnOff(true))] + reconnect);
        }
      case AclDisconnected =>
        if h == Corrected {
          AppendUngated(t, [Posted(BluetoothEvent(false))]);
        }
      case DeviceFound(device) =>
        if device.Some? {
          AppendUngated(t, [Called(CreateBond(device.value.address))]);
        }
      case _ =>
      }
    case UserDisconnect(unbindThrows) =>
      if !unbindThrows {
        AppendUngated(t, [Called(UnBindDevice)]);
      }
    case UserConnect(choice) =>
      AppendUngated(t, [Called(ConnectDirectly(choice.address))]);
    case UserCommand(command) =>
      if sc.drawn.enabled != {} {
        AppendAfterEnable(t, [Called(GlassesControl(command))]);
      }
    case Resume =>
  }

  lemma {:induction false} RunKeepsInv(sc: Screen, ss: seq<Stimulus>, h: Handlers)
    requires Inv(sc)
    ensures Inv(Run(sc, ss, h))
  {
    if ss != [] {
      RunKeepsInv(sc, ss[..|ss| - 1], h);
      StepKeepsInv(Run(sc, ss[..|ss| - 1], h), ss[|ss| - 1], h);
    }
  }

  /** On every run from process start, with the receivers as written:
      whenever a control is drawn enabled, or the glasses are ready,
      `initEnable` has been issued; no command reaches the glasses and no
      ready event is posted before it. A command may still be sent after
      the glasses stopped being ready (see `StaleControlsAfterAclDisconnect`),
      but never before the SDK was first initialised. */
  lemma ControlsFollowInitEnable(persisted: Option<string>, ss: seq<Stimulus>, h: Handlers)
    ensures var sc := Run(Start(persisted), ss, h);
      && (sc.drawn.enabled != {} ==> Called(InitEnable) in sc.world.trace)
      && (sc.world.conn.isReady ==> Called(InitEnable) in sc.world.trace)
      && (forall i :: 0 <= i < |sc.world.trace| && sc.world.trace[i].Called? && sc.world.trace[i].call.GlassesControl? ==>
            Called(InitEnable) in sc.world.trace[..i])
      && (forall i :: 0 <= i < |sc.world.trace| && sc.world.trace[i] == Posted(BluetoothEvent(true)) ==>
            Called(InitEnable) in sc.world.trace[..i])
  {
    RunKeepsInv(Start(persisted), ss, h);
  }

  /** `isReady` does not imply `isConnected`: the SDK's service discovery
      alone, from process start, makes the glasses ready but not connected,
      and the screen shows the controls enabled and the disconnect button
      disabled. */
  lemma ReadyWithoutConnection(persisted: Option<string>)
    ensures var sc := Run(Start(persisted), [ServiceDiscovered], AsWritten);
      && sc.world.conn.isReady && !sc.world.conn.isConnected
      && sc.drawn == ConnectionView(false, AllControls, ReadyStatus("Unknown"))
  {
    assert [ServiceDiscovered][..0] == [];
  }

  /** The Disconnect button clears the connection and the device identity but
      leaves a ready state ready: the redrawn controls stay enabled, and the
      status line reads "Ready: Unknown". */
  lemma UserDisconnectKeepsControls(sc: Screen, h: Handlers)
    requires sc.world.conn.isReady
    ensures var n := Step(sc, UserDisconnect(false), h);
      && n.world.conn.isReady && !n.world.conn.isConnected
      && n.world.conn.deviceAddress.None? && n.world.conn.deviceName.None?
      && n.drawn == ConnectionView(false, AllControls, ReadyStatus("Unknown"))
  {
  }

  /** A disconnect callback or the adapter going off clears both flags and,
      through the posted event, redraws every control disabled. */
  lemma LinkLossDisablesControls(sc: Screen, s: Stimulus, h: Handlers)
    requires (s.Statue? && !(s.device.Some? && s.connected))
          || s == SystemBroadcast(StateChanged(STATE_OFF))
          || (h == Corrected && s == SystemBroadcast(AclDisconnected))
    ensures var n := Step(sc, s, h);
      && !n.world.conn.isReady && !n.world.conn.isConnected
      && n.drawn.enabled == {} && n.drawn.status == NotConnected
  {
  }

  /** An ACL disconnect clears both flags but posts nothing, so the screen
      keeps what it last drew: after service discovery and an ACL
      disconnect, every control is still enabled while the glasses are not
      ready, and pressing one sends its command to the SDK. */
  lemma StaleControlsAfterAclDisconnect(persisted: Option<string>, command: seq<int8>)
    ensures var sc := Run(Start(persisted), [ServiceDiscovered, SystemBroadcast(AclDisconnected)], AsWritten);
      && !sc.world.conn.isReady && !sc.world.conn.isConnected
      && sc.drawn.enabled == AllControls
      && Step(sc, UserCommand(command), AsWritten).world.trace == sc.world.trace + [Called(GlassesControl(command))]
  {
    var ss := [ServiceDiscovered, SystemBroadcast(AclDisconnected)];
    assert ss[..1] == [ServiceDiscovered] && ss[..1][..0] == [];
  }

  /** With the corrected ACL branch, what is drawn always agrees with
      `isReady`. */
  predicate DrawnAgrees(sc: Screen) {
    sc.drawn.enabled == ConnectionUi(sc.world.conn).enabled
  }

  lemma CorrectedStepKeepsAgreement(sc: Screen, s: Stimulus)
    requires DrawnAgrees(sc)
    ensures DrawnAgrees(Step(sc, s, Corrected))
  {
    var n := Step(sc, s, Corrected);
    if !s.UserCommand? && !Redraws(s, Corrected) {
      assert n.world.conn.isReady == sc.world.conn.isReady;
    }
  }

  lemma {:induction false} CorrectedRunKeepsAgreement(sc: Screen, ss: seq<Stimulus>)
    requires DrawnAgrees(sc)
    ensures DrawnAgrees(Run(sc, ss, Corrected))
  {
    if ss != [] {
      CorrectedRunKeepsAgreement(sc, ss[..|ss| - 1]);
      CorrectedStepKeepsAgreement(Run(sc, ss[..|ss| - 1], Corrected), ss[|ss| - 1]);
    }
  }

  /** With the corrected ACL branch, on every run from process start, a
      pressed control sends its command exactly when the glasses are ready. */
  lemma CorrectedCommandIffReady(persisted: Option<string>, ss: seq<Stimulus>, command: seq<int8>)
    ensures var sc := Run(Start(persisted), ss, Corrected);
      var n := Step(sc, UserCommand(command), Corrected);
      && (sc.world.conn.isReady ==> n.world.trace == sc.world.trace + [Called(GlassesControl(command))])
      && (!sc.world.conn.isReady ==> n == sc)
  {
    CorrectedRunKeepsAgreement(Start(persisted), ss);
  }

  /** A connect callback never makes the glasses ready by itself; only
      service discovery does. */
  lemma ReadyOnlyFromDiscovery(sc: Screen, s: Stimulus, h: Handlers)
    requires !sc.world.conn.isReady && Step(sc, s, h).world.conn.isReady
    ensures s == ServiceDiscovered
  {
  }
}
