/**
 * `AndroidBluetoothController`: the session controller. It owns the
 * listening socket, the duplex socket and the transfer service wrapping it,
 * publishes the connectivity flag, the scanned and paired device lists and
 * an error stream, and runs the server and client connection flows.
 *
 * Everything the platform decides is an input: the permission state, what
 * the adapter answers at the time of a call, and a script of socket
 * outcomes for each flow. The calls the controller makes on the adapter
 * and on sockets are kept, in order, in `calls`.
 */
module Controller {
  import opened Basics
  import opened Domain
  import opened Platform
  import opened DataTransfer
  import PermissionUtil
  import StateReceiver
  import FoundReceiver
  import MessageMapper

  const ServiceUuid := "27b7d1da-08c7-4505-a6d1-2459987e5e2d"
  const ServiceName := "chat_service"
  const NoPermission := "No BLUETOOTH_CONNECT permission"
  const Interrupted := "Connection was interrupted"
  const NonPairedDevice := "Can't connect to a non-paired device."
  const UnknownName := "Unknown name"

  /**
   * The runtime permission state: the SDK level, whether BLUETOOTH_CONNECT
   * is granted, and the answer of `PermissionUtil.canBluetoothScan` (called
   * by the controller, not defined in `PermissionUtil.kt`).
   */
  datatype Permissions = Permissions(sdkInt: int, connectGranted: bool, canScan: bool)

  predicate CanConnect(p: Permissions) {
    PermissionUtil.CanBluetoothConnect(p.sdkInt, p.connectGranted)
  }

  /** `listenUsingRfcommWithServiceRecord` / `createRfcommSocketToServiceRecord`: a socket, or an exception. */
  datatype SocketOutcome = Opened(handle: Handle) | OpenFailed

  /** `serverSocket.accept()`: the accepted socket, or an IOException. */
  datatype AcceptOutcome = Accepted(handle: Handle) | AcceptFailed

  datatype ServerScript = ServerScript(listen: SocketOutcome, accept: AcceptOutcome, input: ReadScript)

  /** `connects` is false when `clientSocket.connect()` throws an IOException. */
  datatype ConnectScript = ConnectScript(socket: SocketOutcome, connects: bool, input: ReadScript)

  /** The three handle fields of the controller. */
  datatype Session = Session(serverSocket: Option<Handle>, clientSocket: Option<Handle>, service: Option<TransferService>)

  /** The four observable surfaces of the controller. */
  datatype Observed = Observed(connected: bool, scannedDevices: seq<DeviceModel>, pairedDevices: seq<DeviceModel>, errors: seq<string>)

  /**
   * One collection of a cold flow: the results it emitted, whether it ended
   * by throwing out of the collector, the platform calls it made (including
   * those of `close()` on completion), and the handle fields afterwards.
   */
  datatype FlowRun = FlowRun(results: seq<ConnectionResult>, raised: bool, calls: seq<PlatformCall>, after: Session)

  /** The calls `close()` makes: it closes the listening socket, then the duplex socket, if present. */
  function CloseCalls(s: Session): (r: seq<PlatformCall>)
    ensures forall c :: c in r <==>
      ((s.serverSocket.Some? && c == CloseSocket(s.serverSocket.value))
       || (s.clientSocket.Some? && c == CloseSocket(s.clientSocket.value)))
  {
    (if s.serverSocket.Some? then [CloseSocket(s.serverSocket.value)] else [])
    + (if s.clientSocket.Some? then [CloseSocket(s.clientSocket.value)] else [])
  }

  /** The handle fields after `close()`: both sockets null; the service is kept. */
  function Closed(s: Session): (r: Session)
    ensures r.serverSocket.None? && r.clientSocket.None? && r.service == s.service
  {
    s.(serverSocket := None, clientSocket := None)
  }

  /** `onCompletion { close() }` after the run of a flow's block. */
  function Complete(run: FlowRun): (r: FlowRun)
    ensures r.results == run.results && r.raised == run.raised
    ensures r.calls == run.calls + CloseCalls(run.after)
    ensures r.after.serverSocket.None? && r.after.clientSocket.None? && r.after.service == run.after.service
  {
    run.(calls := run.calls + CloseCalls(run.after), after := Closed(run.after))
  }

  /** `.map { Transferred(it) }`. */
  function AsTransferred(ms: seq<MessageModel>): (r: seq<ConnectionResult>)
    ensures |r| == |ms|
    ensures forall k :: 0 <= k < |ms| ==> r[k] == Transferred(ms[k])
  {
    if |ms| == 0 then [] else [Transferred(ms[0])] + AsTransferred(ms[1..])
  }

  /**
   * The `flow { ... }` block of `startServer()` run to its end: what it
   * emitted, whether it raised, its calls, and the handle fields before
   * the completion handler.
   */
  function ServerBlock(canConnect: bool, hasAdapter: bool, script: ServerScript, before: Session): (r: FlowRun) {
    if !canConnect then
      FlowRun([Error(NoPermission)], false, [], before)
    else if !hasAdapter then
      // No adapter: no listening socket, so `accept` yields null, yet Established is emitted.
      FlowRun([Established], false, [], before.(serverSocket := None, clientSocket := None))
    else
      match script.listen
      case OpenFailed =>
        FlowRun([], true, [ListenRfcomm(ServiceName, ServiceUuid)], before)
      case Opened(l) =>
        var listening := [ListenRfcomm(ServiceName, ServiceUuid), Accept(l)];
        match script.accept
        case AcceptFailed =>
          FlowRun([], false, listening, before.(serverSocket := Some(l)))
        case Accepted(c) =>
          FlowRun([Established] + AsTransferred(Received(script.input)), ReadFails(script.input),
                  listening + [CloseSocket(l)], Session(Some(l), Some(c), Some(TransferService(c))))
  }

  /** `startServer()` collected to its end, `close()` included. */
  function ServerFlow(canConnect: bool, hasAdapter: bool, script: ServerScript, before: Session): (r: FlowRun) {
    Complete(ServerBlock(canConnect, hasAdapter, script, before))
  }

  /** The calls `stopDiscovery()` makes. */
  function StopDiscoveryCalls(canScan: bool, hasAdapter: bool): (r: seq<PlatformCall>) {
    if canScan && hasAdapter then [AdapterCancelDiscovery] else []
  }

  /** The `flow { ... }` block of `connect(device)` run to its end, before the completion handler. */
  function ClientBlock(canConnect: bool, canScan: bool, hasAdapter: bool, address: string,
                       script: ConnectScript, before: Session): (r: FlowRun) {
    if !canConnect then
      FlowRun([Error(NoPermission)], false, [], before)
    else if !hasAdapter then
      // No adapter: no socket to connect, yet Established is emitted.
      FlowRun([Established], false, [], before.(clientSocket := None))
    else
      match script.socket
      case OpenFailed =>
        FlowRun([], true, [CreateRfcomm(address, ServiceUuid)], before)
      case Opened(c) =>
        var dialing := [CreateRfcomm(address, ServiceUuid)] + StopDiscoveryCalls(canScan, true) + [ConnectSocket(c)];
        var service := if script.connects then Some(TransferService(c)) else before.service;
        FlowRun(DialResults(script), false, dialing, Session(before.serverSocket, Some(c), service))
  }

  /** `connect(device)` collected to its end, `close()` included. */
  function ConnectFlow(canConnect: bool, canScan: bool, hasAdapter: bool, address: string,
                       script: ConnectScript, before: Session): (r: FlowRun) {
    Complete(ClientBlock(canConnect, canScan, hasAdapter, address, script, before))
  }

  /** What the `try` block of `connect` emits once the socket exists. */
  function DialResults(script: ConnectScript): (r: seq<ConnectionResult>) {
    if !script.connects then [Error(Interrupted)]
    else [Established] + AsTransferred(Received(script.input))
         + (if ReadFails(script.input) then [Error(Interrupted)] else [])
  }

  /** `BluetoothDevice.toDevice()`. */
  function ToDevice(d: BluetoothDevice): (r: DeviceModel) {
    DeviceModel(d.name, d.address)
  }

  function ToDevices(ds: seq<BluetoothDevice>): (r: seq<DeviceModel>)
    ensures |r| == |ds|
    ensures forall k :: 0 <= k < |ds| ==> r[k] == ToDevice(ds[k])
  {
    if |ds| == 0 then [] else [ToDevice(ds[0])] + ToDevices(ds[1..])
  }

  /** `updatePairedDevices()`: the bonded devices, unless the permission is missing or the adapter answers null. */
  function PairedAfterUpdate(paired: seq<DeviceModel>, canConnect: bool, hasAdapter: bool, adapter: Adapter): (r: seq<DeviceModel>)
    ensures !canConnect || !hasAdapter || adapter.bonded.None? ==> r == paired
    ensures canConnect && hasAdapter && adapter.bonded.Some? ==>
      |r| == |adapter.bonded.value| && forall k :: 0 <= k < |r| ==> r[k] == ToDevice(adapter.bonded.value[k])
  {
    if canConnect && hasAdapter && adapter.bonded.Some? then ToDevices(adapter.bonded.value) else paired
  }

  /** The `foundReceiver` update: a device already listed is not listed twice. */
  function ScannedAfter(devices: seq<DeviceModel>, model: DeviceModel): (r: seq<DeviceModel>) {
    if model in devices then devices else devices + [model]
  }

  /** `adapter?.bondedDevices?.contains(device) == true`. */
  predicate IsBonded(hasAdapter: bool, adapter: Adapter, device: BluetoothDevice) {
    hasAdapter && adapter.bonded.Some? && exists b :: b in adapter.bonded.value && SameDevice(b, device)
  }

  /** `bluetoothEnabled()`: `adapter?.isEnabled ?: false`. */
  function BluetoothEnabled(hasAdapter: bool, adapter: Adapter): (r: bool)
    ensures r <==> hasAdapter && adapter.enabled
  {
    if hasAdapter then adapter.enabled else false
  }

  /** The message `sendMessage(text)` builds: the adapter's name as sender, or "Unknown name". */
  function SentModel(text: string, hasAdapter: bool, adapter: Adapter): (r: MessageModel)
    ensures r.message == text && r.local
    ensures hasAdapter && adapter.name.Some? ==> r.sender == adapter.name.value
    ensures !(hasAdapter && adapter.name.Some?) ==> r.sender == UnknownName
  {
    MessageModel(text, if hasAdapter && adapter.name.Some? then adapter.name.value else UnknownName, true)
  }

  class AndroidBluetoothController {
    /** Whether the `adapter` constructor argument is non-null. */
    const hasAdapter: bool

    var connected: bool
    var scannedDevices: seq<DeviceModel>
    var pairedDevices: seq<DeviceModel>
    /** Every error emitted on the `errors` stream, in order. */
    var errors: seq<string>

    var service: Option<TransferService>
    var serverSocket: Option<Handle>
    var clientSocket: Option<Handle>

    /** The calls made on the adapter and on sockets, in order. */
    var calls: seq<PlatformCall>

    function CurrentSession(): (r: Session)
      reads this
    {
      Session(serverSocket, clientSocket, service)
    }

    function CurrentObserved(): (r: Observed)
      reads this
    {
      Observed(connected, scannedDevices, pairedDevices, errors)
    }

    /** Construction, followed by the `init` block's `updatePairedDevices()`. */
    constructor (hasAdapter: bool, p: Permissions, adapter: Adapter)
      ensures this.hasAdapter == hasAdapter
      ensures CurrentObserved() == Observed(false, [], PairedAfterUpdate([], CanConnect(p), hasAdapter, adapter), [])
      ensures CurrentSession() == Session(None, None, None) && calls == []
    {
      this.hasAdapter := hasAdapter;
      connected := false;
      scannedDevices := [];
      errors := [];
      service := None;
      serverSocket := None;
      clientSocket := None;
      calls := [];
      pairedDevices := PairedAfterUpdate([], CanConnect(p), hasAdapter, adapter);
    }

    method UpdatePairedDevices(p: Permissions, adapter: Adapter)
      modifies this
      ensures pairedDevices == PairedAfterUpdate(old(pairedDevices), CanConnect(p), hasAdapter, adapter)
      ensures connected == old(connected) && scannedDevices == old(scannedDevices) && errors == old(errors)
      ensures CurrentSession() == old(CurrentSession()) && calls == old(calls)
    {
      if !CanConnect(p) {
        return;
      }
      if hasAdapter && adapter.bonded.Some? {
        pairedDevices := ToDevices(adapter.bonded.value);
      }
    }

    method StartDiscovery(p: Permissions, adapter: Adapter)
      modifies this
      ensures !p.canScan ==> pairedDevices == old(pairedDevices) && calls == old(calls)
      ensures p.canScan ==> pairedDevices == PairedAfterUpdate(old(pairedDevices), CanConnect(p), hasAdapter, adapter)
      ensures p.canScan ==> calls == old(calls) + (if hasAdapter then [AdapterStartDiscovery] else [])
      ensures connected == old(connected) && scannedDevices == old(scannedDevices) && errors == old(errors)
      ensures CurrentSession() == old(CurrentSession())
    {
      if !p.canScan {
        return;
      }
      UpdatePairedDevices(p, adapter);
      if hasAdapter {
        calls := calls + [AdapterStartDiscovery];
      }
    }

    method StopDiscovery(p: Permissions)
      modifies this
      ensures calls == old(calls) + StopDiscoveryCalls(p.canScan, hasAdapter)
      ensures CurrentObserved() == old(CurrentObserved()) && CurrentSession() == old(CurrentSession())
    {
      if !p.canScan {
        return;
      }
      if hasAdapter {
        calls := calls + [AdapterCancelDiscovery];
      }
    }

    /** `close()`: closes and nulls both sockets; the service and the observable state stay. */
    method Close()
      modifies this
      ensures CurrentSession() == Closed(old(CurrentSession()))
      ensures calls == old(calls) + CloseCalls(old(CurrentSession()))
      ensures CurrentObserved() == old(CurrentObserved())
    {
      if serverSocket.Some? {
        calls := calls + [CloseSocket(serverSocket.value)];
      }
      serverSocket := None;
      if clientSocket.Some? {
        calls := calls + [CloseSocket(clientSocket.value)];
      }
      clientSocket := None;
    }

    /** `release()`: unregisters the receivers (not modelled) and closes. */
    method Release()
      modifies this
      ensures CurrentSession() == Closed(old(CurrentSession()))
      ensures calls == old(calls) + CloseCalls(old(CurrentSession()))
      ensures CurrentObserved() == old(CurrentObserved())
    {
      Close();
    }

    /** `startServer()`: listen, accept one peer, then stream its messages; `close()` on completion. */
    method StartServer(p: Permissions, script: ServerScript) returns (results: seq<ConnectionResult>, raised: bool)
      modifies this
      ensures var run := ServerFlow(CanConnect(p), hasAdapter, script, old(CurrentSession()));
        && results == run.results && raised == run.raised
        && calls == old(calls) + run.calls && CurrentSession() == run.after
      ensures CurrentObserved() == old(CurrentObserved())
    {
      results, raised := RunServerBlock(p, script);
      Close();
    }

    /** The `flow { ... }` block of `startServer()`. */
    method RunServerBlock(p: Permissions, script: ServerScript) returns (results: seq<ConnectionResult>, raised: bool)
      modifies this
      ensures var run := ServerBlock(CanConnect(p), hasAdapter, script, old(CurrentSession()));
        && results == run.results && raised == run.raised
        && calls == old(calls) + run.calls && CurrentSession() == run.after
      ensures CurrentObserved() == old(CurrentObserved())
    {
      results, raised := [], false;
      if !CanConnect(p) {
        results := [Error(NoPermission)];
      } else if !hasAdapter {
        // serverSocket = adapter?.listenUsingRfcommWithServiceRecord(...) is null, so is
        // serverSocket?.accept(), and Established is emitted.
        serverSocket := None;
        clientSocket := None;
        results := [Established];
      } else {
        calls := calls + [ListenRfcomm(ServiceName, ServiceUuid)];
        match script.listen
        case OpenFailed =>
          raised := true;
        case Opened(l) =>
          serverSocket := Some(l);
          results, raised := AcceptAndServe(l, script);
      }
    }

    /**
     * From `serverSocket?.accept()` on: an IOException ends the flow
     * silently; an accepted peer gets Established, the listening socket is
     * closed, and its messages are streamed.
     */
    method AcceptAndServe(l: Handle, script: ServerScript) returns (results: seq<ConnectionResult>, raised: bool)
      requires serverSocket == Some(l)
      modifies this
      ensures script.accept.AcceptFailed? ==>
        && results == [] && !raised
        && calls == old(calls) + [Accept(l)] && CurrentSession() == old(CurrentSession())
      ensures script.accept.Accepted? ==>
        && results == [Established] + AsTransferred(Received(script.input))
        && raised == ReadFails(script.input)
        && calls == old(calls) + [Accept(l), CloseSocket(l)]
        && CurrentSession() == Session(Some(l), Some(script.accept.handle), Some(TransferService(script.accept.handle)))
      ensures CurrentObserved() == old(CurrentObserved())
    {
      calls := calls + [Accept(l)];
      match script.accept
      case AcceptFailed =>
        return [], false;
      case Accepted(c) =>
        clientSocket := Some(c);
        results := [Established];
        calls := calls + [CloseSocket(l)];
        service := Some(TransferService(c));
        var messages, failed := GetMessages(service.value, script.input);
        results := results + AsTransferred(messages);
        raised := failed;
    }

    /** `connect(device)`: dial the device, stop discovery, connect, then stream; `close()` on completion. */
    method Connect(device: DeviceModel, p: Permissions, script: ConnectScript) returns (results: seq<ConnectionResult>, raised: bool)
      modifies this
      ensures var run := ConnectFlow(CanConnect(p), p.canScan, hasAdapter, device.address, script, old(CurrentSession()));
        && results == run.results && raised == run.raised
        && calls == old(calls) + run.calls && CurrentSession() == run.after
      ensures CurrentObserved() == old(CurrentObserved())
    {
      results, raised := RunClientBlock(device, p, script);
      Close();
    }

    /** The `flow { ... }` block of `connect(device)`. */
    method RunClientBlock(device: DeviceModel, p: Permissions, script: ConnectScript) returns (results: seq<ConnectionResult>, raised: bool)
      modifies this
      ensures var run := ClientBlock(CanConnect(p), p.canScan, hasAdapter, device.address, script, old(CurrentSession()));
        && results == run.results && raised == run.raised
        && calls == old(calls) + run.calls && CurrentSession() == run.after
      ensures CurrentObserved() == old(CurrentObserved())
    {
      results, raised := [], false;
      if !CanConnect(p) {
        results := [Error(NoPermission)];
      } else if !hasAdapter {
        // clientSocket = adapter?.getRemoteDevice(...)?.createRfcommSocketToServiceRecord(...) is null,
        // stopDiscovery() and clientSocket?.connect() do nothing, and Established is emitted.
        clientSocket := None;
        StopDiscovery(p);
        results := [Established];
      } else {
        calls := calls + [CreateRfcomm(device.address, ServiceUuid)];
        match script.socket
        case OpenFailed =>
          raised := true;
        case Opened(c) =>
          clientSocket := Some(c);
          StopDiscovery(p);
          results := Dial(c, script);
      }
    }

    /**
     * The `try` block of `connect`: `clientSocket.connect()`, Established,
     * then the stream; an IOException in either becomes one Error.
     */
    method Dial(c: Handle, script: ConnectScript) returns (results: seq<ConnectionResult>)
      requires clientSocket == Some(c)
      modifies this
      ensures results == DialResults(script)
      ensures calls == old(calls) + [ConnectSocket(c)]
      ensures serverSocket == old(serverSocket) && clientSocket == old(clientSocket)
      ensures service == if script.connects then Some(TransferService(c)) else old(service)
      ensures CurrentObserved() == old(CurrentObserved())
    {
      calls := calls + [ConnectSocket(c)];
      if !script.connects {
        return [Error(Interrupted)];
      }
      results := [Established];
      service := Some(TransferService(c));
      var messages, failed := GetMessages(service.value, script.input);
      results := results + AsTransferred(messages);
      if failed {
        results := results + [Error(Interrupted)];
      }
    }

    /**
     * `sendMessage(message)`: null without the permission or without a
     * service; otherwise the built message if the write succeeded, else null.
     */
    method SendMessage(text: string, p: Permissions, adapter: Adapter, writeSucceeds: bool) returns (r: Option<MessageModel>)
      modifies this
      ensures !CanConnect(p) || old(service).None? ==> r == None && calls == old(calls)
      ensures CanConnect(p) && old(service).Some? ==>
        && calls == old(calls) + [Write(old(service).value.socket, MessageMapper.ToByteArray(SentModel(text, hasAdapter, adapter)))]
        && r == (if writeSucceeds then Some(SentModel(text, hasAdapter, adapter)) else None)
      ensures CurrentObserved() == old(CurrentObserved()) && CurrentSession() == old(CurrentSession())
    {
      if !CanConnect(p) {
        return None;
      }
      if service.None? {
        return None;
      }
      var model := SentModel(text, hasAdapter, adapter);
      var success, call := DataTransfer.SendMessage(service.value, model, writeSucceeds);
      calls := calls + [call];
      r := if success then Some(model) else None;
    }

    /** The `foundReceiver` callback. */
    method OnDeviceFound(device: BluetoothDevice)
      modifies this
      ensures scannedDevices == ScannedAfter(old(scannedDevices), ToDevice(device))
      ensures connected == old(connected) && pairedDevices == old(pairedDevices) && errors == old(errors)
      ensures CurrentSession() == old(CurrentSession()) && calls == old(calls)
    {
      var model := ToDevice(device);
      scannedDevices := if model in scannedDevices then scannedDevices else scannedDevices + [model];
    }

    /** The `stateReceiver` callback: only a bonded device may change the connectivity flag. */
    method OnLinkChanged(isConnected: bool, device: BluetoothDevice, adapter: Adapter)
      modifies this
      ensures IsBonded(hasAdapter, adapter, device) ==> connected == isConnected && errors == old(errors)
      ensures !IsBonded(hasAdapter, adapter, device) ==> connected == old(connected) && errors == old(errors) + [NonPairedDevice]
      ensures scannedDevices == old(scannedDevices) && pairedDevices == old(pairedDevices)
      ensures CurrentSession() == old(CurrentSession()) && calls == old(calls)
    {
      if IsBonded(hasAdapter, adapter, device) {
        connected := isConnected;
      } else {
        errors := errors + [NonPairedDevice];
      }
    }

    /** A broadcast delivered to `foundReceiver`. */
    method ReceiveFoundIntent(intent: Option<Intent>)
      modifies this
      ensures FoundReceiver.OnReceive(intent).None? ==> scannedDevices == old(scannedDevices)
      ensures FoundReceiver.OnReceive(intent).Some? ==>
        scannedDevices == ScannedAfter(old(scannedDevices), ToDevice(FoundReceiver.OnReceive(intent).value))
      ensures connected == old(connected) && pairedDevices == old(pairedDevices) && errors == old(errors)
      ensures CurrentSession() == old(CurrentSession()) && calls == old(calls)
    {
      match FoundReceiver.OnReceive(intent)
      case None =>
      case Some(device) => OnDeviceFound(device);
    }

    /** A broadcast delivered to `stateReceiver`. */
    method ReceiveStateIntent(intent: Option<Intent>, adapter: Adapter)
      modifies this
      ensures StateReceiver.OnReceive(intent).None? ==> CurrentObserved() == old(CurrentObserved())
      ensures StateReceiver.OnReceive(intent).Some? ==>
        var change := StateReceiver.OnReceive(intent).value;
        if IsBonded(hasAdapter, adapter, change.device)
        then connected == change.connected && errors == old(errors)
        else connected == old(connected) && errors == old(errors) + [NonPairedDevice]
      ensures scannedDevices == old(scannedDevices) && pairedDevices == old(pairedDevices)
      ensures CurrentSession() == old(CurrentSession()) && calls == old(calls)
    {
      match StateReceiver.OnReceive(intent)
      case None =>
      case Some(change) => OnLinkChanged(change.connected, change.device, adapter);
    }
  }
}
