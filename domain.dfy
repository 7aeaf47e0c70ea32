/**
 * The domain records: a chat line, a listed device, and the three-case
 * result that a connection flow emits (`BluetoothController.ConnectionResult`).
 */
module Domain {
  import opened Basics

  /** One chat line; `local` is true when this endpoint wrote it. */
  datatype MessageModel = MessageModel(message: string, sender: string, local: bool)

  /** A device as listed to the user; equality is structural (name and address). */
  datatype DeviceModel = DeviceModel(name: Option<string>, address: string)

  datatype ConnectionResult =
    | Established
    | Transferred(message: MessageModel)
    | Error(reason: string)
}

/**
 * The Android platform as the controller and the receivers see it: devices,
 * intents, the adapter's answers at the time of a call, socket handles, and
 * the calls the controller makes on the adapter and on sockets.
 */
module Platform {
  import opened Basics

  /** An abstract socket (listening `BluetoothServerSocket` or duplex `BluetoothSocket`). */
  type Handle = nat

  /** `android.bluetooth.BluetoothDevice`; the platform identifies it by hardware address. */
  datatype BluetoothDevice = BluetoothDevice(name: Option<string>, address: string)

  predicate SameDevice(a: BluetoothDevice, b: BluetoothDevice) { a.address == b.address }

  /** A broadcast `Intent`: its action and its `EXTRA_DEVICE` parcelable. */
  datatype Intent = Intent(action: Option<string>, device: Option<BluetoothDevice>)

  const ActionFound := "android.bluetooth.device.action.FOUND"
  const ActionAclConnected := "android.bluetooth.device.action.ACL_CONNECTED"
  const ActionAclDisconnected := "android.bluetooth.device.action.ACL_DISCONNECTED"
  const ActionConnectionStateChanged := "android.bluetooth.adapter.action.CONNECTION_STATE_CHANGED"

  /**
   * What a `BluetoothAdapter` answers at the time of a call: `isEnabled`,
   * `name` (absent when the platform withholds it) and `bondedDevices`
   * (absent when the platform returns null).
   */
  datatype Adapter = Adapter(enabled: bool, name: Option<string>, bonded: Option<seq<BluetoothDevice>>)

  /** The calls the controller makes on the adapter and on sockets, in the order it makes them. */
  datatype PlatformCall =
    | ListenRfcomm(serviceName: string, uuid: string)
    | Accept(server: Handle)
    | CreateRfcomm(address: string, uuid: string)
    | AdapterStartDiscovery
    | AdapterCancelDiscovery
    | ConnectSocket(client: Handle)
    | Write(client: Handle, bytes: seq<Byte>)
    | CloseSocket(socket: Handle)
}
