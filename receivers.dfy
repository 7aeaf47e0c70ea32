/**
 * `BluetoothStateReceiver.onReceive`: turns an ACL link broadcast into at
 * most one `onChanged(connected, device)` callback, given here as its argument.
 */
module StateReceiver {
  import opened Basics
  import opened Platform

  /** The argument of one `onChanged` callback. */
  datatype LinkChange = LinkChange(connected: bool, device: BluetoothDevice)

  function OnReceive(intent: Option<Intent>): (r: Option<LinkChange>)
    ensures r.Some? <==>
      && intent.Some? && intent.value.device.Some?
      && intent.value.action in {Some(ActionAclConnected), Some(ActionAclDisconnected)}
    ensures r.Some? ==>
      && r.value.device == intent.value.device.value
      && (r.value.connected <==> intent.value.action == Some(ActionAclConnected))
  {
    var device := if intent.Some? then intent.value.device else None;
    var action := if intent.Some? then intent.value.action else None;
    if action == Some(ActionAclConnected) then
      (if device.Some? then Some(LinkChange(true, device.value)) else None)
    else if action == Some(ActionAclDisconnected) then
      (if device.Some? then Some(LinkChange(false, device.value)) else None)
    else
      None
  }

  /** ACL_CONNECTED with a device reports it as connected. */
  lemma AclConnected(d: BluetoothDevice)
    ensures OnReceive(Some(Intent(Some(ActionAclConnected), Some(d)))) == Some(LinkChange(true, d))
  {
  }

  /** ACL_DISCONNECTED with a device reports it as disconnected. */
  lemma AclDisconnected(d: BluetoothDevice)
    ensures OnReceive(Some(Intent(Some(ActionAclDisconnected), Some(d)))) == Some(LinkChange(false, d))
  {
  }

  /**
   * The controller also registers for CONNECTION_STATE_CHANGED, but the
   * receiver drops it, as it drops a missing device extra and a null intent.
   */
  lemma IgnoredBroadcasts(action: Option<string>, d: Option<BluetoothDevice>)
    ensures OnReceive(Some(Intent(Some(ActionConnectionStateChanged), d))) == None
    ensures OnReceive(Some(Intent(action, None))) == None
    ensures OnReceive(None) == None
  {
    assert ActionConnectionStateChanged[19] != ActionAclConnected[19];
    assert ActionConnectionStateChanged[19] != ActionAclDisconnected[19];
  }
}

/**
 * `BluetoothFoundReceiver.onReceive`: turns a discovery broadcast into at
 * most one `onDeviceFound(device)` callback, given here as its argument.
 */
module FoundReceiver {
  import opened Basics
  import opened Platform

  function OnReceive(intent: Option<Intent>): (r: Option<BluetoothDevice>)
    ensures r.Some? <==>
      intent.Some? && intent.value.action == Some(ActionFound) && intent.value.device.Some?
    ensures r.Some? ==> r.value == intent.value.device.value
  {
    match intent
    case None => None
    case Some(i) => if i.action == Some(ActionFound) then i.device else None
  }

  lemma FoundWithDevice(d: BluetoothDevice)
    ensures OnReceive(Some(Intent(Some(ActionFound), Some(d)))) == Some(d)
  {
  }

  /** No callback for other actions, for a missing device extra, or for a null intent. */
  lemma IgnoredBroadcasts(action: Option<string>, d: Option<BluetoothDevice>)
    requires action != Some(ActionFound)
    ensures OnReceive(Some(Intent(action, d))) == None
    ensures OnReceive(Some(Intent(Some(ActionFound), None))) == None
    ensures OnReceive(None) == None
  {
  }
}
