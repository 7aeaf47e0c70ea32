# Bluetooth chat core, modelled in Dafny

This project models the core of an Android Bluetooth chat app: two phones pair, one
acts as the RFCOMM server and the other dials it, and they exchange text messages.
It models:

- **the wire codec** (`MessageMapper.kt`). A message travels as the UTF-8 bytes of
  `sender#message`. A receiver decodes the first `count` bytes of its read buffer and
  splits the text at the first `#`.
- **the session controller** (`AndroidBluetoothController.kt`). The class
  `Controller.AndroidBluetoothController` has:
  - the `serverSocket`, `clientSocket` and `service` handle fields;
  - the observable `connected`, `scannedDevices`, `pairedDevices` and `errors` state;
  - a `calls` trace of every call the controller makes on the adapter and on sockets.
- **the flows and the transfer service**. `startServer()` and `connect(device)` are
  methods run to completion against a script of socket outcomes. Each is proved equal
  to a specification function (`Controller.ServerFlow`, `Controller.ConnectFlow`) that
  gives the emitted `ConnectionResult`s, whether the flow raised, the platform calls
  and the handle fields afterwards. Each specification function is the run of the
  flow's block (`ServerBlock`, `ClientBlock`) followed by the `onCompletion { close() }`
  handler (`Complete`). `BluetoothDataTransferService` is the
  `DataTransfer` module: a read loop refilling one reused 1024-byte array, and the
  write of a frame.
- **the broadcast receivers** (`BluetoothStateReceiver`, `BluetoothFoundReceiver`).
  Each is a function from an optional intent to an optional callback argument. The
  controller's callbacks for them are methods of the class. The `foundReceiver` callback (`OnDeviceFound`) appends by
  `Controller.ScannedAfter`, which lists a device only once; the `stateReceiver`
  callback (`OnLinkChanged`) decides with `Controller.IsBonded` whether the device is
  in the adapter's bonded set.
- **the capability gates** (`PermissionUtil.canBluetoothConnect`, `BuildUtil`).
- **the chat screen view-model** (`ChatViewModel.kt`). It is a class that reduces
  the collected results into `connecting`, the message list and an event queue, and
  that handles the draft-message and send actions.

The platform parts are inputs. These inputs are:

- the permission state: SDK level, BLUETOOTH_CONNECT granted, and the answer of
  `canBluetoothScan`;
- whether the controller was built with an adapter, plus a per-call snapshot of what
  the adapter answers (enabled, name, bonded devices);
- the socket outcomes of each flow.

A socket is an abstract handle number.

Behaviour of the code a reader may not expect (the model follows the code):

- **No `#` in the text.** Kotlin's `substringBefore`/`substringAfter` return the
  whole string when the delimiter is missing. So the sender *and* the body are both
  the full text, not an empty sender (`MessageMapper.NoDelimiterExample`).
- **Read failures in `startServer`.** `startServer()` does not catch an IOException
  thrown by a read, because `emitAll` is outside any `try`. The flow raises, and no
  `Error` result is emitted (`ControllerProperties.ServerRaisedIff`). Only
  `connect()` turns a read failure into `Error("Connection was interrupted")`.
- **Empty reads.** `InputStream.read` on the 1024-byte buffer never returns 0 (it
  reads at least one byte, returns -1 or throws). The model's read scripts still
  allow an empty chunk. Such a chunk would yield a message whose sender and body
  are both empty, and it would not end the stream.
- **No adapter.** Without an adapter, both flows still emit `Established`
  (`ControllerProperties.NoAdapterStillEstablished`).
- **Failed `accept()`.** When `accept()` fails, nothing is emitted, so the chat screen
  stays `connecting` (`ChatScreen.AcceptFailedStaysConnecting`).
- **Closing the listening socket.** `startServer()` closes the listening socket after
  `accept()` but does not null it. The completion `close()` closes it a second time
  (`ControllerProperties.ServerAccepted`).
- **Methods missing from the code.** `refreshPairedDevices` is declared by
  `BluetoothController.kt` but not implemented. `PermissionUtil.canBluetoothScan` is
  called but not defined in `PermissionUtil.kt`; its answer is the `canScan` input.

## Model

| member | source | states |
|---|---|---|
| Utf8.EncodeChar | app/src/main/java/xyz/teamgravity/bluetoothchat/data/mapper/MessageMapper.kt:6 | each character takes 1 to 4 bytes; exactly the ASCII characters take one byte, equal to the code point; every byte of a multi-byte sequence is at least 0x80 (section 3 of RFC 3629) |
| Utf8.Encode | app/src/main/java/xyz/teamgravity/bluetoothchat/data/mapper/MessageMapper.kt:6 | `encodeToByteArray` yields at least one byte per character |
| Utf8.Decode | app/src/main/java/xyz/teamgravity/bluetoothchat/data/mapper/MessageMapper.kt:10 | `decodeToString` is total and yields at most one character per byte |
| Utf8.EncodeAppend | app/src/main/java/xyz/teamgravity/bluetoothchat/data/mapper/MessageMapper.kt:6 | encoding a concatenation is the concatenation of the encodings |
| Utf8.DecodeStepEncodeChar | app/src/main/java/xyz/teamgravity/bluetoothchat/data/mapper/MessageMapper.kt:6-10 | decoding starts by reading back exactly the first encoded character and its byte length, whatever follows |
| Utf8.DecodeTwo | app/src/main/java/xyz/teamgravity/bluetoothchat/data/mapper/MessageMapper.kt:6-10 | a two-byte encoding is read back as its character |
| Utf8.DecodeThree | app/src/main/java/xyz/teamgravity/bluetoothchat/data/mapper/MessageMapper.kt:6-10 | a three-byte encoding is read back as its character |
| Utf8.DecodeFour | app/src/main/java/xyz/teamgravity/bluetoothchat/data/mapper/MessageMapper.kt:6-10 | a four-byte encoding is read back as its character |
| Utf8.DecodeEncode | app/src/main/java/xyz/teamgravity/bluetoothchat/data/mapper/MessageMapper.kt:6-10 | decoding the encoding of any text gives back that text |
| Utf8.EncodeHasByteIff | app/src/main/java/xyz/teamgravity/bluetoothchat/data/mapper/MessageMapper.kt:6 | an ASCII character's byte occurs in an encoding exactly when the character occurs in the text |
| MessageMapper.SubstringBefore | app/src/main/java/xyz/teamgravity/bluetoothchat/data/mapper/MessageMapper.kt:12 | the whole text when it has no delimiter; otherwise the proper prefix that ends just before the first delimiter and holds none |
| MessageMapper.SubstringAfter | app/src/main/java/xyz/teamgravity/bluetoothchat/data/mapper/MessageMapper.kt:11 | the whole text when it has no delimiter; otherwise the text is the prefix, the delimiter and this result |
| MessageMapper.ToByteArrayLayout | app/src/main/java/xyz/teamgravity/bluetoothchat/data/mapper/MessageMapper.kt:5-7 | the frame is the encoded sender, the byte 0x23, then the encoded body |
| MessageMapper.ToMessage | app/src/main/java/xyz/teamgravity/bluetoothchat/data/mapper/MessageMapper.kt:9-18 | needs 0 <= count <= size; `local` is the argument; if the decoded text has a `#`, the text is sender + `#` + message with no `#` in the sender; if not, sender and message are both the whole text |
| MessageMapper.ToMessageReadsOnlyPrefix | app/src/main/java/xyz/teamgravity/bluetoothchat/data/mapper/MessageMapper.kt:10 | buffers that agree on bytes `[0, count)` decode to the same message |
| MessageMapper.SplitAtFirst | app/src/main/java/xyz/teamgravity/bluetoothchat/data/mapper/MessageMapper.kt:11-12 | with no `#` in `s`, `s#t` splits into exactly `s` and `t`, even if `t` has `#` |
| MessageMapper.RoundTrip | app/src/main/java/xyz/teamgravity/bluetoothchat/data/mapper/MessageMapper.kt:5-18 | decoding a whole frame gives back body and sender with the given locality if and only if the sender has no `#` |
| MessageMapper.NoDelimiterExample | app/src/main/java/xyz/teamgravity/bluetoothchat/data/mapper/MessageMapper.kt:11-12 | the bytes of "hello" decode to sender "hello" and body "hello" |
| MessageMapper.DelimiterByteIffChar | app/src/main/java/xyz/teamgravity/bluetoothchat/data/mapper/MessageMapper.kt:6 | a frame contains the byte 0x23 exactly when its text contains `#` |
| MessageMapper.DelimiterBytePosition | app/src/main/java/xyz/teamgravity/bluetoothchat/data/mapper/MessageMapper.kt:6-12 | in the encoding of a text with a `#`, the first 0x23 byte sits right after the encoded text before the first `#`, and the bytes after it encode the text after that `#`, so splitting bytes and splitting characters agree |
| BuildUtil.LevelsAreTheApiNumbers | app/src/main/java/xyz/teamgravity/bluetoothchat/core/util/BuildUtil.kt:11-17 | `deviceAtLeastS` holds iff SDK >= 31; `deviceAtLeastTiramisu` iff SDK >= 33 |
| BuildUtil.TiramisuImpliesS | app/src/main/java/xyz/teamgravity/bluetoothchat/core/util/BuildUtil.kt:11-17 | at least Tiramisu implies at least S |
| BuildUtil.Monotone | app/src/main/java/xyz/teamgravity/bluetoothchat/core/util/BuildUtil.kt:11-17 | both checks stay true at every higher SDK level |
| PermissionUtil.BelowSAlwaysAllowed | app/src/main/java/xyz/teamgravity/bluetoothchat/core/util/PermissionUtil.kt:14-19 | below S the gate passes whether or not the permission is granted |
| PermissionUtil.FromSEqualsGranted | app/src/main/java/xyz/teamgravity/bluetoothchat/core/util/PermissionUtil.kt:15-16 | from S on the gate is exactly "BLUETOOTH_CONNECT granted" |
| PermissionUtil.DeniedIff | app/src/main/java/xyz/teamgravity/bluetoothchat/core/util/PermissionUtil.kt:14-19 | the gate fails iff SDK >= 31 and the permission is not granted |
| PermissionUtil.GrantedAlwaysAllowed | app/src/main/java/xyz/teamgravity/bluetoothchat/core/util/PermissionUtil.kt:14-19 | with the permission granted the gate passes at every SDK level |
| StateReceiver.OnReceive | app/src/main/java/xyz/teamgravity/bluetoothchat/core/receiver/BluetoothStateReceiver.kt:13-26 | at most one callback, given exactly for ACL_CONNECTED or ACL_DISCONNECTED with a device; it carries that device, and `connected` is true iff the action is ACL_CONNECTED |
| StateReceiver.AclConnected | app/src/main/java/xyz/teamgravity/bluetoothchat/core/receiver/BluetoothStateReceiver.kt:16-17 | ACL_CONNECTED with a device calls back `(true, device)` |
| StateReceiver.AclDisconnected | app/src/main/java/xyz/teamgravity/bluetoothchat/core/receiver/BluetoothStateReceiver.kt:20-21 | ACL_DISCONNECTED with a device calls back `(false, device)` |
| StateReceiver.IgnoredBroadcasts | app/src/main/java/xyz/teamgravity/bluetoothchat/core/receiver/BluetoothStateReceiver.kt:14-24 | no callback for CONNECTION_STATE_CHANGED (which the controller registers), for a missing device, or for a null intent |
| FoundReceiver.OnReceive | app/src/main/java/xyz/teamgravity/bluetoothchat/core/receiver/BluetoothFoundReceiver.kt:13-22 | a callback exactly for ACTION_FOUND with a device, and it carries that device unchanged |
| FoundReceiver.FoundWithDevice | app/src/main/java/xyz/teamgravity/bluetoothchat/core/receiver/BluetoothFoundReceiver.kt:15-17 | ACTION_FOUND with a device calls back with it |
| FoundReceiver.IgnoredBroadcasts | app/src/main/java/xyz/teamgravity/bluetoothchat/core/receiver/BluetoothFoundReceiver.kt:14-20 | no callback for another action, for ACTION_FOUND without a device, or for a null intent |
| DataTransfer.Decoded | app/src/main/java/xyz/teamgravity/bluetoothchat/data/controller/AndroidBluetoothController.kt:258-261 | a received message is never local |
| DataTransfer.DecodeAll | app/src/main/java/xyz/teamgravity/bluetoothchat/data/controller/AndroidBluetoothController.kt:256-263 | one message per read, the k-th being the decoding of the k-th read |
| DataTransfer.Received | app/src/main/java/xyz/teamgravity/bluetoothchat/data/controller/AndroidBluetoothController.kt:252-265 | nothing when the socket is not connected, else one message per read |
| DataTransfer.Read | app/src/main/java/xyz/teamgravity/bluetoothchat/data/controller/AndroidBluetoothController.kt:257 | a read puts its bytes at the front of the buffer, returns their count, and keeps the rest of the buffer |
| DataTransfer.ReadMessage | app/src/main/java/xyz/teamgravity/bluetoothchat/data/controller/AndroidBluetoothController.kt:257-261 | one pass of the loop refills the buffer and yields exactly that read's message |
| DataTransfer.DecodedFromBuffer | app/src/main/java/xyz/teamgravity/bluetoothchat/data/controller/AndroidBluetoothController.kt:255-261 | stale bytes left by earlier reads in the reused buffer do not affect the decoded message |
| DataTransfer.DecodeAllPointwise | app/src/main/java/xyz/teamgravity/bluetoothchat/data/controller/AndroidBluetoothController.kt:256-263 | a sequence holding each read's message at that read's index is the message sequence |
| DataTransfer.GetMessages | app/src/main/java/xyz/teamgravity/bluetoothchat/data/controller/AndroidBluetoothController.kt:252-265 | the buffer loop emits exactly `Received(input)` and ends in an IOException exactly when the socket was connected and a read failed |
| DataTransfer.SendMessage | app/src/main/java/xyz/teamgravity/bluetoothchat/data/controller/AndroidBluetoothController.kt:240-250 | writes the message's frame to its socket, and returns true iff the write succeeded |
| DataTransfer.DecodeAllAppend | app/src/main/java/xyz/teamgravity/bluetoothchat/data/controller/AndroidBluetoothController.kt:256-263 | messages keep read order: two runs of reads give their messages concatenated |
| DataTransfer.ReceivedFrame | app/src/main/java/xyz/teamgravity/bluetoothchat/data/controller/AndroidBluetoothController.kt:240-263 | a read holding one whole written frame decodes to the sent message as remote, when its sender has no `#` |
| DataTransfer.ReceivedFrames | app/src/main/java/xyz/teamgravity/bluetoothchat/data/controller/AndroidBluetoothController.kt:240-263 | when every read is one whole frame, the received messages are the sent ones, in order, marked remote |
| Controller.CloseCalls | app/src/main/java/xyz/teamgravity/bluetoothchat/data/controller/AndroidBluetoothController.kt:190-195 | `close()` closes exactly the present listening and duplex sockets |
| Controller.Closed | app/src/main/java/xyz/teamgravity/bluetoothchat/data/controller/AndroidBluetoothController.kt:190-195 | after `close()` both socket fields are null and the service is kept, so a later `sendMessage` still finds it |
| Controller.Complete | app/src/main/java/xyz/teamgravity/bluetoothchat/data/controller/AndroidBluetoothController.kt:152-154 | the completion handler keeps the results and the raise, appends exactly the calls of `close()`, and leaves both socket fields null with the service kept |
| Controller.AsTransferred | app/src/main/java/xyz/teamgravity/bluetoothchat/data/controller/AndroidBluetoothController.kt:146-150 | one `Transferred` per message, in order |
| Controller.ToDevices | app/src/main/java/xyz/teamgravity/bluetoothchat/data/controller/AndroidBluetoothController.kt:79-81 | the bonded devices mapped one for one, in order, to device models |
| Controller.PairedAfterUpdate | app/src/main/java/xyz/teamgravity/bluetoothchat/data/controller/AndroidBluetoothController.kt:77-83 | unchanged without the permission, adapter or bonded set; otherwise exactly the bonded devices mapped in order |
| Controller.BluetoothEnabled | app/src/main/java/xyz/teamgravity/bluetoothchat/data/controller/AndroidBluetoothController.kt:109-111 | true iff there is an adapter and it is enabled |
| Controller.SentModel | app/src/main/java/xyz/teamgravity/bluetoothchat/data/controller/AndroidBluetoothController.kt:206-210 | the body is the input, the message is local, and the sender is the adapter's name or "Unknown name" |
| Controller.AndroidBluetoothController.constructor | app/src/main/java/xyz/teamgravity/bluetoothchat/data/controller/AndroidBluetoothController.kt:52-75 | empty initial state with no sockets, then the `init` block's paired-device update |
| Controller.AndroidBluetoothController.UpdatePairedDevices | app/src/main/java/xyz/teamgravity/bluetoothchat/data/controller/AndroidBluetoothController.kt:77-83 | only `pairedDevices` changes, as `PairedAfterUpdate` says |
| Controller.AndroidBluetoothController.StartDiscovery | app/src/main/java/xyz/teamgravity/bluetoothchat/data/controller/AndroidBluetoothController.kt:113-120 | nothing without scan permission; otherwise the paired-device update and, with an adapter, a start-discovery call |
| Controller.AndroidBluetoothController.StopDiscovery | app/src/main/java/xyz/teamgravity/bluetoothchat/data/controller/AndroidBluetoothController.kt:122-125 | a cancel-discovery call exactly when scanning is allowed and there is an adapter; nothing else changes |
| Controller.AndroidBluetoothController.Close | app/src/main/java/xyz/teamgravity/bluetoothchat/data/controller/AndroidBluetoothController.kt:190-195 | closes the present sockets and nulls both fields; the service and the observable state stay |
| Controller.AndroidBluetoothController.Release | app/src/main/java/xyz/teamgravity/bluetoothchat/data/controller/AndroidBluetoothController.kt:197-201 | the effect of `close()` |
| Controller.AndroidBluetoothController.StartServer | app/src/main/java/xyz/teamgravity/bluetoothchat/data/controller/AndroidBluetoothController.kt:127-155 | the results, raise, calls and final handle fields are those of `ServerFlow`; the observable state is untouched |
| Controller.AndroidBluetoothController.RunServerBlock | app/src/main/java/xyz/teamgravity/bluetoothchat/data/controller/AndroidBluetoothController.kt:128-151 | the flow block's results, raise, calls and handle fields before completion are those of `ServerBlock` |
| Controller.AndroidBluetoothController.AcceptAndServe | app/src/main/java/xyz/teamgravity/bluetoothchat/data/controller/AndroidBluetoothController.kt:136-151 | a failed accept emits nothing and only adds the accept call; an accepted peer gets Established and its messages in read order, the listener is closed, and the service wraps the accepted socket |
| Controller.AndroidBluetoothController.Connect | app/src/main/java/xyz/teamgravity/bluetoothchat/data/controller/AndroidBluetoothController.kt:157-188 | the results, raise, calls and final handle fields are those of `ConnectFlow`; the observable state is untouched |
| Controller.AndroidBluetoothController.RunClientBlock | app/src/main/java/xyz/teamgravity/bluetoothchat/data/controller/AndroidBluetoothController.kt:158-184 | the flow block's results, raise, calls and handle fields before completion are those of `ClientBlock` |
| Controller.AndroidBluetoothController.Dial | app/src/main/java/xyz/teamgravity/bluetoothchat/data/controller/AndroidBluetoothController.kt:170-184 | the `try` block: a connect call, then `DialResults`, with the service set only when the connect succeeded |
| Controller.AndroidBluetoothController.SendMessage | app/src/main/java/xyz/teamgravity/bluetoothchat/data/controller/AndroidBluetoothController.kt:203-213 | null with no write when the permission or the service is missing; otherwise one write of the built message's frame, returning the model iff the write succeeded |
| Controller.AndroidBluetoothController.OnDeviceFound | app/src/main/java/xyz/teamgravity/bluetoothchat/data/controller/AndroidBluetoothController.kt:215-220 | only `scannedDevices` changes: the device model is appended unless already listed |
| Controller.AndroidBluetoothController.OnLinkChanged | app/src/main/java/xyz/teamgravity/bluetoothchat/data/controller/AndroidBluetoothController.kt:222-230 | a bonded device sets `connected` to the event's flag; any other device leaves it and emits exactly one "Can't connect to a non-paired device." |
| Controller.AndroidBluetoothController.ReceiveFoundIntent | app/src/main/java/xyz/teamgravity/bluetoothchat/data/controller/AndroidBluetoothController.kt:215-220 | a found broadcast updates `scannedDevices` with the device it carries, and any other broadcast changes nothing |
| Controller.AndroidBluetoothController.ReceiveStateIntent | app/src/main/java/xyz/teamgravity/bluetoothchat/data/controller/AndroidBluetoothController.kt:222-230 | an ACL broadcast with a device applies the link policy, and any other broadcast changes nothing |
| ControllerProperties.CloseIdempotent | app/src/main/java/xyz/teamgravity/bluetoothchat/data/controller/AndroidBluetoothController.kt:190-195 | closing twice is closing once, and the second close makes no call |
| ControllerProperties.AsTransferredAppend | app/src/main/java/xyz/teamgravity/bluetoothchat/data/controller/AndroidBluetoothController.kt:146-150 | mapping to `Transferred` keeps order across concatenation |
| ControllerProperties.ServerPermissionDenied | app/src/main/java/xyz/teamgravity/bluetoothchat/data/controller/AndroidBluetoothController.kt:129-132 | without permission startServer emits exactly `[Error("No BLUETOOTH_CONNECT permission")]`, does not raise, and only closes |
| ControllerProperties.ServerAcceptFails | app/src/main/java/xyz/teamgravity/bluetoothchat/data/controller/AndroidBluetoothController.kt:134-141 | a failed accept emits nothing and does not raise; the listen and accept calls come first, and the listening socket gets closed |
| ControllerProperties.ServerAccepted | app/src/main/java/xyz/teamgravity/bluetoothchat/data/controller/AndroidBluetoothController.kt:134-154 | after an accept: Established, then one Transferred per read in read order; raises iff a read failed; listen, accept, close of the listener, then the completion closes; the service is kept |
| ControllerProperties.ServerNoErrorAfterPermission | app/src/main/java/xyz/teamgravity/bluetoothchat/data/controller/AndroidBluetoothController.kt:134-151 | once permitted, startServer never emits an Error |
| ControllerProperties.ServerEstablishedFirst | app/src/main/java/xyz/teamgravity/bluetoothchat/data/controller/AndroidBluetoothController.kt:142-151 | Established occurs only first, and comes before every Transferred |
| ControllerProperties.ServerRaisedIff | app/src/main/java/xyz/teamgravity/bluetoothchat/data/controller/AndroidBluetoothController.kt:134-151 | startServer raises iff it is permitted, has an adapter, and either listening fails or a read after an accept fails |
| ControllerProperties.ServerReleasesSockets | app/src/main/java/xyz/teamgravity/bluetoothchat/data/controller/AndroidBluetoothController.kt:143-154 | both fields are null afterwards, and every socket the flow opened was closed |
| ControllerProperties.ConnectPermissionDenied | app/src/main/java/xyz/teamgravity/bluetoothchat/data/controller/AndroidBluetoothController.kt:159-162 | without permission connect emits exactly the permission Error, does not raise, and only closes |
| ControllerProperties.ConnectStopsDiscoveryFirst | app/src/main/java/xyz/teamgravity/bluetoothchat/data/controller/AndroidBluetoothController.kt:164-171 | the socket is created, discovery is cancelled (when scanning is allowed), then it connects; no cancel afterwards |
| ControllerProperties.ConnectFails | app/src/main/java/xyz/teamgravity/bluetoothchat/data/controller/AndroidBluetoothController.kt:170-184 | a failed connect emits exactly `[Error("Connection was interrupted")]` |
| ControllerProperties.ConnectStreams | app/src/main/java/xyz/teamgravity/bluetoothchat/data/controller/AndroidBluetoothController.kt:170-184 | after connecting: Established, one Transferred per read in read order, then exactly one interruption Error iff a read failed |
| ControllerProperties.ConnectResultOrder | app/src/main/java/xyz/teamgravity/bluetoothchat/data/controller/AndroidBluetoothController.kt:157-188 | an Error can only be the last result; Established occurs only first, and comes before every Transferred |
| ControllerProperties.DialOrder | app/src/main/java/xyz/teamgravity/bluetoothchat/data/controller/AndroidBluetoothController.kt:170-184 | in what the `try` block emits, an Error is only last and is the interruption error, Established is only first, and a successful connect starts with Established |
| ControllerProperties.StreamShape | app/src/main/java/xyz/teamgravity/bluetoothchat/data/controller/AndroidBluetoothController.kt:170-184 | Established, then only Transferred results, then at most one Error: the Error can only be last and Established only first |
| ControllerProperties.ConnectErrorReasons | app/src/main/java/xyz/teamgravity/bluetoothchat/data/controller/AndroidBluetoothController.kt:159-184 | every Error is the permission error when permission was denied, and the interruption error otherwise |
| ControllerProperties.ConnectRaisedIff | app/src/main/java/xyz/teamgravity/bluetoothchat/data/controller/AndroidBluetoothController.kt:164-184 | connect raises iff it is permitted, has an adapter, and cannot create the socket |
| ControllerProperties.ConnectReleasesSocket | app/src/main/java/xyz/teamgravity/bluetoothchat/data/controller/AndroidBluetoothController.kt:185-195 | both fields are null afterwards, and the created socket is closed as the last call |
| ControllerProperties.NoAdapterStillEstablished | app/src/main/java/xyz/teamgravity/bluetoothchat/data/controller/AndroidBluetoothController.kt:134-172 | with no adapter both permitted flows emit exactly `[Established]` |
| ControllerProperties.ScannedMembers | app/src/main/java/xyz/teamgravity/bluetoothchat/data/controller/AndroidBluetoothController.kt:216-219 | after the update the list holds exactly the old devices and the found one |
| ControllerProperties.ScannedKeepsOrder | app/src/main/java/xyz/teamgravity/bluetoothchat/data/controller/AndroidBluetoothController.kt:216-219 | a listed device changes nothing; a new one is appended at the end; the earlier order is kept |
| ControllerProperties.ScannedNoDuplicates | app/src/main/java/xyz/teamgravity/bluetoothchat/data/controller/AndroidBluetoothController.kt:216-219 | a duplicate-free list stays duplicate-free |
| ControllerProperties.ScannedIdempotent | app/src/main/java/xyz/teamgravity/bluetoothchat/data/controller/AndroidBluetoothController.kt:216-219 | finding the same device twice lists it once |
| ChatScreen.TransferredMessages | app/src/main/java/xyz/teamgravity/bluetoothchat/presentation/screen/chat/ChatViewModel.kt:54-56 | no more messages are appended than there are results |
| ChatScreen.TransferredMembers | app/src/main/java/xyz/teamgravity/bluetoothchat/presentation/screen/chat/ChatViewModel.kt:54-56 | the appended messages are exactly the payloads of the Transferred results |
| ChatScreen.ErrorEvents | app/src/main/java/xyz/teamgravity/bluetoothchat/presentation/screen/chat/ChatViewModel.kt:58-62 | the queued events come in pairs, and no Error means no event |
| ChatScreen.ErrorEventsShown | app/src/main/java/xyz/teamgravity/bluetoothchat/presentation/screen/chat/ChatViewModel.kt:58-62 | every queued event is Finish or ShowError of an emitted Error's text |
| ChatScreen.CollectStep | app/src/main/java/xyz/teamgravity/bluetoothchat/presentation/screen/chat/ChatViewModel.kt:48-63 | one more result extends the messages, the events and the settling by exactly that result's share |
| ChatScreen.TransferredAppend | app/src/main/java/xyz/teamgravity/bluetoothchat/presentation/screen/chat/ChatViewModel.kt:48-56 | the appended messages of two runs of results are concatenated, in order |
| ChatScreen.ErrorEventsAppend | app/src/main/java/xyz/teamgravity/bluetoothchat/presentation/screen/chat/ChatViewModel.kt:48-62 | the events of two runs of results are concatenated, in order |
| ChatScreen.TransferredOfAsTransferred | app/src/main/java/xyz/teamgravity/bluetoothchat/presentation/screen/chat/ChatViewModel.kt:54-56 | collecting `Transferred(m)` for each message appends exactly those messages and no event |
| ChatScreen.OneResult | app/src/main/java/xyz/teamgravity/bluetoothchat/presentation/screen/chat/ChatViewModel.kt:49-63 | one result appends its payload if Transferred, and queues ShowError then Finish if Error |
| ChatScreen.EstablishedThen | app/src/main/java/xyz/teamgravity/bluetoothchat/presentation/screen/chat/ChatViewModel.kt:49-56 | Established followed by Transferred results appends exactly their messages and no event |
| ChatScreen.ServerChat | app/src/main/java/xyz/teamgravity/bluetoothchat/presentation/screen/chat/ChatViewModel.kt:45-66 | a server session with an accepted peer settles the screen, shows every read's message in read order, and queues no event |
| ChatScreen.ConnectChat | app/src/main/java/xyz/teamgravity/bluetoothchat/presentation/screen/chat/ChatViewModel.kt:45-66 | a connected client session settles the screen and shows every read's message in order; a failed read then queues ShowError("Connection was interrupted") and Finish |
| ChatScreen.PermissionDeniedChat | app/src/main/java/xyz/teamgravity/bluetoothchat/presentation/screen/chat/ChatViewModel.kt:45-66 | without permission either flow settles the screen, shows no message, and queues exactly ShowError(permission text) and Finish |
| ChatScreen.ConnectFailsChat | app/src/main/java/xyz/teamgravity/bluetoothchat/presentation/screen/chat/ChatViewModel.kt:45-66 | a failed connect settles the screen and queues exactly ShowError("Connection was interrupted") and Finish |
| ChatScreen.AcceptFailedStaysConnecting | app/src/main/java/xyz/teamgravity/bluetoothchat/presentation/screen/chat/ChatViewModel.kt:45-66 | after a failed accept the screen keeps `connecting`, shows nothing and gets no event |
| ChatScreen.ChatViewModel.constructor | app/src/main/java/xyz/teamgravity/bluetoothchat/presentation/screen/chat/ChatViewModel.kt:33-39 | starts connecting, with an empty draft, no messages and no event |
| ChatScreen.ChatViewModel.OnResult | app/src/main/java/xyz/teamgravity/bluetoothchat/presentation/screen/chat/ChatViewModel.kt:49-63 | Established clears `connecting`; Transferred appends its message and changes nothing else; Error clears `connecting` and queues ShowError then Finish |
| ChatScreen.ChatViewModel.Collect | app/src/main/java/xyz/teamgravity/bluetoothchat/presentation/screen/chat/ChatViewModel.kt:48-64 | reducing a result sequence appends `TransferredMessages`, queues `ErrorEvents`, and clears `connecting` iff some result is not a Transferred |
| ChatScreen.ChatViewModel.GetMessages | app/src/main/java/xyz/teamgravity/bluetoothchat/presentation/screen/chat/ChatViewModel.kt:45-66 | collects `startServer()` when there is no device and `connect(device)` otherwise; the screen and controller states are those of that flow |
| ChatScreen.ChatViewModel.OnMessageChange | app/src/main/java/xyz/teamgravity/bluetoothchat/presentation/screen/chat/ChatViewModel.kt:72-74 | sets the draft, and nothing else |
| ChatScreen.ChatViewModel.OnDisconnect | app/src/main/java/xyz/teamgravity/bluetoothchat/presentation/screen/chat/ChatViewModel.kt:76-80 | the controller's `close()` |
| ChatScreen.ChatViewModel.OnSendMessage | app/src/main/java/xyz/teamgravity/bluetoothchat/presentation/screen/chat/ChatViewModel.kt:82-90 | a returned model clears the draft and is appended; a null result leaves the draft and the messages; the controller writes the draft's frame iff permitted and a service exists |

## Left out

- UTF-8 malformed input: `decodeToString`'s handling of malformed or truncated bytes belongs to the Kotlin library. The model's decoder maps each byte that does not start a well-formed sequence to U+FFFD. This policy is the model's own, and no property depends on it except totality. Because a Dafny `string` holds only Unicode scalar values, the encoder never sees a lone surrogate.
- ChatScreen.TransferredMessages, ChatScreen.ErrorEvents: their own contracts state only sizes; what they contain is stated by `ChatScreen.TransferredMembers`, `ChatScreen.ErrorEventsShown` and the append lemmas.
- Utf8.Encode: its ensures states only a length bound; the byte layout is stated by `Utf8.EncodeChar`, `Utf8.EncodeAppend` and `MessageMapper.ToByteArrayLayout`.
- MessageMapper.ToByteArray: it has no contract of its own; its layout is `MessageMapper.ToByteArrayLayout`.
- End of stream: the read loop (`AndroidBluetoothController.kt:256-263`) has no exit except an exception. A script is a finite list of reads, then either an IOException or a stop of collection (cancellation). A read returning -1, which makes `decodeToString` throw an index exception, is not modelled.
- Concurrency: coroutine scopes, `flowOn`/`Dispatchers.IO`, `collectLatest` cancellation, the suspension of `Channel.send` and StateFlow/SharedFlow broadcast semantics are not modelled. Emitted values are sequences, and each launched coroutine runs to completion at the point it is launched. `ChatViewModel`'s `init { getMessages() }` collection is not started by `ChatScreen.ChatViewModel.constructor`; it is the `ChatScreen.ChatViewModel.GetMessages` call a caller makes right after the constructor.
- Controller.AndroidBluetoothController.Close: socket closes are assumed to succeed. In the code, `serverSocket?.close()` and `clientSocket?.close()` (`AndroidBluetoothController.kt:190-195`) can throw IOException; a throw at the first skips `serverSocket = null` and the client's close and propagates out of `onCompletion`, and a throw at the listener close inside `startServer` (`AndroidBluetoothController.kt:144`) would make the flow raise right after `Established` with no service set. `Controller.Complete`, `Controller.CloseCalls` and `Controller.AndroidBluetoothController.AcceptAndServe` share this assumption.
- Exceptions inside the listen/create calls: `getRemoteDevice` rejecting a malformed address, and a SecurityException, are both the single `OpenFailed` outcome.
- Receiver registration and unregistration (`AndroidBluetoothController.kt:85-103`) and the Android intent plumbing (`IntentExtension.kt`) are left out; a broadcast is an `Intent` value. So `release()` (`AndroidBluetoothController.kt:197-201`) does not model that `unregisterReceiver(foundReceiver)` throws IllegalArgumentException when `startDiscovery` never registered that receiver, which in the code skips the `close()` after it; `Controller.AndroidBluetoothController.Release` always reaches `close()`.
- Timber logging is not modelled.
- Device identity: bonded-set membership compares platform devices by address.
- Compose screens, navigation, `MainActivity`, `keyboardAsState.kt`, `DeviceListViewModel`, `PermissionViewModel` and the dependency-injection modules are UI or wiring. `MessageModel.kt` is not part of this model beyond its three fields.
