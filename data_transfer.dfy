/**
 * `AndroidBluetoothController.BluetoothDataTransferService`: writes encoded
 * messages to a connected socket and turns each read of its input stream
 * into one decoded message. The stream is a script: the chunks that
 * successive reads deliver, and whether the read after the last of them
 * throws an IOException (otherwise the collector stops collecting there).
 */
module DataTransfer {
  import opened Basics
  import opened Domain
  import opened Platform
  import MessageMapper

  /** The size of the reused read buffer, `ByteArray(1024)`. */
  const BufferSize: nat := 1024

  /** What one `InputStream.read(buffer)` delivers: never more than the buffer holds. */
  type Chunk = s: seq<Byte> | |s| <= BufferSize

  datatype TransferService = TransferService(socket: Handle)

  /**
   * The input side of a socket: `isConnected` when reading starts, the chunks
   * of the successful reads, and whether the next read throws an IOException.
   */
  datatype ReadScript = ReadScript(connected: bool, chunks: seq<Chunk>, fails: bool)

  /** One read's message: its `count` bytes decoded with `local = false`. */
  function Decoded(c: Chunk): (r: MessageModel)
    ensures !r.local
  {
    MessageMapper.ToMessage(c, |c|, false)
  }

  /** The message of every chunk, in read order. */
  function DecodeAll(chunks: seq<Chunk>): (r: seq<MessageModel>)
    ensures |r| == |chunks|
    ensures forall k :: 0 <= k < |chunks| ==> r[k] == Decoded(chunks[k])
  {
    if |chunks| == 0 then [] else [Decoded(chunks[0])] + DecodeAll(chunks[1..])
  }

  /** What `getMessages()` emits: nothing if the socket is not connected, else one message per read. */
  function Received(input: ReadScript): (r: seq<MessageModel>)
    ensures input.connected ==> r == DecodeAll(input.chunks)
    ensures !input.connected ==> r == []
  {
    if input.connected then DecodeAll(input.chunks) else []
  }

  /** Whether `getMessages()` ends by throwing an IOException out of its collector. */
  predicate ReadFails(input: ReadScript) { input.connected && input.fails }

  /**
   * `socket.inputStream.read(buffer)`: the next chunk lands at the front of
   * the buffer and the bytes after it keep what earlier reads left there.
   */
  method Read(buffer: array<Byte>, chunk: Chunk) returns (count: int)
    requires buffer.Length == BufferSize
    modifies buffer
    ensures count == |chunk|
    ensures buffer[..count] == chunk
    ensures buffer[count..] == old(buffer[count..])
  {
    count := |chunk|;
    for j := 0 to count
      invariant buffer[..j] == chunk[..j]
      invariant buffer[count..] == old(buffer[count..])
    {
      buffer[j] := chunk[j];
    }
  }

  /** Decoding a refilled buffer up to the read's count gives that chunk's message. */
  lemma DecodedFromBuffer(buffer: seq<Byte>, chunk: Chunk)
    requires |chunk| <= |buffer| && buffer[..|chunk|] == chunk
    ensures MessageMapper.ToMessage(buffer, |chunk|, false) == Decoded(chunk)
  {
    assert chunk[..|chunk|] == chunk;
    MessageMapper.ToMessageReadsOnlyPrefix(buffer, chunk, |chunk|, false);
  }

  /** `DecodeAll` is the only sequence with the message of every chunk at its index. */
  lemma DecodeAllPointwise(chunks: seq<Chunk>, ms: seq<MessageModel>)
    requires |ms| == |chunks|
    requires forall k :: 0 <= k < |chunks| ==> ms[k] == Decoded(chunks[k])
    ensures ms == DecodeAll(chunks)
  {
  }

  /** One pass of the read loop: refill the buffer, then decode it up to the read's count. */
  method ReadMessage(buffer: array<Byte>, chunk: Chunk) returns (message: MessageModel)
    requires buffer.Length == BufferSize
    modifies buffer
    ensures message == Decoded(chunk)
  {
    var count := Read(buffer, chunk);
    message := MessageMapper.ToMessage(buffer[..], count, false);
    DecodedFromBuffer(buffer[..], chunk);
  }

  /**
   * `getMessages()` run to the end of the script: one reused 1024-byte
   * buffer, refilled by every read and decoded up to that read's count.
   * `failed` tells whether the loop ended in an IOException.
   */
  method GetMessages(service: TransferService, input: ReadScript) returns (messages: seq<MessageModel>, failed: bool)
    ensures messages == Received(input)
    ensures failed == ReadFails(input)
  {
    if !input.connected {
      return [], false;
    }
    var buffer := new Byte[BufferSize](_ => 0);
    messages := [];
    var i := 0;
    while i < |input.chunks|
      invariant 0 <= i <= |input.chunks|
      invariant |messages| == i
      invariant forall k :: 0 <= k < i ==> messages[k] == Decoded(input.chunks[k])
    {
      var message := ReadMessage(buffer, input.chunks[i]);
      messages := messages + [message];
      i := i + 1;
    }
    DecodeAllPointwise(input.chunks, messages);
    failed := input.fails;
  }

  /**
   * `sendMessage(message)`: writes the encoded frame to the socket; an
   * IOException (`writeSucceeds` false) is caught and reported as false.
   * `call` is the write the socket receives.
   */
  method SendMessage(service: TransferService, message: MessageModel, writeSucceeds: bool)
    returns (ok: bool, call: PlatformCall)
    ensures call == Write(service.socket, MessageMapper.ToByteArray(message))
    ensures ok == writeSucceeds
  {
    call := Write(service.socket, MessageMapper.ToByteArray(message));
    ok := writeSucceeds;
  }

  /** Read order is kept: the messages of two runs of reads are those of their concatenation. */
  lemma {:induction false} DecodeAllAppend(a: seq<Chunk>, b: seq<Chunk>)
    ensures DecodeAll(a + b) == DecodeAll(a) + DecodeAll(b)
  {
    if |a| == 0 {
      assert a + b == b;
    } else {
      assert (a + b)[1..] == a[1..] + b;
      DecodeAllAppend(a[1..], b);
    }
  }

  /** A chunk that is a whole encoded message decodes to that message when its sender has no `#`. */
  lemma ReceivedFrame(m: MessageModel)
    requires MessageMapper.Delimiter !in m.sender
    requires |MessageMapper.ToByteArray(m)| <= BufferSize
    ensures Decoded(MessageMapper.ToByteArray(m)) == MessageModel(m.message, m.sender, false)
  {
    MessageMapper.RoundTrip(m, false);
  }

  /**
   * End to end: when every read delivers one whole frame written by
   * `sendMessage` and no sender has a `#`, the messages received are the
   * ones sent, in order, with `local = false`.
   */
  lemma ReceivedFrames(ms: seq<MessageModel>, input: ReadScript)
    requires input.connected && |input.chunks| == |ms|
    requires forall k :: 0 <= k < |ms| ==>
      MessageMapper.Delimiter !in ms[k].sender && input.chunks[k] == MessageMapper.ToByteArray(ms[k])
    ensures |Received(input)| == |ms|
    ensures forall k :: 0 <= k < |ms| ==> Received(input)[k] == MessageModel(ms[k].message, ms[k].sender, false)
  {
    forall k | 0 <= k < |ms|
      ensures Received(input)[k] == MessageModel(ms[k].message, ms[k].sender, false)
    {
      ReceivedFrame(ms[k]);
    }
  }
}
