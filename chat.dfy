/**
 * `ChatViewModel`: the chat screen's state holder. It collects the
 * connection flow of the controller (`startServer()` when the screen was
 * opened without a device, `connect(device)` otherwise), keeps the draft
 * message and the message list, and queues one-shot events for the screen.
 */
module ChatScreen {
  import opened Basics
  import opened Domain
  import opened Platform
  import opened DataTransfer
  import opened Controller
  import ControllerProperties
  import MessageMapper

  /** `ChatViewModel.ChatEvent`. */
  datatype ChatEvent = ShowError(message: string) | Finish

  /** The messages a collection appends: the payload of every Transferred, in order. */
  function TransferredMessages(rs: seq<ConnectionResult>): (r: seq<MessageModel>)
    ensures |r| <= |rs|
  {
    if |rs| == 0 then []
    else
      var last := rs[|rs| - 1];
      var init := rs[..|rs| - 1];
      assert rs == init + [last];
      TransferredMessages(init) + (if last.Transferred? then [last.message] else [])
  }

  /** The events a collection queues: ShowError then Finish for every Error, in order. */
  function ErrorEvents(rs: seq<ConnectionResult>): (r: seq<ChatEvent>)
    ensures |r| % 2 == 0
    ensures (forall x :: x in rs ==> !x.Error?) ==> r == []
  {
    if |rs| == 0 then []
    else
      var last := rs[|rs| - 1];
      var init := rs[..|rs| - 1];
      assert rs == init + [last];
      ErrorEvents(init) + (if last.Error? then [ShowError(last.reason), Finish] else [])
  }

  /** The screen shows exactly the messages that arrived as Transferred. */
  lemma {:induction false} TransferredMembers(rs: seq<ConnectionResult>)
    ensures forall m :: m in TransferredMessages(rs) <==> Transferred(m) in rs
    decreases |rs|
  {
    if |rs| > 0 {
      var init := rs[..|rs| - 1];
      assert rs == init + [rs[|rs| - 1]];
      TransferredMembers(init);
    }
  }

  /** Every queued event is Finish or shows the text of an emitted Error. */
  lemma {:induction false} ErrorEventsShown(rs: seq<ConnectionResult>)
    ensures forall e :: e in ErrorEvents(rs) ==> e == Finish || (e.ShowError? && Error(e.message) in rs)
    decreases |rs|
  {
    if |rs| > 0 {
      var init := rs[..|rs| - 1];
      assert rs == init + [rs[|rs| - 1]];
      ErrorEventsShown(init);
    }
  }

  /** Whether a collection clears `connecting`: some result is Established or an Error. */
  predicate Settles(rs: seq<ConnectionResult>) {
    exists x :: x in rs && !x.Transferred?
  }

  lemma {:induction false} TransferredAppend(a: seq<ConnectionResult>, b: seq<ConnectionResult>)
    ensures TransferredMessages(a + b) == TransferredMessages(a) + TransferredMessages(b)
    decreases |b|
  {
    if |b| == 0 {
      assert a + b == a;
    } else {
      var b' := b[..|b| - 1];
      assert (a + b)[..|a + b| - 1] == a + b';
      assert (a + b)[|a + b| - 1] == b[|b| - 1];
      TransferredAppend(a, b');
    }
  }

  lemma {:induction false} ErrorEventsAppend(a: seq<ConnectionResult>, b: seq<ConnectionResult>)
    ensures ErrorEvents(a + b) == ErrorEvents(a) + ErrorEvents(b)
    decreases |b|
  {
    if |b| == 0 {
      assert a + b == a;
    } else {
      var b' := b[..|b| - 1];
      assert (a + b)[..|a + b| - 1] == a + b';
      assert (a + b)[|a + b| - 1] == b[|b| - 1];
      ErrorEventsAppend(a, b');
    }
  }

  /** Collecting `Transferred(m)` for each of `ms` appends exactly `ms`. */
  lemma {:induction false} TransferredOfAsTransferred(ms: seq<MessageModel>)
    ensures TransferredMessages(AsTransferred(ms)) == ms
    ensures ErrorEvents(AsTransferred(ms)) == []
    decreases |ms|
  {
    if |ms| > 0 {
      var init := ms[..|ms| - 1];
      assert ms == init + [ms[|ms| - 1]];
      ControllerProperties.AsTransferredAppend(init, [ms[|ms| - 1]]);
      TransferredOfAsTransferred(init);
      TransferredAppend(AsTransferred(init), AsTransferred([ms[|ms| - 1]]));
      ErrorEventsAppend(AsTransferred(init), AsTransferred([ms[|ms| - 1]]));
    }
  }

  /** What the reducer does with a single result. */
  lemma OneResult(x: ConnectionResult)
    ensures TransferredMessages([x]) == if x.Transferred? then [x.message] else []
    ensures ErrorEvents([x]) == if x.Error? then [ShowError(x.reason), Finish] else []
  {
    assert [x][..0] == [];
  }

  /** Established then a run of Transferred: the screen gets the run's messages and no event. */
  lemma EstablishedThen(ms: seq<MessageModel>)
    ensures TransferredMessages([Established] + AsTransferred(ms)) == ms
    ensures ErrorEvents([Established] + AsTransferred(ms)) == []
  {
    OneResult(Established);
    TransferredOfAsTransferred(ms);
    TransferredAppend([Established], AsTransferred(ms));
    ErrorEventsAppend([Established], AsTransferred(ms));
  }

  /**
   * A server session with an accepted peer: the screen settles, shows every
   * read's message in read order, and queues no event.
   */
  lemma ServerChat(l: Handle, c: Handle, input: ReadScript, before: Session)
    ensures var rs := ServerFlow(true, true, ServerScript(Opened(l), Accepted(c), input), before).results;
      TransferredMessages(rs) == Received(input) && ErrorEvents(rs) == [] && Settles(rs)
  {
    var rs := [Established] + AsTransferred(Received(input));
    assert ServerFlow(true, true, ServerScript(Opened(l), Accepted(c), input), before).results == rs;
    EstablishedThen(Received(input));
    assert rs[0] in rs;
  }

  /**
   * A connected client session: the screen settles and shows every read's
   * message in read order; a failed read then queues ShowError and Finish.
   */
  lemma ConnectChat(canScan: bool, address: string, c: Handle, input: ReadScript, before: Session)
    ensures var rs := ConnectFlow(true, canScan, true, address, ConnectScript(Opened(c), true, input), before).results;
      && TransferredMessages(rs) == Received(input)
      && ErrorEvents(rs) == (if ReadFails(input) then [ShowError(Interrupted), Finish] else [])
      && Settles(rs)
  {
    var head := [Established] + AsTransferred(Received(input));
    var tail: seq<ConnectionResult> := if ReadFails(input) then [Error(Interrupted)] else [];
    var rs := head + tail;
    var script := ConnectScript(Opened(c), true, input);
    assert DialResults(script) == rs;
    assert ConnectFlow(true, canScan, true, address, script, before).results == rs;
    EstablishedThen(Received(input));
    TransferredAppend(head, tail);
    ErrorEventsAppend(head, tail);
    if ReadFails(input) {
      OneResult(Error(Interrupted));
    } else {
      assert tail == [];
    }
    assert rs[0] in rs;
  }

  /** Without BLUETOOTH_CONNECT either flow makes the screen show the error and finish. */
  lemma PermissionDeniedChat(hasAdapter: bool, canScan: bool, address: string,
                             server: ServerScript, client: ConnectScript, before: Session)
    ensures var rs := ServerFlow(false, hasAdapter, server, before).results;
      TransferredMessages(rs) == [] && ErrorEvents(rs) == [ShowError(NoPermission), Finish] && Settles(rs)
    ensures var rs := ConnectFlow(false, canScan, hasAdapter, address, client, before).results;
      TransferredMessages(rs) == [] && ErrorEvents(rs) == [ShowError(NoPermission), Finish] && Settles(rs)
  {
    var rs: seq<ConnectionResult> := [Error(NoPermission)];
    assert rs[..0] == [];
    assert rs[0] in rs;
  }

  /** A failed `connect()` makes the screen show the interruption and finish. */
  lemma ConnectFailsChat(canScan: bool, address: string, c: Handle, input: ReadScript, before: Session)
    ensures var rs := ConnectFlow(true, canScan, true, address, ConnectScript(Opened(c), false, input), before).results;
      TransferredMessages(rs) == [] && ErrorEvents(rs) == [ShowError(Interrupted), Finish] && Settles(rs)
  {
    var rs: seq<ConnectionResult> := [Error(Interrupted)];
    assert rs[..0] == [];
    assert rs[0] in rs;
  }

  /** When `accept()` fails the flow ends silently, so the screen stays `connecting` with no event. */
  lemma AcceptFailedStaysConnecting(l: Handle, input: ReadScript, before: Session)
    ensures var rs := ServerFlow(true, true, ServerScript(Opened(l), AcceptFailed, input), before).results;
      TransferredMessages(rs) == [] && ErrorEvents(rs) == [] && !Settles(rs)
  {
  }

  /** Collecting one more result extends the messages, the events and the settling by that result's share. */
  lemma CollectStep(rs: seq<ConnectionResult>, i: nat)
    requires i < |rs|
    ensures TransferredMessages(rs[..i + 1])
      == TransferredMessages(rs[..i]) + (if rs[i].Transferred? then [rs[i].message] else [])
    ensures ErrorEvents(rs[..i + 1])
      == ErrorEvents(rs[..i]) + (if rs[i].Error? then [ShowError(rs[i].reason), Finish] else [])
    ensures Settles(rs[..i + 1]) <==> Settles(rs[..i]) || !rs[i].Transferred?
  {
    assert rs[..i + 1][..i] == rs[..i];
    assert rs[..i + 1] == rs[..i] + [rs[i]];
  }

  class ChatViewModel {
    /** `args.device`: the device to dial, or none to act as the server. */
    const device: Option<DeviceModel>
    const controller: AndroidBluetoothController

    var connecting: bool
    var message: string
    var messages: seq<MessageModel>
    /** Every event sent on `_event`, in order. */
    var events: seq<ChatEvent>

    /** The property initialisers; the `init` block's collection is `GetMessages`. */
    constructor (device: Option<DeviceModel>, controller: AndroidBluetoothController)
      ensures this.device == device && this.controller == controller
      ensures connecting && message == "" && messages == [] && events == []
    {
      this.device := device;
      this.controller := controller;
      connecting := true;
      message := "";
      messages := [];
      events := [];
    }

    /** The body of `collectLatest { result -> when (result) ... }`. */
    method OnResult(result: ConnectionResult)
      modifies this
      ensures connecting == (old(connecting) && result.Transferred?)
      ensures messages == old(messages) + (if result.Transferred? then [result.message] else [])
      ensures events == old(events) + (if result.Error? then [ShowError(result.reason), Finish] else [])
      ensures message == old(message)
    {
      match result
      case Established =>
        connecting := false;
      case Transferred(m) =>
        messages := messages + [m];
      case Error(reason) =>
        connecting := false;
        events := events + [ShowError(reason)];
        events := events + [Finish];
    }

    /** Every emitted result, in order, through the reducer. */
    method Collect(results: seq<ConnectionResult>)
      modifies this
      ensures messages == old(messages) + TransferredMessages(results)
      ensures events == old(events) + ErrorEvents(results)
      ensures connecting == (old(connecting) && !Settles(results))
      ensures message == old(message)
    {
      var i := 0;
      while i < |results|
        invariant 0 <= i <= |results|
        invariant messages == old(messages) + TransferredMessages(results[..i])
        invariant events == old(events) + ErrorEvents(results[..i])
        invariant connecting == (old(connecting) && !Settles(results[..i]))
        invariant message == old(message)
      {
        CollectStep(results, i);
        OnResult(results[i]);
        i := i + 1;
      }
      assert results[..i] == results;
    }

    /**
     * `getMessages()`: the flow of `startServer()` or `connect(device)`,
     * collected to its end. `raised` tells whether the flow's exception
     * reached the launched coroutine.
     */
    method GetMessages(p: Permissions, server: ServerScript, client: ConnectScript)
      returns (raised: bool)
      modifies this, controller
      ensures var run :=
          if device.None? then ServerFlow(CanConnect(p), controller.hasAdapter, server, old(controller.CurrentSession()))
          else ConnectFlow(CanConnect(p), p.canScan, controller.hasAdapter, device.value.address, client,
                           old(controller.CurrentSession()));
        && raised == run.raised
        && messages == old(messages) + TransferredMessages(run.results)
        && events == old(events) + ErrorEvents(run.results)
        && connecting == (old(connecting) && !Settles(run.results))
        && controller.calls == old(controller.calls) + run.calls
        && controller.CurrentSession() == run.after
      ensures message == old(message)
      ensures controller.CurrentObserved() == old(controller.CurrentObserved())
    {
      var results;
      if device.None? {
        results, raised := controller.StartServer(p, server);
      } else {
        results, raised := controller.Connect(device.value, p, client);
      }
      Collect(results);
    }

    method OnMessageChange(value: string)
      modifies this
      ensures message == value
      ensures connecting == old(connecting) && messages == old(messages) && events == old(events)
    {
      message := value;
    }

    /** `onDisconnect()`: the controller's `close()`. */
    method OnDisconnect()
      modifies controller
      ensures controller.CurrentSession() == Closed(old(controller.CurrentSession()))
      ensures controller.calls == old(controller.calls) + CloseCalls(old(controller.CurrentSession()))
      ensures controller.CurrentObserved() == old(controller.CurrentObserved())
    {
      controller.Close();
    }

    /**
     * `onSendMessage()`: sends the draft; a returned model clears the draft
     * and is appended, a null result changes nothing on the screen.
     */
    method OnSendMessage(p: Permissions, adapter: Adapter, writeSucceeds: bool)
      modifies this, controller
      ensures var sent := SentModel(old(message), controller.hasAdapter, adapter);
        if CanConnect(p) && old(controller.service).Some? && writeSucceeds
        then message == "" && messages == old(messages) + [sent]
        else message == old(message) && messages == old(messages)
      ensures connecting == old(connecting) && events == old(events)
      ensures CanConnect(p) && old(controller.service).Some? ==>
        controller.calls == old(controller.calls)
          + [Write(old(controller.service).value.socket,
                   MessageMapper.ToByteArray(SentModel(old(message), controller.hasAdapter, adapter)))]
      ensures !(CanConnect(p) && old(controller.service).Some?) ==> controller.calls == old(controller.calls)
      ensures controller.CurrentObserved() == old(controller.CurrentObserved())
      ensures controller.CurrentSession() == old(controller.CurrentSession())
    {
      var model := controller.SendMessage(message, p, adapter, writeSucceeds);
      if model.Some? {
        message := "";
        messages := messages + [model.value];
      }
    }
  }
}
