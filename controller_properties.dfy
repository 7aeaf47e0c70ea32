/**
 * What the two connection flows, `close()` and the device-found update of
 * `AndroidBluetoothController` guarantee, stated over their specification
 * functions for every script and every starting session.
 */
module ControllerProperties {
  import opened Basics
  import opened Domain
  import opened Platform
  import opened DataTransfer
  import opened Controller

  /** `close()` twice is `close()` once, and the second one closes nothing. */
  lemma CloseIdempotent(s: Session)
    ensures Closed(Closed(s)) == Closed(s)
    ensures CloseCalls(Closed(s)) == []
  {
  }

  /** `.map { Transferred(it) }` distributes over concatenation. */
  lemma {:induction false} AsTransferredAppend(a: seq<MessageModel>, b: seq<MessageModel>)
    ensures AsTransferred(a + b) == AsTransferred(a) + AsTransferred(b)
  {
    if |a| == 0 {
      assert a + b == b;
    } else {
      assert (a + b)[1..] == a[1..] + b;
      AsTransferredAppend(a[1..], b);
    }
  }

  // ---------------------------------------------------------------------
  // startServer()

  lemma ServerPermissionDenied(hasAdapter: bool, script: ServerScript, before: Session)
    ensures var run := ServerFlow(false, hasAdapter, script, before);
      run.results == [Error(NoPermission)] && !run.raised && run.calls == CloseCalls(before)
  {
  }

  /** An IOException from `accept()` ends the flow with nothing emitted; the listening socket is closed. */
  lemma ServerAcceptFails(hasAdapter: bool, l: Handle, input: ReadScript, before: Session)
    requires hasAdapter
    ensures var run := ServerFlow(true, hasAdapter, ServerScript(Opened(l), AcceptFailed, input), before);
      && run.results == [] && !run.raised
      && run.calls[..2] == [ListenRfcomm(ServiceName, ServiceUuid), Accept(l)]
      && CloseSocket(l) in run.calls
  {
    var run := ServerFlow(true, hasAdapter, ServerScript(Opened(l), AcceptFailed, input), before);
    assert CloseSocket(l) in CloseCalls(before.(serverSocket := Some(l)));
    assert run.calls[2..] == CloseCalls(before.(serverSocket := Some(l)));
  }

  /**
   * Once a peer is accepted: Established, then one Transferred per read in
   * read order, nothing else; the listening socket is closed right after
   * `accept()` and the accepted socket on completion.
   */
  lemma ServerAccepted(l: Handle, c: Handle, input: ReadScript, before: Session)
    ensures var run := ServerFlow(true, true, ServerScript(Opened(l), Accepted(c), input), before);
      && |run.results| == 1 + |Received(input)|
      && run.results[0] == Established
      && (forall k :: 0 <= k < |Received(input)| ==> run.results[k + 1] == Transferred(Received(input)[k]))
      && run.raised == ReadFails(input)
      && run.calls == [ListenRfcomm(ServiceName, ServiceUuid), Accept(l), CloseSocket(l), CloseSocket(l), CloseSocket(c)]
      && run.after == Session(None, None, Some(TransferService(c)))
  {
    var script := ServerScript(Opened(l), Accepted(c), input);
    var session := Session(Some(l), Some(c), Some(TransferService(c)));
    var listening := [ListenRfcomm(ServiceName, ServiceUuid), Accept(l)];
    var ts := AsTransferred(Received(input));
    var r := [Established] + ts;
    var run := ServerFlow(true, true, script, before);
    assert ServerBlock(true, true, script, before) == FlowRun(r, ReadFails(input), listening + [CloseSocket(l)], session);
    assert CloseCalls(session) == [CloseSocket(l), CloseSocket(c)];
    assert r[1..] == ts;
  }

  /** startServer never reports an Error once the permission check passed. */
  lemma ServerNoErrorAfterPermission(hasAdapter: bool, script: ServerScript, before: Session)
    ensures forall r :: r in ServerFlow(true, hasAdapter, script, before).results ==> !r.Error?
  {
  }

  /** Established is emitted at most once, at the front, before every Transferred. */
  lemma ServerEstablishedFirst(canConnect: bool, hasAdapter: bool, script: ServerScript, before: Session)
    ensures var rs := ServerFlow(canConnect, hasAdapter, script, before).results;
      && (forall k :: 0 <= k < |rs| && rs[k].Established? ==> k == 0)
      && (forall k :: 0 <= k < |rs| && rs[k].Transferred? ==> rs[0] == Established)
  {
    var rs := ServerFlow(canConnect, hasAdapter, script, before).results;
    if canConnect && hasAdapter && script.listen.Opened? && script.accept.Accepted? {
      assert rs == [Established] + AsTransferred(Received(script.input));
      assert forall k :: 1 <= k < |rs| ==> rs[k].Transferred?;
    }
  }

  /** The flow raises exactly when listening fails, or when a read after a successful accept fails. */
  lemma ServerRaisedIff(canConnect: bool, hasAdapter: bool, script: ServerScript, before: Session)
    ensures ServerFlow(canConnect, hasAdapter, script, before).raised <==>
      canConnect && hasAdapter
      && (script.listen.OpenFailed? || (script.accept.Accepted? && ReadFails(script.input)))
  {
  }

  /** Every socket the flow opened is closed by the time it completes, and both fields are null. */
  lemma ServerReleasesSockets(canConnect: bool, hasAdapter: bool, script: ServerScript, before: Session)
    ensures var run := ServerFlow(canConnect, hasAdapter, script, before);
      && run.after.serverSocket.None? && run.after.clientSocket.None?
      && (canConnect && hasAdapter && script.listen.Opened? ==> CloseSocket(script.listen.handle) in run.calls)
      && (canConnect && hasAdapter && script.listen.Opened? && script.accept.Accepted? ==>
            CloseSocket(script.accept.handle) in run.calls)
  {
    var run := ServerFlow(canConnect, hasAdapter, script, before);
    if canConnect && hasAdapter && script.listen.Opened? {
      var l := script.listen.handle;
      match script.accept
      case AcceptFailed =>
        assert CloseSocket(l) in CloseCalls(before.(serverSocket := Some(l)));
      case Accepted(c) =>
        assert run.calls[2] == CloseSocket(l);
        assert CloseSocket(c) in CloseCalls(Session(Some(l), Some(c), Some(TransferService(c))));
    }
  }

  // ---------------------------------------------------------------------
  // connect(device)

  lemma ConnectPermissionDenied(canScan: bool, hasAdapter: bool, address: string, script: ConnectScript, before: Session)
    ensures var run := ConnectFlow(false, canScan, hasAdapter, address, script, before);
      run.results == [Error(NoPermission)] && !run.raised && run.calls == CloseCalls(before)
  {
  }

  /** Discovery is cancelled (when scanning is allowed) after the socket is created and before it connects. */
  lemma ConnectStopsDiscoveryFirst(canScan: bool, address: string, c: Handle, connects: bool, input: ReadScript, before: Session)
    ensures var run := ConnectFlow(true, canScan, true, address, ConnectScript(Opened(c), connects, input), before);
      && run.calls[0] == CreateRfcomm(address, ServiceUuid)
      && (canScan ==> run.calls[1] == AdapterCancelDiscovery && run.calls[2] == ConnectSocket(c))
      && (!canScan ==> run.calls[1] == ConnectSocket(c))
      && AdapterCancelDiscovery !in run.calls[(if canScan then 2 else 1)..]
  {
    var run := ConnectFlow(true, canScan, true, address, ConnectScript(Opened(c), connects, input), before);
    var dialing := [CreateRfcomm(address, ServiceUuid)] + StopDiscoveryCalls(canScan, true) + [ConnectSocket(c)];
    var closing := CloseCalls(Session(before.serverSocket, Some(c), if connects then Some(TransferService(c)) else before.service));
    assert run.calls == dialing + closing;
    assert run.calls[(if canScan then 2 else 1)..] == [ConnectSocket(c)] + closing;
  }

  /** A failed connect gives exactly one Error("Connection was interrupted") and nothing else. */
  lemma ConnectFails(canScan: bool, address: string, c: Handle, input: ReadScript, before: Session)
    ensures ConnectFlow(true, canScan, true, address, ConnectScript(Opened(c), false, input), before).results
      == [Error(Interrupted)]
  {
  }

  /**
   * A successful connect: Established, one Transferred per read in read
   * order, then exactly one Error("Connection was interrupted") if a read failed.
   */
  lemma ConnectStreams(canScan: bool, address: string, c: Handle, input: ReadScript, before: Session)
    ensures var rs := ConnectFlow(true, canScan, true, address, ConnectScript(Opened(c), true, input), before).results;
      && |rs| == 1 + |Received(input)| + (if ReadFails(input) then 1 else 0)
      && rs[0] == Established
      && (forall k :: 0 <= k < |Received(input)| ==> rs[k + 1] == Transferred(Received(input)[k]))
      && (ReadFails(input) ==> rs[|rs| - 1] == Error(Interrupted))
  {
    var ts := AsTransferred(Received(input));
    var tail: seq<ConnectionResult> := if ReadFails(input) then [Error(Interrupted)] else [];
    var rs := [Established] + ts + tail;
    var script := ConnectScript(Opened(c), true, input);
    assert DialResults(script) == rs;
    assert ConnectFlow(true, canScan, true, address, script, before).results == DialResults(script);
    assert rs[1..1 + |ts|] == ts;
    assert |rs| == 1 + |ts| + |tail|;
  }

  /** In what the `try` block emits, an Error can only be last, and Established only first. */
  lemma DialOrder(script: ConnectScript)
    ensures var rs := DialResults(script);
      && (forall k :: 0 <= k < |rs| && rs[k].Error? ==> k == |rs| - 1)
      && (forall k :: 0 <= k < |rs| && rs[k].Established? ==> k == 0)
      && (forall k :: 0 <= k < |rs| && rs[k].Error? ==> rs[k] == Error(Interrupted))
      && (script.connects ==> rs[0] == Established)
  {
    if script.connects {
      var ts := AsTransferred(Received(script.input));
      var tail: seq<ConnectionResult> := if ReadFails(script.input) then [Error(Interrupted)] else [];
      assert DialResults(script) == [Established] + ts + tail;
      StreamShape(ts, tail, Interrupted);
    }
  }

  /** Established, then only Transferred, then at most one Error(reason). */
  lemma StreamShape(ts: seq<ConnectionResult>, tail: seq<ConnectionResult>, reason: string)
    requires forall k :: 0 <= k < |ts| ==> ts[k].Transferred?
    requires tail == [] || tail == [Error(reason)]
    ensures var rs := [Established] + ts + tail;
      && (forall k :: 0 <= k < |rs| && rs[k].Error? ==> k == |rs| - 1 && rs[k] == Error(reason))
      && (forall k :: 0 <= k < |rs| && rs[k].Established? ==> k == 0)
  {
    var rs := [Established] + ts + tail;
    assert rs[1..1 + |ts|] == ts;
    assert rs[1 + |ts|..] == tail;
  }

  /** At most one Error, and only as the last result; Established at most once, first, before every Transferred. */
  lemma ConnectResultOrder(canConnect: bool, canScan: bool, hasAdapter: bool, address: string,
                           script: ConnectScript, before: Session)
    ensures var rs := ConnectFlow(canConnect, canScan, hasAdapter, address, script, before).results;
      && (forall k :: 0 <= k < |rs| && rs[k].Error? ==> k == |rs| - 1)
      && (forall k :: 0 <= k < |rs| && rs[k].Established? ==> k == 0)
      && (forall k :: 0 <= k < |rs| && rs[k].Transferred? ==> rs[0] == Established)
  {
    if canConnect && hasAdapter && script.socket.Opened? {
      assert ConnectFlow(canConnect, canScan, hasAdapter, address, script, before).results == DialResults(script);
      DialOrder(script);
    }
  }

  /** Every Error connect reports is the permission error when permission was denied, and the interruption error otherwise. */
  lemma ConnectErrorReasons(canConnect: bool, canScan: bool, hasAdapter: bool, address: string,
                            script: ConnectScript, before: Session)
    ensures var rs := ConnectFlow(canConnect, canScan, hasAdapter, address, script, before).results;
      forall k :: 0 <= k < |rs| && rs[k].Error? ==> rs[k].reason == if canConnect then Interrupted else NoPermission
  {
    if canConnect && hasAdapter && script.socket.Opened? {
      assert ConnectFlow(canConnect, canScan, hasAdapter, address, script, before).results == DialResults(script);
      DialOrder(script);
    }
  }

  /** connect raises only when the socket cannot be created; IOExceptions later become an Error. */
  lemma ConnectRaisedIff(canConnect: bool, canScan: bool, hasAdapter: bool, address: string,
                         script: ConnectScript, before: Session)
    ensures ConnectFlow(canConnect, canScan, hasAdapter, address, script, before).raised <==>
      canConnect && hasAdapter && script.socket.OpenFailed?
  {
  }

  /** The socket connect created is closed on completion, and both fields are null. */
  lemma ConnectReleasesSocket(canConnect: bool, canScan: bool, hasAdapter: bool, address: string,
                              script: ConnectScript, before: Session)
    ensures var run := ConnectFlow(canConnect, canScan, hasAdapter, address, script, before);
      && run.after.serverSocket.None? && run.after.clientSocket.None?
      && (canConnect && hasAdapter && script.socket.Opened? ==>
            run.calls[|run.calls| - 1] == CloseSocket(script.socket.handle))
  {
  }

  /** Without an adapter, both flows still report Established (and nothing else) once permitted. */
  lemma NoAdapterStillEstablished(canScan: bool, address: string, sscript: ServerScript, cscript: ConnectScript, before: Session)
    ensures ServerFlow(true, false, sscript, before).results == [Established]
    ensures ConnectFlow(true, canScan, false, address, cscript, before).results == [Established]
  {
  }

  // ---------------------------------------------------------------------
  // foundReceiver: `if (model in devices) devices else devices + model`

  predicate NoDuplicates(ds: seq<DeviceModel>) {
    forall i, j :: 0 <= i < j < |ds| ==> ds[i] != ds[j]
  }

  /** The updated list holds exactly the old devices and the found one. */
  lemma ScannedMembers(ds: seq<DeviceModel>, m: DeviceModel)
    ensures forall x :: x in ScannedAfter(ds, m) <==> x in ds || x == m
  {
  }

  /** An already listed device changes nothing; a new one goes at the end, after the earlier ones in their order. */
  lemma ScannedKeepsOrder(ds: seq<DeviceModel>, m: DeviceModel)
    ensures m in ds ==> ScannedAfter(ds, m) == ds
    ensures m !in ds ==> ScannedAfter(ds, m) == ds + [m]
    ensures ScannedAfter(ds, m)[..|ds|] == ds
  {
  }

  /** A duplicate-free list stays duplicate-free. */
  lemma ScannedNoDuplicates(ds: seq<DeviceModel>, m: DeviceModel)
    requires NoDuplicates(ds)
    ensures NoDuplicates(ScannedAfter(ds, m))
  {
    var r := ScannedAfter(ds, m);
    if m !in ds {
      assert forall i :: 0 <= i < |ds| ==> r[i] == ds[i];
    }
  }

  /** The same device found twice is listed once. */
  lemma ScannedIdempotent(ds: seq<DeviceModel>, m: DeviceModel)
    ensures ScannedAfter(ScannedAfter(ds, m), m) == ScannedAfter(ds, m)
  {
    assert m in ScannedAfter(ds, m);
  }
}
