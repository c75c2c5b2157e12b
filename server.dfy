/** The server's connection loop (server_loop in irpc_server.c): wait for one
    client, then read function ids from it and dispatch each in the server
    role, until the first descriptor request has been served; then close the
    client's socket. */
module Server {
  import opened IrpcTypes
  import opened Wire
  import opened Channel
  import opened Engine

  /** Why the loop ended. StreamEnded is a load of a function id that failed:
      the C loop does not test for it and goes on with an indeterminate id, so
      the model stops there without closing. NullDevice is a descriptor request
      whose device the server could not resolve. */
  datatype LoopEnd = SelectFailed | AcceptFailed | StreamEnded | NullDevice | Done

  /** What the loop does with the ints the client sends: the events on the
      accepted socket, the ids dispatched, the input left unread, and how the
      loop ends. */
  datatype Run = Run(events: seq<Event>, dispatched: seq<Int32>, rest: seq<Int32>, end: LoopEnd)

  /** One pass of the `while (1)` body on the ints still unread: load a
      function id, dispatch it in the server role, and say whether the loop
      stops (Some) or goes round again (None). */
  datatype Turn = Turn(events: seq<Event>, ids: seq<Int32>, rest: seq<Int32>, stop: Option<LoopEnd>)

  function TurnOf(inbox: seq<Int32>, usb: UsbLibrary): (t: Turn)
    ensures t.stop.None? ==> |t.rest| < |inbox|
    ensures t.stop != Some(SelectFailed) && t.stop != Some(AcceptFailed)
  {
    if inbox == [] then Turn([ReadFailed], [], [], Some(StreamEnded))
    else
      var fn := inbox[0];
      var head := ReadOk([fn]);
      match FunctionIdOf(fn)
      case None => Turn([head], [], inbox[1..], None)
      case Some(f) =>
        var st := ServerStep(f, inbox[1..], usb);
        Turn([head] + st.events, [fn], st.rest,
             if f != GetDeviceDescriptor then None
             else if st.faulted then Some(NullDevice) else Some(Done))
  }

  /** The loop from some point on: `seen` and `ids` are what the passes
      before that point did and dispatched. */
  function ServeFrom(inbox: seq<Int32>, usb: UsbLibrary, seen: seq<Event>, ids: seq<Int32>): Run
    decreases |inbox|
  {
    var t := TurnOf(inbox, usb);
    if t.stop.Some? then Run(seen + t.events, ids + t.ids, t.rest, t.stop.value)
    else ServeFrom(t.rest, usb, seen + t.events, ids + t.ids)
  }

  /** The whole loop on a stream: passes until one stops. */
  function Serve(stream: seq<Int32>, usb: UsbLibrary): Run
  {
    ServeFrom(stream, usb, [], [])
  }

  /** The ids of a stream that the dispatcher knows, in order. */
  function KnownIds(ids: seq<Int32>): (known: seq<Int32>)
    ensures forall k :: 0 <= k < |known| ==> FunctionIdOf(known[k]).Some?
    ensures |known| <= |ids|
  {
    if ids == [] then []
    else (if FunctionIdOf(ids[0]).Some? then [ids[0]] else []) + KnownIds(ids[1..])
  }

  /** KnownIds keeps every known id and drops every unknown one. */
  lemma {:induction false} KnownIdsExactly(ids: seq<Int32>)
    ensures forall x :: x in KnownIds(ids) <==> x in ids && FunctionIdOf(x).Some?
  {
    if ids != [] {
      KnownIdsExactly(ids[1..]);
      assert ids == [ids[0]] + ids[1..];
    }
  }

  /** Whatever the later passes do, the loop keeps what the earlier ones
      did and dispatched as a prefix. */
  lemma {:induction false} ServeFromExtends(inbox: seq<Int32>, usb: UsbLibrary, seen: seq<Event>, ids: seq<Int32>)
    ensures var r := ServeFrom(inbox, usb, seen, ids);
      |seen| <= |r.events| && r.events[..|seen|] == seen
      && |ids| <= |r.dispatched| && r.dispatched[..|ids|] == ids
    decreases |inbox|
  {
    var t := TurnOf(inbox, usb);
    if t.stop.None? {
      ServeFromExtends(t.rest, usb, seen + t.events, ids + t.ids);
      var r := ServeFrom(inbox, usb, seen, ids);
      assert r.events[..|seen|] == r.events[..|seen + t.events|][..|seen|];
      assert r.dispatched[..|ids|] == r.dispatched[..|ids + t.ids|][..|ids|];
    }
  }

  /** An INIT request is answered with the library's init result, and the
      loop then reads on. */
  lemma ServeAnswersInit(more: seq<Int32>, usb: UsbLibrary)
    ensures var r := Serve([FnInit] + more, usb);
      && |r.events| >= 2 && r.events[..2] == [ReadOk([FnInit]), Wrote([usb.initResult])]
      && |r.dispatched| >= 1 && r.dispatched[0] == FnInit
  {
    var s := [FnInit] + more;
    assert s[0] == FnInit && s[1..] == more;
    var t := TurnOf(s, usb);
    assert t == Turn([ReadOk([FnInit]), Wrote([usb.initResult])], [FnInit], more, None);
    assert Serve(s, usb) == ServeFrom(more, usb, [] + t.events, [] + t.ids);
    assert [] + t.events == t.events && [] + t.ids == t.ids;
    ServeFromExtends(more, usb, t.events, t.ids);
  }

  /** A descriptor request for a device the server listed, whose
      session_data fits an `int` and is not shared with an earlier device,
      is answered with that device's descriptor and ends the loop with Done. */
  lemma ServeAnswersListedDevice(usb: UsbLibrary, i: nat, more: seq<Int32>)
    requires i < Min(|usb.devices|, MaxDevs)
    requires usb.devices[i].sessionData < 0x8000_0000
    requires forall j :: 0 <= j < i ==> usb.devices[j].sessionData != usb.devices[i].sessionData
    ensures var request := EncodeDevice(DeviceListOf(usb.devices).devs[i]);
      Serve([FnGetDeviceDescriptor] + request + more, usb)
      == Run([ReadOk([FnGetDeviceDescriptor]), ReadOk(request),
              Wrote(EncodeDescriptor(ReflectDescriptor(DescriptorOf(usb.devices[i]))))],
             [FnGetDeviceDescriptor], more, Done)
  {
    var request := EncodeDevice(DeviceListOf(usb.devices).devs[i]);
    var s := [FnGetDeviceDescriptor] + request + more;
    assert s[0] == FnGetDeviceDescriptor && s[1..] == request + more;
    DescriptorRequestAnswered(usb, i, more);
  }

  /** INIT and GET_DEVICE_LIST are dispatched and the loop reads on;
      unknown ids are skipped; the first GET_DEVICE_DESCRIPTOR is dispatched
      last, and nothing after its 4-int request is read. */
  lemma {:induction false} ServeFromStopsAtFirstDescriptor(a: seq<Int32>, b: seq<Int32>, usb: UsbLibrary,
                                                           seen: seq<Event>, ids: seq<Int32>)
    requires forall k :: 0 <= k < |a| ==> a[k] != FnGetDeviceDescriptor
    ensures var r := ServeFrom(a + [FnGetDeviceDescriptor] + b, usb, seen, ids);
      && r.dispatched == ids + KnownIds(a) + [FnGetDeviceDescriptor]
      && (r.end == Done || r.end == NullDevice)
      && r.rest == AfterRead(b, DeviceWidth)
    decreases |a|
  {
    var s := a + [FnGetDeviceDescriptor] + b;
    if a == [] {
      assert s[0] == FnGetDeviceDescriptor && s[1..] == b;
    } else {
      assert s[0] == a[0] && s[1..] == a[1..] + [FnGetDeviceDescriptor] + b;
      var t := TurnOf(s, usb);
      ServeFromStopsAtFirstDescriptor(a[1..], b, usb, seen + t.events, ids + t.ids);
      assert KnownIds(a) == t.ids + KnownIds(a[1..]);
      assert ids + t.ids + KnownIds(a[1..]) == ids + KnownIds(a);
    }
  }

  lemma ServeStopsAtFirstDescriptor(a: seq<Int32>, b: seq<Int32>, usb: UsbLibrary)
    requires forall k :: 0 <= k < |a| ==> a[k] != FnGetDeviceDescriptor
    ensures var r := Serve(a + [FnGetDeviceDescriptor] + b, usb);
      && r.dispatched == KnownIds(a) + [FnGetDeviceDescriptor]
      && (r.end == Done || r.end == NullDevice)
      && r.rest == AfterRead(b, DeviceWidth)
  {
    ServeFromStopsAtFirstDescriptor(a, b, usb, [], []);
    assert [] + KnownIds(a) == KnownIds(a);
  }

  /** Without a descriptor request the loop dispatches every known id in
      order and reads until the stream ends. */
  lemma {:induction false} ServeFromWithoutDescriptor(s: seq<Int32>, usb: UsbLibrary,
                                                      seen: seq<Event>, ids: seq<Int32>)
    requires forall k :: 0 <= k < |s| ==> s[k] != FnGetDeviceDescriptor
    ensures var r := ServeFrom(s, usb, seen, ids);
      r.dispatched == ids + KnownIds(s) && r.end == StreamEnded && r.rest == []
    decreases |s|
  {
    if s != [] {
      var t := TurnOf(s, usb);
      ServeFromWithoutDescriptor(s[1..], usb, seen + t.events, ids + t.ids);
      assert KnownIds(s) == t.ids + KnownIds(s[1..]);
      assert ids + t.ids + KnownIds(s[1..]) == ids + KnownIds(s);
    }
  }

  lemma ServeWithoutDescriptor(s: seq<Int32>, usb: UsbLibrary)
    requires forall k :: 0 <= k < |s| ==> s[k] != FnGetDeviceDescriptor
    ensures var r := Serve(s, usb);
      r.dispatched == KnownIds(s) && r.end == StreamEnded && r.rest == []
  {
    ServeFromWithoutDescriptor(s, usb, [], []);
    assert [] + KnownIds(s) == KnownIds(s);
  }

  /** The loop ends with Done or NullDevice exactly when the stream holds a
      descriptor request; select and accept failures never come out of it. */
  lemma {:induction false} ServeFromEndsIffDescriptor(s: seq<Int32>, usb: UsbLibrary,
                                                      seen: seq<Event>, ids: seq<Int32>)
    ensures var r := ServeFrom(s, usb, seen, ids);
      && ((r.end == Done || r.end == NullDevice) <==> FnGetDeviceDescriptor in s)
      && r.end != SelectFailed && r.end != AcceptFailed
    decreases |s|
  {
    if s != [] {
      var t := TurnOf(s, usb);
      if t.stop.None? {
        ServeFromEndsIffDescriptor(s[1..], usb, seen + t.events, ids + t.ids);
      }
      assert s == [s[0]] + s[1..];
    }
  }

  lemma ServeEndsIffDescriptor(s: seq<Int32>, usb: UsbLibrary)
    ensures var r := Serve(s, usb);
      && ((r.end == Done || r.end == NullDevice) <==> FnGetDeviceDescriptor in s)
      && r.end != SelectFailed && r.end != AcceptFailed
  {
    ServeFromEndsIffDescriptor(s, usb, [], []);
  }

  /** The body of server_loop's `while (1)`, on the accepted connection. */
  method ServeTurn(peer: Socket, conn: ConnectionInfo, usb: UsbLibrary)
    returns (stop: Option<LoopEnd>, ids: seq<Int32>)
    requires conn.clientSock == peer
    modifies peer
    ensures var t := TurnOf(old(peer.inbox), usb);
      && stop == t.stop && ids == t.ids
      && peer.trace == old(peer.trace) + t.events && peer.inbox == t.rest
      && peer.closeCount == old(peer.closeCount)
  {
    var r := peer.Read(1);
    if r.None? {
      return Some(StreamEnded), [];
    }
    var fn := r.value[0];
    assert old(peer.inbox)[..1] == [fn] && peer.inbox == old(peer.inbox)[1..];
    stop, ids := None, [];
    if fn == FnInit || fn == FnGetDeviceList || fn == FnGetDeviceDescriptor {
      assert DispatchTarget(fn, ContextServer) == Handler(FunctionIdOf(fn).value, Server);
      var outcome := UsbCall(fn, ContextServer, conn, null, usb);
      ids := [fn];
      if fn == FnGetDeviceDescriptor {
        stop := if outcome.Faulted? then Some(NullDevice) else Some(Done);
      }
    }
  }

  /** server_loop after accept: passes of the `while (1)` body until one
      stops. The socket is not closed here. */
  method ServeConnection(peer: Socket, usb: UsbLibrary) returns (end: LoopEnd, dispatched: seq<Int32>)
    modifies peer
    ensures var r := Serve(old(peer.inbox), usb);
      && end == r.end && dispatched == r.dispatched
      && peer.trace == old(peer.trace) + r.events && peer.inbox == r.rest
      && peer.closeCount == old(peer.closeCount)
  {
    var conn := ConnectionInfo(peer, null);
    ghost var seen: seq<Event> := [];
    ghost var total := Serve(old(peer.inbox), usb);
    dispatched := [];
    var stop: Option<LoopEnd> := None;
    while stop.None?
      invariant peer.trace == old(peer.trace) + seen
      invariant peer.closeCount == old(peer.closeCount)
      invariant total == match stop
        case None => ServeFrom(peer.inbox, usb, seen, dispatched)
        case Some(e) => Run(seen, dispatched, peer.inbox, e)
      decreases if stop.None? then |peer.inbox| + 1 else 0
    {
      ghost var before := peer.inbox;
      ghost var t := TurnOf(before, usb);
      var ids;
      stop, ids := ServeTurn(peer, conn, usb);
      assert peer.trace == old(peer.trace) + (seen + t.events);
      seen, dispatched := seen + t.events, dispatched + ids;
    }
    end := stop.value;
  }

  /** server_loop: `selectResult` and `acceptResult` are what select and
      accept return; `peer` is the accepted socket. The socket is closed
      when the loop reaches its `done` label. */
  method ServerLoop(selectResult: int, acceptResult: int, peer: Socket, usb: UsbLibrary)
    returns (end: LoopEnd, dispatched: seq<Int32>)
    modifies peer
    ensures selectResult == -1 ==>
      end == SelectFailed && dispatched == [] && unchanged(peer)
    ensures selectResult != -1 && acceptResult == -1 ==>
      end == AcceptFailed && dispatched == [] && unchanged(peer)
    ensures selectResult != -1 && acceptResult != -1 ==>
      var r := Serve(old(peer.inbox), usb);
      && end == r.end && dispatched == r.dispatched
      && peer.trace == old(peer.trace) + r.events && peer.inbox == r.rest
      && peer.closeCount == old(peer.closeCount) + (if r.end == Done then 1 else 0)
  {
    if selectResult == -1 {
      return SelectFailed, [];
    }
    if acceptResult == -1 {
      return AcceptFailed, [];
    }
    end, dispatched := ServeConnection(peer, usb);
    if end == Done {
      peer.Close();
    }
  }
}
