/** The RPC engine of libirpc.c: the client and server halves of the three
    operations, the server-side marshalling, the session resolver and the
    public dispatcher `irpc_usb_call`. libusb is replaced by its answers (a
    UsbLibrary value); sockets are Channel.Socket objects. */
module Engine {
  import opened IrpcTypes
  import opened Wire
  import opened Channel

  /** struct irpc_usb_connection_info: the accepted peer (used in the server
      role) and the connection to the server (used in the client role). The
      one a process does not use is left unset, here null. */
  datatype ConnectionInfo = ConnectionInfo(clientSock: Socket?, serverSock: Socket?)

  /** The caller-owned structs that `irpc_usb_call` receives by pointer and
      that the client halves fill in. */
  class CallArgs {
    var devlist: DeviceList
    var dev: Device
    var desc: Descriptor

    /** The structs after `bzero`. */
    constructor ()
      ensures devlist == EmptyDeviceList && dev == ZeroDevice && desc == ZeroDescriptor
    {
      devlist, dev, desc := EmptyDeviceList, ZeroDevice, ZeroDescriptor;
    }
  }

  /** What libusb answers on the server: the result of `libusb_init` and the
      devices `libusb_get_device_list` enumerates. A negative count from
      libusb stops both enumeration loops at once, as the empty list does. */
  datatype UsbLibrary = UsbLibrary(initResult: Int32, devices: seq<NativeDevice>)

  /** How a call ends: with a retval, or by handing NULL to libusb. */
  datatype CallOutcome = Returned(retval: Int32) | Faulted

  /** What one server half does to the accepted socket: the events it adds,
      the input it leaves unread, and whether it hands NULL to libusb. */
  datatype Step = Step(events: seq<Event>, rest: seq<Int32>, faulted: bool)

  twostate predicate Stepped(sock: Socket, st: Step)
    reads sock
  {
    && sock.trace == old(sock.trace) + st.events
    && sock.inbox == st.rest
    && sock.closeCount == old(sock.closeCount)
  }

  /** A client half: it writes `sent`, then loads one n-int reply. */
  twostate predicate Exchanged(sock: Socket, sent: seq<Event>, n: nat)
    reads sock
  {
    && sock.trace == old(sock.trace) + sent + [ReadEvent(old(sock.inbox), n)]
    && sock.inbox == AfterRead(old(sock.inbox), n)
    && sock.closeCount == old(sock.closeCount)
  }

  // ---------------------------------------------------------------------------
  // Packet type
  // ---------------------------------------------------------------------------

  /** irpc_send_packet_type: the function id as a one-int record. */
  method SendPacketType(fn: Int32, sock: Socket)
    modifies sock
    ensures sock.trace == old(sock.trace) + [Wrote([fn])]
    ensures sock.inbox == old(sock.inbox) && sock.closeCount == old(sock.closeCount)
  {
    sock.Write([fn]);
  }

  // ---------------------------------------------------------------------------
  // Server-side marshalling and the session resolver
  // ---------------------------------------------------------------------------

  /** The four fields the server copies from a libusb device. */
  function ReflectDevice(d: NativeDevice): Device
  {
    Device(d.busNumber, d.deviceAddress, d.numConfigurations, IntOfULong(d.sessionData))
  }

  /** The descriptor the server sends for a libusb descriptor, field for field. */
  function ReflectDescriptor(d: NativeDescriptor): Descriptor
  {
    Descriptor(d.bLength, d.bDescriptorType, d.bcdUSB, d.bDeviceClass,
               d.bDeviceSubClass, d.bDeviceProtocol, d.bMaxPacketSize0,
               d.idVendor, d.idProduct, d.bcdDevice, d.iManufacturer,
               d.iProduct, d.iSerialNumber, d.bNumConfigurations)
  }

  /** A reflected descriptor gives back every libusb field unchanged. */
  lemma ReflectDescriptorFaithful(d: NativeDescriptor)
    ensures var r := ReflectDescriptor(d);
      && r.bLength == d.bLength && r.bDescriptorType == d.bDescriptorType
      && r.bcdUSB == d.bcdUSB && r.bDeviceClass == d.bDeviceClass
      && r.bDeviceSubClass == d.bDeviceSubClass && r.bDeviceProtocol == d.bDeviceProtocol
      && r.bMaxPacketSize0 == d.bMaxPacketSize0 && r.idVendor == d.idVendor
      && r.idProduct == d.idProduct && r.bcdDevice == d.bcdDevice
      && r.iManufacturer == d.iManufacturer && r.iProduct == d.iProduct
      && r.iSerialNumber == d.iSerialNumber && r.bNumConfigurations == d.bNumConfigurations
  {
  }

  /** libusb_get_device_descriptor into the server's local `desc`. Its
      result is not checked: when the call fails, the uninitialised struct,
      modelled as zero, is copied and sent all the same. */
  function DescriptorOf(dev: NativeDevice): NativeDescriptor
  {
    match dev.descriptor
    case Some(d) => d
    case None => ZeroNativeDescriptor
  }

  function Min(a: int, b: int): int
  {
    if a < b then a else b
  }

  /** The device list the server builds from an enumeration. */
  function DeviceListOf(snapshot: seq<NativeDevice>): (l: DeviceList)
    ensures l.nDevs == Min(|snapshot|, MaxDevs)
  {
    var n := Min(|snapshot|, MaxDevs);
    DeviceList(n, seq(MaxDevs, k requires 0 <= k < MaxDevs =>
                                 if k < n then ReflectDevice(snapshot[k]) else ZeroDevice))
  }

  /** The loop of irpc_usb_get_device_list_send over a zeroed list: copy the
      enumeration in order, stop at IRPC_MAX_DEVS, leave the rest zero. */
  method BuildDeviceList(snapshot: seq<NativeDevice>) returns (devlist: DeviceList)
    ensures devlist.nDevs == Min(|snapshot|, MaxDevs) && devlist.nDevs <= MaxDevs
    ensures forall k :: 0 <= k < devlist.nDevs ==> devlist.devs[k] == ReflectDevice(snapshot[k])
    ensures forall k :: devlist.nDevs <= k < MaxDevs ==> devlist.devs[k] == ZeroDevice
    ensures devlist == DeviceListOf(snapshot)
  {
    var devs := new Device[MaxDevs](_ => ZeroDevice);
    var n: Int32 := 0;
    var i := 0;
    while i < |snapshot| && i < MaxDevs
      invariant 0 <= i <= MaxDevs && i <= |snapshot| && n == i
      invariant forall k :: 0 <= k < i ==> devs[k] == ReflectDevice(snapshot[k])
      invariant forall k :: i <= k < MaxDevs ==> devs[k] == ZeroDevice
    {
      var device := snapshot[i];
      devs[i] := Device(device.busNumber, device.deviceAddress,
                        device.numConfigurations, IntOfULong(device.sessionData));
      n := n + 1;
      i := i + 1;
    }
    devlist := DeviceList(n, devs[..]);
  }

  /** The device libusb_device_with_session_data returns: the first one of
      the snapshot whose session_data matches, or NULL. */
  function Resolve(snapshot: seq<NativeDevice>, sessionData: U64): (f: Option<NativeDevice>)
    ensures f.Some? ==> f.value in snapshot && f.value.sessionData == sessionData
  {
    if snapshot == [] then None
    else if snapshot[0].sessionData == sessionData then Some(snapshot[0])
    else Resolve(snapshot[1..], sessionData)
  }

  lemma {:induction false} ResolveFindsFirst(snapshot: seq<NativeDevice>, sessionData: U64, i: nat)
    requires i < |snapshot| && snapshot[i].sessionData == sessionData
    requires forall j :: 0 <= j < i ==> snapshot[j].sessionData != sessionData
    ensures Resolve(snapshot, sessionData) == Some(snapshot[i])
  {
    if i > 0 {
      ResolveFindsFirst(snapshot[1..], sessionData, i - 1);
    }
  }

  lemma {:induction false} ResolveNotFound(snapshot: seq<NativeDevice>, sessionData: U64)
    ensures Resolve(snapshot, sessionData).None?
            <==> forall j :: 0 <= j < |snapshot| ==> snapshot[j].sessionData != sessionData
  {
    if snapshot != [] {
      ResolveNotFound(snapshot[1..], sessionData);
      assert forall j :: 1 <= j < |snapshot| ==> snapshot[j] == snapshot[1..][j - 1];
    }
  }

  /** Whatever Resolve returns is the first matching device of the snapshot. */
  lemma {:induction false} ResolveIsFirstMatch(snapshot: seq<NativeDevice>, sessionData: U64)
    returns (i: nat)
    requires Resolve(snapshot, sessionData).Some?
    ensures i < |snapshot| && Resolve(snapshot, sessionData) == Some(snapshot[i])
    ensures snapshot[i].sessionData == sessionData
    ensures forall j :: 0 <= j < i ==> snapshot[j].sessionData != sessionData
  {
    if snapshot[0].sessionData == sessionData {
      i := 0;
    } else {
      var i' := ResolveIsFirstMatch(snapshot[1..], sessionData);
      i := i' + 1;
    }
  }

  /** libusb_device_with_session_data: a linear scan of a fresh snapshot
      that leaves at the first match. */
  method DeviceWithSessionData(snapshot: seq<NativeDevice>, sessionData: U64)
    returns (f: Option<NativeDevice>)
    ensures f == Resolve(snapshot, sessionData)
    ensures f.None? <==> forall j :: 0 <= j < |snapshot| ==> snapshot[j].sessionData != sessionData
  {
    var i := 0;
    while i < |snapshot|
      invariant 0 <= i <= |snapshot|
      invariant forall j :: 0 <= j < i ==> snapshot[j].sessionData != sessionData
    {
      var dev := snapshot[i];
      if dev.sessionData == sessionData {
        ResolveFindsFirst(snapshot, sessionData, i);
        return Some(dev);
      }
      i := i + 1;
    }
    ResolveNotFound(snapshot, sessionData);
    return None;
  }

  /** A listed device whose session_data fits an `int` and is the first of
      its value in the snapshot is found again from its wire record. */
  lemma {:induction false} ListedDeviceResolves(snapshot: seq<NativeDevice>, i: nat)
    requires i < Min(|snapshot|, MaxDevs)
    requires snapshot[i].sessionData < 0x8000_0000
    requires forall j :: 0 <= j < i ==> snapshot[j].sessionData != snapshot[i].sessionData
    ensures Resolve(snapshot, ULongOfInt(DeviceListOf(snapshot).devs[i].sessionData))
            == Some(snapshot[i])
  {
    var s := snapshot[i].sessionData;
    assert DeviceListOf(snapshot).devs[i] == ReflectDevice(snapshot[i]);
    assert ULongOfInt(IntOfULong(s)) == s;
    ResolveFindsFirst(snapshot, s, i);
  }

  /** A listed device with session_data 2^32 comes back as the device whose
      session_data is 0: the `int` field on the wire loses the high bits. */
  lemma TruncatedSessionResolvesElsewhere(d0: NativeDevice, d1: NativeDevice)
    requires d0.sessionData == 0 && d1.sessionData == 0x1_0000_0000
    ensures Resolve([d0, d1], ULongOfInt(DeviceListOf([d0, d1]).devs[1].sessionData))
            == Some(d0)
  {
  }

  // ---------------------------------------------------------------------------
  // What the server halves do
  // ---------------------------------------------------------------------------

  /** The device a descriptor request names; a failed load leaves the
      (uninitialised) struct, modelled as zero. */
  function RequestedDevice(inbox: seq<Int32>): (d: Device)
    ensures DeviceWidth <= |inbox| ==> EncodeDevice(d) == inbox[..DeviceWidth]
    ensures |inbox| < DeviceWidth ==> d == ZeroDevice
  {
    if DeviceWidth <= |inbox| then DecodeDevice(inbox[..DeviceWidth]) else ZeroDevice
  }

  /** The server half of each operation, as a function of the unread input. */
  function ServerStep(f: FunctionId, inbox: seq<Int32>, usb: UsbLibrary): (st: Step)
    ensures |st.rest| <= |inbox|
  {
    match f
    case Init => Step([Wrote([usb.initResult])], inbox, false)
    case GetDeviceList => Step([Wrote(EncodeDeviceList(DeviceListOf(usb.devices)))], inbox, false)
    case GetDeviceDescriptor =>
      var read := ReadEvent(inbox, DeviceWidth);
      var rest := AfterRead(inbox, DeviceWidth);
      match Resolve(usb.devices, ULongOfInt(RequestedDevice(inbox).sessionData))
      case None => Step([read], rest, true)
      case Some(dev) =>
        Step([read, Wrote(EncodeDescriptor(ReflectDescriptor(DescriptorOf(dev))))], rest, false)
  }

  /** The server answers a descriptor request for a device it listed with
      that device's descriptor, when its session_data fits an `int` and no
      earlier device shares it. */
  lemma {:induction false} DescriptorRequestAnswered(usb: UsbLibrary, i: nat, more: seq<Int32>)
    requires i < Min(|usb.devices|, MaxDevs)
    requires usb.devices[i].sessionData < 0x8000_0000
    requires forall j :: 0 <= j < i ==> usb.devices[j].sessionData != usb.devices[i].sessionData
    ensures var request := EncodeDevice(DeviceListOf(usb.devices).devs[i]);
      ServerStep(GetDeviceDescriptor, request + more, usb)
      == Step([ReadOk(request), Wrote(EncodeDescriptor(ReflectDescriptor(DescriptorOf(usb.devices[i]))))],
              more, false)
  {
    var request := EncodeDevice(DeviceListOf(usb.devices).devs[i]);
    assert (request + more)[..DeviceWidth] == request;
    assert (request + more)[DeviceWidth..] == more;
    DeviceRoundTrip(DeviceListOf(usb.devices).devs[i]);
    ListedDeviceResolves(usb.devices, i);
  }

  /** The record sent for a resolved device: its own descriptor when libusb
      can describe it, and fourteen zeros when it cannot. */
  lemma SentDescriptorCases(dev: NativeDevice)
    ensures dev.descriptor.Some? ==>
      ReflectDescriptor(DescriptorOf(dev)) == ReflectDescriptor(dev.descriptor.value)
    ensures dev.descriptor.None? ==>
      EncodeDescriptor(ReflectDescriptor(DescriptorOf(dev))) == seq(DescriptorWidth, _ => 0)
  {
  }

  /** Every server-side reply is a whole record that the client half decodes
      back to what the server built. */
  lemma ServerRepliesDecode(usb: UsbLibrary, d: NativeDescriptor)
    ensures DecodeDeviceList(EncodeDeviceList(DeviceListOf(usb.devices))) == DeviceListOf(usb.devices)
    ensures DecodeDescriptor(EncodeDescriptor(ReflectDescriptor(d))) == ReflectDescriptor(d)
  {
    DeviceListRoundTrip(DeviceListOf(usb.devices));
  }

  // ---------------------------------------------------------------------------
  // libusb_init
  // ---------------------------------------------------------------------------

  /** irpc_usb_init_recv. A failed load leaves the uninitialised retval,
      modelled as zero. */
  method UsbInitRecv(conn: ConnectionInfo) returns (retval: Int32)
    requires conn.serverSock != null
    modifies conn.serverSock
    ensures Exchanged(conn.serverSock, [Wrote([FnInit])], 1)
    ensures retval == if 1 <= |old(conn.serverSock.inbox)| then old(conn.serverSock.inbox)[0] else 0
  {
    SendPacketType(FnInit, conn.serverSock);
    var r := conn.serverSock.Read(1);
    retval := if r.Some? then r.value[0] else 0;
  }

  /** irpc_usb_init_send: libusb_init's result goes to the client. */
  method UsbInitSend(conn: ConnectionInfo, usb: UsbLibrary)
    requires conn.clientSock != null
    modifies conn.clientSock
    ensures Stepped(conn.clientSock, ServerStep(Init, old(conn.clientSock.inbox), usb))
  {
    conn.clientSock.Write([usb.initResult]);
  }

  /** irpc_usb_init: the server half reports success whatever libusb_init
      returned; the client half returns what the server sent. */
  method UsbInit(ctx: Int32, conn: ConnectionInfo, usb: UsbLibrary) returns (retval: Int32)
    requires ctx == ContextServer ==> conn.clientSock != null
    requires ctx != ContextServer ==> conn.serverSock != null
    modifies if ctx == ContextServer then conn.clientSock else conn.serverSock
    ensures ctx == ContextServer ==>
      retval == RetvalSuccess
      && Stepped(conn.clientSock, ServerStep(Init, old(conn.clientSock.inbox), usb))
    ensures ctx != ContextServer ==>
      Exchanged(conn.serverSock, [Wrote([FnInit])], 1)
      && retval == if 1 <= |old(conn.serverSock.inbox)| then old(conn.serverSock.inbox)[0] else 0
  {
    if ctx == ContextServer {
      UsbInitSend(conn, usb);
      return 0;
    }
    retval := UsbInitRecv(conn);
  }

  // ---------------------------------------------------------------------------
  // libusb_get_device_list
  // ---------------------------------------------------------------------------

  /** irpc_usb_get_device_list_recv: a failed load leaves the list as it was. */
  method GetDeviceListRecv(conn: ConnectionInfo, args: CallArgs)
    requires conn.serverSock != null
    modifies conn.serverSock, args
    ensures Exchanged(conn.serverSock, [Wrote([FnGetDeviceList])], DeviceListWidth)
    ensures var inbox := old(conn.serverSock.inbox);
      args.devlist == if DeviceListWidth <= |inbox|
                      then DecodeDeviceList(inbox[..DeviceListWidth])
                      else old(args.devlist)
    ensures args.dev == old(args.dev) && args.desc == old(args.desc)
  {
    SendPacketType(FnGetDeviceList, conn.serverSock);
    var r := conn.serverSock.Read(DeviceListWidth);
    if r.Some? {
      args.devlist := DecodeDeviceList(r.value);
    }
  }

  /** irpc_usb_get_device_list_send. */
  method GetDeviceListSend(conn: ConnectionInfo, usb: UsbLibrary)
    requires conn.clientSock != null
    modifies conn.clientSock
    ensures Stepped(conn.clientSock, ServerStep(GetDeviceList, old(conn.clientSock.inbox), usb))
  {
    var devlist := BuildDeviceList(usb.devices);
    conn.clientSock.Write(EncodeDeviceList(devlist));
  }

  /** irpc_usb_get_device_list. */
  method UsbGetDeviceList(ctx: Int32, conn: ConnectionInfo, args: CallArgs?, usb: UsbLibrary)
    requires ctx == ContextServer ==> conn.clientSock != null
    requires ctx != ContextServer ==> conn.serverSock != null && args != null
    modifies if ctx == ContextServer then {conn.clientSock} else {conn.serverSock, args}
    ensures ctx == ContextServer ==>
      Stepped(conn.clientSock, ServerStep(GetDeviceList, old(conn.clientSock.inbox), usb))
    ensures ctx != ContextServer ==>
      && Exchanged(conn.serverSock, [Wrote([FnGetDeviceList])], DeviceListWidth)
      && args.devlist == (if DeviceListWidth <= |old(conn.serverSock.inbox)|
                          then DecodeDeviceList(old(conn.serverSock.inbox)[..DeviceListWidth])
                          else old(args.devlist))
      && args.dev == old(args.dev) && args.desc == old(args.desc)
  {
    if ctx == ContextServer {
      GetDeviceListSend(conn, usb);
    } else {
      GetDeviceListRecv(conn, args);
    }
  }

  // ---------------------------------------------------------------------------
  // libusb_get_device_descriptor
  // ---------------------------------------------------------------------------

  /** irpc_usb_get_device_descriptor_recv: send the device, load the
      descriptor; a failed load leaves it as it was. The C function is
      declared to return a retval but has no return statement, so nothing is
      returned here. */
  method GetDeviceDescriptorRecv(conn: ConnectionInfo, args: CallArgs)
    requires conn.serverSock != null
    modifies conn.serverSock, args
    ensures Exchanged(conn.serverSock,
                      [Wrote([FnGetDeviceDescriptor]), Wrote(EncodeDevice(old(args.dev)))],
                      DescriptorWidth)
    ensures var inbox := old(conn.serverSock.inbox);
      args.desc == if DescriptorWidth <= |inbox|
                   then DecodeDescriptor(inbox[..DescriptorWidth])
                   else old(args.desc)
    ensures args.dev == old(args.dev) && args.devlist == old(args.devlist)
  {
    SendPacketType(FnGetDeviceDescriptor, conn.serverSock);
    conn.serverSock.Write(EncodeDevice(args.dev));
    var r := conn.serverSock.Read(DescriptorWidth);
    if r.Some? {
      args.desc := DecodeDescriptor(r.value);
    }
  }

  /** irpc_usb_get_device_descriptor_send: load the device, resolve its
      session_data against a fresh snapshot, and send the descriptor copied
      field for field. The resolution is not checked for NULL: `faulted`
      reports the call that hands NULL to libusb_get_device_descriptor. */
  method GetDeviceDescriptorSend(conn: ConnectionInfo, usb: UsbLibrary) returns (faulted: bool)
    requires conn.clientSock != null
    modifies conn.clientSock
    ensures var st := ServerStep(GetDeviceDescriptor, old(conn.clientSock.inbox), usb);
      Stepped(conn.clientSock, st) && faulted == st.faulted
  {
    var r := conn.clientSock.Read(DeviceWidth);
    var idev := if r.Some? then DecodeDevice(r.value) else ZeroDevice;
    var dev := DeviceWithSessionData(usb.devices, ULongOfInt(idev.sessionData));
    if dev.None? {
      return true;
    }
    var desc := DescriptorOf(dev.value);
    var idesc := Descriptor(desc.bLength, desc.bDescriptorType, desc.bcdUSB,
                            desc.bDeviceClass, desc.bDeviceSubClass, desc.bDeviceProtocol,
                            desc.bMaxPacketSize0, desc.idVendor, desc.idProduct,
                            desc.bcdDevice, desc.iManufacturer, desc.iProduct,
                            desc.iSerialNumber, desc.bNumConfigurations);
    conn.clientSock.Write(EncodeDescriptor(idesc));
    faulted := false;
  }

  /** irpc_usb_get_device_descriptor. */
  method UsbGetDeviceDescriptor(ctx: Int32, conn: ConnectionInfo, args: CallArgs?, usb: UsbLibrary)
    returns (faulted: bool)
    requires ctx == ContextServer ==> conn.clientSock != null
    requires ctx != ContextServer ==> conn.serverSock != null && args != null
    modifies if ctx == ContextServer then {conn.clientSock} else {conn.serverSock, args}
    ensures ctx == ContextServer ==>
      var st := ServerStep(GetDeviceDescriptor, old(conn.clientSock.inbox), usb);
      Stepped(conn.clientSock, st) && faulted == st.faulted
    ensures ctx != ContextServer ==>
      && !faulted
      && Exchanged(conn.serverSock,
                   [Wrote([FnGetDeviceDescriptor]), Wrote(EncodeDevice(old(args.dev)))],
                   DescriptorWidth)
      && args.desc == (if DescriptorWidth <= |old(conn.serverSock.inbox)|
                       then DecodeDescriptor(old(conn.serverSock.inbox)[..DescriptorWidth])
                       else old(args.desc))
      && args.dev == old(args.dev) && args.devlist == old(args.devlist)
  {
    if ctx == ContextServer {
      faulted := GetDeviceDescriptorSend(conn, usb);
    } else {
      GetDeviceDescriptorRecv(conn, args);
      faulted := false;
    }
  }

  // ---------------------------------------------------------------------------
  // Public API
  // ---------------------------------------------------------------------------

  datatype Role = Client | Server

  /** The role selectors test for the server context only. */
  function RoleOf(ctx: Int32): (r: Role)
    ensures r == Server <==> ctx == ContextServer
  {
    if ctx == ContextServer then Server else Client
  }

  datatype Target = Handler(f: FunctionId, role: Role) | NoHandler

  /** The dispatch table of irpc_usb_call and the role selectors: which half
      of which operation runs for a function id and a context. */
  function DispatchTarget(fn: Int32, ctx: Int32): (t: Target)
    ensures t.NoHandler? <==> !(FnInit <= fn <= FnGetDeviceDescriptor)
    ensures t.Handler? ==> t.f.Code() == fn && (t.role == Server <==> ctx == ContextServer)
  {
    match FunctionIdOf(fn)
    case None => NoHandler
    case Some(f) => Handler(f, RoleOf(ctx))
  }

  /** The objects a call may change: the accepted socket for a server half,
      the server connection and the out-structs for a client half. */
  function CallFrame(fn: Int32, ctx: Int32, conn: ConnectionInfo, args: CallArgs?): set<object?>
  {
    match DispatchTarget(fn, ctx)
    case NoHandler => {}
    case Handler(_, Server) => {conn.clientSock}
    case Handler(_, Client) => {conn.serverSock, args}
  }

  /** irpc_usb_call. The retval starts as SUCCESS; only INIT replaces it
      with its handler's result, and an unknown id yields FAILURE. */
  method UsbCall(fn: Int32, ctx: Int32, conn: ConnectionInfo, args: CallArgs?, usb: UsbLibrary)
    returns (outcome: CallOutcome)
    requires DispatchTarget(fn, ctx).Handler? && ctx == ContextServer ==> conn.clientSock != null
    requires DispatchTarget(fn, ctx).Handler? && ctx != ContextServer ==> conn.serverSock != null
    requires fn in {FnGetDeviceList, FnGetDeviceDescriptor} && ctx != ContextServer ==> args != null
    modifies CallFrame(fn, ctx, conn, args)
    ensures DispatchTarget(fn, ctx).NoHandler? ==> outcome == Returned(RetvalFailure)
    ensures ctx == ContextServer && DispatchTarget(fn, ctx).Handler? ==>
      var st := ServerStep(DispatchTarget(fn, ctx).f, old(conn.clientSock.inbox), usb);
      && Stepped(conn.clientSock, st)
      && outcome == if st.faulted then Faulted else Returned(RetvalSuccess)
    ensures ctx != ContextServer && fn == FnInit ==>
      && Exchanged(conn.serverSock, [Wrote([FnInit])], 1)
      && outcome == Returned(if 1 <= |old(conn.serverSock.inbox)| then old(conn.serverSock.inbox)[0] else 0)
    ensures ctx != ContextServer && fn == FnGetDeviceList ==>
      && outcome == Returned(RetvalSuccess)
      && Exchanged(conn.serverSock, [Wrote([FnGetDeviceList])], DeviceListWidth)
      && args.devlist == (if DeviceListWidth <= |old(conn.serverSock.inbox)|
                          then DecodeDeviceList(old(conn.serverSock.inbox)[..DeviceListWidth])
                          else old(args.devlist))
      && args.dev == old(args.dev) && args.desc == old(args.desc)
    ensures ctx != ContextServer && fn == FnGetDeviceDescriptor ==>
      && outcome == Returned(RetvalSuccess)
      && Exchanged(conn.serverSock,
                   [Wrote([FnGetDeviceDescriptor]), Wrote(EncodeDevice(old(args.dev)))],
                   DescriptorWidth)
      && args.desc == (if DescriptorWidth <= |old(conn.serverSock.inbox)|
                       then DecodeDescriptor(old(conn.serverSock.inbox)[..DescriptorWidth])
                       else old(args.desc))
      && args.dev == old(args.dev) && args.devlist == old(args.devlist)
  {
    var retval := RetvalSuccess;
    match FunctionIdOf(fn) {
      case Some(Init) =>
        retval := UsbInit(ctx, conn, usb);
      case Some(GetDeviceList) =>
        UsbGetDeviceList(ctx, conn, args, usb);
      case Some(GetDeviceDescriptor) =>
        var faulted := UsbGetDeviceDescriptor(ctx, conn, args, usb);
        if faulted {
          return Faulted;
        }
      case None =>
        retval := RetvalFailure;
    }
    outcome := Returned(retval);
  }
}
