# libirpc in Dafny

libirpc forwards three libusb calls from a client process to a server process
over a TCP socket: `libusb_init`, `libusb_get_device_list` and
`libusb_get_device_descriptor`. Each call is one function id sent as a
record. A context argument selects which half of an operation runs. The
client half sends the request and loads a reply into caller-owned structs.
The server half queries libusb and sends the reply. This project models:

- the constants and records of `libirpc.h`;
- the record shapes the tpl format strings put on the wire;
- the six halves, the dispatcher `irpc_usb_call`, the device-list builder and
  the session resolver of `libirpc.c`;
- the connection loop of `irpc_server.c`;
- the recovery-device finder of `irpc_find_idevice.c`.

Files:

- `irpc_types.dfy` (module `IrpcTypes`):
  - C `int` is `Int32`; libusb's `uint8_t`/`uint16_t` fields are `U8`/`U16`;
    `unsigned long` is `U64` (LP64);
  - the enums and `IRPC_MAX_DEVS`;
  - the device, device-list and descriptor records;
  - the two conversions between `int` and `unsigned long` that the code
    relies on without saying so: storing wraps modulo 2^32, passing back
    sign-extends.
- `wire.dfy` (module `Wire`): each record as the sequence of ints its format
  string lays out, with encoders, decoders and round trips. The tpl byte
  format itself is not modelled.
- `channel.dfy` (module `Channel`): a connected socket as a class. It holds
  the trace of records written and loaded, the ints the peer sent that are
  still unread, and how often it was closed. A load that finds fewer ints
  than its record needs fails, and the connection is then used up.
- `engine.dfy` (module `Engine`): `libirpc.c`. libusb is replaced by its
  answers, a `UsbLibrary` value holding the `libusb_init` result and the
  enumerated devices. Each server half is specified by the function
  `ServerStep`. Each client half is specified by what it writes, what it
  loads and what it stores.
- `server.dfy` (module `Server`): `server_loop`. `TurnOf` is one pass of the
  `while (1)` body. `ServeFrom`/`Serve` give the whole run on the ints the
  client sends. The methods are proved against them.
- `find_idevice.dfy` (module `FindIdevice`): `try_to_find_idevice` as a loop
  proved against the recursive `ScanFrom`, plus the exits of `main`.

Behaviours of the code that the model keeps as written:

- The server half of INIT reports success whatever `libusb_init` returned.
  The client half returns the server's value.
- `irpc_usb_get_device_descriptor_recv` is declared to return a retval but has
  no `return` statement. The model returns nothing, and `irpc_usb_call`, which
  casts the call to `void`, reports SUCCESS.
- The device list always travels with all 256 slots. Slots after `n_devs`
  are zero.
- `session_data` is an `unsigned long` in libusb but an `int` in the record.
  A device whose session_data is at least 2^31 and below 2^64−2^31 is looked
  up under a different value, and can come back as another device
  (`TruncatedSessionResolvesElsewhere`).
- The server never checks the resolver's NULL before passing it to
  `libusb_get_device_descriptor`. The model ends that call with `Faulted`,
  and the loop with `NullDevice`.
- The result of `libusb_get_device_descriptor` is not checked either. A
  device libusb cannot describe has no descriptor in the model
  (`descriptor == None`), and the server sends its uninitialised local
  struct, modelled as fourteen zeros (`DescriptorOf`, `SentDescriptorCases`).
- The descriptor record has 14 ints and no retval field.
- Only three operations exist: INIT, GET_DEVICE_LIST and
  GET_DEVICE_DESCRIPTOR. Any other id gives FAILURE.
- The server loop leaves after the first GET_DEVICE_DESCRIPTOR, and only then
  closes the client's socket. Unknown ids are skipped.
- The header's comments on `IRPC_RETVAL_FAILURE` and `IRPC_RETVAL_SUCCESS`
  are swapped. The code uses the names, and so does the model.
- Fields left uninitialised after a failed load are modelled as zero: the
  client's INIT retval and the server's requested device.

## Model

| member | source | states |
|---|---|---|
| IrpcTypes.FunctionIdOf | libirpc.c:254-267 | an id selects an operation exactly when it is 0, 1 or 2, and that operation's code is the id |
| IrpcTypes.FunctionId.Code | libirpc.h:14-18 | each operation's enum value is 0, 1 or 2 |
| IrpcTypes.FunctionIdCodeRoundTrip | libirpc.h:14-18 | each operation's enum value selects that operation again |
| IrpcTypes.IntOfULong | libirpc.c:115 | storing `session_data` into the `int` field keeps it modulo 2^32 |
| IrpcTypes.ULongOfInt | libirpc.c:201 | passing the `int` back as `unsigned long` keeps it modulo 2^64 |
| IrpcTypes.IntThroughULong | libirpc.c:201 | every `int` survives the trip through `unsigned long` and back |
| IrpcTypes.ULongThroughInt | libirpc.h:41 | an `unsigned long` survives the trip through `int` exactly when it is below 2^31 or within 2^31 of 2^64 |
| IrpcTypes.SessionDataCollision | libirpc.h:41 | session values 0 and 2^32 become the same `int` |
| Wire.EncodeDevice | libirpc.h:37-42 | a device record is 4 ints |
| Wire.EncodeDescriptor | libirpc.h:51-66 | a descriptor record is 14 ints |
| Wire.DecodeDevice | libirpc.c:195-197 | a 4-int record loaded as a device, field by field in record order; its meaning is stated by DeviceRoundTrip and DeviceRecordRoundTrip |
| Wire.DecodeDescriptor | libirpc.c:158-160 | a 14-int record loaded as a descriptor, field by field in record order; its meaning is stated by DescriptorRoundTrip and DescriptorRecordRoundTrip |
| Wire.DecodeDeviceList | libirpc.c:89-94 | a list record loaded as a count and 256 device slots; its meaning is stated by DeviceListRoundTrip and DeviceListRecordRoundTrip |
| Wire.EncodeDevices | libirpc.h:47 | the device array takes 4 ints per slot |
| Wire.DecodeDevices | libirpc.c:89-92 | a run of 4-int records decodes to one device per record |
| Wire.EncodeDeviceList | libirpc.c:120-123 | a list record is 1 + 256*4 ints, whatever the count |
| Wire.DeviceRoundTrip | libirpc.c:153-155 | a device the client sends is decoded back unchanged by the server |
| Wire.DeviceRecordRoundTrip | libirpc.c:195-197 | every 4-int record is the encoding of the device it decodes to |
| Wire.DescriptorRoundTrip | libirpc.c:222-224 | a descriptor the server sends is decoded back unchanged by the client |
| Wire.DescriptorRecordRoundTrip | libirpc.c:158-160 | every 14-int record is the encoding of the descriptor it decodes to |
| Wire.DevicesRoundTrip | libirpc.h:47 | an encoded device array decodes back to the same slots |
| Wire.DeviceRecordsRoundTrip | libirpc.h:47 | every run of 4-int records is the encoding of its decoding |
| Wire.EncodeDevicesAt | libirpc.c:120-123 | slot k of the array occupies ints 4k to 4k+3 of the record |
| Wire.DeviceListRoundTrip | libirpc.c:89-95 | the list the server dumps is loaded back unchanged, for every count |
| Wire.DeviceListRecordRoundTrip | libirpc.c:120-125 | every list-shaped record is the encoding of its decoding |
| Channel.ReadEvent | libirpc.c:46-48 | a load succeeds exactly when the whole record is there, and then takes the next n ints |
| Channel.AfterRead | libirpc.c:46-48 | a load never adds unread input, and a load of a non-empty inbox always consumes some |
| Channel.Socket.Write | libirpc.c:28-31 | a dump appends one whole record to the trace and nothing else changes |
| Channel.Socket.Read | libirpc.c:46-49 | a load returns the next n ints exactly when there are n, records the outcome, and consumes the input |
| Channel.Socket.Close | irpc_server.c:91 | closing counts one close and changes nothing else |
| Engine.SendPacketType | libirpc.c:25-32 | the function id goes out as one one-int record |
| Engine.ReflectDevice | libirpc.c:112-115 | the four fields copied from a libusb device, session_data stored into an `int` |
| Engine.ReflectDescriptor | libirpc.c:206-220 | the descriptor record built from the libusb descriptor; stated field by field by ReflectDescriptorFaithful |
| Engine.ReflectDescriptorFaithful | libirpc.c:206-220 | the server copies each of the 14 descriptor fields unchanged |
| Engine.DeviceListOf | libirpc.c:104-117 | the list built from an enumeration counts min(enumerated, 256) devices |
| Engine.BuildDeviceList | libirpc.c:101-117 | the count is min(enumerated, 256); slot k is enumerated device k's four fields; later slots stay zero |
| Engine.Resolve | libirpc.c:164-186 | whatever the resolver returns is an enumerated device with the requested session_data |
| Engine.ResolveFindsFirst | libirpc.c:172-179 | the resolver returns the first device whose session_data matches |
| Engine.ResolveNotFound | libirpc.c:168-185 | the resolver returns NULL exactly when no device matches |
| Engine.ResolveIsFirstMatch | libirpc.c:172-179 | whatever the resolver returns matches, and no earlier device does |
| Engine.DeviceWithSessionData | libirpc.c:164-186 | the loop's result is the first match of the fresh snapshot, and NULL exactly when nothing matches |
| Engine.ListedDeviceResolves | libirpc.c:201 | a listed device that is the first with its session value, and whose value fits an `int`, is found again from its record |
| Engine.TruncatedSessionResolvesElsewhere | libirpc.c:115 | a listed device with session_data 2^32 is resolved as the device with session_data 0 |
| Engine.DescriptorOf | libirpc.c:203-204 | the local descriptor the server copies: libusb's answer, or zero when libusb cannot describe the device |
| Engine.SentDescriptorCases | libirpc.c:203-224 | a described device is sent its own descriptor; an undescribed one is sent fourteen zeros |
| Engine.RequestedDevice | libirpc.c:191-197 | the requested device is the one whose encoding is the next 4 ints, or zero when fewer than 4 are left |
| Engine.ServerStep | libirpc.c:54-226 | the server halves INIT (54-63), GET_DEVICE_LIST (98-127) and GET_DEVICE_DESCRIPTOR (188-226); none reads more than the input holds |
| Engine.DescriptorRequestAnswered | libirpc.c:189-226 | a request for such a listed device consumes 4 ints and answers with that device's descriptor |
| Engine.ServerRepliesDecode | libirpc.c:98-127 | both server replies decode on the client to exactly what the server built |
| Engine.UsbInitRecv | libirpc.c:38-52 | sends INIT, loads one int, and returns it (zero if the load fails) |
| Engine.UsbInitSend | libirpc.c:54-63 | writes libusb_init's result as one record |
| Engine.UsbInit | libirpc.c:65-75 | the server half writes the init result and returns 0; the client half returns what it loads |
| Engine.GetDeviceListRecv | libirpc.c:81-96 | sends the id, loads one list record into the caller's list, and leaves the other structs alone |
| Engine.GetDeviceListSend | libirpc.c:98-127 | writes the encoded list built from the enumeration |
| Engine.UsbGetDeviceList | libirpc.c:129-138 | the context selects the send or the receive half, each with its effect |
| Engine.GetDeviceDescriptorRecv | libirpc.c:144-162 | sends the id and the caller's device, then loads one descriptor record into the caller's descriptor |
| Engine.GetDeviceDescriptorSend | libirpc.c:188-226 | loads a device, resolves its session value, and sends its descriptor (zero when libusb cannot describe it) or faults on NULL |
| Engine.UsbGetDeviceDescriptor | libirpc.c:228-238 | the context selects the send or the receive half, each with its effect |
| Engine.RoleOf | libirpc.c:69 | only the server context selects the server half |
| Engine.DispatchTarget | libirpc.c:254-266 | no handler exactly for unknown ids; otherwise the operation named by the id, in the role named by the context |
| Engine.UsbCall | libirpc.c:244-270 | unknown ids give FAILURE, INIT gives its half's retval, the other two give SUCCESS; each runs its half with that half's effect, or faults |
| Server.TurnOf | irpc_server.c:67-88 | a pass that does not stop consumes input, and no pass ends with a select or accept failure |
| Server.KnownIds | irpc_server.c:75-87 | the ids kept are only those the switch dispatches, and there are no more of them than ids |
| Server.KnownIdsExactly | irpc_server.c:75-87 | an id is kept exactly when it occurs in the stream and the switch dispatches it |
| Server.ServeFrom | irpc_server.c:66-88 | the loop from some point on, pass after pass until one stops; its properties are the ServeFrom lemmas below |
| Server.Serve | irpc_server.c:66-88 | the loop on a whole stream, from no earlier passes; its properties are the Serve lemmas below |
| Server.ServeFromExtends | irpc_server.c:66-89 | later passes only append to what earlier passes wrote and dispatched |
| Server.ServeAnswersInit | irpc_server.c:76-78 | an INIT request is answered with libusb_init's result and is dispatched first |
| Server.ServeAnswersListedDevice | irpc_server.c:82-84 | a request for a resolvable listed device is answered with its descriptor and the loop ends with the socket to close |
| Server.ServeFromStopsAtFirstDescriptor | irpc_server.c:66-89 | with earlier passes accounted for, the known ids before the first descriptor request are dispatched, that request is the last, and only its 4 ints are read after it |
| Server.ServeStopsAtFirstDescriptor | irpc_server.c:66-89 | the known ids before the first descriptor request are dispatched, that request is the last, and only its 4 ints are read after it |
| Server.ServeFromWithoutDescriptor | irpc_server.c:66-89 | with earlier passes accounted for, without a descriptor request every known id is dispatched and the loop reads to the end |
| Server.ServeWithoutDescriptor | irpc_server.c:66-89 | without a descriptor request every known id is dispatched in order and the loop reads to the end of the stream |
| Server.ServeFromEndsIffDescriptor | irpc_server.c:82-89 | from any point, the loop reaches `done` or faults exactly when a descriptor request is still to come |
| Server.ServeEndsIffDescriptor | irpc_server.c:82-89 | the loop reaches `done` or faults exactly when the stream holds a descriptor request |
| Server.ServeTurn | irpc_server.c:67-88 | one pass loads an id, dispatches it in the server role, and stops exactly as TurnOf says |
| Server.ServeConnection | irpc_server.c:66-89 | the loop's ids, trace, leftover input and ending are those of Serve |
| Server.ServerLoop | irpc_server.c:47-92 | select or accept failures return untouched; otherwise the run is Serve's, and the socket is closed exactly at `done` |
| FindIdevice.IsRecoveryDevice | irpc_find_idevice.c:113-119 | an Apple device whose product id is one of the four recovery ids or the DFU id |
| FindIdevice.ScanFrom | irpc_find_idevice.c:106-126 | the `for` loop from index i on; its outcomes are stated by ScanFromOutcome |
| FindIdevice.Scan | irpc_find_idevice.c:106-126 | the scan from the first slot; its outcomes are stated by ScanFromOutcome and FoundIsFirst |
| FindIdevice.ScanFromOutcome | irpc_find_idevice.c:106-126 | Found is the first successful recovery device, CallFailed the first failing call, NotFound means every listed device was passed, OutOfRange a count past the array |
| FindIdevice.FoundIsFirst | irpc_find_idevice.c:109-123 | a successfully answered recovery device at slot j makes the scan stop at j or earlier |
| FindIdevice.CallCountBounded | irpc_find_idevice.c:107 | the scan makes at most 256 descriptor calls |
| FindIdevice.Info.constructor | irpc_find_idevice.c:136 | `bzero` leaves an empty list, a zero device and a zero descriptor |
| FindIdevice.TryToFindIdevice | irpc_find_idevice.c:93-127 | the loop's outcome is Scan's, and it sends the listed devices in slot order, once each, up to where it stops; `info->dev` and `info->desc` hold the last call's device and reply, or are untouched when no call was made |
| FindIdevice.FindIdeviceMain | irpc_find_idevice.c:129-158 | fewer than 3 arguments exit with the failure value, a negative init retval with 1, otherwise the scan runs and the exit is 0 |

## Left out

- Socket creation, connect, bind, listen, setsockopt, select and accept are OS plumbing. `ServerLoop` takes the results of select and accept as parameters.
- The tpl byte format, framing and `tpl_free` are not modelled. A load either yields a whole record of ints or fails.
- libusb is not modelled. It becomes a `UsbLibrary` value: the `libusb_init` result and one enumeration, which every `libusb_get_device_list` call of a session sees. Hot-plugging during a session is therefore not modelled.
- The global `irpc_ctx` is not modelled, and neither are the unfreed device lists.
- `printf` and `fprintf` messages are left out.
- `irpc_client.c` is not part of this model.
- GetDeviceDescriptorSend: handing NULL to `libusb_get_device_descriptor` is undefined behaviour in C. The model ends the call with `Faulted` and does not go further.
- GetDeviceDescriptorSend: when `libusb_get_device_descriptor` fails, C sends whatever the uninitialised local struct holds. The model sends zeros.
- ServeConnection: when the load of a function id fails, the C loop goes on switching on the stale id. The model stops with `StreamEnded` and does not close the socket.
- UsbInitRecv: the retval left uninitialised by a failed load is modelled as zero. The same holds for the server's requested device (`RequestedDevice`).
- The connection structs in the C code are plain ints, and the unused socket is left unset. The model uses a null `Socket?`.
- The client halves write into caller-owned structs. The model gathers them into one `CallArgs` object.
- `irpc_find_idevice.c` is written against a second interface: `irpc_call`, `struct irpc_info`, `IRPC_FAILURE` and `IRPC_USB_EXIT`, and the libirecovery ids. None of these is defined in the modelled files.
  - The descriptor call is a parameter `ask`.
  - The failure value and the ids are parameters.
  - The list uses the 256-slot layout of `libirpc.h`.
  - A count above 256 stops the model with `OutOfRange`, where the C loop would read past the array.
- TryToFindIdevice: `listed` is what the GET_DEVICE_LIST call leaves in `info->devlist`.
- FindIdeviceMain: `connect_or_die`, `usb_init` as a socket exchange (only its retval is a parameter), and `usb_exit` are not modelled.
