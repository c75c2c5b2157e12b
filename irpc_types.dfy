/** Constants, enumerations and records of the RPC engine (libirpc.h), and the
    libusb records the server copies them from. */
module IrpcTypes {

  datatype Option<T> = None | Some(value: T)

  /** A C `int`: 32-bit two's complement on every platform the code targets. */
  type Int32 = x: int | -0x8000_0000 <= x < 0x8000_0000
  /** libusb's `uint8_t` and `uint16_t` descriptor and device fields. */
  type U8 = x: int | 0 <= x < 0x100
  type U16 = x: int | 0 <= x < 0x1_0000
  /** A C `unsigned long` on an LP64 platform (libusb's `session_data`). */
  type U64 = x: int | 0 <= x < 0x1_0000_0000_0000_0000

  /** IRPC_MAX_DEVS: the fixed number of slots in a device list. */
  const MaxDevs: nat := 256

  /** enum irpc_usb_type, numbered in declaration order. */
  const FnInit: Int32 := 0
  const FnGetDeviceList: Int32 := 1
  const FnGetDeviceDescriptor: Int32 := 2

  /** enum irpc_usb_context: selects which half of a handler runs. */
  const ContextClient: Int32 := 0
  const ContextServer: Int32 := 1

  /** enum irpc_usb_retval. The header's comments call FAILURE "success" and
      SUCCESS "failed"; the names, not the comments, are what the code uses. */
  const RetvalFailure: Int32 := -1
  const RetvalSuccess: Int32 := 0

  /** The three remote operations of the engine. */
  datatype FunctionId = Init | GetDeviceList | GetDeviceDescriptor {
    function Code(): (c: Int32)
      ensures FnInit <= c <= FnGetDeviceDescriptor
    {
      match this
      case Init => FnInit
      case GetDeviceList => FnGetDeviceList
      case GetDeviceDescriptor => FnGetDeviceDescriptor
    }
  }

  /** The `switch` on a received id: one of the three operations, or none. */
  function FunctionIdOf(c: Int32): (r: Option<FunctionId>)
    ensures r.Some? <==> FnInit <= c <= FnGetDeviceDescriptor
    ensures r.Some? ==> r.value.Code() == c
  {
    if c == FnInit then Some(Init)
    else if c == FnGetDeviceList then Some(GetDeviceList)
    else if c == FnGetDeviceDescriptor then Some(GetDeviceDescriptor)
    else None
  }

  lemma FunctionIdCodeRoundTrip(f: FunctionId)
    ensures FunctionIdOf(f.Code()) == Some(f)
  {
  }

  /** struct irpc_usb_device: a value surrogate for a libusb device.
      `sessionData` is the only field that identifies the device. */
  datatype Device = Device(busNumber: Int32, deviceAddress: Int32,
                           numConfigurations: Int32, sessionData: Int32)

  const ZeroDevice := Device(0, 0, 0, 0)

  /** The `devs` array of struct irpc_usb_device_list: always MaxDevs slots. */
  type DeviceSlots = s: seq<Device> | |s| == MaxDevs
    witness seq(MaxDevs, _ => ZeroDevice)

  /** struct irpc_usb_device_list: a count and a fixed array of slots. */
  datatype DeviceList = DeviceList(nDevs: Int32, devs: DeviceSlots)

  /** A device list after `bzero`. */
  const EmptyDeviceList := DeviceList(0, seq(MaxDevs, _ => ZeroDevice))

  /** struct irpc_usb_device_descriptor: the 14 fields of a USB device
      descriptor, in the order the header declares them. */
  datatype Descriptor = Descriptor(
    bLength: Int32, bDescriptorType: Int32, bcdUSB: Int32, bDeviceClass: Int32,
    bDeviceSubClass: Int32, bDeviceProtocol: Int32, bMaxPacketSize0: Int32,
    idVendor: Int32, idProduct: Int32, bcdDevice: Int32, iManufacturer: Int32,
    iProduct: Int32, iSerialNumber: Int32, bNumConfigurations: Int32)

  const ZeroDescriptor := Descriptor(0, 0, 0, 0, 0, 0, 0, 0, 0, 0, 0, 0, 0, 0)

  /** libusb's struct libusb_device_descriptor, with its field widths. */
  datatype NativeDescriptor = NativeDescriptor(
    bLength: U8, bDescriptorType: U8, bcdUSB: U16, bDeviceClass: U8,
    bDeviceSubClass: U8, bDeviceProtocol: U8, bMaxPacketSize0: U8,
    idVendor: U16, idProduct: U16, bcdDevice: U16, iManufacturer: U8,
    iProduct: U8, iSerialNumber: U8, bNumConfigurations: U8)

  const ZeroNativeDescriptor := NativeDescriptor(0, 0, 0, 0, 0, 0, 0, 0, 0, 0, 0, 0, 0, 0)

  /** The fields of libusb's internal struct libusb_device that the engine
      reads, together with what libusb_get_device_descriptor reports for it:
      the descriptor, or None when that call fails. */
  datatype NativeDevice = NativeDevice(busNumber: U8, deviceAddress: U8,
                                       numConfigurations: U8, sessionData: U64,
                                       descriptor: Option<NativeDescriptor>)

  /** Storing an `unsigned long` into an `int` field: the value is reduced
      modulo 2^32 into the signed range, as the compilers the code is built
      with do. */
  function IntOfULong(x: U64): (r: Int32)
    ensures (r - x) % 0x1_0000_0000 == 0
  {
    var m := x % 0x1_0000_0000;
    if m < 0x8000_0000 then m else m - 0x1_0000_0000
  }

  /** Passing an `int` where an `unsigned long` is expected: negative values
      are sign-extended, that is, taken modulo 2^64. */
  function ULongOfInt(x: Int32): (r: U64)
    ensures (r - x) % 0x1_0000_0000_0000_0000 == 0
  {
    if x < 0 then x + 0x1_0000_0000_0000_0000 else x
  }

  /** Every `int` survives a trip through `unsigned long` and back. */
  lemma IntThroughULong(x: Int32)
    ensures IntOfULong(ULongOfInt(x)) == x
  {
    if x < 0 {
      assert (x + 0x1_0000_0000_0000_0000) % 0x1_0000_0000 == x + 0x1_0000_0000;
    }
  }

  /** An `unsigned long` survives the trip through `int` exactly when it is
      below 2^31 or within 2^31 of 2^64. */
  lemma ULongThroughInt(x: U64)
    ensures ULongOfInt(IntOfULong(x)) == x
            <==> x < 0x8000_0000 || x >= 0x1_0000_0000_0000_0000 - 0x8000_0000
  {
    var m := x % 0x1_0000_0000;
    if m >= 0x8000_0000 {
      assert ULongOfInt(IntOfULong(x)) == m - 0x1_0000_0000 + 0x1_0000_0000_0000_0000;
    }
  }

  /** Two distinct session values that the `int` field cannot tell apart. */
  lemma SessionDataCollision()
    ensures IntOfULong(0x1_0000_0000) == IntOfULong(0)
  {
  }
}
