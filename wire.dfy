/** The record shapes that the engine's `tpl_map` format strings put on the
    wire, as sequences of C ints: "i" is one int, "S(iiii)" a device,
    "S(iiiiiiiiiiiiii)" a descriptor and "iS(iiii)#" with IRPC_MAX_DEVS a
    count followed by the full fixed-size array of devices. */
module Wire {
  import opened IrpcTypes

  const DeviceWidth: nat := 4
  const DescriptorWidth: nat := 14
  const DeviceListWidth: nat := 1 + MaxDevs * DeviceWidth

  function EncodeDevice(d: Device): (s: seq<Int32>)
    ensures |s| == DeviceWidth
  {
    [d.busNumber, d.deviceAddress, d.numConfigurations, d.sessionData]
  }

  function DecodeDevice(s: seq<Int32>): Device
    requires |s| == DeviceWidth
  {
    Device(s[0], s[1], s[2], s[3])
  }

  lemma DeviceRoundTrip(d: Device)
    ensures DecodeDevice(EncodeDevice(d)) == d
  {
  }

  lemma DeviceRecordRoundTrip(s: seq<Int32>)
    requires |s| == DeviceWidth
    ensures EncodeDevice(DecodeDevice(s)) == s
  {
  }

  function EncodeDescriptor(d: Descriptor): (s: seq<Int32>)
    ensures |s| == DescriptorWidth
  {
    [d.bLength, d.bDescriptorType, d.bcdUSB, d.bDeviceClass, d.bDeviceSubClass,
     d.bDeviceProtocol, d.bMaxPacketSize0, d.idVendor, d.idProduct, d.bcdDevice,
     d.iManufacturer, d.iProduct, d.iSerialNumber, d.bNumConfigurations]
  }

  function DecodeDescriptor(s: seq<Int32>): Descriptor
    requires |s| == DescriptorWidth
  {
    Descriptor(s[0], s[1], s[2], s[3], s[4], s[5], s[6],
               s[7], s[8], s[9], s[10], s[11], s[12], s[13])
  }

  lemma DescriptorRoundTrip(d: Descriptor)
    ensures DecodeDescriptor(EncodeDescriptor(d)) == d
  {
  }

  lemma DescriptorRecordRoundTrip(s: seq<Int32>)
    requires |s| == DescriptorWidth
    ensures EncodeDescriptor(DecodeDescriptor(s)) == s
  {
  }

  /** The devices of an array, one fixed-width record after another. */
  function EncodeDevices(ds: seq<Device>): (s: seq<Int32>)
    ensures |s| == DeviceWidth * |ds|
  {
    if ds == [] then [] else EncodeDevice(ds[0]) + EncodeDevices(ds[1..])
  }

  function DecodeDevices(s: seq<Int32>): (ds: seq<Device>)
    requires |s| % DeviceWidth == 0
    ensures |ds| * DeviceWidth == |s|
    decreases |s|
  {
    if s == [] then []
    else [DecodeDevice(s[..DeviceWidth])] + DecodeDevices(s[DeviceWidth..])
  }

  lemma {:induction false} DevicesRoundTrip(ds: seq<Device>)
    ensures DecodeDevices(EncodeDevices(ds)) == ds
  {
    if ds != [] {
      var s := EncodeDevices(ds);
      assert s[..DeviceWidth] == EncodeDevice(ds[0]);
      assert s[DeviceWidth..] == EncodeDevices(ds[1..]);
      DevicesRoundTrip(ds[1..]);
    }
  }

  lemma {:induction false} DeviceRecordsRoundTrip(s: seq<Int32>)
    requires |s| % DeviceWidth == 0
    ensures EncodeDevices(DecodeDevices(s)) == s
    decreases |s|
  {
    if s != [] {
      var ds := DecodeDevices(s);
      assert ds[0] == DecodeDevice(s[..DeviceWidth]);
      assert ds[1..] == DecodeDevices(s[DeviceWidth..]);
      DeviceRecordsRoundTrip(s[DeviceWidth..]);
      assert s == s[..DeviceWidth] + s[DeviceWidth..];
    }
  }

  /** Slot k of an encoded array occupies ints DeviceWidth*k .. DeviceWidth*k+3. */
  lemma {:induction false} EncodeDevicesAt(ds: seq<Device>, k: nat)
    requires k < |ds|
    ensures EncodeDevices(ds)[DeviceWidth * k..DeviceWidth * k + DeviceWidth]
            == EncodeDevice(ds[k])
  {
    if k > 0 {
      var s := EncodeDevices(ds);
      EncodeDevicesAt(ds[1..], k - 1);
      assert s[DeviceWidth..] == EncodeDevices(ds[1..]);
      assert s[DeviceWidth * k..DeviceWidth * k + DeviceWidth]
          == s[DeviceWidth..][DeviceWidth * (k - 1)..DeviceWidth * (k - 1) + DeviceWidth];
    }
  }

  function EncodeDeviceList(l: DeviceList): (s: seq<Int32>)
    ensures |s| == DeviceListWidth
  {
    [l.nDevs] + EncodeDevices(l.devs)
  }

  function DecodeDeviceList(s: seq<Int32>): DeviceList
    requires |s| == DeviceListWidth
  {
    DeviceList(s[0], DecodeDevices(s[1..]))
  }

  /** The device list round trip, for every count including those above
      MaxDevs: the array always travels whole. */
  lemma DeviceListRoundTrip(l: DeviceList)
    ensures DecodeDeviceList(EncodeDeviceList(l)) == l
  {
    var s := EncodeDeviceList(l);
    assert s[1..] == EncodeDevices(l.devs);
    DevicesRoundTrip(l.devs);
  }

  lemma DeviceListRecordRoundTrip(s: seq<Int32>)
    requires |s| == DeviceListWidth
    ensures EncodeDeviceList(DecodeDeviceList(s)) == s
  {
    DeviceRecordsRoundTrip(s[1..]);
    assert s == [s[0]] + s[1..];
  }
}
