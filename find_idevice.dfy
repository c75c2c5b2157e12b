/** The recovery-device finder (irpc_find_idevice.c): a client that fetches
    the server's device list and asks for each listed device's descriptor,
    in order, until it meets an Apple device in recovery or DFU mode.

    This client is written against a second RPC interface (`irpc_call`,
    `struct irpc_info`, `IRPC_FAILURE`) and against libirecovery's product
    ids, neither of which is defined in the files modelled here. The call is
    therefore a parameter, and so are the ids and the failure value. */
module FindIdevice {
  import opened IrpcTypes

  /** APPLE_VENDOR_ID and the five libirecovery product ids
      kRecoveryMode1..4 and kDfuMode. */
  datatype RecoveryIds = RecoveryIds(appleVendorId: int, recoveryMode1: int, recoveryMode2: int,
                                     recoveryMode3: int, recoveryMode4: int, dfuMode: int)

  /** An Apple device whose product id is one of the recovery or DFU ids. */
  predicate IsRecoveryDevice(desc: Descriptor, ids: RecoveryIds)
  {
    && desc.idVendor == ids.appleVendorId
    && (|| desc.idProduct == ids.recoveryMode1
        || desc.idProduct == ids.recoveryMode2
        || desc.idProduct == ids.recoveryMode3
        || desc.idProduct == ids.recoveryMode4
        || desc.idProduct == ids.dfuMode)
  }

  /** What one GET_DEVICE_DESCRIPTOR call gives back: its retval, and the
      descriptor it leaves in `info->desc`. */
  datatype Reply = Reply(retval: int, desc: Descriptor)

  /** How the scan ends. OutOfRange is a count above the array's MaxDevs
      slots: the C loop would read past the array, and the model stops. */
  datatype ScanResult = Found(index: nat) | NotFound | CallFailed(index: nat) | OutOfRange

  /** The descriptor call for slot j. `ask` answers the i-th call, made for the
      device sent with it. */
  function ReplyAt(devlist: DeviceList, ask: (nat, Device) -> Reply, j: nat): Reply
    requires j < MaxDevs
  {
    ask(j, devlist.devs[j])
  }

  /** The loop goes past slot j: its call succeeds and the device is not a
      recovery device. */
  predicate Continues(devlist: DeviceList, ask: (nat, Device) -> Reply, ids: RecoveryIds,
                      failure: int, j: nat)
  {
    && j < MaxDevs
    && ReplyAt(devlist, ask, j).retval != failure
    && !IsRecoveryDevice(ReplyAt(devlist, ask, j).desc, ids)
  }

  /** The `for` loop of try_to_find_idevice from index i on. */
  function ScanFrom(devlist: DeviceList, ask: (nat, Device) -> Reply, ids: RecoveryIds,
                    failure: int, i: nat): ScanResult
    decreases MaxDevs - i
  {
    if i >= devlist.nDevs then NotFound
    else if i >= MaxDevs then OutOfRange
    else
      var reply := ReplyAt(devlist, ask, i);
      if reply.retval == failure then CallFailed(i)
      else if reply.desc.idVendor != ids.appleVendorId then ScanFrom(devlist, ask, ids, failure, i + 1)
      else if IsRecoveryDevice(reply.desc, ids) then Found(i)
      else ScanFrom(devlist, ask, ids, failure, i + 1)
  }

  /** The scan the finder runs: from the first slot. */
  function Scan(devlist: DeviceList, ask: (nat, Device) -> Reply, ids: RecoveryIds, failure: int): ScanResult
  {
    ScanFrom(devlist, ask, ids, failure, 0)
  }

  /** What each outcome of the scan from i means: Found is the first
      recovery device, CallFailed the first failing call, NotFound means every
      listed device was queried and none matched, OutOfRange that the count
      runs past the array with no earlier stop. */
  lemma {:induction false} ScanFromOutcome(devlist: DeviceList, ask: (nat, Device) -> Reply,
                                           ids: RecoveryIds, failure: int, i: nat)
    requires i <= MaxDevs
    ensures var r := ScanFrom(devlist, ask, ids, failure, i);
      && (r.Found? ==>
            && i <= r.index < devlist.nDevs && r.index < MaxDevs
            && ReplyAt(devlist, ask, r.index).retval != failure
            && IsRecoveryDevice(ReplyAt(devlist, ask, r.index).desc, ids)
            && forall j :: i <= j < r.index ==> Continues(devlist, ask, ids, failure, j))
      && (r.CallFailed? ==>
            && i <= r.index < devlist.nDevs && r.index < MaxDevs
            && ReplyAt(devlist, ask, r.index).retval == failure
            && forall j :: i <= j < r.index ==> Continues(devlist, ask, ids, failure, j))
      && (r.NotFound? <==> forall j :: i <= j < devlist.nDevs ==> Continues(devlist, ask, ids, failure, j))
      && (r.OutOfRange? <==>
            && devlist.nDevs > MaxDevs
            && forall j :: i <= j < MaxDevs ==> Continues(devlist, ask, ids, failure, j))
    decreases MaxDevs - i
  {
    if i >= devlist.nDevs {
    } else if i >= MaxDevs {
      assert !Continues(devlist, ask, ids, failure, i);
    } else {
      var reply := ReplyAt(devlist, ask, i);
      if reply.retval == failure || IsRecoveryDevice(reply.desc, ids) {
        assert !Continues(devlist, ask, ids, failure, i);
      } else {
        ScanFromOutcome(devlist, ask, ids, failure, i + 1);
      }
    }
  }

  /** A slot whose call succeeds and names a recovery device bounds the
      scan: it stops there or earlier, either with Found or with a failed
      call, and never runs on past it. */
  lemma FoundIsFirst(devlist: DeviceList, ask: (nat, Device) -> Reply, ids: RecoveryIds,
                     failure: int, j: nat)
    requires j < devlist.nDevs && j < MaxDevs
    requires ReplyAt(devlist, ask, j).retval != failure
    requires IsRecoveryDevice(ReplyAt(devlist, ask, j).desc, ids)
    ensures match Scan(devlist, ask, ids, failure)
      case Found(k) => k <= j
      case CallFailed(k) => k < j
      case _ => false
  {
    ScanFromOutcome(devlist, ask, ids, failure, 0);
    assert !Continues(devlist, ask, ids, failure, j);
  }

  /** How many descriptor calls a scan with outcome r makes. */
  function CallCount(devlist: DeviceList, r: ScanResult): nat
  {
    match r
    case Found(k) => k + 1
    case CallFailed(k) => k + 1
    case NotFound => if devlist.nDevs < 0 then 0 else devlist.nDevs
    case OutOfRange => MaxDevs
  }

  lemma {:induction false} CallCountBounded(devlist: DeviceList, ask: (nat, Device) -> Reply,
                                            ids: RecoveryIds, failure: int, i: nat)
    requires i <= MaxDevs
    requires i <= devlist.nDevs || i == 0
    ensures i <= CallCount(devlist, ScanFrom(devlist, ask, ids, failure, i)) <= MaxDevs
    decreases MaxDevs - i
  {
    if i < devlist.nDevs && i < MaxDevs {
      var reply := ReplyAt(devlist, ask, i);
      if reply.retval != failure && !IsRecoveryDevice(reply.desc, ids) {
        CallCountBounded(devlist, ask, ids, failure, i + 1);
      }
    }
  }

  /** The part of `struct irpc_info` the finder uses: the list the first call
      fills in, the device sent with each descriptor call, the descriptor the
      call leaves behind, and the devices sent so far. */
  class Info {
    var devlist: DeviceList
    var dev: Device
    var desc: Descriptor
    var requests: seq<Device>

    /** `bzero(&info, sizeof(struct irpc_info))`. */
    constructor ()
      ensures devlist == EmptyDeviceList && dev == ZeroDevice && desc == ZeroDescriptor
      ensures requests == []
    {
      devlist, dev, desc, requests := EmptyDeviceList, ZeroDevice, ZeroDescriptor, [];
    }
  }

  /** try_to_find_idevice: `listed` is the list the GET_DEVICE_LIST call
      stores in `info->devlist`; each descriptor call sends `info->dev` and
      is answered by `ask`. */
  method TryToFindIdevice(info: Info, listed: DeviceList, ask: (nat, Device) -> Reply,
                          ids: RecoveryIds, failure: int) returns (result: ScanResult)
    modifies info
    ensures result == Scan(listed, ask, ids, failure)
    ensures CallCount(listed, result) <= MaxDevs
    ensures info.devlist == listed
    ensures info.requests == old(info.requests) + listed.devs[..CallCount(listed, result)]
    ensures var k := CallCount(listed, result);
      && (k > 0 ==> info.dev == listed.devs[k - 1] && info.desc == ReplyAt(listed, ask, k - 1).desc)
      && (k == 0 ==> info.dev == old(info.dev) && info.desc == old(info.desc))
    ensures result.Found? || result.CallFailed? ==>
      && info.dev == listed.devs[result.index]
      && info.desc == ReplyAt(listed, ask, result.index).desc
  {
    CallCountBounded(listed, ask, ids, failure, 0);
    info.devlist := listed;
    var devlist := info.devlist;
    var i: nat := 0;
    while i < devlist.nDevs
      invariant i <= MaxDevs && (i <= devlist.nDevs || i == 0)
      invariant info.devlist == listed && devlist == listed
      invariant ScanFrom(listed, ask, ids, failure, i) == Scan(listed, ask, ids, failure)
      invariant info.requests == old(info.requests) + listed.devs[..i]
      invariant i > 0 ==> info.dev == listed.devs[i - 1] && info.desc == ReplyAt(listed, ask, i - 1).desc
      invariant i == 0 ==> info.dev == old(info.dev) && info.desc == old(info.desc)
      decreases MaxDevs - i
    {
      if i >= MaxDevs {
        return OutOfRange;
      }
      info.dev := devlist.devs[i];
      info.requests := info.requests + [info.dev];
      assert listed.devs[..i + 1] == listed.devs[..i] + [info.dev];
      var reply := ask(i, info.dev);
      info.desc := reply.desc;
      if reply.retval == failure {
        assert ScanFrom(listed, ask, ids, failure, i) == CallFailed(i);
        return CallFailed(i);
      }
      var desc := info.desc;
      if desc.idVendor == ids.appleVendorId {
        if || desc.idProduct == ids.recoveryMode1
           || desc.idProduct == ids.recoveryMode2
           || desc.idProduct == ids.recoveryMode3
           || desc.idProduct == ids.recoveryMode4
           || desc.idProduct == ids.dfuMode {
          assert ScanFrom(listed, ask, ids, failure, i) == Found(i);
          return Found(i);
        }
      }
      assert ScanFrom(listed, ask, ids, failure, i) == ScanFrom(listed, ask, ids, failure, i + 1);
      i := i + 1;
    }
    return NotFound;
  }

  /** main: `initRetval` is what the INIT call returns; the connection and
      `usb_exit` are not modelled. Too few arguments exit with the initial
      retval (the failure value), a negative init retval with 1, and
      otherwise the scan runs and the exit code is 0. */
  method FindIdeviceMain(argc: int, failure: int, initRetval: int, listed: DeviceList,
                         ask: (nat, Device) -> Reply, ids: RecoveryIds)
    returns (exitCode: int, scan: Option<ScanResult>)
    ensures argc < 3 ==> exitCode == failure && scan == None
    ensures argc >= 3 && initRetval < 0 ==> exitCode == 1 && scan == None
    ensures argc >= 3 && initRetval >= 0 ==>
      exitCode == 0 && scan == Some(Scan(listed, ask, ids, failure))
  {
    var retval := failure;
    var info := new Info();
    if argc < 3 {
      return retval, None;
    }
    retval := initRetval;
    if retval < 0 {
      return 1, None;
    }
    var result := TryToFindIdevice(info, listed, ask, ids, failure);
    return 0, Some(result);
  }
}
