/** One connected TCP socket as this process sees it. What the process does on
    it is recorded, in order, as a trace of events; what the peer has sent and
    this process has not yet read is the inbox. A `tpl_dump` is one write of a
    whole record and a `tpl_load` one read of a whole record; a load that
    finds fewer ints than the record needs fails, and the peer's connection is
    then gone. */
module Channel {
  import opened IrpcTypes

  datatype Event = Wrote(ints: seq<Int32>) | ReadOk(ints: seq<Int32>) | ReadFailed

  /** The event a load of n ints adds to the trace. */
  function ReadEvent(inbox: seq<Int32>, n: nat): (e: Event)
    ensures e.ReadOk? <==> n <= |inbox|
    ensures e.ReadOk? ==> |e.ints| == n && inbox == e.ints + inbox[n..]
  {
    if n <= |inbox| then ReadOk(inbox[..n]) else ReadFailed
  }

  /** The inbox left after a load of n ints. */
  function AfterRead(inbox: seq<Int32>, n: nat): (rest: seq<Int32>)
    ensures |rest| <= |inbox|
    ensures n > 0 && inbox != [] ==> |rest| < |inbox|
  {
    if n <= |inbox| then inbox[n..] else []
  }

  class Socket {
    var trace: seq<Event>
    var inbox: seq<Int32>
    var closeCount: nat

    constructor (incoming: seq<Int32>)
      ensures trace == [] && inbox == incoming && closeCount == 0
    {
      trace, inbox, closeCount := [], incoming, 0;
    }

    /** `tpl_dump(tn, TPL_FD, sock)` of one record. */
    method Write(ints: seq<Int32>)
      modifies this
      ensures trace == old(trace) + [Wrote(ints)]
      ensures inbox == old(inbox) && closeCount == old(closeCount)
    {
      trace := trace + [Wrote(ints)];
    }

    /** `tpl_load(tn, TPL_FD, sock)` followed by `tpl_unpack` of an n-int record. */
    method Read(n: nat) returns (r: Option<seq<Int32>>)
      modifies this
      ensures r.Some? <==> n <= |old(inbox)|
      ensures r.Some? ==> r.value == old(inbox)[..n]
      ensures trace == old(trace) + [ReadEvent(old(inbox), n)]
      ensures inbox == AfterRead(old(inbox), n) && closeCount == old(closeCount)
    {
      if n <= |inbox| {
        r := Some(inbox[..n]);
        trace := trace + [ReadOk(inbox[..n])];
        inbox := inbox[n..];
      } else {
        r := None;
        trace := trace + [ReadFailed];
        inbox := [];
      }
    }

    /** `close(sock)`. */
    method Close()
      modifies this
      ensures closeCount == old(closeCount) + 1
      ensures trace == old(trace) && inbox == old(inbox)
    {
      closeCount := closeCount + 1;
    }
  }
}
