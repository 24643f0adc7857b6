/**
 * The CAN interface on top of the driver model: opening the channel and
 * draining stale frames, transmitting, receiving without and with
 * blocking, installing and clearing the acceptance filter, and teardown.
 */
module Interfaces {
  import opened Types
  import opened EmbeddedCan
  import opened Frames
  import opened Filters
  import opened Baudrates
  import opened Errors
  import opened Pcan

  /** What `receive_internal` returns, with the script and queue it leaves. */
  type ReceiveResult = Result<Frame, NbError<Error>>

  /**
   * One `receive_internal`: QRCVEMPTY becomes `WouldBlock`, OK the frame
   * read, and any other status an error carrying that status.
   */
  function ReceiveStep(codes: Codes, script: Script, queue: seq<Msg>): (r: (ReceiveResult, Script, seq<Msg>))
    requires codes.Valid() && ValidScript(codes, script)
    ensures r.1 == Rest(script)
    ensures r.0.Ok? <==> Forced(script).None? && queue != []
    ensures r.0.Ok? ==> r.0.value == Frame(queue[0]) && r.2 == queue[1..]
    ensures r.0 == Err(WouldBlock) <==>
      Forced(script) == Some(codes.qrcvEmpty) || (Forced(script).None? && queue == [])
    ensures r.0.Err? ==> r.2 == queue
    ensures r.0.Err? && r.0.error.Other? ==>
      Forced(script).Some? && r.0.error.error == Status(Forced(script).value)
  {
    RestValid(codes, script);
    var step := ReadOutcome(codes, script, queue);
    var res: ReceiveResult :=
      if step.status == codes.qrcvEmpty then Err(WouldBlock)
      else if step.status == codes.ok then Ok(Frame(step.msg.value))
      else Err(Other(Status(step.status)));
    (res, step.script, step.queue)
  }

  // ---------------------------------------------------------------
  // The drain loop of `init`

  /**
   * The script and queue the drain loop of `init` leaves: it reads until a
   * read reports `WouldBlock`, ignoring frames and errors alike.
   */
  function Drain(codes: Codes, script: Script, queue: seq<Msg>): (r: (Script, seq<Msg>))
    requires codes.Valid() && ValidScript(codes, script)
    ensures |r.0| <= |script| && |r.1| <= |queue|
    ensures ValidScript(codes, r.0)
    decreases |script| + |queue|
  {
    RestValid(codes, script);
    var step := ReceiveStep(codes, script, queue);
    if step.0 == Err(WouldBlock) then (step.1, step.2)
    else Drain(codes, step.1, step.2)
  }

  /**
   * The drain loop stops only where a read reports `WouldBlock`: a frame or
   * a driver error at the head is read past, and a QRCVEMPTY ends the loop.
   */
  lemma DrainStep(codes: Codes, script: Script, queue: seq<Msg>)
    requires codes.Valid() && ValidScript(codes, script)
    ensures Forced(script).Some? && Forced(script).value != codes.qrcvEmpty ==>
      Drain(codes, script, queue) == Drain(codes, Rest(script), queue)
    ensures Forced(script).None? && queue != [] ==>
      Drain(codes, script, queue) == Drain(codes, Rest(script), queue[1..])
    ensures Forced(script) == Some(codes.qrcvEmpty) ==> Drain(codes, script, queue) == (Rest(script), queue)
    ensures Forced(script).None? && queue == [] ==> Drain(codes, script, queue) == (Rest(script), [])
  {
    RestValid(codes, script);
  }

  /**
   * Unless the driver spuriously reports QRCVEMPTY, the drain loop empties
   * the receive queue: driver errors along the way do not stop it.
   */
  lemma {:induction false} DrainEmptiesQueue(codes: Codes, script: Script, queue: seq<Msg>)
    requires codes.Valid() && ValidScript(codes, script)
    requires forall i :: 0 <= i < |script| ==> script[i] != Some(codes.qrcvEmpty)
    ensures Drain(codes, script, queue).1 == []
    decreases |script| + |queue|
  {
    RestValid(codes, script);
    var step := ReceiveStep(codes, script, queue);
    if step.0 != Err(WouldBlock) {
      assert forall i :: 0 <= i < |step.1| ==> step.1[i] == script[i + 1];
      DrainEmptiesQueue(codes, step.1, step.2);
    }
  }

  // ---------------------------------------------------------------
  // The retry loop of the blocking `receive`

  /** A read on this queue with this script entry reports QRCVEMPTY. */
  predicate ReportsEmpty(codes: Codes, entry: Option<nat>, queue: seq<Msg>)
  {
    entry == Some(codes.qrcvEmpty) || (entry.None? && queue == [])
  }

  /**
   * Something will end a blocking receive: a frame is queued or the script
   * holds a forced failure other than QRCVEMPTY.
   */
  predicate WillDeliver(codes: Codes, script: Script, queue: seq<Msg>)
  {
    queue != [] || exists i :: 0 <= i < |script| && script[i].Some? && script[i].value != codes.qrcvEmpty
  }

  /** The number of reads that report QRCVEMPTY before one that does not. */
  function EmptyPolls(codes: Codes, script: Script, queue: seq<Msg>): (k: nat)
    ensures k <= |script|
    ensures forall j :: 0 <= j < k ==> ReportsEmpty(codes, script[j], queue)
    ensures k < |script| ==> !ReportsEmpty(codes, script[k], queue)
  {
    if script == [] || !ReportsEmpty(codes, script[0], queue) then 0
    else 1 + EmptyPolls(codes, script[1..], queue)
  }

  /** A read that reports `WouldBlock` shortens the script and keeps a delivery pending. */
  lemma WouldBlockProgress(codes: Codes, script: Script, queue: seq<Msg>)
    requires codes.Valid() && ValidScript(codes, script) && WillDeliver(codes, script, queue)
    requires ReceiveStep(codes, script, queue).0 == Err(WouldBlock)
    ensures |ReceiveStep(codes, script, queue).1| < |script|
    ensures ReceiveStep(codes, script, queue).2 == queue
    ensures WillDeliver(codes, ReceiveStep(codes, script, queue).1, queue)
  {
    RestValid(codes, script);
    if queue == [] {
      var i :| 0 <= i < |script| && script[i].Some? && script[i].value != codes.qrcvEmpty;
      assert i > 0;
      assert Rest(script)[i - 1] == script[i];
    }
  }

  /**
   * The result of the blocking `receive` and the script and queue it
   * leaves: it reads again on `WouldBlock` and stops at the first frame or
   * the first driver error.
   */
  function Retry(codes: Codes, script: Script, queue: seq<Msg>): (r: (Result<Frame, Error>, Script, seq<Msg>))
    requires codes.Valid() && ValidScript(codes, script) && WillDeliver(codes, script, queue)
    ensures |r.1| <= |script| && ValidScript(codes, r.1)
    ensures r.0.Ok? ==> queue != [] && r.0.value == Frame(queue[0]) && r.2 == queue[1..]
    ensures r.0.Err? ==> r.2 == queue && r.0.error.Status? && r.0.error.code != codes.qrcvEmpty
    decreases |script|
  {
    RestValid(codes, script);
    var step := ReceiveStep(codes, script, queue);
    match step.0
    case Ok(frame) => (Ok(frame), step.1, step.2)
    case Err(Other(e)) => (Err(e), step.1, step.2)
    case Err(WouldBlock) =>
      WouldBlockProgress(codes, script, queue);
      Retry(codes, step.1, step.2)
  }

  /**
   * The blocking `receive` skips exactly the reads that report QRCVEMPTY:
   * with k such reads first, the next script entry decides. A forced
   * failure there is returned as the error; otherwise the head of the
   * queue is returned and removed.
   */
  lemma {:induction false} RetryOutcome(codes: Codes, script: Script, queue: seq<Msg>)
    requires codes.Valid() && ValidScript(codes, script) && WillDeliver(codes, script, queue)
    ensures var tail := script[EmptyPolls(codes, script, queue)..];
      Retry(codes, script, queue) ==
        if Forced(tail).Some? then (Err(Status(Forced(tail).value)), Rest(tail), queue)
        else (Ok(Frame(queue[0])), Rest(tail), queue[1..])
    decreases |script|
  {
    RestValid(codes, script);
    var k := EmptyPolls(codes, script, queue);
    var step := ReceiveStep(codes, script, queue);
    if step.0 == Err(WouldBlock) {
      WouldBlockProgress(codes, script, queue);
      assert k > 0;
      assert script[1..] == step.1;
      assert EmptyPolls(codes, step.1, queue) == k - 1;
      assert step.1[k - 1..] == script[k..];
      RetryOutcome(codes, step.1, queue);
    } else {
      assert k == 0;
      if queue == [] {
        assert Forced(script).Some?;
      }
    }
  }

  /** With a frame queued and no forced failures, the blocking `receive` returns the head. */
  lemma ReceiveQueueHead(codes: Codes, queue: seq<Msg>)
    requires codes.Valid() && queue != []
    ensures WillDeliver(codes, [], queue)
    ensures Retry(codes, [], queue) == (Ok(Frame(queue[0])), [], queue[1..])
  {
    RetryOutcome(codes, [], queue);
  }

  // ---------------------------------------------------------------
  // The interface

  class Interface {
    const driver: Driver
    const channel: u16
    const baudrate: Baudrate
    /** False once the interface has been dropped. */
    var open: bool

    ghost predicate Valid()
      reads this, driver
    {
      open && driver.Valid() && driver.initialized && channel == driver.codes.usbBus1
    }

    constructor (driver: Driver, channel: u16, baudrate: Baudrate)
      ensures this.driver == driver && this.channel == channel && this.baudrate == baudrate && open
    {
      this.driver, this.channel, this.baudrate := driver, channel, baudrate;
      open := true;
    }

    /**
     * `Interface::init`: opens the first USB channel at `baudrate`; a
     * failing open returns the driver's status and builds no interface.
     * After a successful open, every frame queued so far is read and
     * discarded until a read reports `WouldBlock`.
     */
    static method Init(driver: Driver, baudrate: Baudrate) returns (r: Result<Interface, Error>)
      requires driver.Valid()
      modifies driver
      ensures driver.Valid()
      ensures r.Err? <==> Forced(old(driver.script)).Some? || old(driver.initialized)
      ensures Forced(old(driver.script)).Some? ==>
        r == Err(Status(Forced(old(driver.script)).value)) && driver.script == Rest(old(driver.script)) &&
        driver.queue == old(driver.queue) && driver.initialized == old(driver.initialized) &&
        driver.baudrate == old(driver.baudrate)
      ensures Forced(old(driver.script)).None? && old(driver.initialized) ==>
        r == Err(Status(driver.codes.errInitialize)) && driver.script == Rest(old(driver.script)) &&
        driver.queue == old(driver.queue) && driver.initialized && driver.baudrate == old(driver.baudrate)
      ensures r.Ok? ==>
        fresh(r.value) && r.value.Valid() && r.value.driver == driver &&
        r.value.channel == driver.codes.usbBus1 && r.value.baudrate == baudrate &&
        driver.baudrate == Some(baudrate) &&
        (driver.script, driver.queue) == Drain(driver.codes, Rest(old(driver.script)), old(driver.queue))
      ensures driver.sent == old(driver.sent) && driver.params == old(driver.params)
    {
      var pcanChannel := driver.codes.usbBus1;
      var result := driver.Initialize(pcanChannel, baudrate);
      if result != driver.codes.ok {
        return Err(Status(result));
      }
      var iface := new Interface(driver, pcanChannel, baudrate);
      ghost var script0, queue0 := driver.script, driver.queue;
      while true
        invariant iface.Valid() && iface.driver == driver && iface.channel == pcanChannel
        invariant fresh(iface) && iface.baudrate == baudrate && driver.baudrate == Some(baudrate)
        invariant Drain(driver.codes, driver.script, driver.queue) == Drain(driver.codes, script0, queue0)
        invariant driver.sent == old(driver.sent) && driver.params == old(driver.params)
        decreases |driver.script| + |driver.queue|
      {
        var res := iface.ReceiveInternal();
        if res == Err(WouldBlock) {
          break;
        }
      }
      r := Ok(iface);
    }

    /** `drop`: releases the channel, whatever the driver reports. */
    method Drop()
      requires Valid()
      modifies this, driver
      ensures !open
      ensures driver.Valid() && driver.script == Rest(old(driver.script))
      ensures Forced(old(driver.script)).None? ==> !driver.initialized
      ensures Forced(old(driver.script)).Some? ==> driver.initialized
      ensures driver.queue == old(driver.queue) && driver.sent == old(driver.sent) && driver.params == old(driver.params)
      ensures driver.baudrate == old(driver.baudrate)
    {
      var _ := driver.Uninitialize(channel);
      open := false;
    }

    /**
     * `transmit_internal`: OK from the write is `Ok(None)` (no frame was
     * displaced); any other status is an error. It never reports `WouldBlock`.
     */
    method TransmitInternal(frame: Frame) returns (r: Result<Option<Frame>, NbError<Error>>)
      requires Valid()
      modifies driver
      ensures Valid() && driver.script == Rest(old(driver.script))
      ensures r != Err(WouldBlock)
      ensures Forced(old(driver.script)).None? ==> r == Ok(None) && driver.sent == old(driver.sent) + [frame.msg]
      ensures Forced(old(driver.script)).Some? ==>
        r == Err(Other(Status(Forced(old(driver.script)).value))) && driver.sent == old(driver.sent)
      ensures driver.initialized == old(driver.initialized) && driver.baudrate == old(driver.baudrate)
      ensures driver.queue == old(driver.queue) && driver.params == old(driver.params)
    {
      RestValid(driver.codes, driver.script);
      var result := driver.Write(channel, frame.msg);
      if result == driver.codes.ok {
        r := Ok(None);
      } else {
        r := Err(Other(Status(result)));
      }
    }

    /** `receive_internal`: one read of the queue, classified by its status. */
    method ReceiveInternal() returns (r: ReceiveResult)
      requires Valid()
      modifies driver
      ensures Valid()
      ensures (r, driver.script, driver.queue) == ReceiveStep(driver.codes, old(driver.script), old(driver.queue))
      ensures driver.initialized == old(driver.initialized) && driver.baudrate == old(driver.baudrate)
      ensures driver.sent == old(driver.sent) && driver.params == old(driver.params)
    {
      RestValid(driver.codes, driver.script);
      var result, msg := driver.Read(channel);
      if result == driver.codes.qrcvEmpty {
        r := Err(WouldBlock);
      } else if result == driver.codes.ok {
        r := Ok(Frame(msg.value));
      } else {
        r := Err(Other(Status(result)));
      }
    }

    /** The non-blocking `transmit` of `embedded_can::nb::Can`. */
    method NbTransmit(frame: Frame) returns (r: Result<Option<Frame>, NbError<Error>>)
      requires Valid()
      modifies driver
      ensures Valid() && driver.script == Rest(old(driver.script))
      ensures r != Err(WouldBlock)
      ensures Forced(old(driver.script)).None? ==> r == Ok(None) && driver.sent == old(driver.sent) + [frame.msg]
      ensures Forced(old(driver.script)).Some? ==>
        r == Err(Other(Status(Forced(old(driver.script)).value))) && driver.sent == old(driver.sent)
      ensures driver.initialized == old(driver.initialized) && driver.baudrate == old(driver.baudrate)
      ensures driver.queue == old(driver.queue) && driver.params == old(driver.params)
    {
      r := TransmitInternal(frame);
    }

    /** The non-blocking `receive` of `embedded_can::nb::Can`. */
    method NbReceive() returns (r: ReceiveResult)
      requires Valid()
      modifies driver
      ensures Valid()
      ensures (r, driver.script, driver.queue) == ReceiveStep(driver.codes, old(driver.script), old(driver.queue))
      ensures driver.initialized == old(driver.initialized) && driver.baudrate == old(driver.baudrate)
      ensures driver.sent == old(driver.sent) && driver.params == old(driver.params)
    {
      r := ReceiveInternal();
    }

    /**
     * The blocking `transmit`: success or the driver's error; its panic on
     * `WouldBlock` is unreachable.
     */
    method Transmit(frame: Frame) returns (r: Result<(), Error>)
      requires Valid()
      modifies driver
      ensures Valid() && driver.script == Rest(old(driver.script))
      ensures Forced(old(driver.script)).None? ==> r == Ok(()) && driver.sent == old(driver.sent) + [frame.msg]
      ensures Forced(old(driver.script)).Some? ==>
        r == Err(Status(Forced(old(driver.script)).value)) && driver.sent == old(driver.sent)
      ensures driver.initialized == old(driver.initialized) && driver.baudrate == old(driver.baudrate)
      ensures driver.queue == old(driver.queue) && driver.params == old(driver.params)
    {
      var res := TransmitInternal(frame);
      match res {
        case Ok(_) => r := Ok(());
        case Err(Other(err)) => r := Err(err);
        case Err(WouldBlock) => assert false;
      }
    }

    /**
     * The blocking `receive`: reads until a read does not report
     * `WouldBlock`, then returns its frame or its error.
     */
    method Receive() returns (r: Result<Frame, Error>)
      requires Valid() && WillDeliver(driver.codes, driver.script, driver.queue)
      modifies driver
      ensures Valid()
      ensures (r, driver.script, driver.queue) == Retry(driver.codes, old(driver.script), old(driver.queue))
      ensures driver.initialized == old(driver.initialized) && driver.baudrate == old(driver.baudrate)
      ensures driver.sent == old(driver.sent) && driver.params == old(driver.params)
    {
      ghost var script0, queue0 := driver.script, driver.queue;
      while true
        invariant Valid() && WillDeliver(driver.codes, driver.script, driver.queue)
        invariant Retry(driver.codes, driver.script, driver.queue) == Retry(driver.codes, script0, queue0)
        invariant driver.initialized == old(driver.initialized) && driver.baudrate == old(driver.baudrate)
        invariant driver.sent == old(driver.sent) && driver.params == old(driver.params)
        decreases |driver.script|
      {
        ghost var script1, queue1 := driver.script, driver.queue;
        var res := ReceiveInternal();
        match res {
          case Ok(frame) => return Ok(frame);
          case Err(Other(err)) => return Err(err);
          case Err(WouldBlock) =>
            WouldBlockProgress(driver.codes, script1, queue1);
        }
      }
    }

    /**
     * `add_filter`: reads the filter mode first (a failed read leaves it
     * 0). In custom mode it fails and writes nothing. Otherwise it writes
     * OPEN to the filter mode for an accept-all filter, or `[mask, id]` to
     * the 29-bit or the 11-bit acceptance filter, and succeeds whatever
     * that write reports.
     */
    method AddFilter(filter: Filter) returns (r: Result<(), Error>)
      requires Valid()
      modifies driver
      ensures Valid()
      ensures var observed := if Forced(old(driver.script)).None? then old(driver.params).messageFilter else 0;
        var afterGet := Rest(old(driver.script));
        var written := Forced(afterGet).None?;
        && (observed == driver.codes.filterCustom ==>
              r == Err(Text(MoreThanOneFilter)) && driver.script == afterGet && driver.params == old(driver.params))
        && (observed != driver.codes.filterCustom ==>
              r == Ok(()) && driver.script == Rest(afterGet))
        && (observed != driver.codes.filterCustom && !written ==> driver.params == old(driver.params))
        && (observed != driver.codes.filterCustom && written && filter.acceptAll ==>
              driver.params == old(driver.params).(messageFilter := driver.codes.filterOpen))
        && (observed != driver.codes.filterCustom && written && !filter.acceptAll && filter.isExtended ==>
              driver.params == old(driver.params).(acceptance29 := Some(MaskId(filter.mask, filter.id)),
                                                   messageFilter := driver.codes.filterCustom))
        && (observed != driver.codes.filterCustom && written && !filter.acceptAll && !filter.isExtended ==>
              driver.params == old(driver.params).(acceptance11 := Some(MaskId(filter.mask, filter.id)),
                                                   messageFilter := driver.codes.filterCustom))
      ensures driver.initialized == old(driver.initialized) && driver.baudrate == old(driver.baudrate)
      ensures driver.queue == old(driver.queue) && driver.sent == old(driver.sent)
    {
      var filterState := 0;
      var _, value := driver.GetMessageFilter(channel, filterState);
      filterState := value;
      if filterState == driver.codes.filterCustom {
        return Err(Text(MoreThanOneFilter));
      }
      if filter.acceptAll {
        var _ := driver.SetValue(channel, MessageFilter(driver.codes.filterOpen));
      } else {
        var word := MaskId(filter.mask, filter.id);
        var _ := driver.SetValue(channel, if filter.isExtended then AcceptanceFilter29(word) else AcceptanceFilter11(word));
      }
      r := Ok(());
    }

    /** `clear_filters`: writes CLOSE to the filter mode, ignoring the status. */
    method ClearFilters()
      requires Valid()
      modifies driver
      ensures Valid() && driver.script == Rest(old(driver.script))
      ensures Forced(old(driver.script)).None? ==>
        driver.params == old(driver.params).(messageFilter := driver.codes.filterClose)
      ensures Forced(old(driver.script)).Some? ==> driver.params == old(driver.params)
      ensures driver.initialized == old(driver.initialized) && driver.baudrate == old(driver.baudrate)
      ensures driver.queue == old(driver.queue) && driver.sent == old(driver.sent)
    {
      var _ := driver.SetValue(channel, MessageFilter(driver.codes.filterClose));
    }
  }

  // ---------------------------------------------------------------
  // Uses of the interface

  /**
   * Opening a fresh channel and reading at once, with no failures and no
   * later traffic: the startup drain leaves nothing, so the read reports
   * `WouldBlock`.
   */
  method FreshInterfaceWouldBlock(driver: Driver) returns (res: ReceiveResult)
    requires driver.Valid() && driver.script == [] && !driver.initialized
    modifies driver
    ensures res == Err(WouldBlock)
  {
    var r := Interface.Init(driver, Baud500k);
    DrainEmptiesQueue(driver.codes, [], old(driver.queue));
    var iface := r.value;
    res := iface.NbReceive();
  }

  /**
   * A second custom filter without `clear_filters` in between fails with
   * "Cannot configure more than one filter", when the driver reports no
   * failures.
   */
  method CustomFilterTwice(iface: Interface, first: Filter, second: Filter) returns (r: Result<(), Error>)
    requires iface.Valid() && iface.driver.script == [] && !first.acceptAll
    modifies iface.driver
    ensures r == Err(Text(MoreThanOneFilter))
  {
    var _ := iface.AddFilter(first);
    r := iface.AddFilter(second);
  }

  /** After `clear_filters`, `add_filter` succeeds, when the driver reports no failures. */
  method ClearThenAdd(iface: Interface, filter: Filter) returns (r: Result<(), Error>)
    requires iface.Valid() && iface.driver.script == []
    modifies iface.driver
    ensures r == Ok(())
  {
    iface.ClearFilters();
    r := iface.AddFilter(filter);
  }
}
