/**
 * An abstract model of the vendor CAN driver for the first USB channel:
 * the calls `CAN_Initialize`, `CAN_Uninitialize`, `CAN_Read`, `CAN_Write`,
 * `CAN_GetValue` and `CAN_SetValue` as the layer above uses them.
 *
 * The driver's state is its receive queue (first in, first out), the
 * messages written so far, its parameters, whether the channel is
 * initialized, and a script of upcoming call outcomes: each call takes
 * the head of the script; `None` (or an empty script) means the call
 * behaves normally, `Some(s)` means it fails with status `s` and changes
 * nothing.
 */
module Pcan {
  import opened Types
  import opened Frames
  import opened Baudrates

  /** The vendor constants the layer depends on, as parameters. */
  datatype Codes = Codes(
    ok: nat,             // PCAN_ERROR_OK
    qrcvEmpty: nat,      // PCAN_ERROR_QRCVEMPTY
    errInitialize: nat,  // the status of initializing a channel twice
    filterOpen: nat,     // PCAN_FILTER_OPEN
    filterClose: nat,    // PCAN_FILTER_CLOSE
    filterCustom: nat,   // PCAN_FILTER_CUSTOM
    usbBus1: u16)        // PCAN_USBBUS1
  {
    predicate Valid()
    {
      ok != qrcvEmpty && ok != errInitialize &&
      filterCustom != filterOpen && filterCustom != filterClose
    }
  }

  /** Upcoming call outcomes: `None` is a normal call, `Some(s)` a failure with status `s`. */
  type Script = seq<Option<nat>>

  /** A forced failure never reports success. */
  predicate ValidScript(codes: Codes, script: Script)
  {
    forall i :: 0 <= i < |script| ==> script[i] != Some(codes.ok)
  }

  /** The forced status of the next call, if any. */
  function Forced(script: Script): Option<nat>
  {
    if script == [] then None else script[0]
  }

  /** The script after the next call. */
  function Rest(script: Script): Script
  {
    if script == [] then [] else script[1..]
  }

  lemma RestValid(codes: Codes, script: Script)
    requires ValidScript(codes, script)
    ensures ValidScript(codes, Rest(script))
    ensures Forced(script) != Some(codes.ok)
    ensures |Rest(script)| == if script == [] then 0 else |script| - 1
  {
    if script != [] {
      assert forall i :: 0 <= i < |script| - 1 ==> Rest(script)[i] == script[i + 1];
    }
  }

  /** The two words the acceptance-filter parameters take, in the order written. */
  datatype MaskId = MaskId(mask: u32, id: u32)

  /** A parameter write: the parameter code together with its typed value. */
  datatype ParamValue =
    | MessageFilter(mode: nat)              // PCAN_MESSAGE_FILTER
    | AcceptanceFilter11(filter11: MaskId)  // PCAN_ACCEPTANCE_FILTER_11BIT
    | AcceptanceFilter29(filter29: MaskId)  // PCAN_ACCEPTANCE_FILTER_29BIT

  /** The channel's filter parameters: the last value written to each. */
  datatype Params = Params(messageFilter: nat, acceptance11: Option<MaskId>, acceptance29: Option<MaskId>)
  {
    /**
     * The parameters after a successful write. Configuring an acceptance
     * filter puts the channel in custom filter mode.
     */
    function Set(codes: Codes, v: ParamValue): Params
    {
      match v
      case MessageFilter(mode) => this.(messageFilter := mode)
      case AcceptanceFilter11(w) => this.(acceptance11 := Some(w), messageFilter := codes.filterCustom)
      case AcceptanceFilter29(w) => this.(acceptance29 := Some(w), messageFilter := codes.filterCustom)
    }
  }

  /** What one `CAN_Read` reports, and the script and queue it leaves. */
  datatype ReadStep = ReadStep(status: nat, msg: Option<Msg>, script: Script, queue: seq<Msg>)

  /**
   * One `CAN_Read`: a forced failure reports its status; otherwise an empty
   * queue reports QRCVEMPTY, and a non-empty one reports OK with its head,
   * which it removes.
   */
  function ReadOutcome(codes: Codes, script: Script, queue: seq<Msg>): ReadStep
  {
    match Forced(script)
    case Some(s) => ReadStep(s, None, Rest(script), queue)
    case None =>
      if queue == [] then ReadStep(codes.qrcvEmpty, None, Rest(script), queue)
      else ReadStep(codes.ok, Some(queue[0]), Rest(script), queue[1..])
  }

  class Driver {
    const codes: Codes
    var initialized: bool
    var baudrate: Option<Baudrate>
    var script: Script
    var queue: seq<Msg>
    var sent: seq<Msg>
    var params: Params

    ghost predicate Valid()
      reads this
    {
      codes.Valid() && ValidScript(codes, script)
    }

    /** A driver whose channel is not initialized yet. */
    constructor (codes: Codes, script: Script, queue: seq<Msg>, params: Params)
      requires codes.Valid() && ValidScript(codes, script)
      ensures Valid()
      ensures this.codes == codes && this.script == script && this.queue == queue && this.params == params
      ensures !initialized && baudrate == None && sent == []
    {
      this.codes, this.script, this.queue, this.params := codes, script, queue, params;
      initialized, baudrate, sent := false, None, [];
    }

    /** `CAN_Initialize`: opens the channel; a second open fails. */
    method Initialize(channel: u16, rate: Baudrate) returns (status: nat)
      requires Valid() && channel == codes.usbBus1
      modifies this
      ensures Valid()
      ensures script == Rest(old(script))
      ensures queue == old(queue) && sent == old(sent) && params == old(params)
      ensures Forced(old(script)).Some? ==>
        status == Forced(old(script)).value && initialized == old(initialized) && baudrate == old(baudrate)
      ensures Forced(old(script)).None? && old(initialized) ==>
        status == codes.errInitialize && initialized && baudrate == old(baudrate)
      ensures Forced(old(script)).None? && !old(initialized) ==>
        status == codes.ok && initialized && baudrate == Some(rate)
    {
      RestValid(codes, script);
      var forced := Forced(script);
      script := Rest(script);
      if forced.Some? {
        status := forced.value;
      } else if initialized {
        status := codes.errInitialize;
      } else {
        status, initialized, baudrate := codes.ok, true, Some(rate);
      }
    }

    /** `CAN_Uninitialize`: releases the channel. */
    method Uninitialize(channel: u16) returns (status: nat)
      requires Valid() && channel == codes.usbBus1
      modifies this
      ensures Valid()
      ensures script == Rest(old(script))
      ensures queue == old(queue) && sent == old(sent) && params == old(params) && baudrate == old(baudrate)
      ensures Forced(old(script)).Some? ==> status == Forced(old(script)).value && initialized == old(initialized)
      ensures Forced(old(script)).None? ==> status == codes.ok && !initialized
    {
      RestValid(codes, script);
      var forced := Forced(script);
      script := Rest(script);
      if forced.Some? {
        status := forced.value;
      } else {
        status, initialized := codes.ok, false;
      }
    }

    /** `CAN_Read`: the status and, on success, the message taken from the queue. */
    method Read(channel: u16) returns (status: nat, msg: Option<Msg>)
      requires Valid() && channel == codes.usbBus1
      modifies this
      ensures Valid()
      ensures ReadStep(status, msg, script, queue) == ReadOutcome(codes, old(script), old(queue))
      ensures initialized == old(initialized) && baudrate == old(baudrate)
      ensures sent == old(sent) && params == old(params)
    {
      RestValid(codes, script);
      var step := ReadOutcome(codes, script, queue);
      status, msg, script, queue := step.status, step.msg, step.script, step.queue;
    }

    /** `CAN_Write`: puts a message on the bus. */
    method Write(channel: u16, msg: Msg) returns (status: nat)
      requires Valid() && channel == codes.usbBus1
      modifies this
      ensures Valid()
      ensures script == Rest(old(script))
      ensures initialized == old(initialized) && baudrate == old(baudrate)
      ensures queue == old(queue) && params == old(params)
      ensures Forced(old(script)).Some? ==> status == Forced(old(script)).value && sent == old(sent)
      ensures Forced(old(script)).None? ==> status == codes.ok && sent == old(sent) + [msg]
    {
      RestValid(codes, script);
      var forced := Forced(script);
      script := Rest(script);
      if forced.Some? {
        status := forced.value;
      } else {
        status, sent := codes.ok, sent + [msg];
      }
    }

    /**
     * `CAN_GetValue(PCAN_MESSAGE_FILTER)`: on success the caller's buffer
     * receives the filter mode; on failure it keeps what it held.
     */
    method GetMessageFilter(channel: u16, buffer: nat) returns (status: nat, value: nat)
      requires Valid() && channel == codes.usbBus1
      modifies this
      ensures Valid()
      ensures script == Rest(old(script))
      ensures initialized == old(initialized) && baudrate == old(baudrate)
      ensures queue == old(queue) && sent == old(sent) && params == old(params)
      ensures Forced(old(script)).Some? ==> status == Forced(old(script)).value && value == buffer
      ensures Forced(old(script)).None? ==> status == codes.ok && value == params.messageFilter
    {
      RestValid(codes, script);
      var forced := Forced(script);
      script := Rest(script);
      if forced.Some? {
        status, value := forced.value, buffer;
      } else {
        status, value := codes.ok, params.messageFilter;
      }
    }

    /** `CAN_SetValue`: writes one parameter. */
    method SetValue(channel: u16, v: ParamValue) returns (status: nat)
      requires Valid() && channel == codes.usbBus1
      modifies this
      ensures Valid()
      ensures script == Rest(old(script))
      ensures initialized == old(initialized) && baudrate == old(baudrate)
      ensures queue == old(queue) && sent == old(sent)
      ensures Forced(old(script)).Some? ==> status == Forced(old(script)).value && params == old(params)
      ensures Forced(old(script)).None? ==> status == codes.ok && params == old(params).Set(codes, v)
    {
      RestValid(codes, script);
      var forced := Forced(script);
      script := Rest(script);
      if forced.Some? {
        status := forced.value;
      } else {
        status, params := codes.ok, params.Set(codes, v);
      }
    }
  }
}
