/**
 * A CAN frame as the vendor message record `TPCANMsg` it wraps: a raw
 * identifier, a flag byte (`MSGTYPE`), a length byte (`LEN`) and an
 * 8-byte data buffer (`DATA`), with the constructors and accessors of
 * the `embedded_can::Frame` implementation.
 */
module Frames {
  import opened Types
  import opened EmbeddedCan

  /** The `ID` field: wide enough for any 29-bit identifier. */
  type RawId = x: nat | x <= 0x1FFF_FFFF
  /** The `DATA` field: always exactly eight bytes. */
  type DataBuffer = s: seq<bv8> | |s| == 8 witness [0, 0, 0, 0, 0, 0, 0, 0]

  /** The vendor message record (`TPCANMsg`). */
  datatype Msg = Msg(id: RawId, msgType: bv8, len: u8, data: DataBuffer)

  /**
   * The vendor's `PCAN_MESSAGE_STANDARD`, `PCAN_MESSAGE_EXTENDED` and
   * `PCAN_MESSAGE_RTR` flag values.
   */
  datatype MsgTypeFlags = MsgTypeFlags(standard: bv8, extended: bv8, rtr: bv8)
  {
    /**
     * What the accessors need of the flag values: EXTENDED and RTR are
     * non-zero and share no bit, and STANDARD shares no bit with either.
     */
    predicate Valid()
    {
      extended != 0 && rtr != 0 && extended & rtr == 0 &&
      standard & (extended | rtr) == 0
    }
  }

  datatype Frame = Frame(msg: Msg)

  function Zeros(n: nat): (z: seq<bv8>)
    ensures |z| == n && forall k :: 0 <= k < n ==> z[k] == 0
  {
    seq(n, _ => 0)
  }

  /** The flag byte `new` picks for an identifier. */
  function TypeFlag(fl: MsgTypeFlags, id: Id): bv8
  {
    if id.Extended? then fl.extended else fl.standard
  }

  // ---------------------------------------------------------------
  // Construction

  /** The frame `new(id, data)` builds: the payload, then zero bytes. */
  function NewFrame(fl: MsgTypeFlags, id: Id, data: seq<bv8>): Option<Frame>
  {
    if |data| > 8 then None
    else Some(Frame(Msg(id.AsRaw(), TypeFlag(fl, id), |data|, data + Zeros(8 - |data|))))
  }

  /** The frame `new_remote(id, dlc)` builds: no payload, RTR set, LEN = dlc. */
  function NewRemoteFrame(fl: MsgTypeFlags, id: Id, dlc: nat): Option<Frame>
  {
    if dlc >= 8 then None
    else Some(Frame(Msg(id.AsRaw(), TypeFlag(fl, id) | fl.rtr, dlc, Zeros(8))))
  }

  /**
   * `Frame::new`: rejects payloads over eight bytes; otherwise selects the
   * flag from the identifier's kind, zero-fills the buffer and copies the
   * payload to its front.
   */
  method New(fl: MsgTypeFlags, id: Id, data: seq<bv8>) returns (r: Option<Frame>)
    ensures r == NewFrame(fl, id, data)
    ensures r.None? <==> |data| > 8
  {
    if |data| > 8 {
      return None;
    }
    var raw: RawId, msgType: bv8;
    match id {
      case Standard(x) => raw, msgType := x, fl.standard;
      case Extended(x) => raw, msgType := x, fl.extended;
    }
    var buf := new bv8[8](_ => 0);
    forall k | 0 <= k < |data| {
      buf[k] := data[k];
    }
    assert buf[..] == data + Zeros(8 - |data|);
    r := Some(Frame(Msg(raw, msgType, |data|, buf[..])));
  }

  /**
   * `Frame::new_remote`: rejects a DLC of eight or more; otherwise builds
   * an empty data frame and then sets the RTR bit and the length.
   */
  method NewRemote(fl: MsgTypeFlags, id: Id, dlc: nat) returns (r: Option<Frame>)
    ensures r == NewRemoteFrame(fl, id, dlc)
    ensures r.None? <==> dlc >= 8
  {
    if dlc >= 8 {
      return None;
    }
    var empty := New(fl, id, []);
    // the `?` on the empty payload never propagates
    assert empty.Some? && [] + Zeros(8) == Zeros(8);
    var frame := empty.value;
    frame := frame.(msg := frame.msg.(msgType := frame.msg.msgType | fl.rtr));
    frame := frame.(msg := frame.msg.(len := dlc));
    r := Some(frame);
  }

  // ---------------------------------------------------------------
  // Accessors

  /**
   * `is_extended()`: the EXTENDED bit of `MSGTYPE`. With valid flags, a
   * frame flagged only STANDARD or only RTR is never extended.
   */
  function IsExtended(fl: MsgTypeFlags, f: Frame): (r: bool)
    ensures fl.Valid() && r ==> f.msg.msgType != fl.standard && f.msg.msgType != fl.rtr
    ensures f.msg.msgType == fl.extended && fl.extended != 0 ==> r
  {
    f.msg.msgType & fl.extended != 0
  }

  /**
   * `is_remote_frame()`: the RTR bit of `MSGTYPE`. With valid flags, a
   * frame flagged only STANDARD or only EXTENDED is never a remote frame.
   */
  function IsRemoteFrame(fl: MsgTypeFlags, f: Frame): (r: bool)
    ensures fl.Valid() && r ==> f.msg.msgType != fl.standard && f.msg.msgType != fl.extended
    ensures f.msg.msgType == fl.rtr && fl.rtr != 0 ==> r
  {
    f.msg.msgType & fl.rtr != 0
  }

  /**
   * `id()`: rebuilds the tagged identifier from the EXTENDED bit and the
   * raw value, truncated to 32 bits for an extended and to 16 bits for a
   * standard identifier. None stands for the `unwrap` panicking, which
   * only a standard frame whose truncated value exceeds 0x7FF can cause.
   */
  function IdOf(fl: MsgTypeFlags, f: Frame): (r: Option<Id>)
    ensures r.Some? ==> r.value.Extended? == IsExtended(fl, f)
    ensures IsExtended(fl, f) ==> r == Some(Extended(f.msg.id))
    ensures !IsExtended(fl, f) ==> (r.None? <==> f.msg.id % 0x1_0000 > 0x7FF)
    ensures r.Some? ==> r.value.AsRaw() == f.msg.id % 0x1_0000 || IsExtended(fl, f)
  {
    if IsExtended(fl, f) then ExtendedIdNew(f.msg.id % 0x1_0000_0000)
    else StandardIdNew(f.msg.id % 0x1_0000)
  }

  /** `dlc()`: the `LEN` byte, widened; it never exceeds 255. */
  function Dlc(f: Frame): (r: nat)
    ensures r < 0x100
  {
    f.msg.len
  }

  /**
   * `data()`: the first `LEN` bytes of the buffer. None stands for the
   * slice panicking, which happens exactly when `LEN` exceeds eight.
   */
  function Data(f: Frame): (r: Option<seq<bv8>>)
    ensures r.None? <==> Dlc(f) > 8
    ensures r.Some? ==> |r.value| == Dlc(f) && forall k :: 0 <= k < |r.value| ==> r.value[k] == f.msg.data[k]
  {
    if f.msg.len <= 8 then Some(f.msg.data[..f.msg.len]) else None
  }

  // ---------------------------------------------------------------
  // Properties

  /** The bit facts about valid flag values the accessors depend on. */
  lemma FlagBits(fl: MsgTypeFlags)
    requires fl.Valid()
    ensures fl.standard & fl.extended == 0 && fl.standard & fl.rtr == 0
    ensures fl.extended & fl.extended != 0 && fl.extended & fl.rtr == 0
    ensures (fl.standard | fl.rtr) & fl.rtr != 0 && (fl.extended | fl.rtr) & fl.rtr != 0
    ensures (fl.standard | fl.rtr) & fl.extended == 0
    ensures (fl.extended | fl.rtr) & fl.extended != 0
  {
  }

  /** After `new`, `dlc()` and `data()` give back the payload. */
  lemma NewPayloadRoundTrip(fl: MsgTypeFlags, id: Id, data: seq<bv8>)
    requires |data| <= 8
    ensures NewFrame(fl, id, data).Some?
    ensures Dlc(NewFrame(fl, id, data).value) == |data|
    ensures Data(NewFrame(fl, id, data).value) == Some(data)
  {
    var f := NewFrame(fl, id, data).value;
    assert f.msg.data[..|data|] == data;
  }

  /** After `new`, every buffer byte at or beyond `LEN` is zero. */
  lemma NewZeroTail(fl: MsgTypeFlags, id: Id, data: seq<bv8>)
    requires |data| <= 8
    ensures forall k :: |data| <= k < 8 ==> NewFrame(fl, id, data).value.msg.data[k] == 0
  {
  }

  /**
   * After `new`, `is_extended()` matches the identifier's kind, the frame
   * is not a remote frame, and `id()` gives back the identifier (its
   * `unwrap` does not panic).
   */
  lemma NewFlagsAndId(fl: MsgTypeFlags, id: Id, data: seq<bv8>)
    requires fl.Valid() && |data| <= 8
    ensures IsExtended(fl, NewFrame(fl, id, data).value) <==> id.Extended?
    ensures !IsRemoteFrame(fl, NewFrame(fl, id, data).value)
    ensures IdOf(fl, NewFrame(fl, id, data).value) == Some(id)
  {
    IdFlagsOfNew(fl, id, NewFrame(fl, id, data).value);
  }

  /** The flag and identifier accessors depend only on `ID` and `MSGTYPE`. */
  lemma IdFlagsOfNew(fl: MsgTypeFlags, id: Id, f: Frame)
    requires fl.Valid() && f.msg.id == id.AsRaw() && f.msg.msgType == TypeFlag(fl, id)
    ensures IsExtended(fl, f) <==> id.Extended?
    ensures !IsRemoteFrame(fl, f)
    ensures IdOf(fl, f) == Some(id)
  {
    ExtendedBitOfNew(fl, id, f);
    RtrBitOfNew(fl, id, f);
    IdOfRaw(fl, f, id.Extended?);
  }

  lemma ExtendedBitOfNew(fl: MsgTypeFlags, id: Id, f: Frame)
    requires fl.Valid() && f.msg.msgType == TypeFlag(fl, id)
    ensures IsExtended(fl, f) <==> id.Extended?
  {
    FlagBits(fl);
  }

  lemma RtrBitOfNew(fl: MsgTypeFlags, id: Id, f: Frame)
    requires fl.Valid() && f.msg.msgType == TypeFlag(fl, id)
    ensures !IsRemoteFrame(fl, f)
  {
    FlagBits(fl);
  }

  /** `id()` on a raw value already in range for the kind the EXTENDED bit says. */
  lemma IdOfRaw(fl: MsgTypeFlags, f: Frame, extended: bool)
    requires IsExtended(fl, f) == extended
    requires !extended ==> f.msg.id <= 0x7FF
    ensures IdOf(fl, f) == if extended then Some(Extended(f.msg.id)) else Some(Standard(f.msg.id))
  {
    if extended {
      assert f.msg.id % 0x1_0000_0000 == f.msg.id;
    } else {
      assert f.msg.id % 0x1_0000 == f.msg.id;
    }
  }

  /**
   * After `new_remote`, the frame is a remote frame, keeps the identifier's
   * kind and the identifier, declares `dlc` bytes and `data()` is `dlc`
   * zero bytes.
   */
  lemma NewRemoteAccessors(fl: MsgTypeFlags, id: Id, dlc: nat)
    requires fl.Valid() && dlc < 8
    ensures NewRemoteFrame(fl, id, dlc).Some?
    ensures IsRemoteFrame(fl, NewRemoteFrame(fl, id, dlc).value)
    ensures IsExtended(fl, NewRemoteFrame(fl, id, dlc).value) <==> id.Extended?
    ensures IdOf(fl, NewRemoteFrame(fl, id, dlc).value) == Some(id)
    ensures Dlc(NewRemoteFrame(fl, id, dlc).value) == dlc
    ensures Data(NewRemoteFrame(fl, id, dlc).value) == Some(Zeros(dlc))
  {
    FlagBits(fl);
    var f := NewRemoteFrame(fl, id, dlc).value;
    if id.Standard? {
      assert f.msg.id < 0x1_0000;
    }
    assert f.msg.data[..dlc] == Zeros(dlc);
  }
}
