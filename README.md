# pcbusb: a verified model of the CAN interface layer

This project models the part of `pcbusb` that holds logic. `pcbusb` is a Rust layer over the PEAK/MacCAN USB CAN drivers. The model covers three pieces:

- **Frame** (`frame.dfy`, module `Frames`). The vendor message record `TPCANMsg` has four fields: a raw `ID`, a `MSGTYPE` flag byte, a `LEN` byte and an 8-byte `DATA` buffer. The module models the `embedded_can::Frame` constructors `new` and `new_remote` and the accessors `is_extended`, `is_remote_frame`, `id`, `dlc` and `data`.
- **Filter** (`filter.dfy`, module `Filters`). A class with `accept_all`, `is_extended`, `id` and `mask`. It has the two constructors and the in-place `with_mask`.
- **Interface** (`interface.dfy`, module `Interfaces`). This is `init` with its startup drain loop, `drop`, `transmit_internal`/`receive_internal`, the non-blocking and blocking `transmit`/`receive`, `add_filter` with its single-custom-filter guard, and `clear_filters`. They run against an abstract model of the vendor driver (`driver.dfy`, module `Pcan`).

The driver model is a class. It holds:

- a first-in-first-out receive queue;
- the messages written so far;
- the channel's filter parameters: the `PCAN_MESSAGE_FILTER` mode and the last values written to the 11-bit and 29-bit acceptance filters;
- whether the channel is initialized;
- a script of upcoming call outcomes.

Each driver call takes the head of the script. `None`, or an empty script, means the call behaves normally. `Some(s)` means the call fails with status `s` and changes nothing. This script is how "the status the next call returns" is modelled. Because the script is finite, the two loops of the source can be proved to terminate.

The vendor constants are parameters with stated assumptions:

- `MsgTypeFlags` holds STANDARD, EXTENDED and RTR. It assumes that EXTENDED and RTR are non-zero and share no bit, and that STANDARD shares no bit with either. The accessors at `frame.rs:48-54` need exactly this.
- `Codes` holds OK, QRCVEMPTY, the status of a double initialize, OPEN/CLOSE/CUSTOM and `PCAN_USBBUS1`. It assumes that OK differs from the two error statuses, and that CUSTOM differs from OPEN and CLOSE.

Supporting modules:

- `Types`: Option, Result and u8/u16/u32.
- `EmbeddedCan`: `Id` with its 11-bit and 29-bit ranges, `StandardId::new`, `ExtendedId::new` and `nb::Error`.
- `Baudrates`: the 14-variant `Baudrate` enum, passed through to the driver.
- `Errors`: `Error` as either a driver status code or a literal message.

Assumptions of the driver model that the source relies on but does not show:

- Writing an acceptance-filter parameter switches `PCAN_MESSAGE_FILTER` to CUSTOM, as PCAN-Basic does. This is what gives the guard in `add_filter` its meaning.
- A failed `CAN_GetValue` leaves the caller's buffer as it was. `add_filter` initialises its buffer to 0 and ignores the status, so it then compares 0 with CUSTOM.
- A failed `CAN_Read` delivers no message, and a forced failure is never OK. So the only message `receive_internal` uses, the one in its OK arm, is one the driver wrote. The source runs `assume_init` before it looks at the status; see "## Left out".

## Model

| member | source | states |
|---|---|---|
| `Frames.New` | pcbusb/src/frame.rs:14-35 | Returns None exactly when the payload exceeds 8 bytes. Otherwise the frame has the identifier's raw value, the STANDARD or EXTENDED flag for its kind, `LEN` equal to the payload length, and a buffer made of the payload followed by zeros. The buffer is built by zero-filling a fresh 8-byte array and copying the payload in. |
| `Frames.NewRemote` | pcbusb/src/frame.rs:37-46 | Returns None exactly when `dlc >= 8`, so 7 is accepted and 8 rejected. Otherwise it builds the empty frame with `new`, whose `?` never fails, then ORs in RTR and sets `LEN` to `dlc`. |
| `Frames.IsExtended` | pcbusb/src/frame.rs:48-50 | `is_extended()` tests the EXTENDED bit. A frame flagged EXTENDED is extended. With valid flags, a frame flagged only STANDARD or only RTR is not. |
| `Frames.IsRemoteFrame` | pcbusb/src/frame.rs:52-54 | `is_remote_frame()` tests the RTR bit. A frame flagged RTR is remote. With valid flags, a frame flagged only STANDARD or only EXTENDED is not. |
| `Frames.IdOf` | pcbusb/src/frame.rs:56-62 | `id()` picks the identifier's kind from the EXTENDED bit. An extended frame always gives back its raw `ID`; the 32-bit cast loses nothing and the `unwrap` never panics. A standard frame truncates `ID` to 16 bits. It gives None, the panicking `unwrap`, exactly when the truncated value exceeds 0x7FF, and otherwise the truncated value. |
| `Frames.Dlc` | pcbusb/src/frame.rs:64-66 | `dlc()` is the `LEN` byte widened, so it is at most 255. |
| `Frames.Data` | pcbusb/src/frame.rs:68-70 | `data()` has length `dlc()`, and its bytes are the first buffer bytes in order. It gives None, the slice panicking, exactly when `LEN > 8`. |
| `Frames.FlagBits` | pcbusb/src/frame.rs:48-54 | Under the flag assumptions, these are the bit facts the two flag accessors depend on. |
| `Frames.NewPayloadRoundTrip` | pcbusb/src/frame.rs:30-33 | For a payload of at most 8 bytes, after `new`, `dlc()` is the payload length and `data()` is the payload. |
| `Frames.NewZeroTail` | pcbusb/src/frame.rs:31-33 | After `new`, every `DATA` byte at or beyond `LEN` is zero. |
| `Frames.NewFlagsAndId` | pcbusb/src/frame.rs:19-22 | After `new`: `is_extended()` holds exactly for an extended id, `is_remote_frame()` is false, and `id()` returns the identifier given, so its `unwrap` never panics. |
| `Frames.IdFlagsOfNew` | pcbusb/src/frame.rs:48-62 | The same three facts, for any frame whose `ID` and `MSGTYPE` are those `new` writes. |
| `Frames.ExtendedBitOfNew` | pcbusb/src/frame.rs:48-50 | The flag `new` picks has the EXTENDED bit exactly for an extended id. |
| `Frames.RtrBitOfNew` | pcbusb/src/frame.rs:52-54 | The flag `new` picks never has the RTR bit. |
| `Frames.IdOfRaw` | pcbusb/src/frame.rs:56-62 | `id()` returns the raw value unchanged when it is already in range for the kind the EXTENDED bit says. |
| `Frames.NewRemoteAccessors` | pcbusb/src/frame.rs:42-45 | After `new_remote` with `dlc < 8`: `is_remote_frame()` holds, `is_extended()` still matches the id's kind, and `id()` returns the id. `dlc()` is `dlc` and `data()` is `dlc` zero bytes. |
| `Filters.Filter.AcceptAll` | pcbusb/src/filter.rs:11-19 | Gives `accept_all = true`, `is_extended = true`, `id = 0`, `mask = 0`. |
| `Filters.Filter.New` | pcbusb/src/filter.rs:21-36 | Gives `accept_all = false`. `is_extended` and `id` come from the identifier. The mask is 0x7FF for a standard id and 0x1FFF_FFFF for an extended one, so `id <= mask`. |
| `Filters.Filter.WithMask` | pcbusb/src/filter.rs:38-41 | Sets the mask in place, leaves the other three fields unchanged, and returns the same filter for chaining. |
| `Filters.WithMaskChain` | pcbusb/src/filter.rs:38-41 | `with_mask(a).with_mask(b)` leaves mask `b` and the other fields unchanged: the last write wins, and repeating a mask is the same as setting it once. |
| `Pcan.Driver.Initialize` | pcbusb/src/sys.rs:64-81 | Driver model of `CAN_Initialize`. A forced failure returns its status. A second open returns the double-initialize status. Otherwise it returns OK and records the channel as initialized at the given rate. |
| `Pcan.Driver.Uninitialize` | pcbusb/src/sys.rs:83-86 | Driver model of `CAN_Uninitialize`. Unless the call is forced to fail, the channel is released. |
| `Pcan.Driver.Read` | pcbusb/src/sys.rs:98-105 | Driver model of `CAN_Read`. A forced failure reports its status. Otherwise an empty queue reports QRCVEMPTY, and a non-empty queue reports OK and hands over its head. |
| `Pcan.Driver.Write` | pcbusb/src/sys.rs:107-110 | Driver model of `CAN_Write`. Unless the call is forced to fail, it returns OK and the message is appended to what was sent. |
| `Pcan.Driver.GetMessageFilter` | pcbusb/src/sys.rs:124-134 | Driver model of `CAN_GetValue(PCAN_MESSAGE_FILTER)`. On success the buffer receives the filter mode; on a forced failure it keeps its old contents. |
| `Pcan.Driver.SetValue` | pcbusb/src/sys.rs:136-151 | Driver model of `CAN_SetValue`. Unless the call is forced to fail, the parameter takes the value written. An acceptance-filter write also sets the mode to CUSTOM. |
| `Interfaces.ReceiveStep` | pcbusb/src/interface.rs:181-195 | The classification in `receive_internal`. `Ok` comes exactly from a normal read of a non-empty queue; it carries the head and pops it. `WouldBlock` comes exactly from a QRCVEMPTY, forced or from an empty queue, and leaves the queue alone. Any other status is `Other` carrying that status. |
| `Interfaces.Drain` | pcbusb/src/interface.rs:152-157 | The state the drain loop leaves. It never grows the script or the queue. |
| `Interfaces.DrainStep` | pcbusb/src/interface.rs:153-157 | The drain loop reads past a frame and past a driver error. It stops only at a read reporting QRCVEMPTY. |
| `Interfaces.DrainEmptiesQueue` | pcbusb/src/interface.rs:152-157 | Unless the driver reports a spurious QRCVEMPTY, the drain loop leaves the receive queue empty, whatever errors occur along the way. |
| `Interfaces.EmptyPolls` | pcbusb/src/interface.rs:224-230 | The number of leading reads that report QRCVEMPTY: all reads before that index do, and the read at it does not. |
| `Interfaces.WouldBlockProgress` | pcbusb/src/interface.rs:228 | While something will end the wait, a `WouldBlock` read consumes a script entry and leaves the queue as it was. |
| `Interfaces.Retry` | pcbusb/src/interface.rs:223-232 | The outcome of the blocking `receive`, which reads again on `WouldBlock`. A frame it returns is the queue head, which it pops. An error it returns is a driver status other than QRCVEMPTY, and the queue is left intact. |
| `Interfaces.RetryOutcome` | pcbusb/src/interface.rs:223-232 | The blocking `receive` skips exactly the leading QRCVEMPTY reads. The next script entry then decides: a forced failure is returned as the error, and otherwise the queue head is returned and popped. |
| `Interfaces.ReceiveQueueHead` | pcbusb/src/interface.rs:223-232 | With a queued frame and no failures, the blocking `receive` returns the queue head. |
| `Interfaces.Interface.Init` | pcbusb/src/interface.rs:92-160 | A failing `CAN_Initialize` returns `Err` with its status and builds no interface. The channel's open state, baudrate and queue are then as they were. On success the interface is fresh, uses channel `PCAN_USBBUS1` and the given baudrate, and leaves the receive queue as the drain loop does. No frame is sent and no parameter changes. |
| `Interfaces.Interface.Drop` | pcbusb/src/interface.rs:163-169 | Calls `CAN_Uninitialize` on the channel and ignores its status. The channel is released unless the driver fails. The baudrate, queue, sent messages and parameters are unchanged. |
| `Interfaces.Interface.TransmitInternal` | pcbusb/src/interface.rs:172-179 | Returns `Ok(None)` exactly when the write succeeds, which also sends the frame's message. Otherwise it returns `Other` carrying the status. It never returns `WouldBlock`. |
| `Interfaces.Interface.ReceiveInternal` | pcbusb/src/interface.rs:181-195 | One read, classified as in `ReceiveStep`. Nothing but the script and the queue changes. |
| `Interfaces.Interface.NbTransmit` | pcbusb/src/interface.rs:202-204 | The non-blocking `transmit` delegates to `transmit_internal` and has the same outcome. |
| `Interfaces.Interface.NbReceive` | pcbusb/src/interface.rs:206-208 | The non-blocking `receive` delegates to `receive_internal` and has the same outcome. |
| `Interfaces.Interface.Transmit` | pcbusb/src/interface.rs:215-221 | The blocking `transmit` returns `Ok(())` on a successful write and the driver's error otherwise. Its `panic!` arm is unreachable. |
| `Interfaces.Interface.Receive` | pcbusb/src/interface.rs:223-232 | The blocking `receive` returns what `Retry` computes: the first frame or the first error, after retrying every `WouldBlock`. |
| `Interfaces.Interface.AddFilter` | pcbusb/src/interface.rs:236-277 | Reads the mode; a failed read leaves 0. In CUSTOM mode it returns `Err("Cannot configure more than one filter")` and writes no parameter. Otherwise it writes one parameter and returns `Ok` whatever the write reports. An accept-all filter writes OPEN to the mode, an extended filter writes `[mask, id]` to the 29-bit filter, and a standard filter writes `[mask, id]` to the 11-bit filter. |
| `Interfaces.Interface.ClearFilters` | pcbusb/src/interface.rs:279-289 | Writes CLOSE to the filter mode and ignores the status. No other parameter, the queue and the sent messages are unchanged. |
| `Interfaces.FreshInterfaceWouldBlock` | pcbusb/src/interface.rs:152-157 | On a fresh channel with no failures, the first non-blocking read after `init` reports `WouldBlock`, because the drain has discarded what was queued. |
| `Interfaces.CustomFilterTwice` | pcbusb/src/interface.rs:246-248 | With no driver failures: after an `add_filter` with a filter that is not accept-all, a second `add_filter` with no `clear_filters` between them fails with "Cannot configure more than one filter". |
| `Interfaces.ClearThenAdd` | pcbusb/src/interface.rs:279-289 | With no driver failures, `add_filter` right after `clear_filters` succeeds. If the driver fails the `clear_filters` write, the source ignores the failure, so a custom channel stays custom. |

## Left out

- `Interfaces.Interface.Receive`: it requires that something will end the wait, either a queued frame or a forced driver failure other than QRCVEMPTY. When nothing ever arrives, the source spins forever, and a loop without termination cannot be modelled here. The source never waits on the event handle; it re-reads in a busy loop.
- `Interfaces.Interface.Init`: when the driver keeps reporting hard errors, the drain loop of the source never ends. The model's script is finite, so the model drain always ends.
- `Interfaces.Interface.ClearFilters`: the mode becomes CLOSE only when the driver's write succeeds. The source ignores the status, so a failed write leaves the mode as it was.
- Frames arriving from the bus while the layer runs are not modelled; the queue only changes through the layer's own reads. This also covers the race between the drain and new traffic.
- OS event plumbing is not modelled, because it is OS and foreign calls with no logic of the layer's own. This covers the Windows `CreateEventA` and the `PCAN_RECEIVE_EVENT` write, the `EventHandle` wrappers and the unused `select` import. The commented-out `PCAN_ALLOW_STATUS_FRAMES` write is not modelled either.
- `Error::new` renders the status text through `CAN_GetErrorText`, a foreign call, so the model keeps the status code instead. The `From` impls, which only format strings, and `embedded_can::Error::kind` are not modelled.
- `receive_internal` calls `msg.assume_init()` in the same tuple as `CAN_Read`, before the status is matched. On QRCVEMPTY and on every error status it therefore runs on a buffer the driver never wrote, which is undefined behaviour in Rust. The model does not capture this: a read without a message simply has no message, and only the OK arm uses one.
- The other `unsafe` memory handling (pointer casts, `to_le`) is not modelled. A read is modelled as a status plus an optional message, and parameter writes as typed values.
- The platform split of the `ID` field width (u32 against u64) is not modelled. `ID` is a natural number of at most 0x1FFF_FFFF; the truncating casts in `id()` are kept.
- `sys.rs` has no logic of its own beyond constant re-exports and width casts, so it is not modelled. Its constants are parameters (`Codes`, `MsgTypeFlags`), and the calls the layer makes are the `Driver` methods. `CAN_Reset`, `CAN_GetStatus` and `CAN_FilterMessages` are never called by the core, so they are not modelled.
- The numeric codes of `Baudrate` come from the vendor, so the model only passes the variant through.
- The build script, the example program and `lib.rs` hold no layer logic (binding generation, re-exports), so they are not modelled.
