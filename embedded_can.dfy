/**
 * The parts of the `embedded_can` and `nb` crates the core relies on:
 * the tagged identifier with its two ranges, the checked constructors
 * `StandardId::new` and `ExtendedId::new`, and the non-blocking error.
 */
module EmbeddedCan {
  import opened Types

  /** An 11-bit identifier value. */
  type StandardId = x: nat | x <= 0x7FF
  /** A 29-bit identifier value. */
  type ExtendedId = x: nat | x <= 0x1FFF_FFFF

  datatype Id = Standard(std: StandardId) | Extended(ext: ExtendedId)
  {
    /** The raw identifier value (`as_raw`), widened to 32 bits. */
    function AsRaw(): (r: nat)
      ensures r <= 0x1FFF_FFFF
      ensures Standard? ==> r <= 0x7FF
    {
      match this
      case Standard(x) => x
      case Extended(x) => x
    }
  }

  /** `StandardId::new(raw).map(Id::Standard)`: None above 0x7FF. */
  function StandardIdNew(raw: nat): Option<Id>
  {
    if raw <= 0x7FF then Some(Standard(raw)) else None
  }

  /** `ExtendedId::new(raw).map(Id::Extended)`: None above 0x1FFF_FFFF. */
  function ExtendedIdNew(raw: nat): Option<Id>
  {
    if raw <= 0x1FFF_FFFF then Some(Extended(raw)) else None
  }

  /** `nb::Error`: either "try again later" or a real error. */
  datatype NbError<+E> = WouldBlock | Other(error: E)
}
