/**
 * One acceptance-filter configuration: accept everything, or one
 * (identifier, mask) rule for standard or extended identifiers.
 */
module Filters {
  import opened Types
  import opened EmbeddedCan

  /** Mask covering every bit of an 11-bit identifier. */
  const StandardMask: u32 := 0x7FF
  /** Mask covering every bit of a 29-bit identifier. */
  const ExtendedMask: u32 := 0x1FFF_FFFF

  class Filter {
    var acceptAll: bool
    var isExtended: bool
    var id: u32
    var mask: u32

    /** `Filter::accept_all`: the open filter (flagged extended, id and mask zero). */
    constructor AcceptAll()
      ensures acceptAll && isExtended && id == 0 && mask == 0
    {
      acceptAll, isExtended, id, mask := true, true, 0, 0;
    }

    /**
     * `Filter::new`: a rule matching exactly `id`, with the full-width mask
     * of the identifier's kind, so the identifier lies within the mask.
     */
    constructor New(id: Id)
      ensures !acceptAll && isExtended == id.Extended? && this.id == id.AsRaw()
      ensures mask == if id.Extended? then ExtendedMask else StandardMask
      ensures this.id <= mask
    {
      acceptAll := false;
      match id {
        case Standard(x) =>
          isExtended, this.id, mask := false, x, StandardMask;
        case Extended(x) =>
          isExtended, this.id, mask := true, x, ExtendedMask;
      }
    }

    /** `with_mask`: replaces the mask in place and returns the same filter. */
    method WithMask(mask: u32) returns (self: Filter)
      modifies this`mask
      ensures self == this && this.mask == mask
      ensures acceptAll == old(acceptAll) && isExtended == old(isExtended) && id == old(id)
    {
      this.mask := mask;
      self := this;
    }
  }

  /**
   * A chained `f.with_mask(a).with_mask(b)`: the last mask wins, and the
   * other fields stay as they were (with `a == b`: setting a mask twice is
   * setting it once).
   */
  method WithMaskChain(f: Filter, a: u32, b: u32) returns (self: Filter)
    modifies f
    ensures self == f && f.mask == b
    ensures f.acceptAll == old(f.acceptAll) && f.isExtended == old(f.isExtended) && f.id == old(f.id)
  {
    self := f.WithMask(a);
    self := self.WithMask(b);
  }
}
