/** `UUID()`: a source of identifiers that never repeats. It is modelled as a
    counter, so every identifier handed out is larger than all earlier ones. */
module Uuids {

  class UuidSource {
    /** Every identifier handed out so far is below `next`. */
    var next: nat

    constructor (start: nat)
      ensures next == start
    {
      next := start;
    }

    method Fresh() returns (id: nat)
      modifies this
      ensures id == old(next) && next == old(next) + 1
    {
      id := next;
      next := next + 1;
    }
  }
}
