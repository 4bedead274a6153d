/** `Side` (src/chess/game.rs). Declared White first, so `side as usize`
    is 0 for White and 1 for Black; the move tables are indexed that way. */
module Sides {

  datatype Side = White | Black {

    /** `side as usize`. */
    function Index(): (i: nat)
      ensures i < 2
      ensures i == 0 <==> this == White
    {
      if this == White then 0 else 1
    }

    /** The side to move next. */
    function Opponent(): (o: Side)
      ensures o != this
    {
      if this == White then Black else White
    }
  }

  /** The side stored at table index i. */
  function SideAt(i: nat): (side: Side)
    requires i < 2
    ensures side.Index() == i
  {
    if i == 0 then White else Black
  }
}
