/** The block-type selector (Player.cycleBlockTypes). */
module Selector {
  import opened Numerics

  /**
    * The selected block type after cycling by `upDown` among `count` types, with the
    * sum stored back into a Java byte before it is compared.
    */
  function CycleSelection(sel: Byte, upDown: int, count: int): (r: Byte)
    ensures 1 <= count <= 128 ==> 0 <= r < count
  {
    var s := ToByte(sel + upDown);
    if s >= count then 0
    else if s < 0 then ToByte(count - 1)
    else s
  }

  /** One step up or down is the cyclic successor or predecessor among `count` types. */
  lemma CycleSelectionSteps(sel: Byte, count: int)
    requires 0 <= sel < count <= 127
    ensures CycleSelection(sel, 1, count) == if sel == count - 1 then 0 else sel + 1
    ensures CycleSelection(sel, -1, count) == if sel == 0 then count - 1 else sel - 1
  {
  }

  /** With 128 types the byte overflows first: stepping up from 127 stays at 127 instead of wrapping to 0. */
  lemma CycleSelectionByteOverflow()
    ensures CycleSelection(127, 1, 128) == 127
  {
  }
}
