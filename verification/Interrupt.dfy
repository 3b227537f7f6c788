/** Interrupt service routines: the queue of an interrupt number is found by binary search
    in the table the configurator writes in ascending order. */
module Interrupt {
  import opened Lists

  /** search_isr_queue: the queue registered for an interrupt number, if there is one. */
  method SearchIsrQueue(intnos: seq<int>, intno: int) returns (q: Option<nat>)
    requires forall i, j :: 0 <= i < j < |intnos| ==> intnos[i] < intnos[j]
    ensures q.Some? ==> q.value < |intnos| && intnos[q.value] == intno
    ensures q.None? ==> intno !in intnos
  {
    if |intnos| == 0 {
      return None;
    }
    var left, right := 0, |intnos| - 1;
    while left < right
      invariant 0 <= left <= right < |intnos|
      invariant left > 0 ==> intnos[left] <= intno
      invariant right + 1 < |intnos| ==> intno < intnos[right + 1]
      decreases right - left
    {
      var i := (left + right + 1) / 2;
      if intno < intnos[i] {
        right := i - 1;
      } else {
        left := i;
      }
    }
    if intnos[left] == intno {
      return Some(left);
    }
    return None;
  }
}
