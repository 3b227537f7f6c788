/** Ring buffers as sequences. */
module Ring {
  /** Place i of the ring, without wrapping. */
  function Wrap(i: nat, cap: nat): nat {
    if i >= cap then i - cap else i
  }

  /** The count items of the ring mb from place head on. */
  ghost function RingItems<T>(mb: seq<T>, head: nat, count: nat): (s: seq<T>)
    requires count <= |mb| && (|mb| > 0 ==> head < |mb|)
    ensures |s| == count && forall i :: 0 <= i < count ==> s[i] == mb[Wrap(head + i, |mb|)]
  {
    seq(count, i requires 0 <= i < count => mb[Wrap(head + i, |mb|)])
  }

  lemma RingPush<T>(mb: seq<T>, head: nat, count: nat, it: T)
    requires count < |mb| && head < |mb|
    ensures RingItems(mb[Wrap(head + count, |mb|) := it], head, count + 1) == RingItems(mb, head, count) + [it]
  {
  }

  /** On a full ring the new data takes the place of the oldest. */
  lemma RingForce<T>(mb: seq<T>, head: nat, it: T)
    requires head < |mb|
    ensures RingItems(mb[head := it], Wrap(head + 1, |mb|), |mb|) == (RingItems(mb, head, |mb|) + [it])[1..]
  {
    var r, q := RingItems(mb[head := it], Wrap(head + 1, |mb|), |mb|), RingItems(mb, head, |mb|) + [it];
    forall i | 0 <= i < |mb| ensures r[i] == q[i + 1] {
      if i + 1 < |mb| {
        assert q[i + 1] == mb[Wrap(head + (i + 1), |mb|)];
      }
    }
  }

  lemma RingPop<T>(mb: seq<T>, head: nat, count: nat)
    requires 0 < count <= |mb| && head < |mb|
    ensures RingItems(mb, Wrap(head + 1, |mb|), count - 1) == RingItems(mb, head, count)[1..]
  {
    var r, q := RingItems(mb, Wrap(head + 1, |mb|), count - 1), RingItems(mb, head, count);
    forall i | 0 <= i < count - 1 ensures r[i] == q[i + 1] {
      assert q[i + 1] == mb[Wrap(head + (i + 1), |mb|)];
    }
  }
}
