/** Lists of task numbers: what the kernel's intrusive queues hold.
    The pointer ring itself is in Queue.dfy, whose operations are proved to be
    these sequence operations. */
module Lists {
  type Tid = nat

  datatype Option<+T> = None | Some(value: T)

  ghost predicate NoDup(q: seq<nat>) {
    forall i, j :: 0 <= i < j < |q| ==> q[i] != q[j]
  }

  /** The list without its first occurrence of x. */
  function Remove(q: seq<nat>, x: nat): seq<nat> {
    if q == [] then [] else if q[0] == x then q[1..] else [q[0]] + Remove(q[1..], x)
  }

  /** a stands before b in q. */
  ghost predicate Before(q: seq<nat>, a: nat, b: nat) {
    exists i, j :: 0 <= i < j < |q| && q[i] == a && q[j] == b
  }

  lemma {:induction false} RemoveSpec(q: seq<nat>, x: nat)
    requires NoDup(q)
    ensures NoDup(Remove(q, x))
    ensures forall y :: y in Remove(q, x) <==> y in q && y != x
    ensures |Remove(q, x)| <= |q|
  {
    if q == [] {
    } else if q[0] == x {
      assert q == [q[0]] + q[1..];
    } else {
      RemoveSpec(q[1..], x);
      assert q == [q[0]] + q[1..];
      ConsNoDup(q[0], Remove(q[1..], x));
    }
  }

  lemma {:induction false} RemoveAbsent(q: seq<nat>, x: nat)
    requires x !in q
    ensures Remove(q, x) == q
  {
    if q != [] {
      RemoveAbsent(q[1..], x);
      assert q == [q[0]] + q[1..];
    }
  }

  /** Removal never reorders the elements that stay. */
  lemma {:induction false} RemoveBefore(q: seq<nat>, x: nat, a: nat, b: nat)
    requires NoDup(q) && a != x && b != x
    ensures Before(Remove(q, x), a, b) <==> Before(q, a, b)
  {
    if q != [] {
      ConsBefore(q[0], q[1..], a, b);
      assert q == [q[0]] + q[1..];
      if q[0] != x {
        RemoveBefore(q[1..], x, a, b);
        ConsBefore(q[0], Remove(q[1..], x), a, b);
        RemoveSpec(q[1..], x);
      }
    }
  }

  lemma ConsBefore(h: nat, q: seq<nat>, a: nat, b: nat)
    ensures Before([h] + q, a, b) <==> (h == a && b in q) || Before(q, a, b)
  {
    var r := [h] + q;
    if Before(r, a, b) {
      var i, j :| 0 <= i < j < |r| && r[i] == a && r[j] == b;
      if i > 0 {
        assert q[i - 1] == a && q[j - 1] == b;
      }
    }
    if h == a && b in q {
      var j :| 0 <= j < |q| && q[j] == b;
      assert r[0] == a && r[j + 1] == b;
    }
    if Before(q, a, b) {
      var i, j :| 0 <= i < j < |q| && q[i] == a && q[j] == b;
      assert r[i + 1] == a && r[j + 1] == b;
    }
  }

  lemma SnocBefore(q: seq<nat>, x: nat, a: nat, b: nat)
    ensures Before(q + [x], a, b) <==> (x == b && a in q) || Before(q, a, b)
  {
    var r := q + [x];
    if Before(r, a, b) {
      var i, j :| 0 <= i < j < |r| && r[i] == a && r[j] == b;
      if j < |q| {
        assert q[i] == a && q[j] == b;
      } else {
        assert q[i] == a;
      }
    }
    if x == b && a in q {
      var i :| 0 <= i < |q| && q[i] == a;
      assert r[i] == a && r[|q|] == b;
    }
    if Before(q, a, b) {
      var i, j :| 0 <= i < j < |q| && q[i] == a && q[j] == b;
      assert r[i] == a && r[j] == b;
    }
  }

  /** With no duplicates, "before" is a strict total order of the members. */
  lemma BeforeTotal(q: seq<nat>, a: nat, b: nat)
    requires NoDup(q) && a in q && b in q && a != b
    ensures Before(q, a, b) <==> !Before(q, b, a)
  {
    var i :| 0 <= i < |q| && q[i] == a;
    var j :| 0 <= j < |q| && q[j] == b;
    if i < j {
      assert Before(q, a, b);
    } else {
      assert Before(q, b, a);
    }
  }

  lemma UpdateTwice<T>(q: seq<T>, i: nat, a: T, b: T)
    requires i < |q|
    ensures q[i := a][i := b] == q[i := b]
  {
  }

  lemma ConsSplit(h: nat, r: seq<nat>, k: nat, x: nat)
    requires k <= |r|
    ensures var q := [h] + r; [h] + (r[..k] + [x] + r[k..]) == q[..k + 1] + [x] + q[k + 1..]
  {
    var q := [h] + r;
    assert q[..k + 1] == [h] + r[..k];
    assert q[k + 1..] == r[k..];
  }

  lemma NoMembers(q: seq<nat>)
    requires forall x :: x !in q
    ensures q == []
  {
    if q != [] {
      HasMember(q);
    }
  }

  lemma HasMember(q: seq<nat>)
    requires q != []
    ensures exists x :: x in q
  {
    assert q[0] in q;
  }

  lemma ConsNoDup(h: nat, q: seq<nat>)
    requires NoDup(q) && h !in q
    ensures NoDup([h] + q)
  {
  }

  lemma SnocNoDup(q: seq<nat>, x: nat)
    requires NoDup(q) && x !in q
    ensures NoDup(q + [x])
  {
  }

  // ---- the ready queues: the highest non-empty queue and its head -------------

  /** The head of the first non-empty queue at index p or later. */
  function TopFrom(ready: seq<seq<nat>>, p: nat): Option<nat>
    decreases |ready| - p
  {
    if p >= |ready| then None
    else if ready[p] != [] then Some(ready[p][0])
    else TopFrom(ready, p + 1)
  }

  function Top(ready: seq<seq<nat>>): Option<nat> {
    TopFrom(ready, 0)
  }

  lemma {:induction false} TopFromAt(ready: seq<seq<nat>>, k: nat, p: nat)
    requires k <= p < |ready| && ready[p] != []
    requires forall r :: k <= r < p ==> ready[r] == []
    ensures TopFrom(ready, k) == Some(ready[p][0])
    decreases p - k
  {
    if k < p {
      TopFromAt(ready, k + 1, p);
    }
  }

  lemma {:induction false} TopFromNone(ready: seq<seq<nat>>, k: nat)
    requires forall r :: k <= r < |ready| ==> ready[r] == []
    ensures TopFrom(ready, k) == None
    decreases |ready| - k
  {
    if k < |ready| {
      TopFromNone(ready, k + 1);
    }
  }

  lemma {:induction false} TopFromInv(ready: seq<seq<nat>>, k: nat) returns (p: nat)
    requires TopFrom(ready, k).Some?
    ensures k <= p < |ready| && ready[p] != [] && TopFrom(ready, k) == Some(ready[p][0])
    ensures forall r :: k <= r < p ==> ready[r] == []
    decreases |ready| - k
  {
    if ready[k] != [] {
      p := k;
    } else {
      p := TopFromInv(ready, k + 1);
    }
  }

  lemma {:induction false} TopFromEmpty(ready: seq<seq<nat>>, k: nat)
    requires TopFrom(ready, k).None?
    ensures forall r :: k <= r < |ready| ==> ready[r] == []
    decreases |ready| - k
  {
    if k < |ready| {
      TopFromEmpty(ready, k + 1);
    }
  }

  /** Top is the head of queue p exactly when p is the first non-empty queue. */
  lemma TopIs(ready: seq<seq<nat>>, p: nat)
    requires p < |ready| && ready[p] != []
    requires forall r :: 0 <= r < p ==> ready[r] == []
    ensures Top(ready) == Some(ready[p][0])
  {
    TopFromAt(ready, 0, p);
  }
}
