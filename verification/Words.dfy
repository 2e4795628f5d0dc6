/**
 Fixed-width integers as they travel on the wire, and the two-way choice type
 used wherever the program tests for presence.
 */
module Words {

  datatype Option<+T> = None | Some(value: T)

  const TWO_TO_THE_16 := 0x1_0000
  const TWO_TO_THE_31 := 0x8000_0000
  const TWO_TO_THE_32 := 0x1_0000_0000

  type byte = b: int | 0 <= b < 0x100
  type uint16 = n: int | 0 <= n < 0x1_0000
  type uint32 = n: int | 0 <= n < 0x1_0000_0000

  /** `n + 1` in 32-bit unsigned arithmetic: the largest number wraps to 0. */
  function Succ(n: uint32): uint32 {
    if n + 1 == TWO_TO_THE_32 then 0 else n + 1
  }

  lemma Assoc<T>(a: seq<T>, b: seq<T>, c: seq<T>)
    ensures (a + b) + c == a + (b + c)
  {
  }

  lemma Assoc4<T>(a: seq<T>, b: seq<T>, c: seq<T>, d: seq<T>)
    ensures ((a + b) + c) + d == a + ((b + c) + d)
  {
  }

  /** All parts, one after the other. */
  function Flatten<T>(parts: seq<seq<T>>): seq<T> {
    if parts == [] then [] else parts[0] + Flatten(parts[1..])
  }

  lemma {:induction false} FlattenConcat<T>(a: seq<seq<T>>, b: seq<seq<T>>)
    ensures Flatten(a + b) == Flatten(a) + Flatten(b)
  {
    if a == [] {
      assert a + b == b;
    } else {
      assert (a + b)[0] == a[0] && (a + b)[1..] == a[1..] + b;
      FlattenConcat(a[1..], b);
      Assoc(a[0], Flatten(a[1..]), Flatten(b));
    }
  }

  lemma FlattenSnoc<T>(parts: seq<seq<T>>, last: seq<T>)
    ensures Flatten(parts + [last]) == Flatten(parts) + last
  {
    FlattenConcat(parts, [last]);
    assert [last][1..] == [] && Flatten([last]) == last + [] == last;
  }

  // Positions of a list, in order

  predicate Ascending(at: seq<nat>) {
    forall k: nat, l: nat :: k < l < |at| ==> at[k] < at[l]
  }

  /** `at` lists exactly these positions, from the first to the last. */
  ghost predicate Enumerates(at: seq<nat>, positions: set<nat>) {
    Ascending(at) && forall i :: i in at <==> i in positions
  }

  lemma EnumeratesMore(at: seq<nat>, positions: set<nat>, n: nat)
    requires Enumerates(at, positions) && forall i :: i in positions ==> i < n
    ensures Enumerates(at + [n], positions + {n})
  {
    forall k: nat, l: nat | k < l < |at + [n]|
      ensures (at + [n])[k] < (at + [n])[l]
    {
      if l == |at| {
        assert at[k] in at;
      }
    }
  }
}
