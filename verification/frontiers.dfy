/** Sequences of boards and the list operations the generators perform on
    them: flattening a list of lists and removing duplicates. */
module Frontiers {

  /** The sublists laid end to end, in order. */
  function Flatten<T(!new)>(xss: seq<seq<T>>): (r: seq<T>)
    ensures forall x :: x in r <==> exists i :: 0 <= i < |xss| && x in xss[i]
    ensures (exists i :: 0 <= i < |xss| && |xss[i]| > 0) ==> |r| > 0
    ensures |xss| == 1 ==> r == xss[0]
  {
    if xss == [] then [] else xss[0] + Flatten(xss[1..])
  }

  /** Flattening the one-element lists of a sequence's elements gives
      the sequence back. */
  lemma {:induction false} FlattenSingletons<T(!new)>(xss: seq<seq<T>>, s: seq<T>)
    requires |xss| == |s| && forall i :: 0 <= i < |s| ==> xss[i] == [s[i]]
    ensures Flatten(xss) == s
  {
    if s != [] {
      FlattenSingletons(xss[1..], s[1..]);
    }
  }

  /** A sequence is non-empty exactly when something is in it. */
  lemma NonEmptyHasMember<T>(s: seq<T>)
    ensures |s| > 0 <==> exists x :: x in s
  {
    if |s| > 0 {
      assert s[0] in s;
    }
  }

  /** No element occurs twice. */
  predicate NoDuplicates<T(==)>(s: seq<T>) {
    forall i, j :: 0 <= i < j < |s| ==> s[i] != s[j]
  }

  /** The source's `list(set(lst))`: each element once. The source's order
      is that of a hash set; this keeps first occurrences in order. */
  method Deduplicate<T(==)>(lst: seq<T>) returns (r: seq<T>)
    ensures NoDuplicates(r)
    ensures forall x :: x in r <==> x in lst
    ensures |r| <= |lst|
  {
    r := [];
    var i := 0;
    while i < |lst|
      invariant 0 <= i <= |lst|
      invariant NoDuplicates(r)
      invariant forall x :: x in r <==> x in lst[..i]
      invariant |r| <= i
    {
      if lst[i] !in r {
        r := r + [lst[i]];
      }
      assert lst[..i + 1] == lst[..i] + [lst[i]];
      i := i + 1;
    }
    assert lst[..i] == lst;
  }
}
