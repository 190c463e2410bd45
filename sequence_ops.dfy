/**
 * The two sequence operations the reconciliation uses: an element-wise
 * sequence comparison (Dafny's `==` on sequences, which is what
 * `SequenceEqual` with the default string comparer decides) and the set
 * difference `Except`, which yields, in order, the distinct elements of
 * its first argument that do not occur in its second.
 */
module SequenceOps {
  import opened Wrappers

  /** No element occurs twice. */
  predicate Distinct(s: seq<string>) {
    forall i, j :: 0 <= i < j < |s| ==> s[i] != s[j]
  }

  /**
   * `first.Except(second)`, computed the way the library does it: walk
   * `first` in order, keeping a set that starts as the elements of
   * `second`; an element is yielded when it is not yet in that set, and
   * it is added to the set once yielded.
   */
  function Except(first: seq<string>, second: seq<string>): (r: seq<string>)
    ensures forall x :: x in r <==> x in first && x !in second
    ensures Distinct(r)
    ensures |r| <= |first|
    decreases |first|
  {
    if first == [] then []
    else if first[0] in second then Except(first[1..], second)
    else
      assert forall x :: x in first <==> x == first[0] || x in first[1..] by {
        assert first == [first[0]] + first[1..];
      }
      var rest := Except(first[1..], second + [first[0]]);
      assert first[0] !in rest;
      [first[0]] + rest
  }

  /**
   * The position of the first element of `s` that does not occur in
   * `other`, or None when every element of `s` occurs in `other`.
   */
  function FirstAbsent(s: seq<string>, other: seq<string>): (r: Option<nat>)
    ensures r.Some? ==> r.value < |s| && s[r.value] !in other
    ensures r.Some? ==> forall j :: 0 <= j < r.value ==> s[j] in other
    ensures r.None? <==> forall j :: 0 <= j < |s| ==> s[j] in other
    decreases |s|
  {
    if s == [] then None
    else if s[0] !in other then Some(0)
    else
      match FirstAbsent(s[1..], other)
      case None => None
      case Some(i) => Some(i + 1)
  }

  /**
   * The difference is empty exactly when nothing is absent, and its
   * first element, the one the monitor reports, is the first absent
   * element of `first`.
   */
  lemma {:induction false} ExceptLeadsWithFirstAbsent(first: seq<string>, second: seq<string>)
    ensures |Except(first, second)| > 0 <==> FirstAbsent(first, second).Some?
    ensures FirstAbsent(first, second).Some? ==>
              Except(first, second)[0] == first[FirstAbsent(first, second).value]
    decreases |first|
  {
    var r, a := Except(first, second), FirstAbsent(first, second);
    if a.Some? {
      assert first[a.value] in r;
    }
    if first != [] && first[0] in second {
      ExceptLeadsWithFirstAbsent(first[1..], second);
    }
  }

  /** A sequence compared with itself has nothing absent, in either direction. */
  lemma NothingAbsentFromItself(s: seq<string>)
    ensures FirstAbsent(s, s) == None
    ensures Except(s, s) == []
  {
    ExceptLeadsWithFirstAbsent(s, s);
  }
}
