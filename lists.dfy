/** Index-based list operations shared by the editors and the window registry. */
module Lists {

  /** `a` is `b` with some elements dropped, the rest kept in order. */
  predicate IsSubsequence<T(==)>(a: seq<T>, b: seq<T>)
    decreases |b|
  {
    if a == [] then true
    else if b == [] then false
    else (a[0] == b[0] && IsSubsequence(a[1..], b[1..])) || IsSubsequence(a, b[1..])
  }

  lemma {:induction false} SubsequenceMembers<T>(a: seq<T>, b: seq<T>)
    requires IsSubsequence(a, b)
    ensures forall x :: x in a ==> x in b
    decreases |b|
  {
    if a != [] {
      if a[0] == b[0] && IsSubsequence(a[1..], b[1..]) {
        SubsequenceMembers(a[1..], b[1..]);
        forall x | x in a ensures x in b {
          if x != a[0] { assert x in a[1..]; }
        }
      } else {
        SubsequenceMembers(a, b[1..]);
      }
    }
  }

  /** `s.filter((_, j) => j !== i)`: the list without the element at index `i`. */
  function RemoveIndex<T>(s: seq<T>, i: nat): seq<T> {
    if s == [] then []
    else if i == 0 then s[1..]
    else [s[0]] + RemoveIndex(s[1..], i - 1)
  }

  /** Removing index `i` deletes exactly that element and keeps the others in order. */
  lemma {:induction false} RemoveIndexSlices<T>(s: seq<T>, i: nat)
    ensures RemoveIndex(s, i) == if i < |s| then s[..i] + s[i + 1..] else s
  {
    if s != [] && i > 0 {
      RemoveIndexSlices(s[1..], i - 1);
      if i < |s| {
        assert s[..i] == [s[0]] + s[1..][..i - 1];
        assert s[i + 1..] == s[1..][i..];
      } else {
        assert s == [s[0]] + s[1..];
      }
    }
  }

  /** What removing index `i` leaves at each position. */
  lemma RemoveIndexAt<T>(s: seq<T>, i: nat)
    requires i < |s|
    ensures |RemoveIndex(s, i)| == |s| - 1
    ensures forall j :: 0 <= j < i ==> RemoveIndex(s, i)[j] == s[j]
    ensures forall j :: i <= j < |s| - 1 ==> RemoveIndex(s, i)[j] == s[j + 1]
  {
    RemoveIndexSlices(s, i);
  }
}
