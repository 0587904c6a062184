/** The two list operations the editing model is built from: inserting at an
    index, as `java.util.List.add(int, E)` does, and joining several lists in
    order into one. */
module Sequences {

  /** The list `s` after `add(i, x)`: `x` sits at position `i`, the elements
      before `i` keep their places and those from `i` on move one step right. */
  function InsertAt<T>(s: seq<T>, i: nat, x: T): (r: seq<T>)
    requires i <= |s|
    ensures |r| == |s| + 1
  {
    s[..i] + [x] + s[i..]
  }

  /** Position by position: `x` is at `i`, the elements before `i` are where
      they were, and every later element comes from one place to its left. */
  lemma InsertAtIndex<T>(s: seq<T>, i: nat, x: T)
    requires i <= |s|
    ensures InsertAt(s, i, x)[i] == x
    ensures forall j :: 0 <= j < i ==> InsertAt(s, i, x)[j] == s[j]
    ensures forall j :: i < j <= |s| ==> InsertAt(s, i, x)[j] == s[j - 1]
  {
  }

  /** Inserting at the end is appending. */
  lemma InsertAtEnd<T>(s: seq<T>, x: T)
    ensures InsertAt(s, |s|, x) == s + [x]
  {
  }

  /** Taking the inserted element out again gives back the original list. */
  lemma InsertAtUndo<T>(s: seq<T>, i: nat, x: T)
    requires i <= |s|
    ensures InsertAt(s, i, x)[..i] + InsertAt(s, i, x)[i + 1..] == s
  {
  }

  /** No element occurs twice. */
  predicate Distinct<T(==)>(s: seq<T>)
  {
    forall i, j :: 0 <= i < j < |s| ==> s[i] != s[j]
  }

  /** The in-order concatenation of a list of lists. */
  function Concat<T>(parts: seq<seq<T>>): seq<T>
  {
    if parts == [] then [] else parts[0] + Concat(parts[1..])
  }

  /** Joining two runs of lists is joining each run and putting the results
      one after the other. */
  lemma {:induction false} ConcatAppend<T>(a: seq<seq<T>>, b: seq<seq<T>>)
    ensures Concat(a + b) == Concat(a) + Concat(b)
  {
    if a == [] {
      assert a + b == b;
    } else {
      assert (a + b)[1..] == a[1..] + b;
      ConcatAppend(a[1..], b);
    }
  }

  /** Element `j` of list `k` appears in the joined list at the position given
      by the total length of the lists before `k`, plus `j`. */
  lemma {:induction false} ConcatIndex<T>(parts: seq<seq<T>>, k: nat, j: nat)
    requires k < |parts| && j < |parts[k]|
    ensures |Concat(parts[..k])| + j < |Concat(parts)|
    ensures Concat(parts)[|Concat(parts[..k])| + j] == parts[k][j]
  {
    assert parts == parts[..k] + parts[k..];
    ConcatAppend(parts[..k], parts[k..]);
    assert Concat(parts[k..]) == parts[k] + Concat(parts[k + 1..]) by {
      assert parts[k..][1..] == parts[k + 1..];
    }
  }

  /** Something is in the joined list exactly when it is in one of the parts. */
  lemma {:induction false} ConcatMembership<T>(parts: seq<seq<T>>, x: T)
    ensures x in Concat(parts) <==> exists k :: 0 <= k < |parts| && x in parts[k]
  {
    if parts != [] {
      ConcatMembership(parts[1..], x);
      if x in Concat(parts[1..]) {
        var k :| 0 <= k < |parts[1..]| && x in parts[1..][k];
        assert x in parts[k + 1];
      }
      if x !in parts[0] && exists k :: 0 <= k < |parts| && x in parts[k] {
        var k :| 0 <= k < |parts| && x in parts[k];
        assert x in parts[1..][k - 1];
      }
    }
  }
}
