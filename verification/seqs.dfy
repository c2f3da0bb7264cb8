/**
  Generic list primitives with the exact index semantics of the Python list
  operations the session server relies on: first-match search, `list.pop(i)`,
  `list.remove(x)`, a two-position swap, filtering, and Python's resolution of
  negative indices.
 */
module Seqs {
  import opened Wrappers

  /** Position of the first element satisfying `p`, if any. */
  function IndexWhere<T>(s: seq<T>, p: T -> bool): (r: Option<nat>)
    ensures r.Some? ==> r.value < |s| && p(s[r.value])
    ensures r.Some? ==> forall j :: 0 <= j < r.value ==> !p(s[j])
    ensures r.None? <==> forall j :: 0 <= j < |s| ==> !p(s[j])
  {
    if |s| == 0 then None
    else if p(s[0]) then Some(0)
    else match IndexWhere(s[1..], p)
      case None => None
      case Some(k) => Some(k + 1)
  }

  /** Python's reading of an index into a list of length `n`: `-n <= i < 0`
      counts from the end; anything else outside `0 <= i < n` raises
      IndexError. */
  function ResolveIndex(i: int, n: nat): (r: Option<nat>)
    ensures r.Some? <==> -(n as int) <= i < n
    ensures r.Some? ==> r.value < n && (r.value == i || r.value == i + n)
    ensures 0 <= i < n ==> r == Some(i)
  {
    if 0 <= i < n then Some(i)
    else if -(n as int) <= i < 0 then Some(i + n)
    else None
  }

  /** `list.pop(i)` for a resolved index: the element at `i` leaves, later
      elements shift down by one, earlier ones stay put. */
  function RemoveAt<T>(s: seq<T>, i: nat): (r: seq<T>)
    requires i < |s|
    ensures |r| == |s| - 1
    ensures forall j :: 0 <= j < i ==> r[j] == s[j]
    ensures forall j :: i <= j < |r| ==> r[j] == s[j + 1]
  {
    s[..i] + s[i + 1..]
  }

  /** Removing one position takes away exactly one copy of that element. */
  lemma RemoveAtMultiset<T>(s: seq<T>, i: nat)
    requires i < |s|
    ensures multiset(RemoveAt(s, i)) == multiset(s) - multiset{s[i]}
  {
    assert s == s[..i] + [s[i]] + s[i + 1..];
  }

  /** `x` first occurs at position `i` of `s`. */
  ghost predicate IsFirstOccurrence<T>(s: seq<T>, x: T, i: int) {
    0 <= i < |s| && s[i] == x && forall j :: 0 <= j < i ==> s[j] != x
  }

  /** If `x` is not at the head, its first occurrence in `s` is one past
      its first occurrence in the tail, so deleting it from the tail and
      putting the head back deletes it from `s`. */
  lemma ConsKeepsFirstOccurrence<T>(s: seq<T>, x: T, rest: seq<T>)
    requires |s| > 0 && s[0] != x
    requires exists k :: IsFirstOccurrence(s[1..], x, k)
    requires forall k :: IsFirstOccurrence(s[1..], x, k) ==> rest == s[1..][..k] + s[1..][k + 1..]
    ensures exists i :: IsFirstOccurrence(s, x, i)
    ensures forall i :: IsFirstOccurrence(s, x, i) ==> [s[0]] + rest == s[..i] + s[i + 1..]
  {
    var t := s[1..];
    var k :| IsFirstOccurrence(t, x, k);
    assert IsFirstOccurrence(s, x, k + 1);
    forall i | IsFirstOccurrence(s, x, i)
      ensures [s[0]] + rest == s[..i] + s[i + 1..]
    {
      assert i == k + 1;
      assert [s[0]] + t[..k] == s[..k + 1];
      assert t[k + 1..] == s[k + 2..];
    }
  }

  /** `list.remove(x)`: deletes the first element equal to `x` and keeps the
      order of the rest (Python raises ValueError when there is none, hence
      the precondition). */
  function RemoveFirst<T(==)>(s: seq<T>, x: T): (r: seq<T>)
    requires x in s
    ensures |r| == |s| - 1
    ensures exists i :: IsFirstOccurrence(s, x, i)
    ensures forall i :: IsFirstOccurrence(s, x, i) ==> r == s[..i] + s[i + 1..]
  {
    assert s == [s[0]] + s[1..];
    if s[0] == x then
      assert IsFirstOccurrence(s, x, 0);
      s[1..]
    else
      var t := s[1..];
      var rest := RemoveFirst(t, x);
      ConsKeepsFirstOccurrence(s, x, rest);
      [s[0]] + rest
  }

  /** `list.remove(x)` takes away exactly one copy of `x`. */
  lemma {:induction false} RemoveFirstMultiset<T>(s: seq<T>, x: T)
    requires x in s
    ensures multiset(RemoveFirst(s, x)) == multiset(s) - multiset{x}
  {
    assert s == [s[0]] + s[1..];
    if s[0] != x {
      RemoveFirstMultiset(s[1..], x);
    }
  }

  /** `a[i], a[j] = a[j], a[i]`: both positions are read first, then `a[i]`
      is written, then `a[j]`. */
  function Swap<T>(s: seq<T>, i: nat, j: nat): (r: seq<T>)
    requires i < |s| && j < |s|
    ensures |r| == |s|
    ensures r[i] == s[j] && r[j] == s[i]
    ensures forall k :: 0 <= k < |s| && k != i && k != j ==> r[k] == s[k]
  {
    s[i := s[j]][j := s[i]]
  }

  /** Swapping the same two positions again restores the list. */
  lemma SwapInvolution<T>(s: seq<T>, i: nat, j: nat)
    requires i < |s| && j < |s|
    ensures Swap(Swap(s, i, j), i, j) == s
  {
  }

  /** A swap is a permutation: no element is lost or duplicated. */
  lemma SwapMultiset<T>(s: seq<T>, i: nat, j: nat)
    requires i < |s| && j < |s|
    ensures multiset(Swap(s, i, j)) == multiset(s)
  {
  }

  /** The elements of `s` that satisfy `p`, in their original order. */
  function Filter<T(!new)>(s: seq<T>, p: T -> bool): (r: seq<T>)
    ensures |r| <= |s|
    ensures forall k :: 0 <= k < |r| ==> p(r[k])
    ensures forall x :: multiset(r)[x] == if p(x) then multiset(s)[x] else 0
  {
    if |s| == 0 then []
    else
      assert s == [s[0]] + s[1..];
      if p(s[0]) then [s[0]] + Filter(s[1..], p) else Filter(s[1..], p)
  }

  /** Filtering distributes over concatenation, so relative order is kept. */
  lemma {:induction false} FilterAppend<T(!new)>(a: seq<T>, b: seq<T>, p: T -> bool)
    ensures Filter(a + b, p) == Filter(a, p) + Filter(b, p)
  {
    if |a| == 0 {
      assert a + b == b;
    } else {
      assert (a + b)[1..] == a[1..] + b;
      FilterAppend(a[1..], b, p);
    }
  }

  /** A filter that rejects nothing is the identity. */
  lemma {:induction false} FilterKeepsAll<T(!new)>(s: seq<T>, p: T -> bool)
    requires forall k :: 0 <= k < |s| ==> p(s[k])
    ensures Filter(s, p) == s
  {
    if |s| > 0 {
      FilterKeepsAll(s[1..], p);
    }
  }
}
