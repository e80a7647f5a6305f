/**
 * The finalize step's ordering: `std::sort` over `completed_parts` with the
 * comparison `a.GetPartNumber() < b.GetPartNumber()`, done here as an in-place
 * insertion sort. `std::sort` is not stable, so all it promises is a
 * rearrangement in non-decreasing part-number order; with distinct part
 * numbers that order is strict and the result is unique.
 */
module ReceiptOrder {
  import opened UploadWindow

  /** Non-decreasing by part number: what the comparator makes `std::sort` produce. */
  predicate SortedByNumber(s: seq<Receipt>)
  {
    forall i, j :: 0 <= i < j < |s| ==> s[i].number <= s[j].number
  }

  /** Strictly ascending by part number: the order the complete request needs. */
  predicate StrictlyAscending(s: seq<Receipt>)
  {
    forall i, j :: 0 <= i < j < |s| ==> s[i].number < s[j].number
  }

  method Swap(a: array<Receipt>, i: nat, j: nat)
    requires i < a.Length && j < a.Length
    modifies a
    ensures a[i] == old(a[j]) && a[j] == old(a[i])
    ensures forall k :: 0 <= k < a.Length && k != i && k != j ==> a[k] == old(a[k])
    ensures multiset(a[..]) == multiset(old(a[..]))
  {
    a[i], a[j] := a[j], a[i];
  }

  /** Sorts the receipts in place by part number. */
  method SortByPartNumber(a: array<Receipt>)
    modifies a
    ensures SortedByNumber(a[..])
    ensures multiset(a[..]) == multiset(old(a[..]))
  {
    var i := 0;
    while i < a.Length
      invariant 0 <= i <= a.Length
      invariant SortedByNumber(a[..i])
      invariant multiset(a[..]) == multiset(old(a[..]))
    {
      InsertIntoPrefix(a, i);
      i := i + 1;
    }
    assert a[..a.Length] == a[..];
  }

  /** Moves `a[i]` down into the sorted prefix `a[..i]`, leaving `a[..i + 1]` sorted. */
  method InsertIntoPrefix(a: array<Receipt>, i: nat)
    requires i < a.Length && SortedByNumber(a[..i])
    modifies a
    ensures SortedByNumber(a[..i + 1])
    ensures multiset(a[..]) == multiset(old(a[..]))
    ensures a[i + 1..] == old(a[i + 1..])
  {
    var j: nat := i;
    while j > 0 && a[j - 1].number > a[j].number
      invariant Sinking(a, i, j)
      invariant multiset(a[..]) == multiset(old(a[..]))
      invariant a[i + 1..] == old(a[i + 1..])
    {
      SinkStep(a, i, j);
      j := j - 1;
    }
  }

  /**
   * While `a[j]` sinks through `a[..i + 1]`: apart from position j the prefix
   * is in order, and the neighbours of j are in order with each other.
   */
  predicate Sinking(a: array<Receipt>, i: nat, j: nat)
    reads a
    requires i < a.Length
  {
    && j <= i
    && (forall p, q :: 0 <= p < q <= i && q != j ==> a[p].number <= a[q].number)
    && (0 < j < i ==> a[j - 1].number <= a[j + 1].number)
  }

  /** One step of the sinking: `a[j]` changes places with its larger left neighbour. */
  method SinkStep(a: array<Receipt>, i: nat, j: nat)
    requires i < a.Length && Sinking(a, i, j) && 0 < j && a[j - 1].number > a[j].number
    modifies a
    ensures Sinking(a, i, j - 1)
    ensures multiset(a[..]) == multiset(old(a[..]))
    ensures a[i + 1..] == old(a[i + 1..])
  {
    Swap(a, j - 1, j);
    assert forall k :: i < k < a.Length ==> a[k] == old(a[k]);
  }

  lemma MultisetTail(s: seq<Receipt>)
    requires s != []
    ensures multiset(s[1..]) == multiset(s) - multiset{s[0]}
  {
    assert s == [s[0]] + s[1..];
  }

  lemma IndexOfMember(x: Receipt, s: seq<Receipt>) returns (i: nat)
    requires x in multiset(s)
    ensures i < |s| && s[i] == x
  {
    assert x in s;
    i :| 0 <= i < |s| && s[i] == x;
  }

  /** The smallest element comes first in both arrangements. */
  lemma {:induction false} SameHead(s: seq<Receipt>, t: seq<Receipt>)
    requires StrictlyAscending(s) && SortedByNumber(t) && multiset(s) == multiset(t)
    requires s != [] && t != []
    ensures t[0] == s[0]
  {
    var j := IndexOfMember(t[0], s);
    var k := IndexOfMember(s[0], t);
    assert t[0].number <= t[k].number;
    assert j == 0;
  }

  /** Dropping the first receipt keeps either order. */
  lemma TailKeepsOrder(s: seq<Receipt>)
    requires s != []
    ensures StrictlyAscending(s) ==> StrictlyAscending(s[1..])
    ensures SortedByNumber(s) ==> SortedByNumber(s[1..])
  {
    assert forall i :: 0 <= i < |s| - 1 ==> s[1..][i] == s[i + 1];
  }

  lemma SameLength(s: seq<Receipt>, t: seq<Receipt>)
    requires multiset(s) == multiset(t)
    ensures |s| == |t|
  {
    assert |multiset(s)| == |s| && |multiset(t)| == |t|;
  }

  /**
   * A strictly ascending list is the only sorted arrangement of its elements:
   * whatever order the receipts arrived in, sorting gives back that list.
   */
  lemma {:induction false} SortedArrangementIsUnique(s: seq<Receipt>, t: seq<Receipt>)
    requires StrictlyAscending(s) && SortedByNumber(t) && multiset(s) == multiset(t)
    ensures t == s
    decreases |s|
  {
    SameLength(s, t);
    if s != [] {
      SameHead(s, t);
      MultisetTail(s);
      MultisetTail(t);
      TailKeepsOrder(s);
      TailKeepsOrder(t);
      SortedArrangementIsUnique(s[1..], t[1..]);
      assert s == [s[0]] + s[1..] && t == [t[0]] + t[1..];
    }
  }
}
