/** `sortStopovers`: a trip's stopovers put in order of `stop_sequence`
    before they are expanded. The source hands its comparator to
    `Array.prototype.sort`, which is stable; the model sorts by stable
    insertion. */
module Sorting {
  import opened Types

  /** The comparator: negative, zero or positive as `s1` comes before, with
      or after `s2` in sequence order. */
  function CompareStopovers(s1: Stopover, s2: Stopover): (c: int)
    ensures c < 0 <==> s1.stopSequence < s2.stopSequence
    ensures c == 0 <==> s1.stopSequence == s2.stopSequence
    ensures c > 0 <==> s1.stopSequence > s2.stopSequence
  {
    s1.stopSequence - s2.stopSequence
  }

  /** Non-decreasing `stop_sequence`. */
  ghost predicate SortedBySequence(s: seq<Stopover>) {
    forall i, j :: 0 <= i < j < |s| ==> s[i].stopSequence <= s[j].stopSequence
  }

  /** `x` placed ahead of the first stopover that does not compare below it. */
  function InsertBySequence(x: Stopover, sorted: seq<Stopover>): seq<Stopover>
    decreases |sorted|
  {
    if sorted == [] || CompareStopovers(x, sorted[0]) <= 0 then [x] + sorted
    else [sorted[0]] + InsertBySequence(x, sorted[1..])
  }

  /** The stopovers ordered by the comparator. */
  function SortStopovers(s: seq<Stopover>): seq<Stopover>
    decreases |s|
  {
    if s == [] then [] else InsertBySequence(s[0], SortStopovers(s[1..]))
  }

  /** Every stopover of `s` is at `lo` or later in sequence order. */
  ghost predicate AllFromSequence(s: seq<Stopover>, lo: int) {
    forall k :: 0 <= k < |s| ==> lo <= s[k].stopSequence
  }

  /** Inserting adds exactly `x`. */
  lemma {:induction false} InsertBySequencePermutation(x: Stopover, sorted: seq<Stopover>)
    ensures multiset(InsertBySequence(x, sorted)) == multiset(sorted) + multiset{x}
    ensures |InsertBySequence(x, sorted)| == |sorted| + 1
    decreases |sorted|
  {
    if !(sorted == [] || CompareStopovers(x, sorted[0]) <= 0) {
      InsertBySequencePermutation(x, sorted[1..]);
      assert sorted == [sorted[0]] + sorted[1..];
    }
  }

  /** Inserting keeps a lower bound that `x` and the list both meet. */
  lemma {:induction false} InsertBySequenceFrom(x: Stopover, sorted: seq<Stopover>, lo: int)
    requires AllFromSequence(sorted, lo) && lo <= x.stopSequence
    ensures AllFromSequence(InsertBySequence(x, sorted), lo)
    decreases |sorted|
  {
    if !(sorted == [] || CompareStopovers(x, sorted[0]) <= 0) {
      var rest := InsertBySequence(x, sorted[1..]);
      InsertBySequenceFrom(x, sorted[1..], lo);
      assert InsertBySequence(x, sorted) == [sorted[0]] + rest;
    }
  }

  /** Inserting into a sorted list keeps it sorted. */
  lemma {:induction false} InsertBySequenceSorted(x: Stopover, sorted: seq<Stopover>)
    requires SortedBySequence(sorted)
    ensures SortedBySequence(InsertBySequence(x, sorted))
    decreases |sorted|
  {
    var r := InsertBySequence(x, sorted);
    if sorted == [] || CompareStopovers(x, sorted[0]) <= 0 {
      assert r == [x] + sorted;
      forall i, j | 0 <= i < j < |r| ensures r[i].stopSequence <= r[j].stopSequence {
        assert r[j] == sorted[j - 1];
        if i > 0 {
          assert r[i] == sorted[i - 1];
        }
      }
    } else {
      var h, tail := sorted[0], sorted[1..];
      InsertBySequenceSorted(x, tail);
      InsertBySequenceFrom(x, tail, h.stopSequence);
      var rest := InsertBySequence(x, tail);
      assert r == [h] + rest;
      forall i, j | 0 <= i < j < |r| ensures r[i].stopSequence <= r[j].stopSequence {
        assert r[j] == rest[j - 1];
        if i > 0 {
          assert r[i] == rest[i - 1];
        }
      }
    }
  }

  /** The sorted list is in non-decreasing `stop_sequence` and is a
      permutation of the input. */
  lemma {:induction false} SortStopoversSorted(s: seq<Stopover>)
    ensures SortedBySequence(SortStopovers(s))
    ensures multiset(SortStopovers(s)) == multiset(s)
    ensures |SortStopovers(s)| == |s|
    decreases |s|
  {
    if s != [] {
      SortStopoversSorted(s[1..]);
      InsertBySequenceSorted(s[0], SortStopovers(s[1..]));
      InsertBySequencePermutation(s[0], SortStopovers(s[1..]));
      assert s == [s[0]] + s[1..];
    }
  }
}
