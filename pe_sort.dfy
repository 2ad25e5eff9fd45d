/** `undervalued_stocks.sort(key=lambda x: x['pe'])`: a stable sort of the
    match records by their reported P/E, in place. */
module PeSort {
  import opened Criteria

  /** Non-decreasing P/E across the whole list. */
  predicate SortedByPe(s: seq<MatchRecord>)
  {
    forall i, j :: 0 <= i < j < |s| ==> s[i].pe <= s[j].pe
  }

  /** The records of s whose P/E is exactly k, in their order in s. */
  function WithPe(s: seq<MatchRecord>, k: real): seq<MatchRecord>
  {
    if s == [] then []
    else WithPe(s[..|s| - 1], k) + (if s[|s| - 1].pe == k then [s[|s| - 1]] else [])
  }

  /** Every record of s has a P/E of at most k. */
  predicate AllAtMost(s: seq<MatchRecord>, k: real)
  {
    forall i :: 0 <= i < |s| ==> s[i].pe <= k
  }

  /** Inserts x after every record of t whose P/E is at most x's, scanning
      from the right as the in-place insertion does. */
  function InsertByPe(t: seq<MatchRecord>, x: MatchRecord): seq<MatchRecord>
  {
    if t == [] || t[|t| - 1].pe <= x.pe then t + [x]
    else InsertByPe(t[..|t| - 1], x) + [t[|t| - 1]]
  }

  /** Insertion adds exactly x. */
  lemma {:induction false} InsertByPeMultiset(t: seq<MatchRecord>, x: MatchRecord)
    ensures multiset(InsertByPe(t, x)) == multiset(t) + multiset{x}
  {
    if !(t == [] || t[|t| - 1].pe <= x.pe) {
      var init, last := t[..|t| - 1], t[|t| - 1];
      assert t == init + [last];
      InsertByPeMultiset(init, x);
    }
  }

  lemma SortedAppend(s: seq<MatchRecord>, x: MatchRecord)
    requires SortedByPe(s) && AllAtMost(s, x.pe)
    ensures SortedByPe(s + [x])
  {
    var r := s + [x];
    forall i, j | 0 <= i < j < |r|
      ensures r[i].pe <= r[j].pe
    {
      if j == |s| {
        assert r[i] == s[i];
      } else {
        assert r[i] == s[i] && r[j] == s[j];
      }
    }
  }

  /** Below a bound before the insertion, below it after, when x is too. */
  lemma {:induction false} InsertByPeAtMost(t: seq<MatchRecord>, x: MatchRecord, k: real)
    requires AllAtMost(t, k) && x.pe <= k
    ensures AllAtMost(InsertByPe(t, x), k)
  {
    var r := InsertByPe(t, x);
    InsertByPeMultiset(t, x);
    forall i | 0 <= i < |r|
      ensures r[i].pe <= k
    {
      assert r[i] in multiset(r);
      assert r[i] in multiset(t) || r[i] == x;
      if r[i] in multiset(t) {
        var n :| 0 <= n < |t| && t[n] == r[i];
      }
    }
  }

  /** Insertion keeps a list sorted. */
  lemma {:induction false} InsertByPeSorted(t: seq<MatchRecord>, x: MatchRecord)
    requires SortedByPe(t)
    ensures SortedByPe(InsertByPe(t, x))
  {
    if t == [] || t[|t| - 1].pe <= x.pe {
      SortedAppend(t, x);
    } else {
      var init, last := t[..|t| - 1], t[|t| - 1];
      assert SortedByPe(init);
      assert AllAtMost(init, last.pe);
      InsertByPeSorted(init, x);
      InsertByPeAtMost(init, x, last.pe);
      SortedAppend(InsertByPe(init, x), last);
    }
  }

  /** The stable sort by P/E, as insertion of each record in turn. */
  function SortByPe(s: seq<MatchRecord>): seq<MatchRecord>
  {
    if s == [] then []
    else InsertByPe(SortByPe(s[..|s| - 1]), s[|s| - 1])
  }

  /** The sort returns its input in non-decreasing P/E order. */
  lemma {:induction false} SortByPeSortedPermutation(s: seq<MatchRecord>)
    ensures SortedByPe(SortByPe(s))
    ensures multiset(SortByPe(s)) == multiset(s)
  {
    if s != [] {
      var init, last := s[..|s| - 1], s[|s| - 1];
      assert s == init + [last];
      SortByPeSortedPermutation(init);
      InsertByPeSorted(SortByPe(init), last);
      InsertByPeMultiset(SortByPe(init), last);
    }
  }

  lemma {:induction false} WithPeAppend(s: seq<MatchRecord>, x: MatchRecord, k: real)
    ensures WithPe(s + [x], k) == WithPe(s, k) + (if x.pe == k then [x] else [])
  {
    assert (s + [x])[..|s + [x]| - 1] == s;
  }

  /** Inserting x into a sorted list places it after every record with the
      same P/E. */
  lemma {:induction false} InsertKeepsTies(t: seq<MatchRecord>, x: MatchRecord, k: real)
    requires SortedByPe(t)
    ensures WithPe(InsertByPe(t, x), k) == WithPe(t, k) + (if x.pe == k then [x] else [])
  {
    if t == [] || t[|t| - 1].pe <= x.pe {
      WithPeAppend(t, x, k);
    } else {
      var init, last := t[..|t| - 1], t[|t| - 1];
      assert t == init + [last];
      assert SortedByPe(init);
      InsertKeepsTies(init, x, k);
      WithPeAppend(InsertByPe(init, x), last, k);
      WithPeAppend(init, last, k);
    }
  }

  /** Stability: for every P/E value, the records carrying it appear in the
      sorted list in the order they had before sorting. */
  lemma {:induction false} SortByPeStable(s: seq<MatchRecord>, k: real)
    ensures WithPe(SortByPe(s), k) == WithPe(s, k)
  {
    if s != [] {
      var init, last := s[..|s| - 1], s[|s| - 1];
      var tail := if last.pe == k then [last] else [];
      SortByPeStable(init, k);
      SortByPeSortedPermutation(init);
      assert SortByPe(s) == InsertByPe(SortByPe(init), last);
      InsertKeepsTies(SortByPe(init), last, k);
      assert WithPe(SortByPe(s), k) == WithPe(init, k) + tail;
      assert WithPe(s, k) == WithPe(init, k) + tail;
    }
  }

  /** Sorting a list that is already in P/E order changes nothing. */
  lemma {:induction false} SortByPeSortedUnchanged(s: seq<MatchRecord>)
    requires SortedByPe(s)
    ensures SortByPe(s) == s
  {
    if s != [] {
      var init, last := s[..|s| - 1], s[|s| - 1];
      assert SortedByPe(init);
      SortByPeSortedUnchanged(init);
      assert s == init + [last];
      assert init != [] ==> init[|init| - 1].pe <= last.pe;
      assert InsertByPe(init, last) == init + [last];
    }
  }

  /** Where insertion puts x: after the last record whose P/E is at most
      x's, before the run of larger ones that ends the list. */
  lemma {:induction false} InsertByPeAt(t: seq<MatchRecord>, x: MatchRecord, j: nat)
    requires j <= |t|
    requires forall k :: j <= k < |t| ==> t[k].pe > x.pe
    requires j == 0 || t[j - 1].pe <= x.pe
    ensures InsertByPe(t, x) == t[..j] + [x] + t[j..]
    decreases |t|
  {
    if |t| == j {
      assert t[..j] == t && t[j..] == [];
    } else {
      var init, last := t[..|t| - 1], t[|t| - 1];
      InsertByPeAt(init, x, j);
      assert init[..j] == t[..j];
      assert t[j..] == init[j..] + [last];
    }
  }

  /** The shifting loop of one insertion step: every record of a[..i] with a
      larger P/E than a[i], a run at the end of a[..i], moves one place to
      the right, leaving a gap at the returned index j. */
  method ShiftLarger(a: array<MatchRecord>, i: nat) returns (j: nat)
    requires i < a.Length
    modifies a
    ensures j <= i
    ensures forall k :: 0 <= k < j ==> a[k] == old(a[k])
    ensures forall k :: j < k <= i ==> a[k] == old(a[k - 1])
    ensures forall k :: i < k < a.Length ==> a[k] == old(a[k])
    ensures forall k :: j <= k < i ==> old(a[k]).pe > old(a[i]).pe
    ensures j == 0 || old(a[j - 1]).pe <= old(a[i]).pe
  {
    var x := a[i];
    j := i;
    while j > 0 && a[j - 1].pe > x.pe
      invariant 0 <= j <= i
      invariant forall k :: 0 <= k < j ==> a[k] == old(a[k])
      invariant forall k :: j < k <= i ==> a[k] == old(a[k - 1])
      invariant forall k :: i < k < a.Length ==> a[k] == old(a[k])
      invariant forall k :: j <= k < i ==> old(a[k]).pe > x.pe
    {
      a[j] := a[j - 1];
      j := j - 1;
    }
  }

  /** One step of the in-place insertion sort: a[i] moves left past every
      record of the sorted prefix a[..i] with a larger P/E. */
  method InsertInPlace(a: array<MatchRecord>, i: nat)
    requires i < a.Length
    modifies a
    ensures a[..i + 1] == InsertByPe(old(a[..i]), old(a[i]))
    ensures a[i + 1..] == old(a[i + 1..])
  {
    ghost var t := a[..i];
    ghost var rest := a[i + 1..];
    var x := a[i];
    var j := ShiftLarger(a, i);
    a[j] := x;
    InsertByPeAt(t, x, j);
    PlacedInsertion(a[..], t, x, i, j);
    assert a[i + 1..] == rest;
  }

  /** The array after the shifting loop, read as a sequence. */
  lemma PlacedInsertion(b: seq<MatchRecord>, t: seq<MatchRecord>, x: MatchRecord, i: nat, j: nat)
    requires i < |b| && |t| == i && j <= i
    requires forall k :: 0 <= k < j ==> b[k] == t[k]
    requires b[j] == x
    requires forall k :: j < k <= i ==> b[k] == t[k - 1]
    ensures b[..i + 1] == t[..j] + [x] + t[j..]
  {
    forall k | 0 <= k <= i
      ensures b[..i + 1][k] == (t[..j] + [x] + t[j..])[k]
    {
    }
  }

  /** The in-place sort: after it the array holds SortByPe of what it held
      before, that is, its records in non-decreasing P/E order, ties in their
      original order. */
  method SortInPlace(a: array<MatchRecord>)
    modifies a
    ensures a[..] == SortByPe(old(a[..]))
  {
    ghost var original := a[..];
    var i := 0;
    while i < a.Length
      invariant 0 <= i <= a.Length
      invariant a[..i] == SortByPe(original[..i])
      invariant a[i..] == original[i..]
    {
      assert a[i] == original[i];
      InsertInPlace(a, i);
      assert original[..i + 1][..i] == original[..i];
      assert a[i + 1..] == original[i + 1..];
      i := i + 1;
    }
    assert a[..] == a[..a.Length];
    assert original == original[..a.Length];
  }
}
