/**
 * sortRuns (Mvpmetrics.js, lines 231-237): `array.sort` with the comparator
 * `new Date(a.created_at) - new Date(b.created_at)`, which reorders the
 * caller's array in place and returns that same array.
 */
module Sorting {
  import opened Timestamps
  import opened Runs

  /** The sort key: `created_at` as epoch milliseconds. */
  function CreatedMs(run: Run): int
  {
    run.createdAt.epochMs
  }

  predicate SortedByCreation(s: seq<Run>)
  {
    forall p, q :: 0 <= p < q < |s| ==> CreatedMs(s[p]) <= CreatedMs(s[q])
  }

  /** Exchanges the runs at `k - 1` and `k`. */
  method SwapDown(a: array<Run>, k: int)
    requires 0 < k < a.Length
    modifies a
    ensures a[..] == old(a[..])[k - 1 := old(a[k])][k := old(a[k - 1])]
    ensures multiset(a[..]) == multiset(old(a[..]))
  {
    a[k - 1], a[k] := a[k], a[k - 1];
  }

  /**
   * Midway through moving the run at `j` down: `s[..i + 1]` is in order
   * except around position `j`, whose run was created before everything
   * above it.
   */
  predicate Sinking(s: seq<Run>, i: int, j: int)
    requires 0 <= j <= i < |s|
  {
    (forall p, q :: 0 <= p < q <= i && p != j && q != j ==> CreatedMs(s[p]) <= CreatedMs(s[q]))
    && (forall q :: j < q <= i ==> CreatedMs(s[j]) < CreatedMs(s[q]))
    && (0 < j < i ==> CreatedMs(s[j - 1]) <= CreatedMs(s[j + 1]))
  }

  lemma SinkingStart(s: seq<Run>, i: int)
    requires 0 <= i < |s| && SortedByCreation(s[..i])
    ensures Sinking(s, i, i)
  {
    assert forall p :: 0 <= p < i ==> s[..i][p] == s[p];
  }

  lemma SinkingStep(s: seq<Run>, i: int, j: int)
    requires 0 < j <= i < |s| && Sinking(s, i, j)
    requires CreatedMs(s[j - 1]) > CreatedMs(s[j])
    ensures Sinking(s[j - 1 := s[j]][j := s[j - 1]], i, j - 1)
  {
  }

  lemma SinkingDone(s: seq<Run>, i: int, j: int)
    requires 0 <= j <= i < |s| && Sinking(s, i, j)
    requires j == 0 || CreatedMs(s[j - 1]) <= CreatedMs(s[j])
    ensures SortedByCreation(s[..i + 1])
  {
  }

  lemma OutOfOrder(s: seq<Run>, i: int)
    requires 0 < i < |s| && CreatedMs(s[i - 1]) > CreatedMs(s[i])
    ensures !SortedByCreation(s[..i + 1])
  {
    assert s[..i + 1][i - 1] == s[i - 1] && s[..i + 1][i] == s[i];
  }

  /** One turn of InsertLast's loop: the run at `j` moves one place down. */
  method SinkOnce(a: array<Run>, i: int, j: int, ghost before: seq<Run>)
    requires 0 < j <= i < a.Length && |before| == a.Length
    requires Sinking(a[..], i, j) && CreatedMs(a[j - 1]) > CreatedMs(a[j])
    requires multiset(a[..]) == multiset(before) && a[i + 1..] == before[i + 1..]
    requires j == i ==> a[..] == before
    requires j < i ==> !SortedByCreation(before[..i + 1])
    modifies a
    ensures Sinking(a[..], i, j - 1)
    ensures multiset(a[..]) == multiset(before) && a[i + 1..] == before[i + 1..]
    ensures !SortedByCreation(before[..i + 1])
  {
    if j == i {
      OutOfOrder(before, i);
    }
    SinkingStep(a[..], i, j);
    SwapDown(a, j);
  }

  /**
   * Moves `a[i]` down past the runs created after it, so that `a[..i + 1]`
   * is in order when `a[..i]` was; nothing from `i + 1` on moves, and a
   * prefix already in order is not touched.
   */
  method InsertLast(a: array<Run>, i: int)
    requires 0 <= i < a.Length
    requires SortedByCreation(a[..i])
    modifies a
    ensures SortedByCreation(a[..i + 1])
    ensures multiset(a[..]) == multiset(old(a[..]))
    ensures a[i + 1..] == old(a[i + 1..])
    ensures SortedByCreation(old(a[..i + 1])) ==> a[..] == old(a[..])
  {
    ghost var before := a[..];
    SinkingStart(before, i);
    var j := i;
    while j > 0 && CreatedMs(a[j - 1]) > CreatedMs(a[j])
      invariant 0 <= j <= i
      invariant Sinking(a[..], i, j)
      invariant multiset(a[..]) == multiset(before)
      invariant a[i + 1..] == before[i + 1..]
      invariant j == i ==> a[..] == before
      invariant j < i ==> !SortedByCreation(before[..i + 1])
    {
      SinkOnce(a, i, j, before);
      j := j - 1;
    }
    SinkingDone(a[..], i, j);
  }

  /**
   * Sorts the runs by creation time, oldest first.  The result is the array
   * it was given, holding a permutation of its runs; an array already in
   * order is left exactly as it was.
   */
  method SortRuns(a: array<Run>) returns (sorted: array<Run>)
    modifies a
    ensures sorted == a
    ensures SortedByCreation(a[..])
    ensures multiset(a[..]) == multiset(old(a[..]))
    ensures SortedByCreation(old(a[..])) ==> a[..] == old(a[..])
  {
    var i := 0;
    while i < a.Length
      invariant 0 <= i <= a.Length
      invariant SortedByCreation(a[..i])
      invariant multiset(a[..]) == multiset(old(a[..]))
      invariant SortedByCreation(old(a[..])) ==> a[..] == old(a[..])
    {
      InsertLast(a, i);
      i := i + 1;
    }
    assert a[..] == a[..a.Length];
    sorted := a;
  }
}
