/** Ordering of balance entries by their time, as the batch report sorts
    them.  The comparator subtracts the parsed times; a time of "Unknown"
    parses to NaN, and a NaN comparison result counts as "equal", so an
    entry of unknown time is never moved past by the comparator. */
module TimeOrder {
  import opened Extraction

  /** x sorts strictly after y: both times are known and x is later. */
  predicate Later(x: Stamp, y: Stamp)
  {
    x.At? && y.At? && x.seconds > y.seconds
  }

  /** Every entry has a known time. */
  predicate AllKnown(s: seq<Entry>)
  {
    forall i :: 0 <= i < |s| ==> s[i].time.At?
  }

  /** No entry is later than an entry after it. */
  predicate Ascending(s: seq<Entry>)
  {
    forall i, j :: 0 <= i < j < |s| ==> !Later(s[i].time, s[j].time)
  }

  /** Among known times, "not later" is transitive. */
  lemma NotLaterTransitive(x: Stamp, y: Stamp, z: Stamp)
    requires x.At? && y.At? && z.At?
    requires !Later(x, y) && !Later(y, z)
    ensures !Later(x, z)
  {
  }

  /** With an unknown time in the middle, "not later" is not transitive,
      which is why the sort promises an order only when all times are known. */
  lemma UnknownBreaksTransitivity()
    ensures !Later(At(5), Unknown) && !Later(Unknown, At(3)) && Later(At(5), At(3))
  {
  }

  /** Exchanges two cells of the array. */
  method Swap(a: array<Entry>, i: int, j: int)
    requires 0 <= i < a.Length && 0 <= j < a.Length
    modifies a
    ensures a[..] == old(a[..])[i := old(a[j])][j := old(a[i])]
    ensures multiset(a[..]) == multiset(old(a[..]))
  {
    a[i], a[j] := a[j], a[i];
  }

  /** Insertion sort by time.  The result is a permutation of the input, and
      when every time is known it is ascending. */
  method SortByTime(a: array<Entry>)
    modifies a
    ensures multiset(a[..]) == multiset(old(a[..]))
    ensures AllKnown(old(a[..])) ==> Ascending(a[..])
  {
    ghost var known := AllKnown(a[..]);
    var i := 0;
    while i < a.Length
      invariant 0 <= i <= a.Length
      invariant multiset(a[..]) == multiset(old(a[..]))
      invariant known ==> AllKnown(a[..])
      invariant known ==> Ascending(a[..i])
    {
      Insert(a, i, known);
      i := i + 1;
    }
    assert a[..a.Length] == a[..];
  }

  /** Midway through inserting s[j] into the ascending prefix: apart from
      position j, s[..i+1] is ascending, and s[j] is not later than anything
      after it up to i. */
  predicate Inserting(s: seq<Entry>, j: int, i: int)
    requires 0 <= j <= i < |s|
  {
    && AllKnown(s)
    && (forall p, q :: 0 <= p < q <= i && p != j && q != j ==> !Later(s[p].time, s[q].time))
    && (forall q :: j < q <= i ==> !Later(s[j].time, s[q].time))
  }

  lemma InsertingStart(s: seq<Entry>, i: int)
    requires 0 <= i < |s|
    requires AllKnown(s) && Ascending(s[..i])
    ensures Inserting(s, i, i)
  {
    forall p, q | 0 <= p < q <= i && p != i && q != i
      ensures !Later(s[p].time, s[q].time)
    {
      assert s[..i][p] == s[p] && s[..i][q] == s[q];
    }
  }

  lemma InsertingSwap(s: seq<Entry>, j: int, i: int)
    requires 0 < j <= i < |s|
    requires Inserting(s, j, i) && Later(s[j - 1].time, s[j].time)
    ensures Inserting(s[j - 1 := s[j]][j := s[j - 1]], j - 1, i)
  {
  }

  lemma InsertingDone(s: seq<Entry>, j: int, i: int)
    requires 0 <= j <= i < |s|
    requires Inserting(s, j, i) && (j == 0 || !Later(s[j - 1].time, s[j].time))
    ensures Ascending(s[..i + 1])
  {
    forall p, q | 0 <= p < q <= i
      ensures !Later(s[p].time, s[q].time)
    {
      if q == j && p < j - 1 {
        NotLaterTransitive(s[p].time, s[j - 1].time, s[j].time);
      }
    }
    assert forall k :: 0 <= k <= i ==> s[..i + 1][k] == s[k];
  }

  /** Moves a[i] left past every earlier entry that is later than it, so that
      a[..i+1] becomes ascending when a[..i] was. */
  method Insert(a: array<Entry>, i: int, ghost known: bool)
    requires 0 <= i < a.Length
    requires known ==> AllKnown(a[..]) && Ascending(a[..i])
    modifies a
    ensures multiset(a[..]) == multiset(old(a[..]))
    ensures known ==> AllKnown(a[..]) && Ascending(a[..i + 1])
  {
    if known {
      InsertingStart(a[..], i);
    }
    var j := i;
    while j > 0 && Later(a[j - 1].time, a[j].time)
      invariant 0 <= j <= i
      invariant multiset(a[..]) == multiset(old(a[..]))
      invariant known ==> Inserting(a[..], j, i)
    {
      if known {
        InsertingSwap(a[..], j, i);
      }
      Swap(a, j - 1, j);
      j := j - 1;
    }
    if known {
      InsertingDone(a[..], j, i);
    }
  }
}
