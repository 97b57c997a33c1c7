/** The command-line report: list the latest signatures of the configured
    wallet, fetch each transaction once, keep the entries whose balance
    moved, sort them by time, and project them to the chart points
    (time, balance before, change), each rounded to 8 decimals. */
module Batch {
  import opened Outcomes
  import opened Extraction
  import opened Picks
  import opened TimeOrder

  /** The report always asks for the latest 100 signatures. */
  const PAGE_SIZE: int := 100

  /** What the i-th signature contributes: nothing when fetching its
      transaction throws (the error is logged and the loop continues),
      otherwise the entry its transaction qualifies for, if any. */
  function Contribution(address: string, signatures: seq<string>, fetch: nat -> Attempt<Option<Tx>>, i: nat): (r: Option<Entry>)
    requires i < |signatures|
    ensures r.Some? <==>
      && fetch(i).Ok?
      && BalancesAt(fetch(i).value, address).Some?
      && AbsInt(BalancesAt(fetch(i).value, address).value.1 - BalancesAt(fetch(i).value, address).value.0) > DUST_LAMPORTS
    ensures r.Some? ==>
      var (pre, post) := BalancesAt(fetch(i).value, address).value;
      && r.value.signature == signatures[i]
      && r.value.time == Timestamp(fetch(i).value.value.blockTime)
      && r.value.preBalance == ToSol(pre)
      && r.value.postBalance == ToSol(post)
      && r.value.balanceChange == r.value.postBalance - r.value.preBalance
  {
    match fetch(i)
    case Err(_) => None
    case Ok(tx) => Extract(tx, address, signatures[i])
  }

  /** The contributions of the first n signatures. */
  function Contributions(address: string, signatures: seq<string>, fetch: nat -> Attempt<Option<Tx>>, n: nat): (ys: seq<Option<Entry>>)
    requires n <= |signatures|
    ensures |ys| == n
    ensures forall i :: 0 <= i < n ==> ys[i] == Contribution(address, signatures, fetch, i)
  {
    if n == 0 then [] else Contributions(address, signatures, fetch, n - 1) + [Contribution(address, signatures, fetch, n - 1)]
  }

  /** The entries collected from all the signatures, in listing order. */
  function Collected(address: string, signatures: seq<string>, fetch: nat -> Attempt<Option<Tx>>): seq<Entry>
  {
    Somes(Contributions(address, signatures, fetch, |signatures|))
  }

  /** One more signature adds its contribution, if any, at the end. */
  lemma CollectedStep(address: string, signatures: seq<string>, fetch: nat -> Attempt<Option<Tx>>, i: nat)
    requires i < |signatures|
    ensures Somes(Contributions(address, signatures, fetch, i + 1))
         == Somes(Contributions(address, signatures, fetch, i)) + OptionToSeq(Contribution(address, signatures, fetch, i))
  {
    var ys := Contributions(address, signatures, fetch, i + 1);
    assert ys[..i] == Contributions(address, signatures, fetch, i);
  }

  /** The loop of fetchTransactionHistory: one fetch per signature, pushing
      the qualifying entries in listing order. */
  method CollectEntries(address: string, signatures: seq<string>, fetch: nat -> Attempt<Option<Tx>>)
    returns (history: seq<Entry>)
    ensures history == Collected(address, signatures, fetch)
  {
    history := [];
    for i := 0 to |signatures|
      invariant history == Somes(Contributions(address, signatures, fetch, i))
    {
      CollectedStep(address, signatures, fetch, i);
      match fetch(i) {
        case Err(_) =>
        case Ok(tx) =>
          var entry := Extract(tx, address, signatures[i]);
          if entry.Some? {
            history := history + [entry.value];
          }
      }
    }
  }

  /** The collected entries are an order-preserving selection from the
      signatures: the k-th comes from the idx[k]-th signature and carries it,
      the positions strictly increase, and every signature whose fetch
      succeeded with a qualifying transaction is represented. */
  lemma CollectedFollowsSignatures(address: string, signatures: seq<string>, fetch: nat -> Attempt<Option<Tx>>)
    ensures var h := Collected(address, signatures, fetch);
            var idx := SomeIndices(Contributions(address, signatures, fetch, |signatures|));
      && |idx| == |h|
      && (forall k :: 0 <= k < |idx| ==>
            && idx[k] < |signatures|
            && fetch(idx[k]).Ok?
            && h[k].signature == signatures[idx[k]]
            && Contribution(address, signatures, fetch, idx[k]) == Some(h[k]))
      && (forall k, l :: 0 <= k < l < |idx| ==> idx[k] < idx[l])
      && (forall i :: 0 <= i < |signatures| && Contribution(address, signatures, fetch, i).Some? ==> i in idx)
  {
    var ys := Contributions(address, signatures, fetch, |signatures|);
    SomesSitAtSomeIndices(ys);
    SomeIndicesIncrease(ys);
    SomeIndicesComplete(ys);
  }

  /** fetchTransactionHistory: a failed listing propagates its error;
      otherwise the collected entries come back sorted by time, and in
      ascending order whenever every time is known. */
  method FetchTransactionHistory(address: string, list: int -> Attempt<seq<string>>, fetch: nat -> Attempt<Option<Tx>>)
    returns (r: Attempt<seq<Entry>>)
    ensures r.Err? <==> list(PAGE_SIZE).Err?
    ensures r.Err? ==> r.error == list(PAGE_SIZE).error
    ensures r.Ok? ==> multiset(r.value) == multiset(Collected(address, list(PAGE_SIZE).value, fetch))
    ensures r.Ok? && AllKnown(Collected(address, list(PAGE_SIZE).value, fetch)) ==> Ascending(r.value)
  {
    match list(PAGE_SIZE) {
      case Err(e) =>
        r := Err(e);
      case Ok(signatures) =>
        var history := CollectEntries(address, signatures, fetch);
        var a := new Entry[|history|](k requires 0 <= k < |history| => history[k]);
        assert a[..] == history;
        SortByTime(a);
        r := Ok(a[..]);
    }
  }

  /** Number(x.toFixed(8)): x rounded to 8 decimals, a tie going away from
      zero (toFixed rounds the magnitude and then restores the sign). */
  function ToFixed8(x: real): (r: real)
    ensures Abs(r - x) <= 0.000000005
    ensures Eighths(r)
  {
    if x >= 0.0 then RoundMagnitude8(x)
    else
      var m := RoundMagnitude8(-x);
      EighthsNegated(m);
      -m
  }

  /** A non-negative y rounded to 8 decimals, a tie going up. */
  function RoundMagnitude8(y: real): (r: real)
    requires y >= 0.0
    ensures y - 0.000000005 < r <= y + 0.000000005
    ensures r >= 0.0
    ensures Eighths(r)
  {
    var n := (y * 100000000.0 + 0.5).Floor;
    n as real / 100000000.0
  }

  /** r has at most 8 decimals. */
  predicate Eighths(r: real)
  {
    (r * 100000000.0).Floor as real == r * 100000000.0
  }

  lemma EighthsNegated(r: real)
    requires Eighths(r)
    ensures Eighths(-r)
  {
    var n := (r * 100000000.0).Floor;
    assert -r * 100000000.0 == (-n) as real;
  }

  /** A non-negative value with at most 8 decimals rounds to itself. */
  lemma RoundMagnitude8Exact(y: real)
    requires y >= 0.0 && Eighths(y)
    ensures RoundMagnitude8(y) == y
  {
    var n := (y * 100000000.0).Floor;
    assert y * 100000000.0 == n as real;
    assert y == n as real / 100000000.0;
    assert y * 100000000.0 + 0.5 == n as real + 0.5;
    assert (n as real + 0.5).Floor == n;
  }

  /** A value that already has at most 8 decimals is left as it is. */
  lemma ToFixed8Exact(x: real)
    requires Eighths(x)
    ensures ToFixed8(x) == x
  {
    if x >= 0.0 {
      RoundMagnitude8Exact(x);
    } else {
      EighthsNegated(x);
      RoundMagnitude8Exact(-x);
    }
  }

  /** Rounding twice is rounding once. */
  lemma ToFixed8Idempotent(x: real)
    ensures ToFixed8(ToFixed8(x)) == ToFixed8(x)
  {
    ToFixed8Exact(ToFixed8(x));
  }

  /** Rounding commutes with negation. */
  lemma ToFixed8Odd(x: real)
    ensures ToFixed8(-x) == -ToFixed8(x)
  {
  }

  /** Ties go away from zero on both sides. */
  lemma ToFixed8Ties()
    ensures ToFixed8(0.123456785) == 0.12345679
    ensures ToFixed8(-0.123456785) == -0.12345679
  {
    assert (0.123456785 * 100000000.0 + 0.5).Floor == 12345679;
  }

  /** A point of the report: the entry's time, its balance before the
      transaction and its change, both rounded to 8 decimals. */
  datatype Point = Point(time: Stamp, balance: real, change: real)

  function Project(e: Entry): (p: Point)
    ensures p.time == e.time
    ensures Abs(p.balance - e.preBalance) <= 0.000000005 && Eighths(p.balance)
    ensures Abs(p.change - e.balanceChange) <= 0.000000005 && Eighths(p.change)
  {
    Point(e.time, ToFixed8(e.preBalance), ToFixed8(e.balanceChange))
  }

  /** The projection loop of generateBalanceData: one point per entry, in
      the same order. */
  method ToBalanceData(history: seq<Entry>) returns (data: seq<Point>)
    ensures |data| == |history|
    ensures forall i :: 0 <= i < |history| ==> data[i] == Project(history[i])
  {
    data := [];
    for i := 0 to |history|
      invariant |data| == i
      invariant forall k :: 0 <= k < i ==> data[k] == Project(history[k])
    {
      data := data + [Project(history[i])];
    }
  }

  /** generateBalanceData: any error while collecting yields no points;
      otherwise one projected point per collected entry, in the sorted
      order. */
  method GenerateBalanceData(address: string, list: int -> Attempt<seq<string>>, fetch: nat -> Attempt<Option<Tx>>)
    returns (data: seq<Point>)
    ensures list(PAGE_SIZE).Err? ==> data == []
    ensures list(PAGE_SIZE).Ok? ==>
      exists h: seq<Entry> ::
        && multiset(h) == multiset(Collected(address, list(PAGE_SIZE).value, fetch))
        && (AllKnown(Collected(address, list(PAGE_SIZE).value, fetch)) ==> Ascending(h))
        && |data| == |h|
        && (forall i :: 0 <= i < |h| ==> data[i] == Project(h[i]))
  {
    var r := FetchTransactionHistory(address, list, fetch);
    match r {
      case Err(_) =>
        data := [];
      case Ok(history) =>
        data := ToBalanceData(history);
    }
  }
}
