/** Keeping the present values of a sequence of optional values, in order:
    the shape of "push an entry for some of the signatures" shared by both
    history loops. */
module Picks {
  import opened Outcomes

  /** The present values of `ys`, in order. */
  function Somes<T>(ys: seq<Option<T>>): (r: seq<T>)
    ensures |r| <= |ys|
  {
    if ys == [] then []
    else Somes(ys[..|ys| - 1]) + OptionToSeq(ys[|ys| - 1])
  }

  /** The positions of the present values of `ys`, in order. */
  function SomeIndices<T>(ys: seq<Option<T>>): (r: seq<nat>)
    ensures |r| == |Somes(ys)|
    ensures forall k :: 0 <= k < |r| ==> r[k] < |ys|
  {
    if ys == [] then []
    else SomeIndices(ys[..|ys| - 1]) + (if ys[|ys| - 1].Some? then [|ys| - 1] else [])
  }

  /** The k-th selected value sits at the k-th selected position. */
  lemma {:induction false} SomesSitAtSomeIndices<T>(ys: seq<Option<T>>)
    ensures forall k :: 0 <= k < |SomeIndices(ys)| ==> ys[SomeIndices(ys)[k]] == Some(Somes(ys)[k])
  {
    if ys != [] {
      var init, last := ys[..|ys| - 1], ys[|ys| - 1];
      SomesSitAtSomeIndices(init);
      var idx, prev := SomeIndices(ys), SomeIndices(init);
      assert idx == prev + (if last.Some? then [|ys| - 1] else []);
      assert Somes(ys) == Somes(init) + OptionToSeq(last);
      forall k | 0 <= k < |idx| ensures ys[idx[k]] == Some(Somes(ys)[k]) {
        if k < |prev| {
          assert idx[k] == prev[k] && Somes(ys)[k] == Somes(init)[k];
          assert ys[prev[k]] == init[prev[k]];
        }
      }
    }
  }

  /** Selected positions strictly increase: the selection keeps the order of
      `ys` and takes every position at most once. */
  lemma {:induction false} SomeIndicesIncrease<T>(ys: seq<Option<T>>)
    ensures forall k, l :: 0 <= k < l < |SomeIndices(ys)| ==> SomeIndices(ys)[k] < SomeIndices(ys)[l]
  {
    if ys != [] {
      var init := ys[..|ys| - 1];
      SomeIndicesIncrease(init);
      var idx, prev := SomeIndices(ys), SomeIndices(init);
      assert idx == prev + (if ys[|ys| - 1].Some? then [|ys| - 1] else []);
      assert forall k :: 0 <= k < |prev| ==> idx[k] == prev[k];
    }
  }

  /** Every present value of `ys` is selected. */
  lemma {:induction false} SomeIndicesComplete<T>(ys: seq<Option<T>>)
    ensures forall i :: 0 <= i < |ys| && ys[i].Some? ==> i in SomeIndices(ys)
  {
    if ys != [] {
      var init := ys[..|ys| - 1];
      SomeIndicesComplete(init);
      var idx, prev := SomeIndices(ys), SomeIndices(init);
      assert idx == prev + (if ys[|ys| - 1].Some? then [|ys| - 1] else []);
      forall i | 0 <= i < |ys| && ys[i].Some? ensures i in idx {
        if i < |init| {
          assert init[i] == ys[i];
          assert i in prev;
        }
      }
    }
  }
}
