/** Balance-delta extraction, the expression shared by the interactive
    pipeline (frontend/src/App.js) and the batch script (index.mjs): find the
    tracked account in a parsed transaction, read its balances before and after
    in lamports, convert them to SOL, and keep the transaction only when the
    change exceeds a dust threshold of 0.000001 SOL. Arithmetic is exact. */
module Extraction {
  import opened Outcomes

  /** Lamports in one SOL: the divisor Math.pow(10, 9). */
  const LAMPORTS_PER_SOL: int := 1000000000

  /** The dust threshold, in SOL. */
  const DUST: real := 0.000001

  /** The dust threshold in lamports: DUST * LAMPORTS_PER_SOL. */
  const DUST_LAMPORTS: int := 1000

  /** The `meta` part of a parsed transaction: balances in lamports, one per
      account key. */
  datatype Meta = Meta(preBalances: seq<int>, postBalances: seq<int>)

  /** A parsed transaction: optional meta, the canonical string of every
      account key, and an optional block time in seconds. */
  datatype Tx = Tx(meta: Option<Meta>, accountKeys: seq<string>, blockTime: Option<int>)

  /** The `time` field of an entry: the marker "Unknown", or the block time the
      formatted timestamp stands for. */
  datatype Stamp = Unknown | At(seconds: int)

  /** A balance history entry; amounts in SOL. */
  datatype Entry = Entry(time: Stamp, preBalance: real, postBalance: real,
                         balanceChange: real, signature: string)

  function Abs(x: real): real
  {
    if x < 0.0 then -x else x
  }

  function AbsInt(x: int): nat
  {
    if x < 0 then -x else x
  }

  /** Lamports converted to SOL. */
  function ToSol(lamports: int): real
  {
    lamports as real / LAMPORTS_PER_SOL as real
  }

  /** `i` is the first position of `address` among `keys`. */
  predicate FirstMatch(keys: seq<string>, address: string, i: int)
  {
    0 <= i < |keys| && keys[i] == address && forall j :: 0 <= j < i ==> keys[j] != address
  }

  /** Array.prototype.findIndex with a string-equality test: the first index
      holding `address`, or -1 when there is none. */
  function FindIndex(keys: seq<string>, address: string): (i: int)
    ensures -1 <= i < |keys|
    ensures i == -1 <==> address !in keys
    ensures i != -1 ==> FirstMatch(keys, address, i)
  {
    if keys == [] then -1
    else if keys[0] == address then 0
    else
      var rest := FindIndex(keys[1..], address);
      if rest == -1 then -1 else rest + 1
  }

  /** A transaction's block time as the entry's time field: a falsy block
      time (absent, or 0) gives "Unknown". */
  function Timestamp(blockTime: Option<int>): (s: Stamp)
    ensures s.Unknown? <==> blockTime == None || blockTime == Some(0)
    ensures s.At? ==> blockTime == Some(s.seconds)
  {
    match blockTime
    case Some(t) => if t != 0 then At(t) else Unknown
    case None => Unknown
  }

  /** The tracked account's balances `(pre, post)`, in lamports, at the FIRST
      key slot that holds it. None when there is no transaction, no meta, no
      such key, or a balance array too short for the slot — there the source
      reads `undefined`, the change is NaN, and the dust test fails. */
  function BalancesAt(tx: Option<Tx>, address: string): (b: Option<(int, int)>)
    ensures tx.None? || tx.value.meta.None? || address !in tx.value.accountKeys ==> b.None?
    ensures b.Some? ==>
      && tx.Some? && tx.value.meta.Some?
      && exists i :: FirstMatch(tx.value.accountKeys, address, i) &&
           i < |tx.value.meta.value.preBalances| && i < |tx.value.meta.value.postBalances| &&
           b.value == (tx.value.meta.value.preBalances[i], tx.value.meta.value.postBalances[i])
    ensures b.None? && tx.Some? && tx.value.meta.Some? ==>
      forall i :: FirstMatch(tx.value.accountKeys, address, i) ==>
        i >= |tx.value.meta.value.preBalances| || i >= |tx.value.meta.value.postBalances|
  {
    match tx
    case None => None
    case Some(t) =>
      match t.meta
      case None => None
      case Some(m) =>
        var i := FindIndex(t.accountKeys, address);
        if i != -1 && i < |m.preBalances| && i < |m.postBalances| then
          Some((m.preBalances[i], m.postBalances[i]))
        else
          None
  }

  /** The change exceeds the dust threshold in SOL exactly when it exceeds
      1000 lamports; exactly 1000 lamports is excluded. */
  lemma DustBoundary(pre: int, post: int)
    ensures Abs(ToSol(post) - ToSol(pre)) > DUST <==> AbsInt(post - pre) > DUST_LAMPORTS
  {
    assert ToSol(post) - ToSol(pre) == (post - pre) as real / 1000000000.0;
  }

  /** The entry, if any, that a fetched transaction yields for the tracked
      address. An entry exists exactly when the balances can be read and they
      differ by more than 1000 lamports; it carries the signature, the
      timestamp, both balances in SOL and their difference. */
  function Extract(tx: Option<Tx>, address: string, signature: string): (r: Option<Entry>)
    ensures tx.None? || tx.value.meta.None? || address !in tx.value.accountKeys ==> r.None?
    ensures r.Some? <==>
      BalancesAt(tx, address).Some? &&
      AbsInt(BalancesAt(tx, address).value.1 - BalancesAt(tx, address).value.0) > DUST_LAMPORTS
    ensures r.Some? ==>
      var (pre, post) := BalancesAt(tx, address).value;
      && r.value.signature == signature
      && r.value.time == Timestamp(tx.value.blockTime)
      && r.value.preBalance == ToSol(pre)
      && r.value.postBalance == ToSol(post)
      && r.value.balanceChange == r.value.postBalance - r.value.preBalance
  {
    match BalancesAt(tx, address)
    case None => None
    case Some((pre, post)) =>
      var preBalance := ToSol(pre);
      var postBalance := ToSol(post);
      var balanceChange := postBalance - preBalance;
      DustBoundary(pre, post);
      if Abs(balanceChange) > DUST then
        Some(Entry(Timestamp(tx.value.blockTime), preBalance, postBalance, balanceChange, signature))
      else
        None
  }

  /** A 10-lamport change (5.000000000 to 5.000000010 SOL) is dust. */
  lemma TenLamportsIsDust(tx: Option<Tx>, address: string, signature: string)
    requires BalancesAt(tx, address) == Some((5000000000, 5000000010))
    ensures Extract(tx, address, signature) == None
  {
  }

  /** At the boundary: a change of exactly 1000 lamports yields nothing, one of
      1001 lamports in either direction yields an entry. */
  lemma DustEdge(tx: Option<Tx>, address: string, signature: string, pre: int)
    ensures BalancesAt(tx, address) == Some((pre, pre + 1000)) ==> Extract(tx, address, signature).None?
    ensures BalancesAt(tx, address) == Some((pre, pre + 1001)) ==> Extract(tx, address, signature).Some?
    ensures BalancesAt(tx, address) == Some((pre, pre - 1001)) ==> Extract(tx, address, signature).Some?
  {
  }
}
