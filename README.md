# sol-balance-tracker: a Dafny model of its balance-history reconstruction

The tracker rebuilds the SOL balance history of one wallet from its recent
transactions, using a Solana RPC endpoint that may be slow or unreliable. This
project models and proves properties of two variants.

**The interactive variant** is the React component's `fetchBalanceHistory` in
`frontend/src/App.js`, modelled in `frontend.dfy` and `retry.dfy`.
- It validates the three input fields.
- It probes the endpoint through `withRetry`.
- It lists the latest N signatures.
- It fetches every transaction through `withRetry`, drops failures with a
  warning, counts progress, and keeps the entries whose balance moved.

**The batch report** is `fetchTransactionHistory` and `generateBalanceData` in
`index.mjs`, modelled in `batch.dfy` and `time_order.dfy`.
- It lists the latest 100 signatures.
- It fetches each transaction once and keeps the qualifying entries.
- It sorts them by time.
- It maps them to points (time, balance, change), each rounded to 8 decimals.

Both variants share one per-transaction extraction, `extraction.dfy`:
1. Find the wallet's first position among the account keys.
2. Convert the pre- and post-balances from lamports to SOL.
3. Keep the entry only when the change exceeds 0.000001 SOL; this is proved
   the same as more than 1000 lamports.
4. Take the time from `blockTime`, or "Unknown" when it is absent or 0.

## Modules

- **Outcomes**: `Option`, `Attempt` and `Failure`, plus `Script`. A `Script` gives
  the outcome of the n-th invocation of a remote call, so every RPC is a
  scripted parameter.
- **Retry**: the retry policy (`withRetry`). `Retried` is its recursive meaning;
  `WithRetry` is the loop, proved equal to it.
- **Extraction**: from a transaction to an optional history entry.
- **Picks**: general lemmas about keeping the present values of a sequence of
  options, in order.
- **Frontend**: three parts.
  - The input gate, including a model of `String.prototype.trim`.
  - The probe and the per-signature loop: `ProcessSignatures`, proved equal to
    its specification `Scan`.
  - The run as a whole (`Session`), plus the component's state as the class
    `BalanceTracker`.
- **TimeOrder**: the time comparator and an in-place insertion sort on an
  array, which stands in for `Array.prototype.sort`.
- **Batch**:
  - the collecting loop;
  - `fetchTransactionHistory`;
  - `Number(x.toFixed(8))` on exact reals;
  - the projection loop;
  - `generateBalanceData`.

Three facts about the code that the model keeps:
- **Retry count:** `withRetry` with `retries = 3` makes one call plus up to
  three retries, four calls in all (`Retry.ExhaustsDefaultBudget`).
- **Counter:** the processed counter counts only the transactions whose fetch
  succeeded.
- **Time zone:** `moment.unix(...).format(...)` formats the time in the local
  time zone.

## Model

| member | source | states |
|---|---|---|
| Retry.Retried | frontend/src/App.js:62-72 | Between 1 and retries+1 invocations happen. Every invocation before the last failed, and the result is the last invocation's outcome. A failure means the whole budget was used. One delay is awaited per retry. |
| Retry.SucceedsAfterFailures | frontend/src/App.js:62-72 | An operation that fails k times and then succeeds, with k within the budget, gives that success after exactly k+1 invocations and k delays. |
| Retry.ExhaustsBudget | frontend/src/App.js:62-72 | An operation that always fails is invoked exactly retries+1 times, and the last error propagates unchanged. |
| Retry.ExhaustsDefaultBudget | frontend/src/App.js:62-72 | With the default of 3 retries, four failures give four invocations, three delays, and the fourth failure's error. |
| Retry.SucceedsIffSomeAttemptSucceeds | frontend/src/App.js:62-72 | The wrapped call succeeds exactly when some invocation within the budget succeeds. |
| Retry.WithRetry | frontend/src/App.js:62-72 | The bounded loop gives the same outcome, invocation count and delay count as the recursive definition. |
| Extraction.FindIndex | frontend/src/App.js:143-145 | The result is -1 exactly when the address is not among the keys. Otherwise it is the first position whose key equals the address. |
| Extraction.Timestamp | frontend/src/App.js:151-153 | The time is Unknown exactly when blockTime is absent or 0. Otherwise it is that blockTime. |
| Extraction.BalancesAt | frontend/src/App.js:142-150 | There are no balances without a transaction, without metadata, or with the address absent. Otherwise the balances are those at the first matching position, when both arrays reach that position. |
| Extraction.DustBoundary | frontend/src/App.js:155 | A change of more than 0.000001 SOL is the same as a change of more than 1000 lamports. |
| Extraction.Extract | frontend/src/App.js:142-164 | An entry is made exactly when the wallet's balances exist and moved by more than 1000 lamports. It then has the signature, the time, both balances in SOL, and the change as post minus pre. |
| Extraction.TenLamportsIsDust | frontend/src/App.js:155-163 | A move of 10 lamports makes no entry. |
| Extraction.DustEdge | frontend/src/App.js:155-163 | A move of exactly 1000 lamports makes no entry. A move of 1001 lamports in either direction makes one. |
| Frontend.TrimEmptyIffBlank | frontend/src/App.js:86 | A trimmed field is empty exactly when every character is JavaScript white space. |
| Frontend.Gate | frontend/src/App.js:86-107 | The input is admitted exactly when both fields are non-blank, the count is present and in 1..1000, and both parsers accept. An empty field or count gives "fill in all fields". An out-of-range count gives the range error. When fields and count are fine but a parser fails, the result is the invalid-input error. Admission carries the canonical key and the count. |
| Frontend.WarnsOncePerFailure | frontend/src/App.js:116-123 | The probe emits exactly one "unstable" warning per failed attempt. |
| Frontend.ProbeConnection | frontend/src/App.js:116-123 | The probe runs through the retry policy with the default budget, and its warnings equal its failed attempts. |
| Frontend.Prefix8 | frontend/src/App.js:173 | The quoted prefix is a prefix of the signature, with length min(8, length). |
| Frontend.Visit | frontend/src/App.js:136-165 | A signature contributes an entry only when its fetch succeeds within the retries, and the entry carries that signature. |
| Frontend.VisitSignature | frontend/src/App.js:136-175 | One iteration fetches with retries. On failure it logs the skip with the 8-character prefix. Otherwise it appends the entry, if any, counts the transaction, and announces progress on multiples of 10. |
| Frontend.ProcessSignatures | frontend/src/App.js:131-176 | The loop's history, processed count, messages and number of fetch calls equal those of the specification `Scan`. |
| Frontend.ScanHistoryIsSomes | frontend/src/App.js:131-176 | The history is the present contributions of the signatures, in order. |
| Frontend.HistoryFollowsSignatures | frontend/src/App.js:136-176 | The history is an order-preserving selection: each entry comes from one signature, the positions strictly increase, and every signature whose transaction qualifies is represented, whatever failed before it. |
| Frontend.FailedFetchContributesNothing | frontend/src/App.js:171-175 | A signature whose fetch fails after the retries is not in the history. |
| Frontend.StepCounts | frontend/src/App.js:166-175 | A failed fetch adds one skip warning. A successful fetch adds one to the counter and one progress message exactly at multiples of 10. |
| Frontend.ProcessedCountsSuccesses | frontend/src/App.js:166-175 | Adding the processed count and the failed fetches gives the number of signatures. There is one skip warning per failed fetch. |
| Frontend.ProgressMarksGrow | frontend/src/App.js:167-170 | Counting one more transaction adds a mark exactly when the count reaches a multiple of 10. |
| Frontend.ProgressStep | frontend/src/App.js:167-170 | One iteration keeps the progress messages equal to the marks of the count. |
| Frontend.ProgressEveryTen | frontend/src/App.js:167-170 | The progress messages are exactly "10 of total", "20 of total", and so on, up to the processed count. |
| Frontend.FetchCallsBounded | frontend/src/App.js:138-140 | Each signature adds its own retried run's calls to the total, and that run makes between 1 and 4 getParsedTransaction calls. So n signatures cost between n and 4n calls. |
| Frontend.RunConnected | frontend/src/App.js:109-186 | After validation, the run builds the connection, then probes, lists, loops and reports, as `Connected` states. A connection that cannot be built, or a probe or listing error, ends the run with that error alone. |
| Frontend.UnusableEndpointAborts | frontend/src/App.js:110-113 | When `new Connection` throws, an admitted run ends with that one error, no remote call and no data. |
| Frontend.RejectedBeforeNetwork | frontend/src/App.js:86-107 | Rejected input ends the run with its one message, no remote call and no data. |
| Frontend.LimitAboveRangeRejected | frontend/src/App.js:91-94 | A count of 1001 is rejected with the range error, before any remote call. |
| Frontend.DeadEndpointAborts | frontend/src/App.js:116-186 | When the connection is built but all four probe attempts fail, the run shows four warnings and the last error. It makes four calls and lists and fetches nothing. |
| Frontend.ProbeWarningsLead | frontend/src/App.js:116-123 | An admitted run whose connection is built opens with one "unstable" warning per failed probe attempt. |
| Frontend.ShownOnlyWhenFound | frontend/src/App.js:178-183 | Data is installed only when the history is non-empty, and the run then ends with its count. "No records" means the listing succeeded and nothing qualified. |
| Frontend.BalanceTracker.constructor | frontend/src/App.js:15-19 | The initial state is empty fields, count 100, not loading, no data and no messages. |
| Frontend.BalanceTracker.SetWalletAddress | frontend/src/App.js:212 | The field takes the typed text. |
| Frontend.BalanceTracker.SetRpcUrl | frontend/src/App.js:220 | The field takes the typed text. |
| Frontend.BalanceTracker.SetTransactionLimit | frontend/src/App.js:229 | The count takes the typed value. |
| Frontend.BalanceTracker.FetchBalanceHistory | frontend/src/App.js:84-190 | One click appends the run's messages and makes the run's remote calls. It replaces the data only when the run found entries, and it always ends not loading. |
| TimeOrder.NotLaterTransitive | index.mjs:59 | Among known times, "not later" is transitive. |
| TimeOrder.UnknownBreaksTransitivity | index.mjs:59 | With an Unknown time in between (the comparator gives NaN, read as equal), transitivity fails. So no order is promised when a time is unknown. |
| TimeOrder.SortByTime | index.mjs:59 | The array is sorted in place into a permutation of itself. The result is ascending by time when every time is known. |
| TimeOrder.Insert | index.mjs:59 | Inserting one entry keeps the multiset, and extends the ascending prefix by one when every time is known. |
| Batch.Contribution | index.mjs:22-55 | A signature contributes an entry exactly when its fetch succeeds, the transaction has the wallet's balances, and they moved by more than 1000 lamports. The entry carries that signature, the transaction's time, both balances in SOL, and post minus pre. |
| Batch.CollectEntries | index.mjs:19-56 | The loop's history is the present contributions of the signatures, in listing order. |
| Batch.CollectedFollowsSignatures | index.mjs:21-56 | The collected entries are an order-preserving selection of the signatures whose fetch succeeded, and every qualifying one is included. |
| Batch.FetchTransactionHistory | index.mjs:17-65 | A listing error propagates unchanged (and it happens exactly when the listing fails). Otherwise the result is a permutation of the collected entries, ascending by time when every time is known. |
| Batch.ToFixed8 | index.mjs:77-78 | The rounded value has at most 8 decimals and lies within 5e-9 of the input. |
| Batch.RoundMagnitude8Exact | index.mjs:77-78 | A non-negative value with at most 8 decimals rounds to itself. |
| Batch.ToFixed8Exact | index.mjs:77-78 | A value with at most 8 decimals is unchanged. |
| Batch.ToFixed8Idempotent | index.mjs:77-78 | Rounding twice is rounding once. |
| Batch.ToFixed8Odd | index.mjs:77-78 | Rounding commutes with negation. |
| Batch.ToFixed8Ties | index.mjs:77-78 | Ties round away from zero on both sides. |
| Batch.Project | index.mjs:75-79 | A point keeps the entry's time. Its balance and change are the entry's pre-balance and change, each rounded to 8 decimals. |
| Batch.ToBalanceData | index.mjs:71-80 | There is one point per entry, in the same order. |
| Batch.GenerateBalanceData | index.mjs:68-102 | A failed listing gives no points. Otherwise there is one projected point for each entry of an order of the collected entries that is a permutation, and ascending when every time is known. |

## Left out

- The timeout guard (`withTimeout`, `TIMEOUT_MS`) and the retry delay's duration are not modelled. A call that times out is an `Err(Timeout)` outcome of its script, and the delays are counted, not timed.
- Whether `new Connection(rpcUrl, ...)` throws is a parameter of the endpoint (`Endpoint.open`). Which URLs web3.js refuses is not modelled.
- The RPC calls (`getLatestBlockhash`, `getConfirmedSignaturesForAddress2`, `getParsedTransaction`) are scripted parameters, not modelled. An operation that went on running after a timeout is not modelled.
- `new PublicKey` and `new URL` are abstract parameters (`Parsers`), because their parsing rules belong to foreign libraries.
- The `moment` formatting is abstracted: a known time is kept as its seconds, and the sort key is those seconds.
- The sort key ignores the hour that a daylight-saving change makes ambiguous in the local time zone.
- Floating point is left out: balances are exact reals (lamports divided by 10^9), not doubles. The threshold and the 8-decimal rounding are therefore exact, where JavaScript can be off at the very edge.
- The count is an integer, or absent for an empty field. A fractional or exponent text such as "2.5" or "1e3" is not modelled: the range check reads such text as a number, while the listing reads it with `parseInt`.
- A malformed transaction record (say, one without `transaction.message`) would throw inside the loop and be skipped; it is not modelled, because a `Tx` always has its key list. A fetch that throws is the `Err` outcome of its script.
- The `type` field that the batch report copies from the log messages is left out, because nothing in the core reads it.
- The batch report's module-level configuration (`dotenv`, the `Connection` and the `PublicKey` built from the environment) is left out. The wallet is the `address` parameter.
- Writing `detailed_transactions.json` and `balance_data.json`, and console output, are left out. Writes are taken to succeed; a failed write would make `generateBalanceData` return an empty list.
- The rendering, the table, the chart and the `loading` spinner's display are not modelled.
- SortByTime: its contract does not state stability, which `Array.prototype.sort` also guarantees. When a time is Unknown it promises only a permutation, because the comparator is then not a consistent order.
- FetchTransactionHistory: its contract does not state that the sort keeps entries of equal time in listing order, which `Array.prototype.sort` guarantees. It promises a permutation of the collected entries, ascending when every time is known.
- GenerateBalanceData: its contract states the result through some permutation of the collected entries, not through the exact order the sort produces.
