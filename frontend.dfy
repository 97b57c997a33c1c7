/** The interactive pipeline `fetchBalanceHistory` of frontend/src/App.js:
    an input gate, a connection probe through the retry policy, the listing of
    signatures, and a loop that fetches every transaction (through the retry
    policy), extracts its entry, counts progress and skips failures. The React
    component's state becomes the class BalanceTracker; the `message` channel
    becomes a log of Message values. */
module Frontend {
  import opened Outcomes
  import opened Retry
  import opened Extraction
  import opened Picks

  const MIN_LIMIT: int := 1
  const MAX_LIMIT: int := 1000
  /** Length of the signature prefix quoted when a transaction is skipped. */
  const SKIP_PREFIX: nat := 8

  /** The messages the component shows, by kind. */
  datatype Message =
    | MissingFields                              // a required field is empty
    | LimitOutOfRange                            // the count is outside 1..1000
    | InvalidInput                               // the address or URL does not parse
    | Unstable                                   // one failed probe attempt
    | Progress(processed: nat, total: nat)
    | Skipped(signaturePrefix: string)
    | Found(count: nat)
    | NoRecords
    | Fatal(error: Failure)

  // ----- Input gate -----

  /** The characters String.prototype.trim removes: ECMAScript WhiteSpace and
      LineTerminator code points. */
  predicate IsJsSpace(c: char)
  {
    var n := c as int;
    n == 0x09 || n == 0x0A || n == 0x0B || n == 0x0C || n == 0x0D || n == 0x20 ||
    n == 0xA0 || n == 0x1680 || (0x2000 <= n <= 0x200A) || n == 0x2028 || n == 0x2029 ||
    n == 0x202F || n == 0x205F || n == 0x3000 || n == 0xFEFF
  }

  predicate Blank(s: string)
  {
    forall i :: 0 <= i < |s| ==> IsJsSpace(s[i])
  }

  /** The number of leading white-space characters of `s`. */
  function SpacesBefore(s: string): (n: nat)
    ensures n <= |s|
    ensures forall i :: 0 <= i < n ==> IsJsSpace(s[i])
    ensures n < |s| ==> !IsJsSpace(s[n])
  {
    if s != [] && IsJsSpace(s[0]) then
      var n := 1 + SpacesBefore(s[1..]);
      assert forall i :: 1 <= i < n ==> s[i] == s[1..][i - 1];
      n
    else 0
  }

  /** The number of trailing white-space characters of `s`. */
  function SpacesAfter(s: string): (n: nat)
    ensures n <= |s|
    ensures forall i :: |s| - n <= i < |s| ==> IsJsSpace(s[i])
    ensures n < |s| ==> !IsJsSpace(s[|s| - n - 1])
  {
    if s != [] && IsJsSpace(s[|s| - 1]) then
      var n := 1 + SpacesAfter(s[..|s| - 1]);
      assert forall i :: |s| - n <= i < |s| - 1 ==> s[i] == s[..|s| - 1][i];
      n
    else 0
  }

  /** String.prototype.trim. */
  function Trim(s: string): string
  {
    var u := s[SpacesBefore(s)..];
    u[..|u| - SpacesAfter(u)]
  }

  /** A field is treated as missing exactly when all its characters are white space. */
  lemma TrimEmptyIffBlank(s: string)
    ensures Trim(s) == "" <==> Blank(s)
  {
    var n := SpacesBefore(s);
    var u := s[n..];
    if Blank(s) {
      assert n == |s|;
    }
  }

  /** The two foreign parsers, as abstract predicates: `new PublicKey(s)`,
      giving the key's canonical string when it parses, and `new URL(s)`. */
  datatype Parsers = Parsers(publicKey: string -> Option<string>, url: string -> bool)

  /** The gate's verdict: a rejection with its message, or the canonical
      tracked address and the requested count. */
  datatype Admission = Rejected(reason: Message) | Admitted(address: string, limit: int)

  /** The validation prefix. The count is the text of the number input: None
      when it is empty, the only falsy value that text can take. */
  function Gate(walletAddress: string, rpcUrl: string, limit: Option<int>, parsers: Parsers): (a: Admission)
    ensures a.Admitted? <==>
      && !Blank(walletAddress) && !Blank(rpcUrl) && limit.Some?
      && MIN_LIMIT <= limit.value <= MAX_LIMIT
      && parsers.publicKey(walletAddress).Some? && parsers.url(rpcUrl)
    ensures a.Admitted? ==> a.address == parsers.publicKey(walletAddress).value && a.limit == limit.value
    ensures Blank(walletAddress) || Blank(rpcUrl) || limit.None? ==> a == Rejected(MissingFields)
    ensures !Blank(walletAddress) && !Blank(rpcUrl) && limit.Some? && !(MIN_LIMIT <= limit.value <= MAX_LIMIT)
      ==> a == Rejected(LimitOutOfRange)
    ensures !Blank(walletAddress) && !Blank(rpcUrl) && limit.Some? && MIN_LIMIT <= limit.value <= MAX_LIMIT
      && !(parsers.publicKey(walletAddress).Some? && parsers.url(rpcUrl))
      ==> a == Rejected(InvalidInput)
    ensures a.Rejected? ==> a.reason in {MissingFields, LimitOutOfRange, InvalidInput}
  {
    TrimEmptyIffBlank(walletAddress);
    TrimEmptyIffBlank(rpcUrl);
    if Trim(walletAddress) == "" || Trim(rpcUrl) == "" || limit.None? then
      Rejected(MissingFields)
    else if limit.value < MIN_LIMIT || limit.value > MAX_LIMIT then
      Rejected(LimitOutOfRange)
    else
      match parsers.publicKey(walletAddress)
      case None => Rejected(InvalidInput)
      case Some(key) => if parsers.url(rpcUrl) then Admitted(key, limit.value) else Rejected(InvalidInput)
  }

  // ----- Connection probe -----

  /** The remote calls the pipeline makes, supplied as scripted outcomes. */
  datatype Endpoint = Endpoint(
    open: Attempt<()>,                      // whether `new Connection(rpcUrl, ...)` returns or throws
    probe: Script<()>,                      // successive getLatestBlockhash attempts
    list: int -> Attempt<seq<string>>,      // getConfirmedSignaturesForAddress2 for a limit
    fetch: nat -> Script<Option<Tx>>)       // getParsedTransaction attempts for the i-th signature

  /** The invocations among the first n that failed. */
  ghost function FailedAttempts<T>(attempts: Script<T>, n: nat): set<nat>
  {
    set j: nat | j < n && attempts(j).Err?
  }

  /** Warnings the probe emits: its operation warns on every failure. */
  function Warnings<T>(run: Run<T>): nat
  {
    run.waits + (if run.result.Err? then 1 else 0)
  }

  /** When the first n invocations all fail, n of them failed. */
  lemma {:induction false} AllFailedSize<T>(attempts: Script<T>, n: nat)
    requires forall j: nat :: j < n ==> attempts(j).Err?
    ensures |FailedAttempts(attempts, n)| == n
  {
    if n > 0 {
      AllFailedSize(attempts, n - 1);
      assert FailedAttempts(attempts, n) == FailedAttempts(attempts, n - 1) + {n - 1};
    }
  }

  /** Exactly one warning per failed attempt of the probe. */
  lemma WarnsOncePerFailure<T>(attempts: Script<T>, retries: int)
    ensures var run := Retried(attempts, 0, retries);
      Warnings(run) == |FailedAttempts(attempts, run.calls)|
  {
    var run := Retried(attempts, 0, retries);
    if run.result.Err? {
      AllFailedSize(attempts, run.calls);
    } else {
      AllFailedSize(attempts, run.calls - 1);
      assert FailedAttempts(attempts, run.calls) == FailedAttempts(attempts, run.calls - 1);
    }
  }

  /** The probe: getLatestBlockhash through withRetry with the default budget. */
  method ProbeConnection(probe: Script<()>) returns (run: Run<()>, warnings: nat)
    ensures run == Retried(probe, 0, MAX_RETRIES)
    ensures warnings == Warnings(run) == |FailedAttempts(probe, run.calls)|
  {
    run := WithRetry(probe, MAX_RETRIES);
    warnings := Warnings(run);
    WarnsOncePerFailure(probe, MAX_RETRIES);
  }

  // ----- The per-signature loop -----

  /** A progress message is emitted whenever the processed count is a
      multiple of 10. */
  predicate ProgressPoint(processed: nat)
  {
    processed % 10 == 0
  }

  /** `sig.signature.slice(0, 8)`. */
  function Prefix8(s: string): (p: string)
    ensures p <= s
    ensures |p| == if |s| < SKIP_PREFIX then |s| else SKIP_PREFIX
  {
    if |s| <= SKIP_PREFIX then s else s[..SKIP_PREFIX]
  }

  /** What the i-th signature contributes to the history: the entry of its
      transaction, when the fetch succeeds within the retry budget. */
  function Visit(address: string, signatures: seq<string>, fetch: nat -> Script<Option<Tx>>, i: nat): (r: Option<Entry>)
    requires i < |signatures|
    ensures r.Some? ==> r.value.signature == signatures[i]
    ensures r.Some? ==> Retried(fetch(i), 0, MAX_RETRIES).result.Ok?
  {
    match Retried(fetch(i), 0, MAX_RETRIES).result
    case Err(_) => None
    case Ok(tx) => Extract(tx, address, signatures[i])
  }

  /** The contributions of the first n signatures. */
  function Yields(address: string, signatures: seq<string>, fetch: nat -> Script<Option<Tx>>, n: nat): (ys: seq<Option<Entry>>)
    requires n <= |signatures|
    ensures |ys| == n
    ensures forall i :: 0 <= i < n ==> ys[i] == Visit(address, signatures, fetch, i)
  {
    if n == 0 then [] else Yields(address, signatures, fetch, n - 1) + [Visit(address, signatures, fetch, n - 1)]
  }

  /** The loop's variables: history, processedCount, the messages emitted so
      far, and the number of getParsedTransaction invocations. */
  datatype ScanState = ScanState(history: seq<Entry>, processed: nat, log: seq<Message>, calls: nat)

  /** One iteration: a failed fetch is reported and skipped; a successful one
      may add an entry, is counted, and may announce progress. */
  function Step(prev: ScanState, run: Run<Option<Tx>>, address: string, signature: string, total: nat): ScanState
  {
    match run.result
    case Err(_) =>
      ScanState(prev.history, prev.processed, prev.log + [Skipped(Prefix8(signature))], prev.calls + run.calls)
    case Ok(tx) =>
      var processed := prev.processed + 1;
      ScanState(prev.history + OptionToSeq(Extract(tx, address, signature)),
                processed,
                prev.log + (if ProgressPoint(processed) then [Progress(processed, total)] else []),
                prev.calls + run.calls)
  }

  /** The state after the first n iterations of the loop. */
  function Scan(address: string, signatures: seq<string>, fetch: nat -> Script<Option<Tx>>, n: nat): ScanState
    requires n <= |signatures|
  {
    if n == 0 then ScanState([], 0, [], 0)
    else Step(Scan(address, signatures, fetch, n - 1), Retried(fetch(n - 1), 0, MAX_RETRIES),
              address, signatures[n - 1], |signatures|)
  }

  /** One iteration of the loop: fetch the signature's transaction with
      retries, then either log the skip or record the entry and progress. */
  method VisitSignature(prev: ScanState, attempts: Script<Option<Tx>>, address: string, signature: string, total: nat)
    returns (next: ScanState)
    ensures next == Step(prev, Retried(attempts, 0, MAX_RETRIES), address, signature, total)
  {
    var run := WithRetry(attempts, MAX_RETRIES);
    var history, processed, log := prev.history, prev.processed, prev.log;
    match run.result {
      case Err(_) =>
        log := log + [Skipped(Prefix8(signature))];
      case Ok(tx) =>
        var entry := Extract(tx, address, signature);
        if entry.Some? {
          history := history + [entry.value];
        }
        processed := processed + 1;
        if ProgressPoint(processed) {
          log := log + [Progress(processed, total)];
        }
    }
    next := ScanState(history, processed, log, prev.calls + run.calls);
  }

  /** The loop over the listed signatures. */
  method ProcessSignatures(address: string, signatures: seq<string>, fetch: nat -> Script<Option<Tx>>)
    returns (history: seq<Entry>, processed: nat, log: seq<Message>, calls: nat)
    ensures ScanState(history, processed, log, calls) == Scan(address, signatures, fetch, |signatures|)
  {
    var state := ScanState([], 0, [], 0);
    for i := 0 to |signatures|
      invariant state == Scan(address, signatures, fetch, i)
    {
      state := VisitSignature(state, fetch(i), address, signatures[i], |signatures|);
    }
    history, processed, log, calls := state.history, state.processed, state.log, state.calls;
  }

  lemma {:induction false} ScanHistoryIsSomes(address: string, signatures: seq<string>, fetch: nat -> Script<Option<Tx>>, n: nat)
    requires n <= |signatures|
    ensures Scan(address, signatures, fetch, n).history == Somes(Yields(address, signatures, fetch, n))
  {
    if n > 0 {
      ScanHistoryIsSomes(address, signatures, fetch, n - 1);
      var ys := Yields(address, signatures, fetch, n);
      assert ys[..n - 1] == Yields(address, signatures, fetch, n - 1);
    }
  }

  /** The history is an order-preserving selection from the signatures: its
      k-th entry comes from the idx[k]-th signature, carries that signature,
      and is that signature's contribution; the positions strictly increase,
      so a signature gives at most one entry; and every signature whose
      fetch succeeds with a qualifying transaction is represented, whatever
      failed before it. */
  lemma HistoryFollowsSignatures(address: string, signatures: seq<string>, fetch: nat -> Script<Option<Tx>>)
    ensures var h := Scan(address, signatures, fetch, |signatures|).history;
            var idx := SomeIndices(Yields(address, signatures, fetch, |signatures|));
      && |idx| == |h|
      && (forall k :: 0 <= k < |idx| ==>
            && idx[k] < |signatures|
            && h[k].signature == signatures[idx[k]]
            && Visit(address, signatures, fetch, idx[k]) == Some(h[k]))
      && (forall k, l :: 0 <= k < l < |idx| ==> idx[k] < idx[l])
      && (forall i :: 0 <= i < |signatures| && Visit(address, signatures, fetch, i).Some? ==> i in idx)
  {
    var ys := Yields(address, signatures, fetch, |signatures|);
    ScanHistoryIsSomes(address, signatures, fetch, |signatures|);
    SomesSitAtSomeIndices(ys);
    SomeIndicesIncrease(ys);
    SomeIndicesComplete(ys);
  }

  /** A signature whose fetch fails after the retries contributes nothing. */
  lemma FailedFetchContributesNothing(address: string, signatures: seq<string>, fetch: nat -> Script<Option<Tx>>, i: nat)
    requires i < |signatures|
    requires Retried(fetch(i), 0, MAX_RETRIES).result.Err?
    ensures i !in SomeIndices(Yields(address, signatures, fetch, |signatures|))
  {
    var ys := Yields(address, signatures, fetch, |signatures|);
    SomesSitAtSomeIndices(ys);
  }

  /** The signatures among the first n whose fetch failed after the retries. */
  ghost function FailedFetches(fetch: nat -> Script<Option<Tx>>, n: nat): set<nat>
  {
    set i: nat | i < n && FetchFails(fetch, i)
  }

  /** The i-th signature's fetch fails after the retries. */
  predicate FetchFails(fetch: nat -> Script<Option<Tx>>, i: nat)
  {
    Retried(fetch(i), 0, MAX_RETRIES).result.Err?
  }

  /** The Skipped messages of a log, in order. */
  function Skips(log: seq<Message>): seq<Message>
  {
    if log == [] then [] else Skips(log[..|log| - 1]) + (if log[|log| - 1].Skipped? then [log[|log| - 1]] else [])
  }

  /** The Progress messages of a log, in order. */
  function Progresses(log: seq<Message>): seq<Message>
  {
    if log == [] then [] else Progresses(log[..|log| - 1]) + (if log[|log| - 1].Progress? then [log[|log| - 1]] else [])
  }

  /** What one iteration adds to the counter, the skip warnings and the
      progress messages. */
  lemma StepCounts(prev: ScanState, run: Run<Option<Tx>>, address: string, signature: string, total: nat)
    ensures var next := Step(prev, run, address, signature, total);
      && next.processed == prev.processed + (if run.result.Ok? then 1 else 0)
      && Skips(next.log) == Skips(prev.log) + (if run.result.Err? then [Skipped(Prefix8(signature))] else [])
      && Progresses(next.log) == Progresses(prev.log) +
           (if run.result.Ok? && ProgressPoint(next.processed) then [Progress(next.processed, total)] else [])
  {
    var next := Step(prev, run, address, signature, total);
    if next.log != prev.log {
      assert next.log[..|next.log| - 1] == prev.log;
    }
  }

  lemma FailedFetchesGrow(fetch: nat -> Script<Option<Tx>>, m: nat)
    ensures |FailedFetches(fetch, m + 1)| == |FailedFetches(fetch, m)| + (if FetchFails(fetch, m) then 1 else 0)
  {
    if FetchFails(fetch, m) {
      assert FailedFetches(fetch, m + 1) == FailedFetches(fetch, m) + {m};
    } else {
      assert FailedFetches(fetch, m + 1) == FailedFetches(fetch, m);
    }
  }

  /** processedCount counts exactly the signatures whose fetch did not fail,
      and every failed one is reported by one skip warning. */
  lemma {:induction false} ProcessedCountsSuccesses(address: string, signatures: seq<string>, fetch: nat -> Script<Option<Tx>>, n: nat)
    requires n <= |signatures|
    ensures var s := Scan(address, signatures, fetch, n);
      && s.processed + |FailedFetches(fetch, n)| == n
      && |Skips(s.log)| == |FailedFetches(fetch, n)|
  {
    if n > 0 {
      var m := n - 1;
      ProcessedCountsSuccesses(address, signatures, fetch, m);
      var prev := Scan(address, signatures, fetch, m);
      var run := Retried(fetch(m), 0, MAX_RETRIES);
      StepCounts(prev, run, address, signatures[m], |signatures|);
      FailedFetchesGrow(fetch, m);
      var next := Scan(address, signatures, fetch, n);
      assert next == Step(prev, run, address, signatures[m], |signatures|);
      assert FetchFails(fetch, m) == run.result.Err?;
    }
  }

  /** The progress messages announce 10, 20, ... processed transactions out of
      the total, one for every multiple of 10 reached. */
  function ProgressMarks(processed: nat, total: nat): (ms: seq<Message>)
    ensures |ms| == processed / 10
  {
    seq(processed / 10, j requires 0 <= j => Progress(10 * (j + 1), total))
  }

  /** Counting one more processed transaction adds a mark exactly when the
      count reaches a multiple of 10. */
  lemma ProgressMarksGrow(p: nat, total: nat)
    requires p > 0
    ensures ProgressMarks(p, total)
         == ProgressMarks(p - 1, total) + (if ProgressPoint(p) then [Progress(p, total)] else [])
  {
    var q := p - 1;
    if p % 10 == 0 {
      assert p / 10 == q / 10 + 1;
      assert 10 * (q / 10 + 1) == p;
    } else {
      assert p / 10 == q / 10;
    }
  }

  /** One iteration keeps the progress messages equal to the marks of the
      processed count. */
  lemma ProgressStep(prev: ScanState, run: Run<Option<Tx>>, address: string, signature: string, total: nat)
    requires Progresses(prev.log) == ProgressMarks(prev.processed, total)
    ensures var next := Step(prev, run, address, signature, total);
      Progresses(next.log) == ProgressMarks(next.processed, total)
  {
    StepCounts(prev, run, address, signature, total);
    if run.result.Ok? {
      ProgressMarksGrow(prev.processed + 1, total);
    }
  }

  lemma {:induction false} ProgressEveryTen(address: string, signatures: seq<string>, fetch: nat -> Script<Option<Tx>>, n: nat)
    requires n <= |signatures|
    ensures var s := Scan(address, signatures, fetch, n);
      Progresses(s.log) == ProgressMarks(s.processed, |signatures|)
  {
    if n > 0 {
      ProgressEveryTen(address, signatures, fetch, n - 1);
      ProgressStep(Scan(address, signatures, fetch, n - 1), Retried(fetch(n - 1), 0, MAX_RETRIES),
                   address, signatures[n - 1], |signatures|);
    } else {
      assert ProgressMarks(0, |signatures|) == [];
    }
  }

  /** Every signature is fetched at least once and at most MAX_RETRIES + 1
      times, so n signatures cost between n and 4n fetch calls. */
  lemma {:induction false} FetchCallsBounded(address: string, signatures: seq<string>, fetch: nat -> Script<Option<Tx>>, n: nat)
    requires n <= |signatures|
    ensures n > 0 ==>
      var run := Retried(fetch(n - 1), 0, MAX_RETRIES);
      && Scan(address, signatures, fetch, n).calls == Scan(address, signatures, fetch, n - 1).calls + run.calls
      && 1 <= run.calls <= 4
    ensures n <= Scan(address, signatures, fetch, n).calls <= 4 * n
  {
    if n > 0 {
      FetchCallsBounded(address, signatures, fetch, n - 1);
      var run := Retried(fetch(n - 1), 0, MAX_RETRIES);
      assert 1 <= run.calls <= 4;
      assert Scan(address, signatures, fetch, n).calls == Scan(address, signatures, fetch, n - 1).calls + run.calls;
    }
  }

  // ----- One run of fetchBalanceHistory -----

  function Repeat(m: Message, n: nat): (s: seq<Message>)
    ensures |s| == n
    ensures forall k :: 0 <= k < n ==> s[k] == m
  {
    seq(n, _ => m)
  }

  /** What one run does: the messages it emits, the remote calls it makes,
      and the history it installs with setBalanceData, if any. */
  datatype SessionOutcome = SessionOutcome(messages: seq<Message>, rpcCalls: nat, shown: Option<seq<Entry>>)

  /** What the run does once the input is admitted: build the connection,
      probe, list, loop, and report. */
  function Connected(address: string, count: int, endpoint: Endpoint): SessionOutcome
  {
    if endpoint.open.Err? then SessionOutcome([Fatal(endpoint.open.error)], 0, None)
    else
    var probe := Retried(endpoint.probe, 0, MAX_RETRIES);
    var warned := Repeat(Unstable, Warnings(probe));
    if probe.result.Err? then
      SessionOutcome(warned + [Fatal(probe.result.error)], probe.calls, None)
    else
      match endpoint.list(count)
      case Err(e) => SessionOutcome(warned + [Fatal(e)], probe.calls + 1, None)
      case Ok(signatures) =>
        var scan := Scan(address, signatures, endpoint.fetch, |signatures|);
        var found := scan.history != [];
        SessionOutcome(warned + scan.log + [if found then Found(|scan.history|) else NoRecords],
                       probe.calls + 1 + scan.calls,
                       if found then Some(scan.history) else None)
  }

  /** What one run does, from the input fields on. */
  function Session(walletAddress: string, rpcUrl: string, limit: Option<int>,
                   parsers: Parsers, endpoint: Endpoint): SessionOutcome
  {
    match Gate(walletAddress, rpcUrl, limit, parsers)
    case Rejected(reason) => SessionOutcome([reason], 0, None)
    case Admitted(address, count) => Connected(address, count, endpoint)
  }

  /** The body of the run after validation: build the connection, probe the
      endpoint, list the signatures, process them, and decide what to report.
      A connection that cannot be built, or any error of the probe or of the
      listing, ends the run with that error's message. */
  method RunConnected(address: string, count: int, endpoint: Endpoint) returns (outcome: SessionOutcome)
    ensures outcome == Connected(address, count, endpoint)
  {
    if endpoint.open.Err? {
      return SessionOutcome([Fatal(endpoint.open.error)], 0, None);
    }
    var probe, warnings := ProbeConnection(endpoint.probe);
    var messages := Repeat(Unstable, warnings);
    var rpcCalls := probe.calls;
    if probe.result.Err? {
      return SessionOutcome(messages + [Fatal(probe.result.error)], rpcCalls, None);
    }
    var listed := endpoint.list(count);
    rpcCalls := rpcCalls + 1;
    if listed.Err? {
      return SessionOutcome(messages + [Fatal(listed.error)], rpcCalls, None);
    }
    var history, processed, log, calls := ProcessSignatures(address, listed.value, endpoint.fetch);
    messages := messages + log;
    rpcCalls := rpcCalls + calls;
    if |history| > 0 {
      outcome := SessionOutcome(messages + [Found(|history|)], rpcCalls, Some(history));
    } else {
      outcome := SessionOutcome(messages + [NoRecords], rpcCalls, None);
    }
  }

  /** Every rejected input ends the run with its one message and no remote call. */
  lemma RejectedBeforeNetwork(walletAddress: string, rpcUrl: string, limit: Option<int>,
                              parsers: Parsers, endpoint: Endpoint)
    requires Gate(walletAddress, rpcUrl, limit, parsers).Rejected?
    ensures var s := Session(walletAddress, rpcUrl, limit, parsers, endpoint);
      s.rpcCalls == 0 && s.shown == None &&
      s.messages == [Gate(walletAddress, rpcUrl, limit, parsers).reason]
  {
  }

  /** A count of 1001 is rejected before any remote call. */
  lemma LimitAboveRangeRejected(walletAddress: string, rpcUrl: string, parsers: Parsers, endpoint: Endpoint)
    requires !Blank(walletAddress) && !Blank(rpcUrl)
    ensures Session(walletAddress, rpcUrl, Some(1001), parsers, endpoint)
         == SessionOutcome([LimitOutOfRange], 0, None)
  {
  }

  /** A dead endpoint: all four probe attempts fail, four warnings are shown,
      the last error is reported, and nothing is listed or fetched. */
  lemma DeadEndpointAborts(walletAddress: string, rpcUrl: string, limit: Option<int>,
                           parsers: Parsers, endpoint: Endpoint)
    requires Gate(walletAddress, rpcUrl, limit, parsers).Admitted?
    requires endpoint.open.Ok?
    requires forall j: nat :: j <= 3 ==> endpoint.probe(j).Err?
    ensures Session(walletAddress, rpcUrl, limit, parsers, endpoint)
         == SessionOutcome(Repeat(Unstable, 4) + [Fatal(endpoint.probe(3).error)], 4, None)
  {
    ExhaustsDefaultBudget(endpoint.probe);
  }

  /** A connection that cannot be built ends an admitted run with that one
      error, before any remote call. */
  lemma UnusableEndpointAborts(walletAddress: string, rpcUrl: string, limit: Option<int>,
                               parsers: Parsers, endpoint: Endpoint)
    requires Gate(walletAddress, rpcUrl, limit, parsers).Admitted?
    requires endpoint.open.Err?
    ensures Session(walletAddress, rpcUrl, limit, parsers, endpoint)
         == SessionOutcome([Fatal(endpoint.open.error)], 0, None)
  {
  }

  /** Once the gate admits the input and the connection is built, the run
      opens with one Unstable warning per failed probe attempt. */
  lemma ProbeWarningsLead(walletAddress: string, rpcUrl: string, limit: Option<int>,
                          parsers: Parsers, endpoint: Endpoint)
    requires Gate(walletAddress, rpcUrl, limit, parsers).Admitted?
    requires endpoint.open.Ok?
    ensures var run := Retried(endpoint.probe, 0, MAX_RETRIES);
            var w := |FailedAttempts(endpoint.probe, run.calls)|;
            var s := Session(walletAddress, rpcUrl, limit, parsers, endpoint);
      w <= |s.messages| && s.messages[..w] == Repeat(Unstable, w)
  {
    WarnsOncePerFailure(endpoint.probe, MAX_RETRIES);
    var s := Session(walletAddress, rpcUrl, limit, parsers, endpoint);
    var w := Warnings(Retried(endpoint.probe, 0, MAX_RETRIES));
    assert s.messages[..w] == Repeat(Unstable, w);
  }

  /** setBalanceData is called only with a non-empty history, namely the
      loop's; an empty history leaves the shown data alone and says so. */
  lemma ShownOnlyWhenFound(walletAddress: string, rpcUrl: string, limit: Option<int>,
                           parsers: Parsers, endpoint: Endpoint)
    ensures var s := Session(walletAddress, rpcUrl, limit, parsers, endpoint);
      && (s.shown.Some? ==> s.shown.value != [] && s.messages[|s.messages| - 1] == Found(|s.shown.value|))
      && (s.shown.None? && |s.messages| > 0 && s.messages[|s.messages| - 1] == NoRecords ==>
            var a := Gate(walletAddress, rpcUrl, limit, parsers);
            && a.Admitted?
            && endpoint.open.Ok?
            && endpoint.list(a.limit).Ok?
            && Scan(a.address, endpoint.list(a.limit).value, endpoint.fetch, |endpoint.list(a.limit).value|).history == [])
  {
  }

  /** The component's state. */
  class BalanceTracker {
    var walletAddress: string
    var rpcUrl: string
    var transactionLimit: Option<int>
    var loading: bool
    var balanceData: seq<Entry>
    /** Every message shown so far, in order. */
    var messages: seq<Message>

    constructor ()
      ensures walletAddress == "" && rpcUrl == "" && transactionLimit == Some(100)
      ensures !loading && balanceData == [] && messages == []
    {
      walletAddress, rpcUrl, transactionLimit := "", "", Some(100);
      loading, balanceData, messages := false, [], [];
    }

    method SetWalletAddress(s: string)
      modifies this`walletAddress
      ensures walletAddress == s
    {
      walletAddress := s;
    }

    method SetRpcUrl(s: string)
      modifies this`rpcUrl
      ensures rpcUrl == s
    {
      rpcUrl := s;
    }

    method SetTransactionLimit(limit: Option<int>)
      modifies this`transactionLimit
      ensures transactionLimit == limit
    {
      transactionLimit := limit;
    }

    /** One click on the query button. */
    method FetchBalanceHistory(parsers: Parsers, endpoint: Endpoint) returns (rpcCalls: nat)
      modifies this`loading, this`balanceData, this`messages
      ensures var s := Session(walletAddress, rpcUrl, transactionLimit, parsers, endpoint);
        && messages == old(messages) + s.messages
        && rpcCalls == s.rpcCalls
        && balanceData == (if s.shown.Some? then s.shown.value else old(balanceData))
      ensures !loading
    {
      var admission := Gate(walletAddress, rpcUrl, transactionLimit, parsers);
      if admission.Rejected? && admission.reason != InvalidInput {
        messages := messages + [admission.reason];
        loading := false;
        return 0;
      }
      loading := true;
      if admission.Rejected? {
        loading := false;
        messages := messages + [admission.reason];
        return 0;
      }
      var outcome := RunConnected(admission.address, admission.limit, endpoint);
      messages := messages + outcome.messages;
      rpcCalls := outcome.rpcCalls;
      if outcome.shown.Some? {
        balanceData := outcome.shown.value;
      }
      loading := false;
    }
  }
}
