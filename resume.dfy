/**
 `processCoinsSequentially`: the resume loop. From `startIndex` on, each listing
 record is merged with its detail record into an aggregated coin, which is stored
 under a fresh identifier in the in-memory object `coinData`; the whole object is
 then rewritten to the data file and, after that, the index is written to the
 checkpoint file. Writes and sleeps are recorded as events.
 */
module Resume {
  import opened Opt
  import opened Dict
  import opened Json
  import opened Retry
  import opened Details
  import opened Platforms
  import opened Aggregate
  import opened Events
  import opened Segments

  /** The coins at indices `start .. end - 1` are all records the loop can read. */
  predicate Processable(coins: seq<JsonValue>, start: nat, end: nat) {
    end <= start || (end <= |coins| && forall j :: start <= j < end ==> !Nullish(coins[j]))
  }

  /** Where the loop started at `start` ends: at the first coin that is `undefined`
      or `null` (where it throws), else at `coins.length`, or at once when `start`
      is already past the end. */
  function Stop(coins: seq<JsonValue>, start: nat): (stop: nat)
    ensures start <= stop
    ensures Processable(coins, start, stop)
    ensures start <= |coins| ==> stop <= |coins|
    ensures start < stop ==> stop <= |coins|
    ensures stop < |coins| ==> Nullish(coins[stop])
    decreases |coins| - start
  {
    if start >= |coins| || Nullish(coins[start]) then start else Stop(coins, start + 1)
  }

  /** A readable record before the stopping point moves the stopping point past it. */
  lemma {:induction false} StopStep(coins: seq<JsonValue>, start: nat, i: nat)
    requires start <= i <= Stop(coins, start) && i < |coins| && !Nullish(coins[i])
    ensures i + 1 <= Stop(coins, start)
    ensures Processable(coins, start, i + 1)
    decreases i - start
  {
    if start < i {
      StopStep(coins, start + 1, i);
    }
  }

  /** The loop leaves at the stopping point: at a record it cannot read, or at the end. */
  lemma StopAt(coins: seq<JsonValue>, start: nat, i: nat)
    requires start <= i <= Stop(coins, start)
    requires i >= |coins| || Nullish(coins[i])
    ensures Stop(coins, start) == i
  {
  }

  /** The waits of a detail fetch that receives the answers `answer`. */
  function DetailWaits(answer: Answers): seq<int> {
    Waits(InitialDelay, DetailBackoff, LeadingRateLimits(answer, Ceiling(DefaultRetries)))
  }

  /** The coin the loop merges at index `i`, for the indices it can read. */
  function CoinFn(coins: seq<JsonValue>, env: Environment): nat --> Coin {
    (i: nat) requires i < |coins| && !Nullish(coins[i]) => CoinAt(coins, i, env)
  }

  /** The waits of the detail fetch at index `i`. */
  function WaitsFn(env: Environment): nat -> seq<int> {
    (i: nat) => DetailWaits(env.details(i))
  }

  /** Every record the loop reads can be merged. */
  lemma ProcessableMerges(coins: seq<JsonValue>, start: nat, end: nat, env: Environment)
    requires start <= end && Processable(coins, start, end)
    ensures DefinedOn(CoinFn(coins, env), start, end)
  {
  }

  /** The identifiers drawn by the iterations `start .. end - 1`. */
  function IdsFrom(env: Environment, start: nat, end: nat): seq<string>
    requires start <= end
  {
    Segment(env.ids, start, end)
  }

  /** The coins merged by the iterations `start .. end - 1`. */
  function MergedFrom(coins: seq<JsonValue>, start: nat, end: nat, env: Environment): seq<Coin>
    requires start <= end && Processable(coins, start, end)
  {
    ProcessableMerges(coins, start, end, env);
    Segment(CoinFn(coins, env), start, end)
  }

  /** The waits of the detail fetches of the iterations `start .. end - 1`. */
  function WaitsFrom(env: Environment, start: nat, end: nat): seq<seq<int>>
    requires start <= end
  {
    Segment(WaitsFn(env), start, end)
  }

  /** One more iteration draws one more identifier, merges one more coin and
      records the waits of one more detail fetch. */
  lemma FromSnoc(coins: seq<JsonValue>, start: nat, end: nat, env: Environment)
    requires start <= end < |coins| && Processable(coins, start, end + 1)
    ensures IdsFrom(env, start, end + 1) == IdsFrom(env, start, end) + [env.ids(end)]
    ensures MergedFrom(coins, start, end + 1, env) == MergedFrom(coins, start, end, env) + [CoinAt(coins, end, env)]
    ensures WaitsFrom(env, start, end + 1) == WaitsFrom(env, start, end) + [DetailWaits(env.details(end))]
  {
    ProcessableMerges(coins, start, end + 1, env);
    SegmentSnoc(env.ids, start, end);
    SegmentSnoc(CoinFn(coins, env), start, end);
    SegmentSnoc(WaitsFn(env), start, end);
  }

  /** `coinData` after the iterations `start .. end - 1`. */
  function DocAfter(coins: seq<JsonValue>, start: nat, end: nat, env: Environment): Entries<Coin>
    requires start <= end && Processable(coins, start, end)
  {
    Assigned(IdsFrom(env, start, end), MergedFrom(coins, start, end, env))
  }

  /** The events of the iterations `start .. end - 1`. */
  function TraceAfter(coins: seq<JsonValue>, start: nat, end: nat, env: Environment): seq<Event<Entries<Coin>>>
    requires start <= end && Processable(coins, start, end)
  {
    Iterations(start, IdsFrom(env, start, end), MergedFrom(coins, start, end, env), WaitsFrom(env, start, end))
  }

  /** One more iteration stores the coin merged at index `i` under the identifier
      drawn for it, and adds the backoff sleeps of its detail fetch, a write of the
      whole document, a write of checkpoint `i` and the pause between coins. */
  lemma AfterStep(coins: seq<JsonValue>, start: nat, i: nat, env: Environment)
    requires start <= i < |coins| && Processable(coins, start, i + 1)
    ensures DocAfter(coins, start, i + 1, env) == Put(DocAfter(coins, start, i, env), env.ids(i), CoinAt(coins, i, env))
    ensures TraceAfter(coins, start, i + 1, env) == TraceAfter(coins, start, i, env) + BackoffEvents(DetailWaits(env.details(i)))
      + [WriteData(InLoopDataFile, DocAfter(coins, start, i + 1, env)), WriteProgress(i), Pause(CoinPause)]
  {
    var ids, vals, waits := IdsFrom(env, start, i), MergedFrom(coins, start, i, env), WaitsFrom(env, start, i);
    FromSnoc(coins, start, i, env);
    IterationsStep(start, ids, vals, waits, IdsFrom(env, start, i + 1), MergedFrom(coins, start, i + 1, env), WaitsFrom(env, start, i + 1),
      env.ids(i), CoinAt(coins, i, env), DetailWaits(env.details(i)), i);
  }

  /** The loop either returns `coinData` or throws at the index of a record that
      is `undefined` or `null`. */
  datatype Processed = Completed(doc: Entries<Coin>) | Aborted(at: nat)

  /** The body of one iteration between the read of `coin` and the assignment:
      the detail fetch, the two address filters and the merge. */
  method ProcessCoin(coins: seq<JsonValue>, i: nat, env: Environment) returns (merged: Coin, sleeps: seq<int>)
    requires i < |coins| && !Nullish(coins[i])
    ensures merged == CoinAt(coins, i, env)
    ensures sleeps == DetailWaits(env.details(i))
  {
    var details;
    details, sleeps := FetchCoinDetails(env.details(i), DefaultRetries, InitialDelay);
    var address := GetAllPlatformAddresses(details.platforms);
    var platforms := GetAllPlatformAddresses(details.platforms);
    merged := Merge(coins[i], details, address, platforms, env.clock(i));
  }

  /**
   `processCoinsSequentially(coins, startIndex)`: the indices from `startIndex` on
   are processed in increasing order; for each one the detail record is fetched,
   the coin is merged and stored under a fresh identifier, and the whole document
   and then the checkpoint are written. A record that is `undefined` or `null`
   makes the loop throw at `coin.name`.
   */
  method ProcessCoins(coins: seq<JsonValue>, startIndex: nat, env: Environment) returns (r: Processed, trace: seq<Event<Entries<Coin>>>)
    ensures var stop := Stop(coins, startIndex);
      && r == (if stop < |coins| then Aborted(stop) else Completed(DocAfter(coins, startIndex, stop, env)))
      && trace == TraceAfter(coins, startIndex, stop, env)
  {
    var coinData: Entries<Coin> := [];
    trace := [];
    var i := startIndex;
    while i < |coins|
      invariant startIndex <= i <= Stop(coins, startIndex)
      invariant Processable(coins, startIndex, i)
      invariant coinData == DocAfter(coins, startIndex, i, env)
      invariant trace == TraceAfter(coins, startIndex, i, env)
    {
      if Nullish(coins[i]) {
        StopAt(coins, startIndex, i);
        return Aborted(i), trace;
      }
      StopStep(coins, startIndex, i);
      var uniqueId := env.ids(i);
      var merged, sleeps := ProcessCoin(coins, i, env);
      coinData := Put(coinData, uniqueId, merged);
      trace := trace + BackoffEvents(sleeps) + [WriteData(InLoopDataFile, coinData), WriteProgress(i), Pause(CoinPause)];
      AfterStep(coins, startIndex, i, env);
      i := i + 1;
    }
    StopAt(coins, startIndex, i);
    r := Completed(coinData);
  }

  /** A loop started at `startIndex` writes the checkpoints `startIndex`,
      `startIndex + 1`, ... up to where it stops: it visits the indices in
      increasing order and none below `startIndex`. */
  lemma ResumeCheckpoints(coins: seq<JsonValue>, startIndex: nat, env: Environment)
    ensures Checkpoints(TraceAfter(coins, startIndex, Stop(coins, startIndex), env)) == Span(startIndex, Stop(coins, startIndex))
  {
    var stop := Stop(coins, startIndex);
    CheckpointsAreSpan(startIndex, stop, IdsFrom(env, startIndex, stop), MergedFrom(coins, startIndex, stop, env), WaitsFrom(env, startIndex, stop));
  }

  /** In the events of the iterations `startIndex .. end - 1` (those of the whole
      loop when `end` is where it stops), the write of checkpoint `j` comes right
      after a write of the data file that holds coin `j` under its identifier. */
  lemma ResumeDataBeforeCheckpoint(coins: seq<JsonValue>, startIndex: nat, end: nat, env: Environment, k: nat)
    requires startIndex <= end && Processable(coins, startIndex, end)
    requires k < |TraceAfter(coins, startIndex, end, env)| && TraceAfter(coins, startIndex, end, env)[k].WriteProgress?
    ensures var t := TraceAfter(coins, startIndex, end, env);
      var j := t[k].lastProcessedIndex;
      && startIndex <= j < end
      && 0 < k
      && t[k - 1] == WriteData(InLoopDataFile, DocAfter(coins, startIndex, j + 1, env))
      && Lookup(DocAfter(coins, startIndex, j + 1, env), env.ids(j)) == Some(CoinAt(coins, j, env))
  {
    ProcessableMerges(coins, startIndex, end, env);
    SegmentCheckpoint(env.ids, CoinFn(coins, env), WaitsFn(env), startIndex, end, k);
  }

  /** With pairwise distinct identifiers, a loop that completes returns one entry per
      processed index, keyed by the identifiers in processing order, each holding
      the coin merged at that index. */
  lemma ResumeDocument(coins: seq<JsonValue>, startIndex: nat, env: Environment)
    requires startIndex <= |coins| && Stop(coins, startIndex) == |coins|
    requires Distinct(IdsFrom(env, startIndex, |coins|))
    ensures |DocAfter(coins, startIndex, |coins|, env)| == |coins| - startIndex
    ensures Keys(DocAfter(coins, startIndex, |coins|, env)) == IdsFrom(env, startIndex, |coins|)
    ensures forall j :: startIndex <= j < |coins| ==>
      Lookup(DocAfter(coins, startIndex, |coins|, env), env.ids(j)) == Some(CoinAt(coins, j, env))
  {
    var ids, vals := IdsFrom(env, startIndex, |coins|), MergedFrom(coins, startIndex, |coins|, env);
    AssignedKeys(ids, vals);
    forall j | startIndex <= j < |coins|
      ensures Lookup(DocAfter(coins, startIndex, |coins|, env), env.ids(j)) == Some(CoinAt(coins, j, env))
    {
      var m := j - startIndex;
      AssignedLookup(ids, vals, m);
      SegmentAt(env.ids, startIndex, |coins|, j);
      ProcessableMerges(coins, startIndex, |coins|, env);
      SegmentAt(CoinFn(coins, env), startIndex, |coins|, j);
    }
  }
}
