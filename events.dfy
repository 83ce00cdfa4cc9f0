/**
 The observable effects of a run, recorded as a trace of events: listing-page
 requests, the waits after a 429, the fixed pauses, the full rewrites of the data
 file and the rewrites of the checkpoint file `progress.json`. The trace of the
 resume loop is defined here over plain sequences (the identifiers, the merged
 coins and the waits of each iteration), so that its ordering properties are
 proved once, whatever the coins are.
 */
module Events {
  import opened Opt
  import opened Dict
  import opened Segments

  /** The file the loop rewrites after each coin and the file written once at the
      end: the two names differ by one letter in the script. */
  const InLoopDataFile: string := "customCoinDatat.json"
  const FinalDataFile: string := "customCoinData.json"
  /** The pause after each coin and the pause between two listing pages (ms). */
  const CoinPause: int := 15000
  const PagePause: int := 30000

  /** `Doc` is the type of the document written to the data file. */
  datatype Event<Doc> =
    | FetchPage(page: int)
    | Backoff(ms: int)
    | Pause(ms: int)
    | WriteData(file: string, doc: Doc)
    | WriteProgress(lastProcessedIndex: int)

  /** One `Backoff` event per wait, in order. */
  function BackoffEvents<Doc>(waits: seq<int>): (es: seq<Event<Doc>>)
    ensures |es| == |waits|
  {
    if waits == [] then [] else [Backoff(waits[0])] + BackoffEvents(waits[1..])
  }

  /** Event `k` is the wait `k`. */
  lemma {:induction false} BackoffEventsAre<Doc>(waits: seq<int>)
    ensures forall k :: 0 <= k < |waits| ==> BackoffEvents<Doc>(waits)[k] == Backoff(waits[k])
  {
    if waits != [] {
      BackoffEventsAre<Doc>(waits[1..]);
    }
  }

  /** The object after `obj[ids[0]] = vals[0]; obj[ids[1]] = vals[1]; ...` starting
      from `{}`. */
  function Assigned<V>(ids: seq<string>, vals: seq<V>): Entries<V>
    requires |ids| == |vals|
  {
    if vals == [] then []
    else
      var n := |vals| - 1;
      Put(Assigned(ids[..n], vals[..n]), ids[n], vals[n])
  }

  /** The events of the loop iterations `start, start + 1, ...`: iteration `start + n`
      stores `vals[n]` under `ids[n]`, after the waits `waits[n]` of its detail fetch;
      it then rewrites the data file with the whole object, writes the checkpoint
      `start + n` and pauses. */
  function Iterations<V>(start: nat, ids: seq<string>, vals: seq<V>, waits: seq<seq<int>>): seq<Event<Entries<V>>>
    requires |ids| == |vals| == |waits|
  {
    if vals == [] then []
    else
      var n := |vals| - 1;
      Iterations(start, ids[..n], vals[..n], waits[..n]) + BackoffEvents(waits[n])
        + [WriteData(InLoopDataFile, Assigned(ids, vals)), WriteProgress(start + n), Pause(CoinPause)]
  }

  /** Extending the iterations by one. */
  lemma IterationsSnoc<V>(start: nat, ids: seq<string>, vals: seq<V>, waits: seq<seq<int>>, id: string, val: V, w: seq<int>)
    requires |ids| == |vals| == |waits|
    ensures Assigned(ids + [id], vals + [val]) == Put(Assigned(ids, vals), id, val)
    ensures Iterations(start, ids + [id], vals + [val], waits + [w]) ==
      Iterations(start, ids, vals, waits) + BackoffEvents(w)
        + [WriteData(InLoopDataFile, Put(Assigned(ids, vals), id, val)), WriteProgress(start + |vals|), Pause(CoinPause)]
  {
    assert (ids + [id])[..|ids|] == ids;
    assert (vals + [val])[..|vals|] == vals;
    assert (waits + [w])[..|waits|] == waits;
  }

  /** `IterationsSnoc` for sequences that are already known to be one longer, with
      the index of the new iteration named `j`. */
  lemma IterationsStep<V>(start: nat, ids: seq<string>, vals: seq<V>, waits: seq<seq<int>>,
                          ids': seq<string>, vals': seq<V>, waits': seq<seq<int>>, id: string, val: V, w: seq<int>, j: nat)
    requires |ids| == |vals| == |waits| && j == start + |vals|
    requires ids' == ids + [id] && vals' == vals + [val] && waits' == waits + [w]
    ensures Assigned(ids', vals') == Put(Assigned(ids, vals), id, val)
    ensures Iterations(start, ids', vals', waits') ==
      Iterations(start, ids, vals, waits) + BackoffEvents(w) + [WriteData(InLoopDataFile, Assigned(ids', vals')), WriteProgress(j), Pause(CoinPause)]
  {
    IterationsSnoc(start, ids, vals, waits, id, val, w);
  }

  /** The values written to the checkpoint file, in the order of the writes. */
  function Checkpoints<Doc>(trace: seq<Event<Doc>>): seq<int> {
    if trace == [] then []
    else (if trace[0].WriteProgress? then [trace[0].lastProcessedIndex] else []) + Checkpoints(trace[1..])
  }

  lemma {:induction false} CheckpointsAppend<Doc>(a: seq<Event<Doc>>, b: seq<Event<Doc>>)
    ensures Checkpoints(a + b) == Checkpoints(a) + Checkpoints(b)
  {
    if a != [] {
      assert (a + b)[0] == a[0];
      assert (a + b)[1..] == a[1..] + b;
      CheckpointsAppend(a[1..], b);
    } else {
      assert a + b == b;
    }
  }

  lemma {:induction false} NoCheckpointInBackoff<Doc>(waits: seq<int>)
    ensures Checkpoints(BackoffEvents<Doc>(waits)) == []
  {
    if waits != [] {
      assert BackoffEvents<Doc>(waits)[1..] == BackoffEvents<Doc>(waits[1..]);
      NoCheckpointInBackoff<Doc>(waits[1..]);
    }
  }

  /** One iteration writes exactly one checkpoint: its own index. */
  lemma IterationCheckpoint<Doc>(w: seq<int>, doc: Doc, j: int)
    ensures Checkpoints(BackoffEvents(w) + [WriteData(InLoopDataFile, doc), WriteProgress(j), Pause(CoinPause)]) == [j]
  {
    var data: Event<Doc> := WriteData(InLoopDataFile, doc);
    assert [data, WriteProgress(j), Pause(CoinPause)] == [data] + [WriteProgress(j)] + [Pause(CoinPause)];
    CheckpointsAppend(BackoffEvents(w), [data, WriteProgress(j), Pause(CoinPause)]);
    NoCheckpointInBackoff<Doc>(w);
    CheckpointsAppend([data] + [WriteProgress(j)], [Pause(CoinPause)]);
    CheckpointsAppend([data], [WriteProgress(j)]);
  }

  /** The indices `lo .. hi - 1`, in increasing order. */
  function Span(lo: nat, hi: nat): (s: seq<int>)
    ensures |s| == if lo <= hi then hi - lo else 0
    ensures forall k :: 0 <= k < |s| ==> s[k] == lo + k
    decreases hi
  {
    if hi <= lo then [] else Span(lo, hi - 1) + [hi - 1]
  }

  /** The checkpoints written by the iterations `start .. end - 1` are exactly
      `start, start + 1, ..., end - 1`, one per iteration. */
  lemma {:induction false} CheckpointsAreSpan<V>(start: nat, end: nat, ids: seq<string>, vals: seq<V>, waits: seq<seq<int>>)
    requires |ids| == |vals| == |waits| == end - start
    ensures Checkpoints(Iterations(start, ids, vals, waits)) == Span(start, end)
    decreases |vals|
  {
    if vals != [] {
      var n := |vals| - 1;
      var prev := Iterations(start, ids[..n], vals[..n], waits[..n]);
      var step := BackoffEvents(waits[n]) + [WriteData(InLoopDataFile, Assigned(ids, vals)), WriteProgress(start + n), Pause(CoinPause)];
      assert Iterations(start, ids, vals, waits) == prev + step;
      CheckpointsAreSpan(start, end - 1, ids[..n], vals[..n], waits[..n]);
      CheckpointsAppend(prev, step);
      IterationCheckpoint(waits[n], Assigned(ids, vals), start + n);
      assert start + n == end - 1;
      assert Checkpoints(prev + step) == Span(start, end - 1) + [end - 1];
    }
  }

  /** Checkpoints strictly increase and lie in `start .. end - 1`. */
  lemma CheckpointsIncrease<V>(start: nat, end: nat, ids: seq<string>, vals: seq<V>, waits: seq<seq<int>>)
    requires |ids| == |vals| == |waits| == end - start
    ensures var cs := Checkpoints(Iterations(start, ids, vals, waits));
      && (forall a, b :: 0 <= a < b < |cs| ==> cs[a] < cs[b])
      && (forall a :: 0 <= a < |cs| ==> start <= cs[a] < end)
  {
    CheckpointsAreSpan(start, end, ids, vals, waits);
  }

  /** Every checkpoint `j` is written right after the data file, and the data file
      then holds the object after iteration `j`: progress on disk is never ahead of
      the data on disk. */
  lemma {:induction false} DataWrittenBeforeCheckpoint<V>(start: nat, ids: seq<string>, vals: seq<V>, waits: seq<seq<int>>, k: nat)
    requires |ids| == |vals| == |waits|
    requires k < |Iterations(start, ids, vals, waits)| && Iterations(start, ids, vals, waits)[k].WriteProgress?
    ensures var t := Iterations(start, ids, vals, waits);
      var j := t[k].lastProcessedIndex;
      && start <= j < start + |vals|
      && 0 < k
      && t[k - 1] == WriteData(InLoopDataFile, Assigned(ids[..j + 1 - start], vals[..j + 1 - start]))
    decreases |vals|
  {
    var n := |vals| - 1;
    var prev := Iterations(start, ids[..n], vals[..n], waits[..n]);
    var t := Iterations(start, ids, vals, waits);
    IterationsPrefix(start, ids, vals, waits);
    if k < |prev| {
      DataWrittenBeforeCheckpoint(start, ids[..n], vals[..n], waits[..n], k);
      assert t[k] == prev[k] && t[k - 1] == prev[k - 1];
      var j := t[k].lastProcessedIndex;
      assert ids[..n][..j + 1 - start] == ids[..j + 1 - start];
      assert vals[..n][..j + 1 - start] == vals[..j + 1 - start];
    } else {
      LastCheckpoint(start, ids, vals, waits, k);
      var j := t[k].lastProcessedIndex;
      assert j + 1 - start == |vals|;
      assert ids[..j + 1 - start] == ids && vals[..j + 1 - start] == vals;
    }
  }

  /** The trace of the earlier iterations is a prefix of the whole trace. */
  lemma IterationsPrefix<V>(start: nat, ids: seq<string>, vals: seq<V>, waits: seq<seq<int>>)
    requires |ids| == |vals| == |waits| && vals != []
    ensures var n := |vals| - 1;
      var prev := Iterations(start, ids[..n], vals[..n], waits[..n]);
      var t := Iterations(start, ids, vals, waits);
      && |prev| < |t|
      && forall i :: 0 <= i < |prev| ==> t[i] == prev[i]
  {
  }

  /** A checkpoint written by the last iteration follows that iteration's data write. */
  lemma LastCheckpoint<V>(start: nat, ids: seq<string>, vals: seq<V>, waits: seq<seq<int>>, k: nat)
    requires |ids| == |vals| == |waits| && vals != []
    requires |Iterations(start, ids[..|vals| - 1], vals[..|vals| - 1], waits[..|vals| - 1])| <= k
    requires k < |Iterations(start, ids, vals, waits)| && Iterations(start, ids, vals, waits)[k].WriteProgress?
    ensures var t := Iterations(start, ids, vals, waits);
      && 0 < k
      && t[k] == WriteProgress(start + |vals| - 1)
      && t[k - 1] == WriteData(InLoopDataFile, Assigned(ids, vals))
  {
    var n := |vals| - 1;
    var prev := Iterations(start, ids[..n], vals[..n], waits[..n]);
    var data := WriteData(InLoopDataFile, Assigned(ids, vals));
    var step := BackoffEvents(waits[n]) + [data, WriteProgress(start + n), Pause(CoinPause)];
    var t := Iterations(start, ids, vals, waits);
    assert t == prev + step;
    assert t[k] == step[k - |prev|];
    StepCheckpointAt(waits[n], data, start + n, k - |prev|);
    assert t[k - 1] == step[k - 1 - |prev|];
  }

  /** Inside one iteration the only checkpoint is the one right after the data write. */
  lemma StepCheckpointAt<Doc>(w: seq<int>, data: Event<Doc>, j: int, i: nat)
    requires var step := BackoffEvents(w) + [data, WriteProgress(j), Pause(CoinPause)];
      i < |step| && step[i].WriteProgress? && !data.WriteProgress?
    ensures i == |w| + 1
    ensures (BackoffEvents(w) + [data, WriteProgress(j), Pause(CoinPause)])[i - 1] == data
    ensures (BackoffEvents(w) + [data, WriteProgress(j), Pause(CoinPause)])[i] == WriteProgress(j)
  {
    BackoffEventsAre<Doc>(w);
  }

  /** No identifier occurs twice. */
  predicate Distinct(ids: seq<string>) {
    forall a, b :: 0 <= a < b < |ids| ==> ids[a] != ids[b]
  }

  /** The data write before checkpoint `j` holds the value of iteration `j` under
      its identifier. */
  lemma CheckpointedValueWritten<V>(start: nat, ids: seq<string>, vals: seq<V>, waits: seq<seq<int>>, k: nat)
    requires |ids| == |vals| == |waits|
    requires k < |Iterations(start, ids, vals, waits)| && Iterations(start, ids, vals, waits)[k].WriteProgress?
    ensures var j := Iterations(start, ids, vals, waits)[k].lastProcessedIndex;
      && start <= j < start + |vals|
      && Lookup(Assigned(ids[..j + 1 - start], vals[..j + 1 - start]), ids[j - start]) == Some(vals[j - start])
  {
    DataWrittenBeforeCheckpoint(start, ids, vals, waits, k);
    var j := Iterations(start, ids, vals, waits)[k].lastProcessedIndex;
    AssignedLast(ids[..j + 1 - start], vals[..j + 1 - start]);
  }

  /** The same for a loop over the indices `start .. stop - 1` whose identifiers,
      values and waits are drawn per index: checkpoint `j` is written right after
      the document of the iterations `start .. j`, which holds `f(j)` under `id(j)`. */
  lemma SegmentCheckpoint<V>(id: nat -> string, f: nat --> V, w: nat -> seq<int>, start: nat, stop: nat, k: nat)
    requires start <= stop && DefinedOn(f, start, stop)
    requires var t := Iterations(start, Segment(id, start, stop), Segment(f, start, stop), Segment(w, start, stop));
      k < |t| && t[k].WriteProgress?
    ensures var t := Iterations(start, Segment(id, start, stop), Segment(f, start, stop), Segment(w, start, stop));
      var j := t[k].lastProcessedIndex;
      && start <= j < stop && 0 < k && DefinedOn(f, start, j + 1)
      && t[k - 1] == WriteData(InLoopDataFile, Assigned(Segment(id, start, j + 1), Segment(f, start, j + 1)))
      && Lookup(Assigned(Segment(id, start, j + 1), Segment(f, start, j + 1)), id(j)) == Some(f(j))
  {
    var ids, vals, waits := Segment(id, start, stop), Segment(f, start, stop), Segment(w, start, stop);
    DataWrittenBeforeCheckpoint(start, ids, vals, waits, k);
    CheckpointedValueWritten(start, ids, vals, waits, k);
    var j := Iterations(start, ids, vals, waits)[k].lastProcessedIndex;
    SegmentPrefix(id, start, j + 1, stop);
    SegmentPrefix(f, start, j + 1, stop);
    SegmentAt(id, start, stop, j);
    SegmentAt(f, start, stop, j);
  }

  /** Every data write in `t` goes to `file`. */
  predicate WritesOnlyTo<Doc>(t: seq<Event<Doc>>, file: string) {
    forall k :: 0 <= k < |t| && t[k].WriteData? ==> t[k].file == file
  }

  /** Inside the loop, every write of the data file goes to the in-loop file name. */
  lemma {:induction false} IterationsWriteInLoop<V>(start: nat, ids: seq<string>, vals: seq<V>, waits: seq<seq<int>>)
    requires |ids| == |vals| == |waits|
    ensures WritesOnlyTo(Iterations(start, ids, vals, waits), InLoopDataFile)
    decreases |vals|
  {
    if vals != [] {
      var n := |vals| - 1;
      var prev := Iterations(start, ids[..n], vals[..n], waits[..n]);
      var backoff := BackoffEvents<Entries<V>>(waits[n]);
      var rest := [WriteData(InLoopDataFile, Assigned(ids, vals)), WriteProgress(start + n), Pause(CoinPause)];
      var t := Iterations(start, ids, vals, waits);
      assert t == prev + backoff + rest;
      IterationsWriteInLoop(start, ids[..n], vals[..n], waits[..n]);
      BackoffEventsAre<Entries<V>>(waits[n]);
      forall k | 0 <= k < |t| ensures t[k].WriteData? ==> t[k].file == InLoopDataFile {
        if k < |prev| {
          assert t[k] == prev[k];
        } else if k < |prev| + |backoff| {
          assert t[k] == backoff[k - |prev|];
        } else {
          assert t[k] == rest[k - |prev| - |backoff|];
        }
      }
    }
  }

  /** A trace without checkpoint writes has no checkpoints. */
  lemma {:induction false} NoCheckpoints<Doc>(t: seq<Event<Doc>>)
    requires forall k :: 0 <= k < |t| ==> !t[k].WriteProgress?
    ensures Checkpoints(t) == []
  {
    if t != [] {
      assert forall k :: 0 <= k < |t[1..]| ==> t[1..][k] == t[k + 1];
      NoCheckpoints(t[1..]);
    }
  }

  /** The last assignment is always visible: the object maps the last identifier to
      the last value, whatever the earlier identifiers were. */
  lemma AssignedLast<V>(ids: seq<string>, vals: seq<V>)
    requires |ids| == |vals| > 0
    ensures Lookup(Assigned(ids, vals), ids[|ids| - 1]) == Some(vals[|vals| - 1])
  {
    var n := |vals| - 1;
    PutLookup(Assigned(ids[..n], vals[..n]), ids[n], vals[n], ids[n]);
  }

  /** With distinct identifiers nothing is overwritten: the keys are the identifiers
      in assignment order, one entry per assignment. */
  lemma {:induction false} AssignedKeys<V>(ids: seq<string>, vals: seq<V>)
    requires |ids| == |vals| && Distinct(ids)
    ensures Keys(Assigned(ids, vals)) == ids
    ensures |Assigned(ids, vals)| == |ids|
    decreases |vals|
  {
    if vals != [] {
      var n := |vals| - 1;
      var prev := Assigned(ids[..n], vals[..n]);
      assert Distinct(ids[..n]);
      AssignedKeys(ids[..n], vals[..n]);
      assert ids[n] !in Keys(prev) by {
        forall k | 0 <= k < n ensures Keys(prev)[k] != ids[n] {
          assert Keys(prev)[k] == ids[k];
        }
      }
      PutMeaning(prev, ids[n], vals[n]);
      assert Assigned(ids, vals) == prev + [(ids[n], vals[n])];
      KeysSnoc(prev, ids[n], vals[n]);
      assert ids[..n] + [ids[n]] == ids;
    }
  }

  /** With distinct identifiers each identifier maps to its own value. */
  lemma {:induction false} AssignedLookup<V>(ids: seq<string>, vals: seq<V>, m: nat)
    requires |ids| == |vals| && Distinct(ids) && m < |ids|
    ensures Lookup(Assigned(ids, vals), ids[m]) == Some(vals[m])
    decreases |vals|
  {
    var n := |vals| - 1;
    if m == n {
      AssignedLast(ids, vals);
    } else {
      assert Distinct(ids[..n]);
      AssignedLookup(ids[..n], vals[..n], m);
      assert ids[..n][m] == ids[m] && vals[..n][m] == vals[m];
      assert ids[m] != ids[n];
      PutLookup(Assigned(ids[..n], vals[..n]), ids[n], vals[n], ids[m]);
    }
  }
}
