/**
 * The schedule of `getAudioBatch` (src/services/nano-ai-tts.js): the chunks
 * are taken `concurrency` at a time; every call of a batch is made before
 * the batch's outcome is looked at, as `Promise.all` waits for all of them,
 * and the first failure of a batch ends the whole run. The calls of one
 * batch are modelled one after the other. A call is any function of the
 * client state, the chunk and the call's inputs, so this module is generic
 * in both.
 */
module AudioBatch {
  import opened Wrappers

  /** The client state after one call and that call's buffer or error message. */
  datatype Outcome<S> = Outcome(state: S, result: Result<seq<bv8>, string>)

  /** One call: `getAudio(chunk, voice)` as a function of the state, the chunk and the call's inputs. */
  type CallFn<!S, -I> = (S, string, I) -> Outcome<S>

  /** The state and the results of a run of calls, in order. */
  datatype Calls<S> = Calls(state: S, results: seq<Result<seq<bv8>, string>>)

  /** The calls on chunks `lo` to `hi - 1`, one after the other, each seeing the state the previous one left. */
  function RunCalls<S, I>(step: CallFn<S, I>, st: S, texts: seq<string>, calls: seq<I>, lo: nat, hi: nat): (b: Calls<S>)
    requires lo <= hi <= |texts| && |calls| == |texts|
    ensures |b.results| == hi - lo
    decreases hi
  {
    if hi == lo then Calls(st, [])
    else
      var p := RunCalls(step, st, texts, calls, lo, hi - 1);
      var c := step(p.state, texts[hi - 1], calls[hi - 1]);
      Calls(c.state, p.results + [c.result])
  }

  /** Running the calls up to `m` and then those from `m` on is running them all. */
  lemma {:induction false} RunCallsSplit<S, I>(step: CallFn<S, I>, st: S, texts: seq<string>, calls: seq<I>,
                                               lo: nat, m: nat, hi: nat)
    requires lo <= m <= hi <= |texts| && |calls| == |texts|
    ensures var p := RunCalls(step, st, texts, calls, lo, m);
      var q := RunCalls(step, p.state, texts, calls, m, hi);
      RunCalls(step, st, texts, calls, lo, hi) == Calls(q.state, p.results + q.results)
    decreases hi
  {
    if hi > m {
      RunCallsSplit(step, st, texts, calls, lo, m, hi - 1);
      var p := RunCalls(step, st, texts, calls, lo, m);
      var q := RunCalls(step, p.state, texts, calls, m, hi - 1);
      var c := step(q.state, texts[hi - 1], calls[hi - 1]);
      assert p.results + q.results + [c.result] == p.results + (q.results + [c.result]);
    }
  }

  /** The calls on a slice of the chunks are the calls on that range of positions. */
  lemma {:induction false} RunCallsSlice<S, I>(step: CallFn<S, I>, st: S, texts: seq<string>, calls: seq<I>,
                                               lo: nat, hi: nat)
    requires lo <= hi <= |texts| && |calls| == |texts|
    ensures RunCalls(step, st, texts[lo..hi], calls[lo..hi], 0, hi - lo) == RunCalls(step, st, texts, calls, lo, hi)
    decreases hi
  {
    if hi > lo {
      RunCallsSlice(step, st, texts, calls, lo, hi - 1);
      SlicePrefix(texts, lo, hi, hi - 1 - lo);
      SlicePrefix(texts, lo, hi - 1, hi - 1 - lo);
      SlicePrefix(calls, lo, hi, hi - 1 - lo);
      SlicePrefix(calls, lo, hi - 1, hi - 1 - lo);
      RunCallsPrefix(step, st, texts[lo..hi], calls[lo..hi], texts[lo..hi - 1], calls[lo..hi - 1], hi - 1 - lo);
    }
  }

  /** The first `n` positions of a slice are the slice that far. */
  lemma SlicePrefix<T>(s: seq<T>, lo: nat, hi: nat, n: nat)
    requires lo <= hi <= |s| && n <= hi - lo
    ensures s[lo..hi][..n] == s[lo..lo + n]
  {
  }

  /** Positions below `hi` are all a run of calls looks at. */
  lemma {:induction false} RunCallsPrefix<S, I>(step: CallFn<S, I>, st: S, texts: seq<string>, calls: seq<I>,
                                                texts': seq<string>, calls': seq<I>, hi: nat)
    requires hi <= |texts| && |calls| == |texts| && hi <= |texts'| && |calls'| == |texts'|
    requires texts[..hi] == texts'[..hi] && calls[..hi] == calls'[..hi]
    ensures RunCalls(step, st, texts, calls, 0, hi) == RunCalls(step, st, texts', calls', 0, hi)
    decreases hi
  {
    if hi > 0 {
      assert texts[..hi - 1] == texts'[..hi - 1] && calls[..hi - 1] == calls'[..hi - 1];
      assert texts[hi - 1] == texts[..hi][hi - 1] && texts'[hi - 1] == texts'[..hi][hi - 1];
      assert calls[hi - 1] == calls[..hi][hi - 1] && calls'[hi - 1] == calls'[..hi][hi - 1];
      RunCallsPrefix(step, st, texts, calls, texts', calls', hi - 1);
    }
  }

  /** The index of the first failed result, or the number of results when none failed. */
  function FirstFailure(rs: seq<Result<seq<bv8>, string>>): (k: nat)
    ensures k <= |rs|
    ensures forall j :: 0 <= j < k ==> rs[j].Ok?
    ensures k < |rs| ==> rs[k].Err?
    decreases |rs|
  {
    if rs == [] || rs[0].Err? then 0 else 1 + FirstFailure(rs[1..])
  }

  /** The message `Promise.all` rejects with: that of the first failed result. */
  function FirstError(rs: seq<Result<seq<bv8>, string>>): (e: Option<string>)
    ensures e.None? <==> forall i :: 0 <= i < |rs| ==> rs[i].Ok?
  {
    var k := FirstFailure(rs);
    if k < |rs| then Some(rs[k].error) else None
  }

  function Values(rs: seq<Result<seq<bv8>, string>>): (vs: seq<seq<bv8>>)
    requires forall i :: 0 <= i < |rs| ==> rs[i].Ok?
    ensures |vs| == |rs| && forall i :: 0 <= i < |rs| ==> vs[i] == rs[i].value
  {
    seq(|rs|, i requires 0 <= i < |rs| => rs[i].value)
  }

  /** The state, the buffers or the error, and the number of calls made. */
  datatype Batch<S> = Batch(state: S, result: Result<seq<seq<bv8>>, string>, made: nat)

  function Min(a: int, b: int): int {
    if a < b then a else b
  }

  /** The batches from chunk `i` on, `acc` holding the buffers of the batches before. */
  function RunFrom<S, I>(step: CallFn<S, I>, st: S, chunks: seq<string>, calls: seq<I>,
                         concurrency: nat, i: nat, acc: seq<seq<bv8>>): Batch<S>
    requires concurrency >= 1 && |calls| == |chunks| && i <= |chunks|
    decreases |chunks| - i
  {
    if i == |chunks| then Batch(st, Ok(acc), |chunks|)
    else
      var j := Min(i + concurrency, |chunks|);
      var b := RunCalls(step, st, chunks, calls, i, j);
      match FirstError(b.results)
      case Some(e) => Batch(b.state, Err("Batch processing failed: " + e), j)
      case None => RunFrom(step, b.state, chunks, calls, concurrency, j, acc + Values(b.results))
  }

  /** The first chunk of the batch of `c` chunks that chunk `k` falls in: the largest multiple of `c` up to `k`. */
  function BatchStart(k: nat, c: nat): (s: nat)
    requires c >= 1
    ensures s <= k < s + c
    decreases k
  {
    if k < c then 0 else BatchStart(k - c, c) + c
  }

  /** Every chunk of the batch that starts at `i` has `i` as its batch start. */
  lemma {:induction false} BatchStartWithin(i: nat, k: nat, c: nat)
    requires c >= 1 && BatchStart(i, c) == i && i <= k < i + c
    ensures BatchStart(k, c) == i
    decreases i
  {
    if i > 0 {
      BatchStartWithin(i - c, k - c, c);
    }
  }

  lemma MulAtLeast(a: nat, c: nat)
    requires a >= 1
    ensures a * c >= c
  {
  }

  /** `q * c - d * c` is at least `c` when `d < q`. */
  lemma MulGap(q: nat, d: nat, c: nat)
    requires d < q
    ensures q * c - d * c >= c
  {
    MulAtLeast(q - d, c);
    assert (q - d) * c == q * c - d * c;
  }

  /** `k / c` is the `q` with `q * c <= k < (q + 1) * c`. */
  lemma DivUnique(k: nat, c: nat, q: nat)
    requires c >= 1 && q * c <= k < q * c + c
    ensures k / c == q
  {
    var d := k / c;
    assert k == d * c + k % c;
    if d < q {
      MulGap(q, d, c);
      assert false;
    } else if d > q {
      MulGap(d, q, c);
      assert false;
    }
  }

  /** The batch start is the multiple of `c` that `k / c` names. */
  lemma {:induction false} BatchStartDiv(k: nat, c: nat)
    requires c >= 1
    ensures BatchStart(k, c) == (k / c) * c
    decreases k
  {
    if k >= c {
      BatchStartDiv(k - c, c);
      var q := (k - c) / c;
      assert (q + 1) * c == q * c + c;
      DivUnique(k, c, q + 1);
    } else {
      DivUnique(k, c, 0);
    }
  }

  /** The buffers of the results before `j` are those before `i` followed by those from `i` on. */
  lemma ValuesPrefix(rs: seq<Result<seq<bv8>, string>>, i: nat, j: nat)
    requires i <= j <= |rs| && forall t :: 0 <= t < j ==> rs[t].Ok?
    ensures Values(rs[..i]) + Values(rs[i..j]) == Values(rs[..j])
  {
  }

  /** With no failure before `i`, the first failure of a run is the first one in `rs[i..j]` when there is one there. */
  lemma FailureInBatch(rs: seq<Result<seq<bv8>, string>>, i: nat, j: nat)
    requires i <= j <= |rs| && FirstFailure(rs) >= i
    ensures var f := FirstFailure(rs[i..j]);
      (f < j - i ==> FirstFailure(rs) == i + f) && (f == j - i ==> FirstFailure(rs) >= j)
  {
    var f := FirstFailure(rs[i..j]);
    SliceFailure(rs, i, j);
    if f < j - i {
      FirstFailureIs(rs, i + f);
    } else {
      FirstFailureAtLeast(rs, j);
    }
  }

  /** What the first failure of a slice says about the results of the whole it is cut from. */
  lemma SliceFailure(rs: seq<Result<seq<bv8>, string>>, i: nat, j: nat)
    requires i <= j <= |rs| && FirstFailure(rs) >= i
    ensures var f := FirstFailure(rs[i..j]);
      (forall t :: 0 <= t < i + f ==> rs[t].Ok?) && (f < j - i ==> rs[i + f].Err?)
  {
    var f := FirstFailure(rs[i..j]);
    forall t | i <= t < i + f
      ensures rs[t].Ok?
    {
      assert rs[t] == rs[i..j][t - i];
    }
    if f < j - i {
      assert rs[i + f] == rs[i..j][f];
    }
  }

  /** Results that all succeed up to `j` put the first failure at `j` or later. */
  lemma FirstFailureAtLeast(rs: seq<Result<seq<bv8>, string>>, j: nat)
    requires j <= |rs| && forall t :: 0 <= t < j ==> rs[t].Ok?
    ensures FirstFailure(rs) >= j
  {
  }

  /** The first failure is the failed result all of whose predecessors succeeded. */
  lemma FirstFailureIs(rs: seq<Result<seq<bv8>, string>>, k: nat)
    requires k < |rs| && rs[k].Err? && forall t :: 0 <= t < k ==> rs[t].Ok?
    ensures FirstFailure(rs) == k
  {
  }

  /** The calls of chunks `i` to `j`, run after those before `i`, are that part of the whole run. */
  lemma BatchSlice<S, I>(step: CallFn<S, I>, st: S, chunks: seq<string>, calls: seq<I>, i: nat, j: nat)
    requires i <= j <= |chunks| && |calls| == |chunks|
    ensures var p := RunCalls(step, st, chunks, calls, 0, i);
      var b := RunCalls(step, p.state, chunks, calls, i, j);
      var pj := RunCalls(step, st, chunks, calls, 0, j);
      var all := RunCalls(step, st, chunks, calls, 0, |chunks|);
      b.state == pj.state && b.results == all.results[i..j] && pj.results == all.results[..j]
  {
    RunCallsSplit(step, st, chunks, calls, 0, i, j);
    RunCallsSplit(step, st, chunks, calls, 0, j, |chunks|);
  }

  /** A batch whose calls fail with `e` first ends the run with `e`. */
  lemma RunFromFailing<S, I>(step: CallFn<S, I>, st: S, chunks: seq<string>, calls: seq<I>,
                             c: nat, i: nat, acc: seq<seq<bv8>>, e: string)
    requires c >= 1 && |calls| == |chunks| && i < |chunks|
    requires FirstError(RunCalls(step, st, chunks, calls, i, Min(i + c, |chunks|)).results) == Some(e)
    ensures RunFrom(step, st, chunks, calls, c, i, acc)
         == Batch(RunCalls(step, st, chunks, calls, i, Min(i + c, |chunks|)).state,
                  Err("Batch processing failed: " + e), Min(i + c, |chunks|))
  {
  }

  /** A batch with a failure ends the run with that failure's message, after the calls of the batch. */
  lemma BatchFails<S, I>(step: CallFn<S, I>, st: S, chunks: seq<string>, calls: seq<I>,
                         c: nat, i: nat, acc: seq<seq<bv8>>)
    requires c >= 1 && |calls| == |chunks| && i < |chunks|
    requires i <= FirstFailure(RunCalls(step, st, chunks, calls, 0, |chunks|).results) < Min(i + c, |chunks|)
    ensures var all := RunCalls(step, st, chunks, calls, 0, |chunks|);
      var k := FirstFailure(all.results);
      var j := Min(i + c, |chunks|);
      RunFrom(step, RunCalls(step, st, chunks, calls, 0, i).state, chunks, calls, c, i, acc)
      == Batch(RunCalls(step, st, chunks, calls, 0, j).state, Err("Batch processing failed: " + all.results[k].error), j)
  {
    var all := RunCalls(step, st, chunks, calls, 0, |chunks|);
    var k := FirstFailure(all.results);
    var j := Min(i + c, |chunks|);
    var p := RunCalls(step, st, chunks, calls, 0, i);
    var b := RunCalls(step, p.state, chunks, calls, i, j);
    BatchSlice(step, st, chunks, calls, i, j);
    FailureInBatch(all.results, i, j);
    assert b.results[k - i] == all.results[k];
    assert FirstError(b.results) == Some(all.results[k].error);
    RunFromFailing(step, p.state, chunks, calls, c, i, acc, all.results[k].error);
  }

  /** A batch that succeeds passes on the state it leaves. */
  lemma RunFromPassing<S, I>(step: CallFn<S, I>, st: S, chunks: seq<string>, calls: seq<I>,
                             c: nat, i: nat, acc: seq<seq<bv8>>)
    requires c >= 1 && |calls| == |chunks| && i < |chunks|
    requires FirstError(RunCalls(step, st, chunks, calls, i, Min(i + c, |chunks|)).results) == None
    ensures var b := RunCalls(step, st, chunks, calls, i, Min(i + c, |chunks|));
      RunFrom(step, st, chunks, calls, c, i, acc)
      == RunFrom(step, b.state, chunks, calls, c, Min(i + c, |chunks|), acc + Values(b.results))
  {
  }

  /** A batch without a failure passes its buffers on to the run from the next batch. */
  lemma BatchPasses<S, I>(step: CallFn<S, I>, st: S, chunks: seq<string>, calls: seq<I>,
                          c: nat, i: nat, acc: seq<seq<bv8>>)
    requires c >= 1 && |calls| == |chunks| && i < |chunks| && BatchStart(i, c) == i
    requires FirstFailure(RunCalls(step, st, chunks, calls, 0, |chunks|).results) >= Min(i + c, |chunks|)
    requires acc == Values(RunCalls(step, st, chunks, calls, 0, |chunks|).results[..i])
    ensures var all := RunCalls(step, st, chunks, calls, 0, |chunks|);
      var j := Min(i + c, |chunks|);
      (BatchStart(j, c) == j || j == |chunks|)
      && RunFrom(step, RunCalls(step, st, chunks, calls, 0, i).state, chunks, calls, c, i, acc)
         == RunFrom(step, RunCalls(step, st, chunks, calls, 0, j).state, chunks, calls, c, j, Values(all.results[..j]))
  {
    var all := RunCalls(step, st, chunks, calls, 0, |chunks|);
    var j := Min(i + c, |chunks|);
    var p := RunCalls(step, st, chunks, calls, 0, i);
    var b := RunCalls(step, p.state, chunks, calls, i, j);
    BatchSlice(step, st, chunks, calls, i, j);
    FailureInBatch(all.results, i, j);
    ValuesPrefix(all.results, i, j);
    assert FirstError(b.results) == None;
    RunFromPassing(step, p.state, chunks, calls, c, i, acc);
    if j < |chunks| {
      assert BatchStart(i + c, c) == BatchStart(i, c) + c;
    }
  }

  /**
   * Once the calls before chunk `i` (the start of a batch, or the end) have
   * all succeeded, the batches from `i` on end as the calls made one after
   * the other: with every buffer in chunk order when no call fails, and
   * otherwise with the message of the first failure once the rest of its
   * batch has been called.
   */
  lemma {:induction false} RunFromFrom<S, I>(step: CallFn<S, I>, st: S, chunks: seq<string>, calls: seq<I>,
                                             c: nat, i: nat, acc: seq<seq<bv8>>)
    requires c >= 1 && |calls| == |chunks| && i <= |chunks| && (BatchStart(i, c) == i || i == |chunks|)
    requires FirstFailure(RunCalls(step, st, chunks, calls, 0, |chunks|).results) >= i
    requires acc == Values(RunCalls(step, st, chunks, calls, 0, |chunks|).results[..i])
    ensures var all := RunCalls(step, st, chunks, calls, 0, |chunks|);
      var k := FirstFailure(all.results);
      var made := Min(BatchStart(k, c) + c, |chunks|);
      RunFrom(step, RunCalls(step, st, chunks, calls, 0, i).state, chunks, calls, c, i, acc) ==
        if k == |chunks| then Batch(all.state, Ok(Values(all.results)), |chunks|)
        else Batch(RunCalls(step, st, chunks, calls, 0, made).state,
                   Err("Batch processing failed: " + all.results[k].error), made)
    decreases |chunks| - i
  {
    var all := RunCalls(step, st, chunks, calls, 0, |chunks|);
    if i == |chunks| {
      assert all.results[..i] == all.results;
    } else if FirstFailure(all.results) < Min(i + c, |chunks|) {
      BatchFails(step, st, chunks, calls, c, i, acc);
      BatchStartWithin(i, FirstFailure(all.results), c);
    } else {
      BatchPasses(step, st, chunks, calls, c, i, acc);
      RunFromFrom(step, st, chunks, calls, c, Min(i + c, |chunks|), Values(all.results[..Min(i + c, |chunks|)]));
    }
  }

  /**
   * `getAudioBatch` succeeds exactly when every call succeeds, with the
   * buffers of all chunks in chunk order; otherwise it reports the first
   * failing chunk's error, after the calls of that chunk's batch and no more.
   */
  lemma BatchOutcome<S, I>(step: CallFn<S, I>, st: S, chunks: seq<string>, calls: seq<I>, c: nat)
    requires c >= 1 && |calls| == |chunks|
    ensures var all := RunCalls(step, st, chunks, calls, 0, |chunks|);
      var k := FirstFailure(all.results);
      var b := RunFrom(step, st, chunks, calls, c, 0, []);
      (b.result.Ok? <==> k == |chunks|)
      && (b.result.Ok? ==> b.state == all.state && b.made == |chunks| && b.result.value == Values(all.results))
      && (b.result.Err? ==>
            k < b.made == Min(BatchStart(k, c) + c, |chunks|)
            && b.result.error == "Batch processing failed: " + all.results[k].error
            && b.state == RunCalls(step, st, chunks, calls, 0, b.made).state)
  {
    var all := RunCalls(step, st, chunks, calls, 0, |chunks|);
    assert all.results[..0] == [];
    assert BatchStart(0, c) == 0;
    RunFromFrom(step, st, chunks, calls, c, 0, []);
  }

  /** When no call moves the state away from `st`, a run of calls leaves it as it is. */
  lemma {:induction false} RunCallsFixed<S, I>(step: CallFn<S, I>, st: S, texts: seq<string>, calls: seq<I>, lo: nat, hi: nat)
    requires lo <= hi <= |texts| && |calls| == |texts|
    requires forall k :: lo <= k < hi ==> step(st, texts[k], calls[k]).state == st
    ensures RunCalls(step, st, texts, calls, lo, hi).state == st
    decreases hi
  {
    if hi > lo {
      RunCallsFixed(step, st, texts, calls, lo, hi - 1);
      assert step(st, texts[hi - 1], calls[hi - 1]).state == st;
    }
  }

  /** When no call moves the state away from `st`, the batches leave it as it is, whatever their outcome. */
  lemma BatchFixed<S, I>(step: CallFn<S, I>, st: S, chunks: seq<string>, calls: seq<I>, c: nat)
    requires c >= 1 && |calls| == |chunks|
    requires forall k :: 0 <= k < |chunks| ==> step(st, chunks[k], calls[k]).state == st
    ensures RunFrom(step, st, chunks, calls, c, 0, []).state == st
  {
    BatchOutcome(step, st, chunks, calls, c);
    var b := RunFrom(step, st, chunks, calls, c, 0, []);
    RunCallsFixed(step, st, chunks, calls, 0, |chunks|);
    RunCallsFixed(step, st, chunks, calls, 0, b.made);
  }
}
