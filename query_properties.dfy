/**
 * What the query runners promise: how the retry loop calls, sleeps and gives
 * up; that a batch whose every id is in the previous output is answered from
 * it without an API call, and that any other batch is sent in full; that
 * every call carries the default temperature; what a normal return holds;
 * and that re-running on the file a run wrote calls nothing and returns the
 * same results.
 */
module QueryProperties {
  import opened Wrappers
  import opened QueryTypes
  import opened QueryRunner
  import opened Arithmetic

  // ----- Retry -----

  /** The calls numbered from `from` to `from + k - 1` of `call` all raise. */
  predicate FailAll(cfg: Config, call: Call, from: nat, k: int)
  {
    forall n: nat :: from <= n < from + k ==> cfg.dispatch(n, call) == Raised
  }

  /** The events of k failed calls, counting retries from c: each call is followed by a sleep of 30 * count. */
  function FailureEvents(call: Call, c: nat, k: nat): (events: seq<Event>)
    ensures |events| == 2 * k
    decreases k
  {
    if k == 0 then [] else [Dispatched(call), Slept(30 * (c + 1))] + FailureEvents(call, c + 1, k - 1)
  }

  /** The j-th failure is a call followed by a sleep of `30 * (c + j + 1)` seconds. */
  lemma {:induction false} FailureEventsAt(call: Call, c: nat, k: nat, j: nat)
    requires j < k
    decreases j
    ensures FailureEvents(call, c, k)[2 * j] == Dispatched(call)
    ensures FailureEvents(call, c, k)[2 * j + 1] == Slept(30 * (c + j + 1))
  {
    if j > 0 {
      FailureEventsAt(call, c + 1, k - 1, j - 1);
    }
  }

  /**
   * k failures then a success, within the limit: k + 1 calls, k sleeps of
   * growing length, `outputs` set and `retry_count` back to 0.
   */
  lemma {:induction false} RetrySucceeds(cfg: Config, call: Call, s: Loop, k: nat, rs: seq<Response>)
    requires s.retryCount + k < cfg.retryLimit
    requires FailAll(cfg, call, s.attempts, k)
    requires cfg.dispatch(s.attempts + k, call) == Returned(rs)
    ensures Retry(cfg, call, s) == s.(trace := s.trace + FailureEvents(call, s.retryCount, k) + [Dispatched(call)],
                                      attempts := s.attempts + k + 1, retryCount := 0, outputs := Some(rs))
    decreases k
  {
    if k > 0 {
      assert cfg.dispatch(s.attempts, call) == Raised;
      var s' := s.(trace := s.trace + [Dispatched(call), Slept(30 * (s.retryCount + 1))],
                   attempts := s.attempts + 1, retryCount := s.retryCount + 1);
      RetrySucceeds(cfg, call, s', k - 1, rs);
      assert s.trace + [Dispatched(call), Slept(30 * (s.retryCount + 1))] + FailureEvents(call, s.retryCount + 1, k - 1)
          == s.trace + FailureEvents(call, s.retryCount, k);
    }
  }

  /** Every call failing: the loop runs until `retry_count == retry_limit`, sleeping after each failure. */
  lemma {:induction false} RetryGivesUp(cfg: Config, call: Call, s: Loop)
    requires s.retryCount <= cfg.retryLimit
    requires FailAll(cfg, call, s.attempts, cfg.retryLimit - s.retryCount)
    ensures var k := cfg.retryLimit - s.retryCount;
      Retry(cfg, call, s) == s.(trace := s.trace + FailureEvents(call, s.retryCount, k),
                                attempts := s.attempts + k, retryCount := cfg.retryLimit)
    decreases cfg.retryLimit - s.retryCount
  {
    var k := cfg.retryLimit - s.retryCount;
    if k > 0 {
      assert cfg.dispatch(s.attempts, call) == Raised;
      var s' := s.(trace := s.trace + [Dispatched(call), Slept(30 * (s.retryCount + 1))],
                   attempts := s.attempts + 1, retryCount := s.retryCount + 1);
      RetryGivesUp(cfg, call, s');
      assert s.trace + [Dispatched(call), Slept(30 * (s.retryCount + 1))] + FailureEvents(call, s.retryCount + 1, k - 1)
          == s.trace + FailureEvents(call, s.retryCount, k);
    }
  }

  /** The retry loop only calls and sleeps: it extends the trace with calls of `call` and sleeps. */
  lemma {:induction false} RetryEvents(cfg: Config, call: Call, s: Loop)
    ensures var r := Retry(cfg, call, s);
      && |s.trace| <= |r.trace| && r.trace[..|s.trace|] == s.trace
      && forall k :: |s.trace| <= k < |r.trace| ==> r.trace[k] == Dispatched(call) || r.trace[k].Slept?
    decreases cfg.retryLimit - s.retryCount
  {
    if s.retryCount < cfg.retryLimit && cfg.dispatch(s.attempts, call).Raised? {
      var s' := s.(trace := s.trace + [Dispatched(call), Slept(30 * (s.retryCount + 1))],
                   attempts := s.attempts + 1, retryCount := s.retryCount + 1);
      RetryEvents(cfg, call, s');
      assert s'.trace[..|s.trace|] == s.trace;
    }
  }

  // ----- One batch -----

  /**
   * A batch whose every id is in the previous output: its records come from
   * there, with no API call, and are written, in batch order, when there is
   * an output path.
   */
  lemma BatchFromLog(cfg: Config, existing: map<string, Record>, insts: seq<Record>, s: Loop, start: nat)
    requires cfg.batchSize > 0 && start < |insts|
    requires AllCached(BatchAt(insts, start, cfg.batchSize), existing)
    ensures var r := Batch(cfg, existing, insts, s, start);
      && r.error.None? && r.insts == insts
      && r.loop.results == s.results + CachedRecords(BatchAt(insts, start, cfg.batchSize), existing)
      && r.loop.attempts == s.attempts
      && r.loop.trace[..|s.trace|] == s.trace
      && (forall k :: |s.trace| <= k < |r.loop.trace| ==> r.loop.trace[k].Wrote?)
      && Written(r.loop.trace) == Written(s.trace)
           + (if cfg.path.NoOutputPath? then [] else CachedRecords(BatchAt(insts, start, cfg.batchSize), existing))
  {
    var recs := CachedRecords(BatchAt(insts, start, cfg.batchSize), existing);
    WritesAre(cfg.path, recs);
    AppendEvents(cfg.path, s, recs);
  }

  /**
   * A batch with an id missing from the previous output is sent whole: the
   * next event is one call with a request for every instance of the batch, in
   * order, and the options with the default temperature.
   */
  lemma BatchSentWhole(cfg: Config, existing: map<string, Record>, insts: seq<Record>, s: Loop, start: nat)
    requires cfg.batchSize > 0 && start < |insts|
    requires !AllCached(BatchAt(insts, start, cfg.batchSize), existing)
    requires s.retryCount < cfg.retryLimit
    ensures var batch := BatchAt(insts, start, cfg.batchSize);
      var r := Batch(cfg, existing, insts, s, start);
      && |s.trace| < |r.loop.trace|
      && r.loop.trace[|s.trace|] == Dispatched(Call(cfg.engine, Requests(cfg.api, batch), WithDefaultTemperature(cfg.options)))
      && |r.loop.trace[|s.trace|].call.requests| == |batch|
  {
    var batch := BatchAt(insts, start, cfg.batchSize);
    var call := CallFor(cfg, batch);
    var s1 := Retry(cfg, call, s);
    RetryEvents(cfg, call, s);
    var r := Batch(cfg, existing, insts, s, start);
    if cfg.dispatch(s.attempts, call).Raised? {
      var s' := s.(trace := s.trace + [Dispatched(call), Slept(30 * (s.retryCount + 1))],
                   attempts := s.attempts + 1, retryCount := s.retryCount + 1);
      RetryEvents(cfg, call, s');
      assert s1.trace[..|s'.trace|] == s'.trace;
      assert s1.trace[|s.trace|] == s'.trace[|s.trace|];
    }
    assert s1.trace[|s.trace|] == Dispatched(call);
    if !(s1.retryCount == cfg.retryLimit || s1.outputs.None? || |s1.outputs.value| != |batch|) {
      AnnotateExtends(cfg, insts, s1, start, s1.outputs.value, 0);
    }
  }

  /** With every call of the batch failing, the batch raises RuntimeError after `retry_limit` calls. */
  lemma BatchGivesUp(cfg: Config, existing: map<string, Record>, insts: seq<Record>, s: Loop, start: nat)
    requires cfg.batchSize > 0 && start < |insts| && cfg.retryLimit >= 0 && s.retryCount == 0
    requires !AllCached(BatchAt(insts, start, cfg.batchSize), existing)
    requires FailAll(cfg, CallFor(cfg, BatchAt(insts, start, cfg.batchSize)), s.attempts, cfg.retryLimit)
    ensures var r := Batch(cfg, existing, insts, s, start);
      && r.error == Some(RetriesExhausted(cfg.retryLimit))
      && r.insts == insts && r.loop.results == s.results
      && r.loop.trace == s.trace + FailureEvents(CallFor(cfg, BatchAt(insts, start, cfg.batchSize)), 0, cfg.retryLimit)
  {
    RetryGivesUp(cfg, CallFor(cfg, BatchAt(insts, start, cfg.batchSize)), s);
  }

  /**
   * With a negative retry limit the retry loop never runs and `retry_count`
   * never equals the limit, so a batch to be sent finds `outputs` unbound.
   */
  lemma BatchNegativeLimit(cfg: Config, existing: map<string, Record>, insts: seq<Record>, s: Loop, start: nat)
    requires cfg.batchSize > 0 && start < |insts| && cfg.retryLimit < 0 && s.outputs.None?
    requires !AllCached(BatchAt(insts, start, cfg.batchSize), existing)
    ensures Batch(cfg, existing, insts, s, start) == Run(insts, s, Some(OutputsUnbound))
  {
  }

  // ----- The retry counter across batches -----

  /**
   * The retry loop ends either after a successful call, with `retry_count`
   * reset and the outputs bound, or with `retry_count` at the limit; it makes
   * at most `retry_limit - retry_count` calls.
   */
  lemma {:induction false} RetryEndsAtZeroOrLimit(cfg: Config, call: Call, s: Loop)
    requires s.retryCount <= cfg.retryLimit
    ensures var r := Retry(cfg, call, s);
      && ((r.retryCount == 0 && r.outputs.Some?) || r.retryCount == cfg.retryLimit)
      && s.attempts <= r.attempts <= s.attempts + (cfg.retryLimit - s.retryCount)
    decreases cfg.retryLimit - s.retryCount
  {
    if s.retryCount < cfg.retryLimit && cfg.dispatch(s.attempts, call).Raised? {
      RetryEndsAtZeroOrLimit(cfg, call, s.(trace := s.trace + [Dispatched(call), Slept(30 * (s.retryCount + 1))],
                                           attempts := s.attempts + 1, retryCount := s.retryCount + 1));
    }
  }

  /**
   * A batch entered with `retry_count == 0` makes at most `retry_limit` calls,
   * and unless it raises RuntimeError it leaves `retry_count` at 0 for the next
   * batch.
   */
  lemma BatchKeepsZero(cfg: Config, existing: map<string, Record>, insts: seq<Record>, s: Loop, start: nat)
    requires cfg.batchSize > 0 && start < |insts| && cfg.retryLimit >= 0 && s.retryCount == 0
    ensures var r := Batch(cfg, existing, insts, s, start);
      && (r.error != Some(RetriesExhausted(cfg.retryLimit)) ==> r.loop.retryCount == 0)
      && s.attempts <= r.loop.attempts <= s.attempts + cfg.retryLimit
  {
    var batch := BatchAt(insts, start, cfg.batchSize);
    if !AllCached(batch, existing) {
      var s1 := Retry(cfg, CallFor(cfg, batch), s);
      RetryEndsAtZeroOrLimit(cfg, CallFor(cfg, batch), s);
      if s1.retryCount != cfg.retryLimit && s1.outputs.Some? && |s1.outputs.value| == |batch| {
        AnnotateExtends(cfg, insts, s1, start, s1.outputs.value, 0);
      }
    }
  }

  /** The number of iterations of `range(i, n, bs)`. */
  function BatchCount(n: nat, i: nat, bs: nat): (c: nat)
    requires bs > 0
    ensures c == 0 <==> i >= n
    decreases n - i
  {
    if i >= n then 0 else 1 + BatchCount(n, i + bs, bs)
  }

  /** `limit` calls for each iteration of `range(i, n, bs)`. */
  function CallBudget(n: nat, i: nat, bs: nat, limit: nat): nat
    requires bs > 0
    decreases n - i
  {
    if i >= n then 0 else limit + CallBudget(n, i + bs, bs, limit)
  }

  /** The budget is `limit` times the number of batches. */
  lemma {:induction false} CallBudgetIsProduct(n: nat, i: nat, bs: nat, limit: nat)
    requires bs > 0
    ensures CallBudget(n, i, bs, limit) == Mul(BatchCount(n, i, bs), limit)
    decreases n - i
  {
    if i < n {
      CallBudgetIsProduct(n, i + bs, bs, limit);
      MulAdd(1, BatchCount(n, i + bs, bs), limit);
    }
  }

  /** Every batch the loop runs from batch start i on, up to one that raises, is entered with `retry_count == 0`. */
  predicate EveryBatchFromZero(cfg: Config, existing: map<string, Record>, insts: seq<Record>, s: Loop, i: nat)
    requires cfg.batchSize > 0
    decreases |insts| - i
  {
    i < |insts| ==>
      && s.retryCount == 0
      && var r := Batch(cfg, existing, insts, s, i);
         r.error.None? ==> EveryBatchFromZero(cfg, existing, r.insts, r.loop, i + cfg.batchSize)
  }

  /** From a zero counter on, every batch of the loop is entered with `retry_count == 0`. */
  lemma {:induction false} RunFromZero(cfg: Config, existing: map<string, Record>, insts: seq<Record>, s: Loop, i: nat)
    requires cfg.batchSize > 0 && cfg.retryLimit >= 0 && s.retryCount == 0
    ensures EveryBatchFromZero(cfg, existing, insts, s, i)
    decreases |insts| - i
  {
    if i < |insts| {
      var r := Batch(cfg, existing, insts, s, i);
      BatchKeepsZero(cfg, existing, insts, s, i);
      if r.error.None? {
        RunFromZero(cfg, existing, r.insts, r.loop, i + cfg.batchSize);
      }
    }
  }

  /** From a zero counter on, a loop that ends normally leaves the counter at 0. */
  lemma {:induction false} RunFromEndsAtZero(cfg: Config, existing: map<string, Record>, insts: seq<Record>, s: Loop, i: nat)
    requires cfg.batchSize > 0 && cfg.retryLimit >= 0 && s.retryCount == 0
    requires RunFrom(cfg, existing, insts, s, i).error.None?
    ensures RunFrom(cfg, existing, insts, s, i).loop.retryCount == 0
    decreases |insts| - i
  {
    if i < |insts| {
      var r := Batch(cfg, existing, insts, s, i);
      BatchKeepsZero(cfg, existing, insts, s, i);
      RunFromStep(cfg, existing, insts, s, i, r);
      RunFromEndsAtZero(cfg, existing, r.insts, r.loop, i + cfg.batchSize);
    }
  }

  /** From a zero counter on, the loop makes at most `retry_limit` calls per batch. */
  lemma {:induction false} RunFromBudget(cfg: Config, existing: map<string, Record>, insts: seq<Record>, s: Loop, i: nat)
    requires cfg.batchSize > 0 && cfg.retryLimit >= 0 && s.retryCount == 0
    ensures var r := RunFrom(cfg, existing, insts, s, i);
      s.attempts <= r.loop.attempts <= s.attempts + CallBudget(|insts|, i, cfg.batchSize, cfg.retryLimit)
    decreases |insts| - i
  {
    if i < |insts| {
      var r := Batch(cfg, existing, insts, s, i);
      BatchKeepsZero(cfg, existing, insts, s, i);
      RunFromStep(cfg, existing, insts, s, i, r);
      var rest := CallBudget(|insts|, i + cfg.batchSize, cfg.batchSize, cfg.retryLimit);
      assert CallBudget(|insts|, i, cfg.batchSize, cfg.retryLimit) == cfg.retryLimit + rest;
      if r.error.None? {
        RunFromBudget(cfg, existing, r.insts, r.loop, i + cfg.batchSize);
        assert CallBudget(|r.insts|, i + cfg.batchSize, cfg.batchSize, cfg.retryLimit) == rest;
      }
    }
  }

  /**
   * A whole run with a non-negative retry limit: every batch is entered with
   * `retry_count == 0`, so each may make up to `retry_limit` calls; in all the
   * run makes at most `retry_limit` calls per batch, and one that returns
   * leaves the counter at 0.
   */
  lemma QueryRetryBudget(cfg: Config, insts: seq<Record>)
    requires cfg.batchSize > 0 && cfg.retryLimit >= 0
    ensures EveryBatchFromZero(cfg, Existing(cfg), insts, Start(cfg), 0)
    ensures Query(cfg, insts).error.None? ==> Query(cfg, insts).loop.retryCount == 0
    ensures Query(cfg, insts).loop.attempts <= Mul(BatchCount(|insts|, 0, cfg.batchSize), cfg.retryLimit)
  {
    RunFromZero(cfg, Existing(cfg), insts, Start(cfg), 0);
    if Query(cfg, insts).error.None? {
      RunFromEndsAtZero(cfg, Existing(cfg), insts, Start(cfg), 0);
    }
    RunFromBudget(cfg, Existing(cfg), insts, Start(cfg), 0);
    CallBudgetIsProduct(|insts|, 0, cfg.batchSize, cfg.retryLimit);
  }

  // ----- Writes -----

  lemma {:induction false} WrittenAppend(a: seq<Event>, b: seq<Event>)
    ensures Written(a + b) == Written(a) + Written(b)
    decreases |b|
  {
    if b == [] {
      assert a + b == a;
    } else {
      var n := |b| - 1;
      WrittenAppend(a, b[..n]);
      assert (a + b)[..|a + b| - 1] == a + b[..n];
      assert (a + b)[|a + b| - 1] == b[n];
    }
  }

  lemma {:induction false} WrittenWroteAll(recs: seq<Record>)
    ensures Written(WroteAll(recs)) == recs
    decreases |recs|
  {
    if recs != [] {
      var n := |recs| - 1;
      WrittenWroteAll(recs[..n]);
      assert WroteAll(recs)[..n] == WroteAll(recs[..n]);
      assert recs == recs[..n] + [recs[n]];
    }
  }

  /** A trace segment without writes adds nothing to what was written. */
  lemma {:induction false} WrittenNone(trace: seq<Event>)
    requires forall k :: 0 <= k < |trace| ==> !trace[k].Wrote?
    ensures Written(trace) == []
  {
    if trace != [] {
      WrittenNone(trace[..|trace| - 1]);
    }
  }

  /** The written lines are the records, when there is an output path; events are all writes. */
  lemma WritesAre(path: OutputPath, recs: seq<Record>)
    ensures Written(Writes(path, recs)) == if path.NoOutputPath? then [] else recs
    ensures forall k :: 0 <= k < |Writes(path, recs)| ==> Writes(path, recs)[k].Wrote?
  {
    if !path.NoOutputPath? {
      WrittenWroteAll(recs);
    }
  }

  lemma WritesAppend(path: OutputPath, a: seq<Record>, b: seq<Record>)
    ensures Writes(path, a + b) == Writes(path, a) + Writes(path, b)
  {
    if !path.NoOutputPath? {
      assert WroteAll(a + b) == WroteAll(a) + WroteAll(b);
    }
  }

  /** Appending nothing changes nothing. */
  lemma AppendNothing(path: OutputPath, s: Loop)
    ensures Append(path, s, []) == s
  {
    assert s.results + [] == s.results;
    assert s.trace + Writes(path, []) == s.trace;
  }

  /** Appending two stretches of records in turn appends both. */
  lemma AppendTwice(path: OutputPath, s: Loop, a: seq<Record>, b: seq<Record>)
    ensures Append(path, Append(path, s, a), b) == Append(path, s, a + b)
  {
    WritesAppend(path, a, b);
    assert s.results + a + b == s.results + (a + b);
    assert s.trace + Writes(path, a) + Writes(path, b) == s.trace + Writes(path, a + b);
  }

  /** Appending keeps the trace so far and adds only writes, which put the records in the file when there is a path. */
  lemma AppendEvents(path: OutputPath, s: Loop, recs: seq<Record>)
    ensures var t := Append(path, s, recs).trace;
      && t[..|s.trace|] == s.trace
      && (forall k :: |s.trace| <= k < |t| ==> t[k].Wrote?)
      && Written(t) == Written(s.trace) + (if path.NoOutputPath? then [] else recs)
  {
    WritesAre(path, recs);
    WrittenAppend(s.trace, Writes(path, recs));
    var t := Append(path, s, recs).trace;
    forall k | |s.trace| <= k < |t| ensures t[k].Wrote? {
      assert t[k] == Writes(path, recs)[k - |s.trace|];
    }
  }

  // ----- Annotation -----

  /** The instance after "output" and "response_metadata" are set from a response. */
  predicate AnnotatedFrom(api: Api, orig: Record, now: Record)
  {
    && Answered(api, now)
    && now == orig.(output := now.output, responseMetadata := now.responseMetadata)
  }

  /** The annotation loop only appends records to the results, writing each; it leaves the other locals alone. */
  lemma {:induction false} AnnotateExtends(cfg: Config, insts: seq<Record>, s: Loop, start: nat, outs: seq<Response>, m: nat)
    requires start + |outs| <= |insts|
    ensures var r := Annotate(cfg, insts, s, start, outs, m);
      |s.results| <= |r.loop.results| && r.loop == Append(cfg.path, s, r.loop.results[|s.results|..])
    decreases |outs| - m
  {
    var r := Annotate(cfg, insts, s, start, outs, m);
    if m < |outs| && Extract(cfg.api, outs[m]).Some? {
      var rec := insts[start + m].(output := Extract(cfg.api, outs[m]), responseMetadata := Some(outs[m]));
      var s' := Append(cfg.path, s, [rec]);
      AnnotateExtends(cfg, insts[start + m := rec], s', start, outs, m + 1);
      var rest := r.loop.results[|s'.results|..];
      AppendTwice(cfg.path, s, [rec], rest);
      assert r.loop.results[|s.results|..] == [rec] + rest;
    } else {
      AppendNothing(cfg.path, s);
    }
  }

  /**
   * A batch annotated without error: the instances of the batch from the m-th
   * on are annotated from their responses, in place, and the others untouched.
   */
  lemma {:induction false} AnnotateInstances(cfg: Config, insts: seq<Record>, s: Loop, start: nat, outs: seq<Response>, m: nat)
    requires start + |outs| <= |insts| && m <= |outs|
    requires Annotate(cfg, insts, s, start, outs, m).error.None?
    ensures var r := Annotate(cfg, insts, s, start, outs, m);
      && (forall k :: start + m <= k < start + |outs| ==>
            AnnotatedFrom(cfg.api, insts[k], r.insts[k]) && r.insts[k].responseMetadata == Some(outs[k - start]))
      && (forall k :: 0 <= k < |insts| && !(start + m <= k < start + |outs|) ==> r.insts[k] == insts[k])
    decreases |outs| - m
  {
    if m < |outs| {
      var rec := insts[start + m].(output := Extract(cfg.api, outs[m]), responseMetadata := Some(outs[m]));
      var s' := Append(cfg.path, s, [rec]);
      AnnotateInstances(cfg, insts[start + m := rec], s', start, outs, m + 1);
    }
  }

  /** A batch annotated without error appends the annotated instances of the batch from the m-th on, in order. */
  lemma {:induction false} AnnotateOutput(cfg: Config, insts: seq<Record>, s: Loop, start: nat, outs: seq<Response>, m: nat)
    requires start + |outs| <= |insts| && m <= |outs|
    requires Annotate(cfg, insts, s, start, outs, m).error.None?
    ensures var r := Annotate(cfg, insts, s, start, outs, m);
      r.loop.results == s.results + r.insts[start + m..start + |outs|]
    decreases |outs| - m
  {
    var r := Annotate(cfg, insts, s, start, outs, m);
    if m < |outs| {
      var rec := insts[start + m].(output := Extract(cfg.api, outs[m]), responseMetadata := Some(outs[m]));
      var insts' := insts[start + m := rec];
      var s' := Append(cfg.path, s, [rec]);
      AnnotateOutput(cfg, insts', s', start, outs, m + 1);
      AnnotateInstances(cfg, insts', s', start, outs, m + 1);
      assert r.insts[start + m..start + |outs|] == [rec] + r.insts[start + m + 1..start + |outs|];
    }
  }

  // ----- Normal return -----

  /** Result k for original instance `orig`: the previous output's record, or the instance annotated in place. */
  predicate GoodResult(cfg: Config, existing: map<string, Record>, orig: Record, now: Record, res: Record)
  {
    && res.id == orig.id
    && ((orig.id in existing && res == existing[orig.id]) || (res == now && AnnotatedFrom(cfg.api, orig, now)))
  }

  /** Every value of the previous output index carries its own key as id. */
  predicate KeyedById(existing: map<string, Record>)
  {
    forall id :: id in existing ==> existing[id].id == id
  }

  /** One good result per instance before batch start i; the instances from there on still as given. */
  predicate ResultsSoFar(cfg: Config, existing: map<string, Record>, orig: seq<Record>, insts: seq<Record>,
                         results: seq<Record>, i: nat)
  {
    && |insts| == |orig| && |results| == Min(i, |orig|)
    && (forall k :: 0 <= k < |results| ==> GoodResult(cfg, existing, orig[k], insts[k], results[k]))
    && (forall k :: |results| <= k < |orig| ==> insts[k] == orig[k])
  }

  /** The lines written so far are the results so far, when there is an output path. */
  predicate WrittenSoFar(path: OutputPath, s: Loop)
  {
    Written(s.trace) == (if path.NoOutputPath? then [] else s.results)
  }

  /** The invariant of the batch loop at batch start i, on the way to a normal return. */
  predicate Progress(cfg: Config, existing: map<string, Record>, orig: seq<Record>, insts: seq<Record>, s: Loop, i: nat)
  {
    ResultsSoFar(cfg, existing, orig, insts, s.results, i) && WrittenSoFar(cfg.path, s)
  }

  /**
   * The results after a batch [i, hi): one more good record per instance of
   * the batch, and the instances outside it untouched.
   */
  lemma ResultsStep(cfg: Config, existing: map<string, Record>, orig: seq<Record>, insts: seq<Record>,
                    results: seq<Record>, i: nat, bs: nat, insts': seq<Record>, added: seq<Record>)
    requires i < |insts| && ResultsSoFar(cfg, existing, orig, insts, results, i)
    requires |added| == Min(i + bs, |insts|) - i
    requires |insts'| == |insts|
    requires forall k :: 0 <= k < |insts| && !(i <= k < i + |added|) ==> insts'[k] == insts[k]
    requires forall k :: i <= k < i + |added| ==> GoodResult(cfg, existing, orig[k], insts'[k], added[k - i])
    ensures ResultsSoFar(cfg, existing, orig, insts', results + added, i + bs)
  {
    var all := results + added;
    forall k | 0 <= k < |all|
      ensures GoodResult(cfg, existing, orig[k], insts'[k], all[k])
    {
      if k >= i {
        assert all[k] == added[k - i];
      } else {
        assert all[k] == results[k];
      }
    }
  }

  /** Appending after steps that wrote nothing keeps the lines written equal to the results. */
  lemma WrittenStep(path: OutputPath, s: Loop, s1: Loop, added: seq<Record>)
    requires WrittenSoFar(path, s)
    requires s1.results == s.results && Written(s1.trace) == Written(s.trace)
    ensures WrittenSoFar(path, Append(path, s1, added))
  {
    AppendEvents(path, s1, added);
  }

  /** The invariant after a batch [i, hi) whose records were appended after steps that wrote nothing. */
  lemma ProgressStep(cfg: Config, existing: map<string, Record>, orig: seq<Record>, insts: seq<Record>, s: Loop,
                     s1: Loop, i: nat, insts': seq<Record>, added: seq<Record>)
    requires cfg.batchSize > 0 && i < |insts|
    requires Progress(cfg, existing, orig, insts, s, i)
    requires s1.results == s.results && Written(s1.trace) == Written(s.trace)
    requires |added| == Min(i + cfg.batchSize, |insts|) - i
    requires |insts'| == |insts|
    requires forall k :: 0 <= k < |insts| && !(i <= k < i + |added|) ==> insts'[k] == insts[k]
    requires forall k :: i <= k < i + |added| ==> GoodResult(cfg, existing, orig[k], insts'[k], added[k - i])
    ensures Progress(cfg, existing, orig, insts', Append(cfg.path, s1, added), i + cfg.batchSize)
  {
    ResultsStep(cfg, existing, orig, insts, s.results, i, cfg.batchSize, insts', added);
    WrittenStep(cfg.path, s, s1, added);
  }

  /** A batch read from the previous output keeps the invariant. */
  lemma LogProgress(cfg: Config, existing: map<string, Record>, orig: seq<Record>, insts: seq<Record>, s: Loop, i: nat)
    requires cfg.batchSize > 0 && i < |insts| && KeyedById(existing)
    requires Progress(cfg, existing, orig, insts, s, i)
    requires AllCached(BatchAt(insts, i, cfg.batchSize), existing)
    ensures var recs := CachedRecords(BatchAt(insts, i, cfg.batchSize), existing);
      Progress(cfg, existing, orig, insts, Append(cfg.path, s, recs), i + cfg.batchSize)
  {
    var batch := BatchAt(insts, i, cfg.batchSize);
    var recs := CachedRecords(batch, existing);
    forall k | i <= k < i + |recs|
      ensures GoodResult(cfg, existing, orig[k], insts[k], recs[k - i])
    {
      assert |s.results| == i;
      assert batch[k - i] == insts[k];
      assert insts[k] == orig[k];
    }
    ProgressStep(cfg, existing, orig, insts, s, s, i, insts, recs);
  }

  /** The invariant after the instances [i, i + |outs|) were annotated in place, appended and written. */
  lemma AnnotatedStep(cfg: Config, existing: map<string, Record>, orig: seq<Record>, insts: seq<Record>, s: Loop,
                      s1: Loop, i: nat, outs: seq<Response>, insts': seq<Record>)
    requires cfg.batchSize > 0 && i < |insts|
    requires Progress(cfg, existing, orig, insts, s, i)
    requires s1.results == s.results && Written(s1.trace) == Written(s.trace)
    requires |outs| == Min(i + cfg.batchSize, |insts|) - i && |insts'| == |insts|
    requires forall k :: i + 0 <= k < i + |outs| ==>
               AnnotatedFrom(cfg.api, insts[k], insts'[k]) && insts'[k].responseMetadata == Some(outs[k - i])
    requires forall k :: 0 <= k < |insts| && !(i + 0 <= k < i + |outs|) ==> insts'[k] == insts[k]
    ensures Progress(cfg, existing, orig, insts', Append(cfg.path, s1, insts'[i + 0..i + |outs|]), i + cfg.batchSize)
  {
    var done := insts'[i..i + |outs|];
    forall k | i <= k < i + |done|
      ensures GoodResult(cfg, existing, orig[k], insts'[k], done[k - i])
    {
      assert |s.results| == i;
      assert insts[k] == orig[k];
      assert done[k - i] == insts'[k];
      assert AnnotatedFrom(cfg.api, insts[k], insts'[k]);
      assert insts'[k].id == orig[k].id;
    }
    ProgressStep(cfg, existing, orig, insts, s, s1, i, insts', done);
  }

  /** Annotating a batch from its responses without error keeps the invariant. */
  lemma AnnotateProgress(cfg: Config, existing: map<string, Record>, orig: seq<Record>, insts: seq<Record>, s: Loop,
                         s1: Loop, i: nat, outs: seq<Response>)
    requires cfg.batchSize > 0 && i < |insts|
    requires Progress(cfg, existing, orig, insts, s, i)
    requires s1.results == s.results && Written(s1.trace) == Written(s.trace)
    requires |outs| == |BatchAt(insts, i, cfg.batchSize)|
    requires Annotate(cfg, insts, s1, i, outs, 0).error.None?
    ensures var r := Annotate(cfg, insts, s1, i, outs, 0);
      Progress(cfg, existing, orig, r.insts, r.loop, i + cfg.batchSize)
  {
    var r := Annotate(cfg, insts, s1, i, outs, 0);
    AnnotateInstances(cfg, insts, s1, i, outs, 0);
    AnnotateOutput(cfg, insts, s1, i, outs, 0);
    AnnotateExtends(cfg, insts, s1, i, outs, 0);
    assert r.loop.results[|s1.results|..] == r.insts[i + 0..i + |outs|];
    AnnotatedStep(cfg, existing, orig, insts, s, s1, i, outs, r.insts);
  }

  /** The retry loop writes nothing. */
  lemma RetryWritesNothing(cfg: Config, call: Call, s: Loop)
    ensures Written(Retry(cfg, call, s).trace) == Written(s.trace)
  {
    var s1 := Retry(cfg, call, s);
    RetryEvents(cfg, call, s);
    var added := s1.trace[|s.trace|..];
    assert s1.trace == s.trace + added;
    WrittenNone(added);
    WrittenAppend(s.trace, added);
  }

  /** One batch without error keeps the invariant. */
  lemma BatchProgress(cfg: Config, existing: map<string, Record>, orig: seq<Record>, insts: seq<Record>, s: Loop, i: nat)
    requires cfg.batchSize > 0 && i < |insts| && KeyedById(existing)
    requires Progress(cfg, existing, orig, insts, s, i)
    requires Batch(cfg, existing, insts, s, i).error.None?
    ensures var r := Batch(cfg, existing, insts, s, i);
      Progress(cfg, existing, orig, r.insts, r.loop, i + cfg.batchSize)
  {
    var batch := BatchAt(insts, i, cfg.batchSize);
    if AllCached(batch, existing) {
      LogProgress(cfg, existing, orig, insts, s, i);
    } else {
      var call := CallFor(cfg, batch);
      var s1 := Retry(cfg, call, s);
      RetryWritesNothing(cfg, call, s);
      AnnotateProgress(cfg, existing, orig, insts, s, s1, i, s1.outputs.value);
    }
  }

  /** The batch loop from a state satisfying the invariant. */
  lemma {:induction false} RunProgress(cfg: Config, existing: map<string, Record>, orig: seq<Record>, insts: seq<Record>,
                                       s: Loop, i: nat)
    requires cfg.batchSize > 0 && KeyedById(existing)
    requires Progress(cfg, existing, orig, insts, s, i)
    requires RunFrom(cfg, existing, insts, s, i).error.None?
    ensures var r := RunFrom(cfg, existing, insts, s, i);
      Progress(cfg, existing, orig, r.insts, r.loop, |orig|)
    decreases |insts| - i
  {
    if i < |insts| {
      var r := Batch(cfg, existing, insts, s, i);
      assert RunFrom(cfg, existing, insts, s, i) == RunFrom(cfg, existing, r.insts, r.loop, i + cfg.batchSize);
      BatchProgress(cfg, existing, orig, insts, s, i);
      RunProgress(cfg, existing, orig, r.insts, r.loop, i + cfg.batchSize);
    }
  }

  lemma ExistingKeyed(cfg: Config)
    ensures KeyedById(Existing(cfg))
  {
    if cfg.reuse && cfg.path.ExistingFile? {
      forall id | id in Existing(cfg) ensures Existing(cfg)[id].id == id {
        LogIndexKeys(cfg.path.lines, id);
      }
    }
  }

  /**
   * Normal return with a positive batch size: one result per instance, in
   * input order; each is the previous output's record for that id or the
   * instance annotated in place from its response; the lines written are the
   * results, when there is an output path.
   */
  lemma QueryResults(cfg: Config, insts: seq<Record>)
    requires cfg.batchSize > 0 && Query(cfg, insts).error.None?
    ensures var r := Query(cfg, insts);
      && |r.loop.results| == |insts| == |r.insts|
      && (forall k :: 0 <= k < |insts| ==> r.loop.results[k].id == insts[k].id)
      && (forall k :: 0 <= k < |insts| ==> GoodResult(cfg, Existing(cfg), insts[k], r.insts[k], r.loop.results[k]))
      && Written(r.loop.trace) == (if cfg.path.NoOutputPath? then [] else r.loop.results)
  {
    ExistingKeyed(cfg);
    var s0 := Start(cfg);
    if !cfg.path.NoOutputPath? {
      assert Written([Truncated]) == Written([]);
    }
    assert Progress(cfg, Existing(cfg), insts, insts, s0, 0);
    RunProgress(cfg, Existing(cfg), insts, insts, s0, 0);
  }

  // ----- Default temperature -----

  /** Every call in the trace carries the given options. */
  predicate CallsUse(trace: seq<Event>, options: map<string, Value>)
  {
    forall k :: 0 <= k < |trace| && trace[k].Dispatched? ==> trace[k].call.options == options
  }

  /** A trace whose prefix uses the options, extended by events that use them too. */
  lemma CallsUseExtended(t: seq<Event>, n: nat, options: map<string, Value>)
    requires n <= |t| && CallsUse(t[..n], options)
    requires forall k :: n <= k < |t| && t[k].Dispatched? ==> t[k].call.options == options
    ensures CallsUse(t, options)
  {
    forall k | 0 <= k < n && t[k].Dispatched? ensures t[k].call.options == options {
      assert t[..n][k] == t[k];
    }
  }

  /** Appending records adds no call. */
  lemma AppendCallsUse(path: OutputPath, s: Loop, recs: seq<Record>, options: map<string, Value>)
    requires CallsUse(s.trace, options)
    ensures CallsUse(Append(path, s, recs).trace, options)
  {
    AppendEvents(path, s, recs);
    CallsUseExtended(Append(path, s, recs).trace, |s.trace|, options);
  }

  /** One batch calls the API only with the options with the default temperature. */
  lemma BatchCallsUse(cfg: Config, existing: map<string, Record>, insts: seq<Record>, s: Loop, i: nat)
    requires cfg.batchSize > 0 && i < |insts|
    requires CallsUse(s.trace, WithDefaultTemperature(cfg.options))
    ensures CallsUse(Batch(cfg, existing, insts, s, i).loop.trace, WithDefaultTemperature(cfg.options))
  {
    var options := WithDefaultTemperature(cfg.options);
    var batch := BatchAt(insts, i, cfg.batchSize);
    if AllCached(batch, existing) {
      AppendCallsUse(cfg.path, s, CachedRecords(batch, existing), options);
    } else {
      var call := CallFor(cfg, batch);
      var s1 := Retry(cfg, call, s);
      RetryEvents(cfg, call, s);
      CallsUseExtended(s1.trace, |s.trace|, options);
      if !(s1.retryCount == cfg.retryLimit || s1.outputs.None? || |s1.outputs.value| != |batch|) {
        var r := Annotate(cfg, insts, s1, i, s1.outputs.value, 0);
        AnnotateExtends(cfg, insts, s1, i, s1.outputs.value, 0);
        AppendCallsUse(cfg.path, s1, r.loop.results[|s1.results|..], options);
      }
    }
  }

  lemma {:induction false} RunCallsUse(cfg: Config, existing: map<string, Record>, insts: seq<Record>, s: Loop, i: nat)
    requires cfg.batchSize > 0
    requires CallsUse(s.trace, WithDefaultTemperature(cfg.options))
    ensures CallsUse(RunFrom(cfg, existing, insts, s, i).loop.trace, WithDefaultTemperature(cfg.options))
    decreases |insts| - i
  {
    if i < |insts| {
      var r := Batch(cfg, existing, insts, s, i);
      BatchCallsUse(cfg, existing, insts, s, i);
      if r.error.None? {
        RunCallsUse(cfg, existing, r.insts, r.loop, i + cfg.batchSize);
      }
    }
  }

  /**
   * Every API call of a run gets `temperature` 0.0 unless the caller passed a
   * temperature, and otherwise exactly the caller's options.
   */
  lemma QueryTemperature(cfg: Config, insts: seq<Record>)
    ensures var trace := Query(cfg, insts).loop.trace;
      forall k :: 0 <= k < |trace| && trace[k].Dispatched? ==>
        && trace[k].call.options == WithDefaultTemperature(cfg.options)
        && trace[k].call.options["temperature"] == (if "temperature" in cfg.options then cfg.options["temperature"] else Num(0.0))
  {
    if cfg.batchSize > 0 {
      RunCallsUse(cfg, Existing(cfg), insts, Start(cfg), 0);
    }
  }

  // ----- Resuming -----

  /** Reading two stretches of ids from the previous output reads each in turn. */
  lemma CachedAppend(a: seq<Record>, b: seq<Record>, existing: map<string, Record>)
    requires AllCached(a, existing) && AllCached(b, existing)
    ensures AllCached(a + b, existing)
    ensures CachedRecords(a + b, existing) == CachedRecords(a, existing) + CachedRecords(b, existing)
  {
    assert AllCached(a + b, existing) by {
      forall k | 0 <= k < |a + b| ensures (a + b)[k].id in existing {
        if k >= |a| {
          assert (a + b)[k] == b[k - |a|];
        }
      }
    }
  }

  /** From batch start i, with every id in the previous output, the run reads everything from there. */
  lemma {:induction false} RunFromLog(cfg: Config, existing: map<string, Record>, insts: seq<Record>, s: Loop, i: nat)
    requires cfg.batchSize > 0 && i <= |insts|
    requires forall k :: 0 <= k < |insts| ==> insts[k].id in existing
    ensures RunFrom(cfg, existing, insts, s, i) == Run(insts, Append(cfg.path, s, CachedRecords(insts[i..], existing)), None)
    decreases |insts| - i
  {
    if i < |insts| {
      var hi := Min(i + cfg.batchSize, |insts|);
      var batch := BatchAt(insts, i, cfg.batchSize);
      assert insts[i..] == batch + insts[hi..];
      CachedAppend(batch, insts[hi..], existing);
      var first := CachedRecords(batch, existing);
      var rest := CachedRecords(insts[hi..], existing);
      AppendTwice(cfg.path, s, first, rest);
      var s' := Append(cfg.path, s, first);
      if i + cfg.batchSize <= |insts| {
        RunFromLog(cfg, existing, insts, s', i + cfg.batchSize);
      } else {
        assert |rest| == 0;
        AppendNothing(cfg.path, s');
      }
    } else {
      assert |CachedRecords(insts[i..], existing)| == 0;
      AppendNothing(cfg.path, s);
    }
  }

  /** Reading back lines with distinct ids finds each line under its own id. */
  lemma LogIndexDistinct(lines: seq<Record>, again: seq<Record>)
    requires forall k, k' :: 0 <= k < k' < |lines| ==> lines[k].id != lines[k'].id
    requires |again| == |lines| && forall k :: 0 <= k < |lines| ==> again[k].id == lines[k].id
    ensures forall k :: 0 <= k < |again| ==> again[k].id in LogIndex(lines) && LogIndex(lines)[again[k].id] == lines[k]
  {
    forall k | 0 <= k < |again| ensures again[k].id in LogIndex(lines) && LogIndex(lines)[again[k].id] == lines[k] {
      LogIndexLastWins(lines, k);
    }
  }

  /** A run reusing a file in which every id is found with the given record returns those records, in order. */
  lemma QueryFromLog(cfg: Config, insts: seq<Record>, lines: seq<Record>, recs: seq<Record>)
    requires cfg.batchSize > 0 && cfg.reuse && cfg.path == ExistingFile(lines) && |recs| == |insts|
    requires forall k :: 0 <= k < |insts| ==> insts[k].id in LogIndex(lines) && LogIndex(lines)[insts[k].id] == recs[k]
    ensures Query(cfg, insts) == Run(insts, Append(cfg.path, Start(cfg), recs), None)
  {
    var existing := Existing(cfg);
    RunFromLog(cfg, existing, insts, Start(cfg), 0);
    assert insts[0..] == insts;
    assert CachedRecords(insts, existing) == recs;
  }

  /** Truncating the output file, then appending records: the file holds them, and nothing was called. */
  lemma StartThenAppend(cfg: Config, recs: seq<Record>)
    ensures var l := Append(cfg.path, Start(cfg), recs);
      && l.results == recs
      && Written(l.trace) == (if cfg.path.NoOutputPath? then [] else recs)
      && forall k :: 0 <= k < |l.trace| ==> !l.trace[k].Dispatched?
  {
    var s0 := Start(cfg);
    AppendEvents(cfg.path, s0, recs);
    var t := Append(cfg.path, s0, recs).trace;
    WrittenNone(s0.trace);
    forall k | 0 <= k < |t|
      ensures !t[k].Dispatched?
    {
      if k < |s0.trace| {
        assert t[k] == t[..|s0.trace|][k];
      }
    }
  }

  /**
   * A run over instances whose ids are those of the given lines, reusing a
   * file holding those lines with distinct ids, returns the lines, writes them
   * again and calls nothing.
   */
  lemma RerunOnLines(cfg: Config, again: seq<Record>, lines: seq<Record>)
    requires cfg.batchSize > 0 && cfg.reuse && cfg.path == ExistingFile(lines)
    requires forall k, k' :: 0 <= k < k' < |lines| ==> lines[k].id != lines[k'].id
    requires |again| == |lines| && forall k :: 0 <= k < |lines| ==> again[k].id == lines[k].id
    ensures var second := Query(cfg, again);
      && second.error.None?
      && second.insts == again
      && second.loop.results == lines
      && Written(second.loop.trace) == lines
      && forall k :: 0 <= k < |second.loop.trace| ==> !second.loop.trace[k].Dispatched?
  {
    LogIndexDistinct(lines, again);
    QueryFromLog(cfg, again, lines, lines);
    StartThenAppend(cfg, lines);
  }

  /**
   * Resumability: after a normal return with an output path and distinct ids,
   * a second run over instances with the same ids that reuses the file the
   * first run wrote makes no API call, modifies no instance, returns the same
   * results and writes them again.
   */
  lemma Rerun(cfg: Config, insts: seq<Record>, again: seq<Record>)
    requires cfg.batchSize > 0 && !cfg.path.NoOutputPath? && Query(cfg, insts).error.None?
    requires forall k, k' :: 0 <= k < k' < |insts| ==> insts[k].id != insts[k'].id
    requires |again| == |insts| && forall k :: 0 <= k < |insts| ==> again[k].id == insts[k].id
    ensures var first := Query(cfg, insts);
      var second := Query(cfg.(path := ExistingFile(Written(first.loop.trace)), reuse := true), again);
      && second.error.None?
      && second.insts == again
      && second.loop.results == first.loop.results
      && Written(second.loop.trace) == first.loop.results
      && forall k :: 0 <= k < |second.loop.trace| ==> !second.loop.trace[k].Dispatched?
  {
    var results := Query(cfg, insts).loop.results;
    QueryResults(cfg, insts);
    RerunOnLines(cfg.(path := ExistingFile(results), reuse := true), again, results);
  }
}
