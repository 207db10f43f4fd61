/**
 * `query_openai_chat_model` and `query_openai_model` (eval/utils.py) as
 * imperative code over the caller's array of instances, which they update in
 * place. Each loop is proved against the corresponding function of
 * QueryRunner, so everything proved there holds of these methods.
 */
module QueryModel {
  import opened Wrappers
  import opened QueryTypes
  import opened QueryRunner

  /** Building `messages_list` one instance at a time. */
  method BuildRequests(api: Api, batch: seq<Record>) returns (requests: seq<Request>)
    ensures requests == Requests(api, batch)
  {
    requests := [];
    for k := 0 to |batch|
      invariant requests == Requests(api, batch[..k])
    {
      assert batch[..k + 1] == batch[..k] + [batch[k]];
      requests := requests + [BuildRequest(api, batch[k])];
    }
    assert batch[..|batch|] == batch;
  }

  /** Writing one line per record, when there is an output path. */
  method WriteLines(path: OutputPath, s0: Loop, recs: seq<Record>) returns (s: Loop)
    ensures s == Append(path, s0, recs)
  {
    s := s0.(results := s0.results + recs);
    if !path.NoOutputPath? {
      for k := 0 to |recs|
        invariant s == s0.(results := s0.results + recs, trace := s0.trace + WroteAll(recs[..k]))
      {
        assert WroteAll(recs[..k + 1]) == WroteAll(recs[..k]) + [Wrote(recs[k])];
        s := s.(trace := s.trace + [Wrote(recs[k])]);
      }
      assert recs[..|recs|] == recs;
    }
  }

  /** The retry loop around the asynchronous dispatch, the dispatcher being `cfg.dispatch`. */
  method RetryDispatch(cfg: Config, call: Call, s0: Loop) returns (s: Loop)
    ensures s == Retry(cfg, call, s0)
  {
    s := s0;
    while s.retryCount < cfg.retryLimit
      invariant Retry(cfg, call, s) == Retry(cfg, call, s0)
      decreases cfg.retryLimit - s.retryCount
    {
      var outcome := cfg.dispatch(s.attempts, call);
      if outcome.Returned? {
        s := s.(trace := s.trace + [Dispatched(call)], attempts := s.attempts + 1, retryCount := 0,
                outputs := Some(outcome.responses));
        return;
      }
      var retryCount := s.retryCount + 1;
      s := s.(trace := s.trace + [Dispatched(call), Slept(30 * retryCount)], attempts := s.attempts + 1,
              retryCount := retryCount);
    }
  }

  /** The loop over `zip(batch, outputs)`: update each instance in place, append it and write it. */
  method AnnotateBatch(cfg: Config, instances: array<Record>, start: nat, outs: seq<Response>, s0: Loop)
    returns (s: Loop, error: Option<RunError>)
    requires start + |outs| <= instances.Length
    modifies instances
    ensures Run(instances[..], s, error) == Annotate(cfg, old(instances[..]), s0, start, outs, 0)
  {
    s := s0;
    var m := 0;
    while m < |outs|
      invariant m <= |outs|
      invariant Annotate(cfg, old(instances[..]), s0, start, outs, 0) == Annotate(cfg, instances[..], s, start, outs, m)
    {
      var before := instances[..];
      var inst := instances[start + m];
      var text := Extract(cfg.api, outs[m]);
      if text.None? {
        error := Some(MalformedResponse(inst.id));
        return;
      }
      var rec := inst.(output := text, responseMetadata := Some(outs[m]));
      instances[start + m] := rec;
      assert instances[..] == before[start + m := rec];
      s := WriteLines(cfg.path, s, [rec]);
      m := m + 1;
    }
    error := None;
  }

  /** One iteration of the batch loop, on the batch starting at i. */
  method RunBatch(cfg: Config, existing: map<string, Record>, instances: array<Record>, s0: Loop, i: nat)
    returns (s: Loop, error: Option<RunError>)
    requires cfg.batchSize > 0 && i < instances.Length
    modifies instances
    ensures Run(instances[..], s, error) == Batch(cfg, existing, old(instances[..]), s0, i)
  {
    var batch := instances[i..Min(i + cfg.batchSize, instances.Length)];
    if AllCached(batch, existing) {
      s := WriteLines(cfg.path, s0, CachedRecords(batch, existing));
      error := None;
      return;
    }
    var requests := BuildRequests(cfg.api, batch);
    var options := cfg.options;
    if "temperature" !in options {
      options := options["temperature" := Num(0.0)];
    }
    s := RetryDispatch(cfg, Call(cfg.engine, requests, options), s0);
    if s.retryCount == cfg.retryLimit {
      error := Some(RetriesExhausted(cfg.retryLimit));
    } else if s.outputs.None? {
      error := Some(OutputsUnbound);
    } else if |s.outputs.value| != |batch| {
      error := Some(LengthMismatch(|s.outputs.value|, |batch|));
    } else {
      s, error := AnnotateBatch(cfg, instances, i, s.outputs.value, s);
    }
  }

  /** RunBatch, stated as one step of RunFrom. */
  method BatchStep(cfg: Config, existing: map<string, Record>, instances: array<Record>, s0: Loop, i: nat)
    returns (s: Loop, error: Option<RunError>)
    requires cfg.batchSize > 0 && i < instances.Length
    modifies instances
    ensures error.Some? ==> Run(instances[..], s, error) == RunFrom(cfg, existing, old(instances[..]), s0, i)
    ensures error.None? ==>
      RunFrom(cfg, existing, old(instances[..]), s0, i) == RunFrom(cfg, existing, instances[..], s, i + cfg.batchSize)
  {
    s, error := RunBatch(cfg, existing, instances, s0, i);
    RunFromStep(cfg, existing, old(instances[..]), s0, i, Run(instances[..], s, error));
  }

  /** `for i in range(0, len(instances), batch_size)`, until the end or an exception. */
  method RunBatches(cfg: Config, existing: map<string, Record>, instances: array<Record>, s0: Loop)
    returns (s: Loop, error: Option<RunError>)
    requires cfg.batchSize > 0
    modifies instances
    ensures Run(instances[..], s, error) == RunFrom(cfg, existing, old(instances[..]), s0, 0)
  {
    s, error := s0, None;
    ghost var goal, insts := RunFrom(cfg, existing, instances[..], s0, 0), instances[..];
    var i := 0;
    while i < instances.Length
      invariant insts == instances[..]
      invariant goal == RunFrom(cfg, existing, insts, s, i)
      invariant error.None?
      decreases instances.Length - i
    {
      s, error := BatchStep(cfg, existing, instances, s, i);
      insts := instances[..];
      if error.Some? {
        return;
      }
      i := i + cfg.batchSize;
    }
  }

  /**
   * A whole run: read the previous output, open the output file, then go
   * through the instances batch by batch. `results` is the return value when
   * `error` is None; `trace` lists the file writes, API calls and sleeps in
   * order.
   */
  method QueryRun(cfg: Config, instances: array<Record>) returns (results: seq<Record>, error: Option<RunError>, trace: seq<Event>)
    modifies instances
    ensures var r := Query(cfg, old(instances[..]));
      instances[..] == r.insts && results == r.loop.results && error == r.error && trace == r.loop.trace
  {
    var existing := map[];
    if cfg.reuse && cfg.path.ExistingFile? {
      existing := LoadExisting(cfg.path.lines);
    }
    var s := Start(cfg);
    error := None;
    if cfg.batchSize == 0 {
      error := Some(ZeroBatchSize);
    } else if cfg.batchSize > 0 {
      s, error := RunBatches(cfg, existing, instances, s);
    }
    results, trace := s.results, s.trace;
  }

  /** `query_openai_chat_model`. */
  method QueryChatModel(engine: string, instances: array<Record>, path: OutputPath, batchSize: int, retryLimit: int,
                        reuse: bool, options: map<string, Value>, dispatch: (nat, Call) -> Outcome)
    returns (results: seq<Record>, error: Option<RunError>, trace: seq<Event>)
    modifies instances
    ensures var r := Query(Config(Chat, engine, path, batchSize, retryLimit, reuse, options, dispatch), old(instances[..]));
      instances[..] == r.insts && results == r.loop.results && error == r.error && trace == r.loop.trace
  {
    results, error, trace := QueryRun(Config(Chat, engine, path, batchSize, retryLimit, reuse, options, dispatch), instances);
  }

  /** `query_openai_model`. */
  method QueryCompletionModel(engine: string, instances: array<Record>, path: OutputPath, batchSize: int, retryLimit: int,
                              reuse: bool, options: map<string, Value>, dispatch: (nat, Call) -> Outcome)
    returns (results: seq<Record>, error: Option<RunError>, trace: seq<Event>)
    modifies instances
    ensures var r := Query(Config(Completion, engine, path, batchSize, retryLimit, reuse, options, dispatch), old(instances[..]));
      instances[..] == r.insts && results == r.loop.results && error == r.error && trace == r.loop.trace
  {
    results, error, trace := QueryRun(Config(Completion, engine, path, batchSize, retryLimit, reuse, options, dispatch), instances);
  }
}
