/**
 * The batch, resume and retry loop shared by `query_openai_chat_model` and
 * `query_openai_model` (eval/utils.py). The two differ only in the request
 * built per instance and in where the text is read from a response; both are
 * selected by an `Api` value.
 *
 * The effects are modelled explicitly: the previous output file, if any, is
 * given as its parsed lines; the output file's truncation and writes, the API
 * calls and the sleeps form a trace of events; the asynchronous dispatcher is
 * an oracle that, for the n-th call of the run and the call's arguments,
 * either raises or returns a list of responses. Instances are updated in
 * place, as the source's dicts are.
 */
module QueryRunner {
  import opened Wrappers
  import opened QueryTypes

  /** `output_path` is None; names a file that does not exist yet; names a file with these lines. */
  datatype OutputPath = NoOutputPath | NewFile | ExistingFile(lines: seq<Record>)

  /** The arguments of one `dispatch_openai_*_requesets` call. */
  datatype Call = Call(engine: string, requests: seq<Request>, options: map<string, Value>)

  datatype Outcome = Raised | Returned(responses: seq<Response>)

  /** Observable effects, in order: `open(output_path, "w")`, a written line, an API call, `time.sleep`. */
  datatype Event = Truncated | Wrote(record: Record) | Dispatched(call: Call) | Slept(seconds: nat)

  /** ValueError, RuntimeError, UnboundLocalError, AssertionError, and IndexError or KeyError. */
  datatype RunError =
    | ZeroBatchSize
    | RetriesExhausted(limit: int)
    | OutputsUnbound
    | LengthMismatch(got: nat, expected: nat)
    | MalformedResponse(id: string)

  datatype Config = Config(
    api: Api,
    engine: string,
    path: OutputPath,
    batchSize: int,
    retryLimit: int,
    reuse: bool,
    options: map<string, Value>,
    dispatch: (nat, Call) -> Outcome)

  /** The runner's locals: `results`, the events so far, the number of API calls, `retry_count`, `outputs`. */
  datatype Loop = Loop(results: seq<Record>, trace: seq<Event>, attempts: nat, retryCount: nat,
                       outputs: Option<seq<Response>>)

  /** The instances, the locals, and the exception raised, if any. */
  datatype Run = Run(insts: seq<Record>, loop: Loop, error: Option<RunError>)

  /** `existing_data`: read only when reuse is asked for and the output file exists. */
  function Existing(cfg: Config): map<string, Record>
  {
    if cfg.reuse && cfg.path.ExistingFile? then LogIndex(cfg.path.lines) else map[]
  }

  /** One `Wrote` event per record, in order. */
  function WroteAll(recs: seq<Record>): (events: seq<Event>)
    ensures |events| == |recs|
    ensures forall k :: 0 <= k < |recs| ==> events[k] == Wrote(recs[k])
  {
    seq(|recs|, k requires 0 <= k < |recs| => Wrote(recs[k]))
  }

  /** Lines are written only when there is an output path. */
  function Writes(path: OutputPath, recs: seq<Record>): seq<Event>
  {
    if path.NoOutputPath? then [] else WroteAll(recs)
  }

  /** `results` extended by the records, each also written as a line when there is an output path. */
  function Append(path: OutputPath, s: Loop, recs: seq<Record>): (r: Loop)
    ensures r.results == s.results + recs
    ensures |r.trace| == |s.trace| + (if path.NoOutputPath? then 0 else |recs|)
    ensures r.attempts == s.attempts && r.retryCount == s.retryCount && r.outputs == s.outputs
  {
    s.(results := s.results + recs, trace := s.trace + Writes(path, recs))
  }

  /** The records written to the output file, in order. */
  function Written(trace: seq<Event>): (recs: seq<Record>)
    ensures |recs| <= |trace|
  {
    if trace == [] then []
    else
      var last := trace[|trace| - 1];
      Written(trace[..|trace| - 1]) + (if last.Wrote? then [last.record] else [])
  }

  /** `all([x["id"] in existing_data for x in batch])` */
  predicate AllCached(batch: seq<Record>, existing: map<string, Record>)
  {
    forall k :: 0 <= k < |batch| ==> batch[k].id in existing
  }

  /** `[existing_data[x["id"]] for x in batch]` */
  function CachedRecords(batch: seq<Record>, existing: map<string, Record>): (recs: seq<Record>)
    requires AllCached(batch, existing)
    ensures |recs| == |batch|
    ensures forall k :: 0 <= k < |batch| ==> recs[k] == existing[batch[k].id]
  {
    seq(|batch|, k requires 0 <= k < |batch| => existing[batch[k].id])
  }

  /** The call for a batch: its requests, the engine, and the options with the default temperature. */
  function CallFor(cfg: Config, batch: seq<Record>): Call
  {
    Call(cfg.engine, Requests(cfg.api, batch), WithDefaultTemperature(cfg.options))
  }

  /**
   * The retry loop: while `retry_count < retry_limit`, call the API; on success
   * reset `retry_count` and stop, on an exception count it and sleep
   * `30 * retry_count` seconds.
   */
  function Retry(cfg: Config, call: Call, s: Loop): (r: Loop)
    ensures r.results == s.results
    decreases cfg.retryLimit - s.retryCount
  {
    if s.retryCount >= cfg.retryLimit then s
    else
      match cfg.dispatch(s.attempts, call)
      case Returned(rs) =>
        s.(trace := s.trace + [Dispatched(call)], attempts := s.attempts + 1, retryCount := 0, outputs := Some(rs))
      case Raised =>
        Retry(cfg, call, s.(trace := s.trace + [Dispatched(call), Slept(30 * (s.retryCount + 1))],
                            attempts := s.attempts + 1, retryCount := s.retryCount + 1))
  }

  /**
   * The loop over `zip(batch, outputs)` from the m-th pair on: read the text,
   * set "output" and "response_metadata" on the instance in place, append it to
   * the results and write it.
   */
  function Annotate(cfg: Config, insts: seq<Record>, s: Loop, start: nat, outs: seq<Response>, m: nat): (r: Run)
    requires start + |outs| <= |insts|
    ensures |r.insts| == |insts|
    decreases |outs| - m
  {
    if m >= |outs| then Run(insts, s, None)
    else
      var inst := insts[start + m];
      match Extract(cfg.api, outs[m])
      case None => Run(insts, s, Some(MalformedResponse(inst.id)))
      case Some(text) =>
        var rec := inst.(output := Some(text), responseMetadata := Some(outs[m]));
        Annotate(cfg, insts[start + m := rec], Append(cfg.path, s, [rec]), start, outs, m + 1)
  }

  /** The batch `instances[start:start+batch_size]`. */
  function BatchAt(insts: seq<Record>, start: nat, bs: nat): seq<Record>
    requires start <= |insts|
  {
    insts[start..Min(start + bs, |insts|)]
  }

  /** One iteration of the batch loop. */
  function Batch(cfg: Config, existing: map<string, Record>, insts: seq<Record>, s: Loop, start: nat): (r: Run)
    requires cfg.batchSize > 0 && start < |insts|
    ensures |r.insts| == |insts|
  {
    var batch := BatchAt(insts, start, cfg.batchSize);
    if AllCached(batch, existing) then
      var recs := CachedRecords(batch, existing);
      Run(insts, Append(cfg.path, s, recs), None)
    else
      var s1 := Retry(cfg, CallFor(cfg, batch), s);
      if s1.retryCount == cfg.retryLimit then Run(insts, s1, Some(RetriesExhausted(cfg.retryLimit)))
      else if s1.outputs.None? then Run(insts, s1, Some(OutputsUnbound))
      else if |s1.outputs.value| != |batch| then Run(insts, s1, Some(LengthMismatch(|s1.outputs.value|, |batch|)))
      else Annotate(cfg, insts, s1, start, s1.outputs.value, 0)
  }

  /** The batch loop from batch start i on; an exception ends the run. */
  function RunFrom(cfg: Config, existing: map<string, Record>, insts: seq<Record>, s: Loop, i: nat): (r: Run)
    requires cfg.batchSize > 0
    ensures |r.insts| == |insts|
    decreases |insts| - i
  {
    if i >= |insts| then Run(insts, s, None)
    else
      var r := Batch(cfg, existing, insts, s, i);
      if r.error.Some? then r else RunFrom(cfg, existing, r.insts, r.loop, i + cfg.batchSize)
  }

  /** One step of the batch loop: the batch at i, then the rest unless it raised. */
  lemma RunFromStep(cfg: Config, existing: map<string, Record>, insts: seq<Record>, s: Loop, i: nat, r: Run)
    requires cfg.batchSize > 0 && i < |insts|
    requires r == Batch(cfg, existing, insts, s, i)
    ensures r.error.Some? ==> RunFrom(cfg, existing, insts, s, i) == r
    ensures r.error.None? ==> RunFrom(cfg, existing, insts, s, i) == RunFrom(cfg, existing, r.insts, r.loop, i + cfg.batchSize)
  {
  }

  /** The state before the batch loop: the output file, if any, has just been truncated. */
  function Start(cfg: Config): (l: Loop)
  {
    Loop([], if cfg.path.NoOutputPath? then [] else [Truncated], 0, 0, None)
  }

  /** A whole call; on normal return the result is `loop.results`. */
  function Query(cfg: Config, instances: seq<Record>): (r: Run)
    ensures |r.insts| == |instances|
  {
    if cfg.batchSize == 0 then Run(instances, Start(cfg), Some(ZeroBatchSize))
    else if cfg.batchSize < 0 then Run(instances, Start(cfg), None)
    else RunFrom(cfg, Existing(cfg), instances, Start(cfg), 0)
  }
}
