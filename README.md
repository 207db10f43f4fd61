# Evaluation utilities: generation, scoring and OpenAI querying, in Dafny

This project models the core of `eval/utils.py`, the evaluation helpers of the
REaMA repository, and proves properties of the model. It covers four parts.

- **`KeyWordsCriteria`** is the stopping criterion passed to the local
  generator. It halts the batch only when every row ends with one of the stop
  id sequences (module `StopCriteria`).
- **`generate_completions`** cuts the prompts into batches and generates each
  batch. Because the criterion is batch-wide, every output row is then cut at
  its first stop sequence by overwriting it with the pad id, in place
  (`StopTruncation`). The rows are decoded, and the re-decoded prompt is
  stripped from each output. A batch that raises contributes empty strings.
  The run ends by asserting that there is one completion per prompt and per
  return sequence (`Generation`).
- **`score_completions`** unrolls `{prompt, completions}` examples into
  pairs. It scores each pair with one model call, then rolls the scores up
  into `table[prompt][completion]`, where a later pair overwrites an earlier
  one (`Scoring`).
- **`query_openai_chat_model` and `query_openai_model`** are one model,
  selected by an `Api` value; the two differ only in the request built per
  instance and in the response field the text is read from. The runner:
  - reads the previous output file into an index keyed by id, later lines
    winning;
  - adds `temperature = 0.0` unless the caller gave one;
  - truncates the output file;
  - walks the instances in batches. A batch whose ids are all in the index is
    answered from it and rewritten. Any other batch is sent as one call, with
    retries: the k-th consecutive failure sleeps `30 * k` seconds, and
    reaching the retry limit raises.
  - On success it checks the output count, annotates each instance in place
    with `output` and `response_metadata`, appends it to the results and
    writes it as one line.

  The pure definitions are in `QueryTypes` and `QueryRunner`, the lemmas in
  `QueryProperties`, and the imperative runner over the caller's array of
  instances in `QueryModel`.

Effects are explicit values:
- **Previous output file:** `OutputPath` is `NoOutputPath`, `NewFile`, or
  `ExistingFile(lines)` holding the parsed lines.
- **Trace:** the truncation, each written line, each API call and each sleep
  form a trace of `Event`s.
- **Dispatcher:** an oracle `(n, call) -> Outcome` says whether the n-th API
  call of the run raises or what it returns.
- **Tokenizer, generator, decoder:** function-typed fields of a `Backend`.
- **Batch failure:** an oracle gives, per batch start, whether the batch
  raised.
- **Scoring calls:** the model's k-th scoring call is `scorer(k, pair)`.

Python's behaviour is written out where it matters:
- **Negative slices:** `row[-0:]` is the whole row, so an empty stop sequence
  matches only an empty row.
- **Clipped slices:** a slice is clipped at the end of the row, so a stop
  sequence only matches where it fits.
- **Prompt stripping:** `s[k:]` past the end of a string is empty.
- **`zip`:** stops at the shorter list.
- **`range(0, n, 0)`:** raises.
- **`range` with a negative step from 0:** is empty.
- **Negative `retry_limit`:** skips the retry loop, so the first batch sent
  fails on the unbound `outputs`.

Two behaviours of the code worth noting:
- **The output file is truncated, not appended to.** It is opened with `"w"`,
  so every run rewrites it. Cached records are written again, batch by batch,
  among the new ones: the lines written are exactly the results, in instance
  order.
- **The retry counter is reset only on a successful call.** It is not reset
  per batch; a batch that exhausts it raises. `QueryProperties.QueryRetryBudget`
  proves that every batch of a run is therefore entered with the counter at 0.

## Model

| member | source | states |
|---|---|---|
| StopCriteria.PyTail | eval/utils.py:23 | definition of Python's `row[-k:]`; characterised by StopCriteria.EndsWithStopMeaning |
| StopCriteria.EndsWithStop | eval/utils.py:23 | definition of `row[-len(stop):] == stop`; characterised by StopCriteria.EndsWithStopMeaning and StopCriteria.ShortRowNeverStops |
| StopCriteria.RowStopped | eval/utils.py:22-25 | definition: some stop sequence ends the row; used by StopCriteria.KeyWordsCriteria.Call |
| StopCriteria.AllStopped | eval/utils.py:27 | definition of `all(flags)`; characterised by StopCriteria.KeyWordsCriteria.Call and StopCriteria.EmptyBatchStops |
| StopCriteria.EndsWithStopMeaning | eval/utils.py:23 | `input_ids[i][-len(stop):] == stop` holds iff the stop sequence fits in the row and equals its last tokens; an empty stop sequence matches only an empty row |
| StopCriteria.ShortRowNeverStops | eval/utils.py:23 | a row shorter than a stop sequence never ends with it |
| StopCriteria.EmptyBatchStops | eval/utils.py:27 | `all([])`: a batch with no rows counts as stopped |
| StopCriteria.KeyWordsCriteria.constructor | eval/utils.py:14-16 | keeps the given stop sequences; the list must be non-empty, as the assertion on its first element demands |
| StopCriteria.KeyWordsCriteria.Call | eval/utils.py:18-27 | returns true iff every row of the batch ends with at least one configured stop sequence |
| StopTruncation.Window | eval/utils.py:65 | definition of the clipped slice `row[t:t+len]`; characterised by StopTruncation.StopAtMeaning |
| StopTruncation.StopAt | eval/utils.py:65 | definition of `row[t:t+len(stop)] == stop`; characterised by StopTruncation.StopAtMeaning |
| StopTruncation.AnyStopAt | eval/utils.py:65 | definition of the `any(...)`; characterised by StopTruncation.AnyStopStartsAt |
| StopTruncation.TruncateRow | eval/utils.py:62-67 | definition of the post-pass on one row, which keeps the row's length; characterised by StopTruncation.TruncateRowMeaning, TruncateRowNoStop, TruncateRowKeepsPrompt and NoStopBeforeCut |
| StopTruncation.StopAtMeaning | eval/utils.py:65 | the window starting at t equals a stop sequence iff the stop fits at t and the tokens there are the stop |
| StopTruncation.FirstStop | eval/utils.py:64-65 | the first position from the prompt length on where some stop sequence starts, with no such position before it; None iff no position has one |
| StopTruncation.TruncateRowMeaning | eval/utils.py:62-67 | with the first stop at k, the row keeps its tokens before k and holds the pad id from k to the end; its length is unchanged |
| StopTruncation.TruncateRowNoStop | eval/utils.py:62-67 | a row with no stop sequence after the prompt is left unchanged |
| StopTruncation.TruncateRowKeepsPrompt | eval/utils.py:64 | the prompt part of a row is never overwritten and the length is kept |
| StopTruncation.NoStopBeforeCut | eval/utils.py:64-67 | no stop sequence lies wholly inside the kept, generated part of a truncated row |
| StopTruncation.PaddingCanCompleteAStop | eval/utils.py:66 | a concrete row where the pad ids written by the pass form a stop sequence with the token before them |
| StopTruncation.WindowEquals | eval/utils.py:65 | compares `outputs[i, t:t+len(stop)]` with the stop sequence by reading the array, with the clipped-slice meaning |
| StopTruncation.AnyStopStartsAt | eval/utils.py:65 | the `any(...)` over all stop sequences at position t of row i |
| StopTruncation.TruncateRowInPlace | eval/utils.py:64-67 | row i of the array becomes its truncation at the first stop; every other row is unchanged |
| StopTruncation.TruncateAtStops | eval/utils.py:62-67 | every row of the output array becomes its truncation at its first stop |
| Generation.Expand | eval/utils.py:78 | definition of `[p for p in ps for _ in range(n)]`; characterised by Generation.ExpandAt and Generation.ExpandLength |
| Generation.ExpandAt | eval/utils.py:78 | the expanded prompt list has `len(prompts) * n` entries and entry `q * n + r` is prompt q |
| Generation.ExpandLength | eval/utils.py:78 | the expanded prompt list has `len(prompts) * n` entries |
| Generation.TruncateAll | eval/utils.py:62-67 | one truncated row per output row, each the row cut at its first stop |
| Generation.DecodeAll | eval/utils.py:73-74 | `batch_decode`: one text per row, each the decoding of that row |
| Generation.StripPrompts | eval/utils.py:79-81 | one completion per pair of the shorter list, each the output with the prompt's length dropped from its front |
| Generation.Blank | eval/utils.py:88 | the fallback: the given number of empty strings |
| Generation.BatchGenerations | eval/utils.py:48-88 | definition of one batch's completions, blank when the batch raised; characterised by Generation.FailedBatch, BatchLength and BatchPairing |
| Generation.ConcatBatches | eval/utils.py:37-90 | definition of the batch loop over a batch function; characterised by Generation.ConcatStep, ConcatLength, ConcatSuffix, ConcatAt and ConcatPairing |
| Generation.Generate | eval/utils.py:31-102 | a zero batch size raises ValueError, a positive one with the progress bar on, no return sequences and some prompt raises ZeroDivisionError, and a normal return has `len(prompts) * n` completions; characterised further by Generation.GenerateCardinality, GeneratePairing and AllBatchesFail |
| Generation.OutputRows | eval/utils.py:51-67 | the rows given to the decoder: the generated rows, cut at stops when stop sequences are configured |
| Generation.FailedBatch | eval/utils.py:82-88 | a batch that raises yields `len(batch) * n` empty strings |
| Generation.BatchLength | eval/utils.py:51-88 | a batch yields `len(batch) * n` completions whether or not it raises, when the backend returns n rows per prompt |
| Generation.BatchPairing | eval/utils.py:73-81 | completion `q * n + r` of a batch is decoded row `q * n + r`, cut at stops, minus the re-decoded prompt q |
| Generation.StripAt | eval/utils.py:73-81 | stripping pairs output row `q * n + r` with re-decoded prompt q |
| Generation.ConcatStep | eval/utils.py:37-90 | one step of the batch loop: the batch at i, then the rest |
| Generation.ConcatExtend | eval/utils.py:90 | `generations += batch_generations` keeps the batch loop's invariant |
| Generation.ConcatLength | eval/utils.py:37-90 | batches that each yield `len(batch) * n` entries give `len(prompts) * n` in all |
| Generation.ConcatSuffix | eval/utils.py:37-90 | the generations of later batches form a suffix of all generations |
| Generation.ConcatAt | eval/utils.py:37-90 | entry j of a batch sits at a fixed offset in the concatenation |
| Generation.ConcatPairing | eval/utils.py:37-90 | entry j of the batch at `start` is entry `start * n + j` of the concatenation |
| Generation.GenerateCardinality | eval/utils.py:37-102 | with a positive batch size the call returns exactly when the progress update does not divide by zero, and then the cardinality assertion passes with `len(prompts) * n` completions, whichever batches raise |
| Generation.GeneratePairing | eval/utils.py:37-102 | completion `start * n + j` of the whole run is completion j of the batch at `start` |
| Generation.AllBatchesFail | eval/utils.py:82-102 | when every batch raises, the run returns exactly when the progress update does not divide by zero, and then returns `len(prompts) * n` empty strings |
| Generation.AllBlankFrom | eval/utils.py:82-90 | batches that all yield blanks give only blanks |
| Generation.BlankAppend | eval/utils.py:90 | blanks appended to blanks are blanks of the summed length |
| Generation.GenerateBatch | eval/utils.py:38-88 | the body of one batch, computed step by step, equals the batch's completions |
| Generation.RunBatch | eval/utils.py:38-90 | one batch of the loop, as the loop's batch function says |
| Generation.RunBatches | eval/utils.py:37-99 | the loop appends the completions of every batch in order; with the progress bar on and no return sequences, the update raises right after the first batch, and exactly then |
| Generation.GenerateCompletions | eval/utils.py:31-102 | the whole call: a zero batch size raises, a negative one runs no batch, the progress update may divide by zero, and the final assertion is checked; equal to Generation.Generate |
| Generation.ProgressRaises | eval/utils.py:97-99 | definition: the progress bar is on, there are no return sequences and the loop runs a batch; used by Generation.Generate, GenerateCardinality, AllBatchesFail and RunBatches |
| Generation.Criterion | eval/utils.py:54 | definition of `[KeyWordsCriteria(stops)] if stops else None`; used by Generation.OutputRows, BatchPairing and GenerateBatch |
| Generation.PyDrop | eval/utils.py:80 | definition of `output[len(prompt):]`, empty past the end; used by Generation.StripPrompts and BatchPairing |
| Generation.BatchFn | eval/utils.py:48-88 | definition of the loop body as a function of the batch and its start, with the failure oracle; used by Generation.Generate, GenerateCardinality, GeneratePairing, AllBatchesFail and GenerateCompletions |
| Scoring.PairsOf | eval/utils.py:175-179 | one pair per completion of an example, in order, all with its prompt |
| Scoring.Unrolled | eval/utils.py:171-179 | the unrolled list has one pair per completion of every example |
| Scoring.Scores | eval/utils.py:181-196 | one score per pair, the k-th being the k-th model call on the k-th pair |
| Scoring.UnrolledPairs | eval/utils.py:171-179 | a pair is unrolled iff some example has its prompt and its completion |
| Scoring.UnrolledPrompts | eval/utils.py:171-179 | a prompt occurs in the unrolled list iff some example with it has a completion |
| Scoring.Insert | eval/utils.py:203-205 | after the insertion the table holds the score under `table[prompt][completion]` |
| Scoring.RollUp | eval/utils.py:198-205 | definition of the roll-up loop as a fold; characterised by Scoring.RollUpPrompts, RollUpEntries and RollUpLastWins |
| Scoring.ScoreTable | eval/utils.py:161-207 | definition of the value returned; characterised by Scoring.ScoreTablePrompts, ScoreTableEntries, ScoreTableLastWins and ScoreTablePure |
| Scoring.RollUpPrompts | eval/utils.py:198-205 | the table's prompts are exactly the prompts of the pairs |
| Scoring.RollUpEntries | eval/utils.py:198-205 | `table[prompt][completion]` exists iff the pair was scored |
| Scoring.RollUpLastWins | eval/utils.py:205 | the entry for a pair holds the score of its last occurrence |
| Scoring.ScorerCalls | eval/utils.py:183-194 | the model is called once per completion of every example |
| Scoring.ScoreTablePrompts | eval/utils.py:161-207 | a prompt is a key of the result iff some example with that prompt has a completion |
| Scoring.ScoreTableEntries | eval/utils.py:161-207 | `result[prompt][completion]` exists iff some example with that prompt lists that completion |
| Scoring.ScoreTableLastWins | eval/utils.py:161-207 | an entry holds the score of the last scoring call on its pair |
| Scoring.ScoreTablePure | eval/utils.py:161-207 | with a scorer that depends only on the pair, every listed pair's entry is its score |
| Scoring.Unroll | eval/utils.py:171-179 | the nested unroll loop builds the unrolled list |
| Scoring.ScoreAll | eval/utils.py:181-196 | the scoring loop builds the score list |
| Scoring.RollUpScores | eval/utils.py:198-207 | the roll-up loop builds the table |
| Scoring.ScoreCompletions | eval/utils.py:161-207 | the whole call returns the score table of the examples |
| QueryTypes.BuildRequest | eval/utils.py:346-349 | a chat request is the single user message holding the prompt; a completion request is the prompt itself |
| QueryTypes.Requests | eval/utils.py:346-349 | `messages_list` has one request per instance of the batch, in order |
| QueryTypes.Extract | eval/utils.py:371 | the text is `choices[0].message.content` for chat and `choices[0].text` for completion, and is missing exactly when that path is missing |
| QueryTypes.WithDefaultTemperature | eval/utils.py:326-328 | the options gain "temperature" = 0.0 exactly when they lack it, and every given option is kept |
| QueryTypes.LogIndex | eval/utils.py:319-324 | definition of `existing_data`; characterised by QueryTypes.LogIndexKeys, LogIndexLastWins and QueryProperties.ExistingKeyed |
| QueryTypes.LogIndexKeys | eval/utils.py:319-324 | an id is in the index iff some line has it, and it maps to a line with that id |
| QueryTypes.LogIndexLastWins | eval/utils.py:322-324 | the index holds the last line with each id |
| QueryTypes.LoadExisting | eval/utils.py:319-324 | the loop over the file's lines builds the index |
| QueryRunner.WroteAll | eval/utils.py:341-343 | one written line per record, in order |
| QueryRunner.Append | eval/utils.py:339-343 | the results are extended by the records and nothing else in the loop state changes but the trace |
| QueryRunner.CachedRecords | eval/utils.py:339 | one record of the index per instance of the batch, looked up by its id |
| QueryRunner.AllCached | eval/utils.py:338 | definition of the reuse test `all([x["id"] in existing_data for x in batch])`; used by QueryRunner.Batch and QueryProperties.BatchFromLog and BatchSentWhole |
| QueryRunner.Existing | eval/utils.py:319-324 | definition of `existing_data`, read only when reuse is asked for and the file exists; used by QueryRunner.Query and QueryProperties.QueryFromLog and QueryRetryBudget |
| QueryRunner.BatchAt | eval/utils.py:337 | definition of `instances[i:i+batch_size]`; used by QueryRunner.Batch and QueryProperties.BatchFromLog, BatchSentWhole and BatchGivesUp |
| QueryRunner.CallFor | eval/utils.py:346-357 | definition of the call for a batch: the engine, one request per instance, the options with the default temperature; used by QueryRunner.Batch and QueryProperties.BatchSentWhole, BatchGivesUp and BatchCallsUse |
| QueryRunner.Writes | eval/utils.py:340-343 | definition of the lines written for records, none without an output path; used by QueryRunner.Append (which also writes the annotated instances of lines 374-376) and QueryProperties.WritesAre |
| QueryRunner.Written | eval/utils.py:340-343 | the lines written by a trace, never more than its events; characterised by QueryProperties.WrittenAppend, WrittenWroteAll and WrittenNone |
| QueryRunner.Retry | eval/utils.py:350-366 | the retry loop leaves the results alone; characterised by QueryProperties.RetrySucceeds, RetryGivesUp, RetryEvents and RetryEndsAtZeroOrLimit |
| QueryRunner.Annotate | eval/utils.py:370-376 | the annotation loop keeps the number of instances; characterised by QueryProperties.AnnotateExtends, AnnotateInstances and AnnotateOutput |
| QueryRunner.Batch | eval/utils.py:337-377 | one batch keeps the number of instances; characterised by QueryProperties.BatchFromLog, BatchSentWhole, BatchGivesUp, BatchNegativeLimit and BatchKeepsZero |
| QueryRunner.RunFrom | eval/utils.py:336-377 | the batch loop keeps the number of instances; characterised by QueryRunner.RunFromStep and QueryProperties.RunProgress, RunFromLog, RunFromZero, RunFromEndsAtZero and RunFromBudget |
| QueryRunner.Start | eval/utils.py:330-334 | definition of the state before the loop: no results, the file truncated when there is a path, the counter at 0; used by QueryProperties.StartThenAppend |
| QueryRunner.Query | eval/utils.py:314-378 | a whole call keeps the number of instances; characterised by QueryProperties.QueryResults, QueryTemperature, QueryRetryBudget and Rerun |
| QueryRunner.RunFromStep | eval/utils.py:336-377 | the batch loop runs one batch, then stops if it raised and goes on from the next batch start otherwise |
| QueryProperties.FailureEvents | eval/utils.py:360-365 | k failed calls leave a call and a sleep each |
| QueryProperties.FailureEventsAt | eval/utils.py:360-365 | failure j is a call followed by a sleep of `30 * (retry_count + j + 1)` seconds |
| QueryProperties.RetrySucceeds | eval/utils.py:350-366 | k failures then a success, within the limit, give the k calls and sleeps, the successful call, `retry_count` reset to 0 and the outputs set |
| QueryProperties.RetryGivesUp | eval/utils.py:350-366 | failures up to the limit give one call and one sleep per failure, and `retry_count` stops at the limit |
| QueryProperties.RetryEvents | eval/utils.py:350-366 | the retry loop only appends calls and sleeps to the trace |
| QueryProperties.RetryWritesNothing | eval/utils.py:350-366 | the retry loop writes no line |
| QueryProperties.RetryEndsAtZeroOrLimit | eval/utils.py:350-366 | the retry loop ends with the counter reset and the outputs bound, or with the counter at the limit, after at most `retry_limit - retry_count` calls |
| QueryProperties.BatchKeepsZero | eval/utils.py:337-377 | a batch entered with the counter at 0 makes at most `retry_limit` calls and, unless it raises RuntimeError, leaves the counter at 0 |
| QueryProperties.BatchCount | eval/utils.py:336 | the number of iterations of `range(i, n, batch_size)`, zero exactly when i is at or past n |
| QueryProperties.EveryBatchFromZero | eval/utils.py:336-377 | definition: every batch the loop runs, up to one that raises, is entered with the counter at 0 |
| QueryProperties.CallBudgetIsProduct | eval/utils.py:336-357 | `retry_limit` calls for each iteration of `range(i, n, batch_size)` make `retry_limit` times the number of batches |
| QueryProperties.RunFromZero | eval/utils.py:336-377 | from a zero counter, every batch of the loop is entered with the counter at 0 |
| QueryProperties.RunFromEndsAtZero | eval/utils.py:336-377 | from a zero counter, a loop that ends without raising leaves the counter at 0 |
| QueryProperties.RunFromBudget | eval/utils.py:336-377 | from a zero counter, the loop never lowers the number of calls made and adds at most `retry_limit` per batch |
| QueryProperties.QueryRetryBudget | eval/utils.py:314-378 | in a whole run every batch is entered with the counter at 0, so it meets the premises of BatchGivesUp and RetrySucceeds; the run makes at most `retry_limit` calls per batch, and one that returns leaves the counter at 0 |
| QueryProperties.BatchFromLog | eval/utils.py:338-345 | a batch whose ids are all cached extends the results by their cached records, makes no call, leaves the instances unchanged, only writes lines, and writes exactly those records, in batch order, when there is an output path |
| QueryProperties.BatchSentWhole | eval/utils.py:346-357 | any other batch's first event is one call, with the engine, one request per instance and the options with the default temperature |
| QueryProperties.BatchGivesUp | eval/utils.py:367-368 | when every attempt fails, the batch raises RuntimeError after an attempt and a sleep per retry, and changes neither the instances nor the results |
| QueryProperties.BatchNegativeLimit | eval/utils.py:350-369 | with a negative retry limit and no earlier outputs, a batch that is not cached raises on the unbound `outputs` |
| QueryProperties.WrittenAppend | eval/utils.py:340-343 | the lines written by two traces in order are the lines of each |
| QueryProperties.WrittenWroteAll | eval/utils.py:340-343 | writing the records writes exactly the records |
| QueryProperties.WrittenNone | eval/utils.py:350-366 | a trace without writes writes no line |
| QueryProperties.WritesAre | eval/utils.py:340-343 | lines are written exactly when there is an output path, and all the events are writes |
| QueryProperties.WritesAppend | eval/utils.py:340-343 | writing two lists of records is writing their concatenation |
| QueryProperties.AppendNothing | eval/utils.py:339-343 | appending no record changes nothing |
| QueryProperties.AppendTwice | eval/utils.py:373-376 | appending records one batch after another is appending them together |
| QueryProperties.AppendEvents | eval/utils.py:339-343 | appending keeps the trace as a prefix, adds only writes, and writes the records when there is an output path |
| QueryProperties.AnnotateExtends | eval/utils.py:370-376 | annotation only appends records to the results and writes them |
| QueryProperties.AnnotateInstances | eval/utils.py:370-372 | without an error, each instance of the batch gets its extracted output and its response, and no instance outside the batch changes |
| QueryProperties.AnnotateOutput | eval/utils.py:373 | without an error, the results grow by the annotated instances of the batch, in order |
| QueryProperties.ResultsStep | eval/utils.py:336-377 | a batch that adds one good result per instance keeps the results invariant of the loop |
| QueryProperties.WrittenStep | eval/utils.py:340-343 | appending keeps "the written lines are the results" |
| QueryProperties.ProgressStep | eval/utils.py:336-377 | a batch with good results keeps the loop invariant |
| QueryProperties.LogProgress | eval/utils.py:338-345 | a cached batch keeps the loop invariant |
| QueryProperties.AnnotatedStep | eval/utils.py:370-376 | an annotated batch keeps the loop invariant |
| QueryProperties.AnnotateProgress | eval/utils.py:370-376 | annotation without error keeps the loop invariant |
| QueryProperties.BatchProgress | eval/utils.py:337-377 | a batch that does not raise keeps the loop invariant |
| QueryProperties.RunProgress | eval/utils.py:336-377 | a batch loop that does not raise holds one good result per instance |
| QueryProperties.ExistingKeyed | eval/utils.py:319-324 | each record of the index carries its key as id |
| QueryProperties.QueryResults | eval/utils.py:314-378 | on normal return there is one result per instance, in instance order and with its id. Each result is either the cached record or the instance annotated in place. The lines written are exactly the results |
| QueryProperties.CallsUseExtended | eval/utils.py:350-357 | a trace whose later calls use the options still has every call using them |
| QueryProperties.AppendCallsUse | eval/utils.py:339-343 | writing lines keeps every call using the options |
| QueryProperties.BatchCallsUse | eval/utils.py:350-357 | a batch's calls use the options with the default temperature |
| QueryProperties.RunCallsUse | eval/utils.py:336-377 | every call of the batch loop uses the options with the default temperature |
| QueryProperties.QueryTemperature | eval/utils.py:326-357 | every API call carries the caller's temperature if given and 0.0 otherwise, with the other options unchanged |
| QueryProperties.CachedAppend | eval/utils.py:338-339 | the cached records of two batches together are those of each, in order |
| QueryProperties.RunFromLog | eval/utils.py:336-345 | when every id is cached, the loop makes no call, raises nothing and appends the cached records of all instances |
| QueryProperties.LogIndexDistinct | eval/utils.py:319-324 | for a file of distinct ids, each id's line is found again by its id |
| QueryProperties.QueryFromLog | eval/utils.py:314-378 | a reuse run on a file that covers every id returns the recorded lines and writes them back |
| QueryProperties.StartThenAppend | eval/utils.py:330-345 | after truncation, appending records gives those results and lines, and no call |
| QueryProperties.RerunOnLines | eval/utils.py:314-378 | a reuse run on a file of distinct ids, with instances having those ids, makes no call and returns the file's lines |
| QueryProperties.Rerun | eval/utils.py:314-378 | re-running with reuse on the file a successful run wrote, with instances of distinct ids, makes no API call, raises nothing, returns the same results and writes the same lines |
| QueryModel.BuildRequests | eval/utils.py:346-349 | the loop builds `messages_list` |
| QueryModel.WriteLines | eval/utils.py:340-343 | extending the results and writing the lines, as Append says |
| QueryModel.RetryDispatch | eval/utils.py:350-366 | the retry loop, as the retry function says |
| QueryModel.AnnotateBatch | eval/utils.py:370-376 | assigns each instance of the batch in the array in place and appends it, as the annotation function says |
| QueryModel.RunBatch | eval/utils.py:337-376 | one batch on the array of instances, as the batch function says |
| QueryModel.BatchStep | eval/utils.py:336-377 | one batch, stated as one step of the batch loop |
| QueryModel.RunBatches | eval/utils.py:336-377 | the batch loop on the array of instances, as the loop function says |
| QueryModel.QueryRun | eval/utils.py:319-378 | a whole run: the instances, results, exception and trace are those of the run function |
| QueryModel.QueryChatModel | eval/utils.py:314-378 | `query_openai_chat_model`: a run with chat requests and message content extraction |
| QueryModel.QueryCompletionModel | eval/utils.py:381-445 | `query_openai_model`: a run with prompt requests and text extraction |

## Left out

- `get_next_word_predictions`, `load_hf_lm_and_tokenizer` and the other model-loading
  and encoding helpers of `eval/utils.py` are not part of this model. They are
  tensor and library glue with no logic of their own.
- The tokenizer, `model.generate`, `batch_decode`, the loss of the scoring
  model and `encode_with_prompt_completion_format` are parameters. Their
  attention masks, devices (`.cuda()`) and special-token handling are not
  modelled.
- `tqdm` progress bars are left out, except the division in the update of
  generate_completions (line 99). That division raises ZeroDivisionError when
  `num_return_sequences` is 0 and the bar is on, and the model keeps it as
  `ProgressDivisionByZero`. `print` logging and `fout.flush()` are left out;
  a line written is modelled as written at once.
- Generation.Generate: `num_return_sequences` is a `nat`, so a negative value,
  which Python would pass on to `model.generate`, cannot be given to the model.
- JSON encoding and decoding of lines is left out. A line is the record it
  encodes, so keys of an instance other than id, prompt, output and
  response_metadata are not modelled.
- `os.path.exists` and the file system are left out. The caller's choice of
  `OutputPath` says whether the file exists and what it holds.
- `asyncio.run` and the concurrency inside the dispatch functions are left out.
  A call is one atomic outcome of the dispatcher oracle.
- `time.sleep` only appears as a `Slept` event; no clock is modelled.
- The default argument values are not defaults in the model; the caller
  passes every argument. These are `batch_size=1` and `num_return_sequences=1`
  of `generate_completions`, and `batch_size=10`, `retry_limit=5` and
  `reuse_existing_outputs=True` of the query runners.
- Aliasing between instances is not modelled. If the same dict occurs twice
  in `instances`, annotating one annotates the other in Python; the model
  updates array elements as independent values.
- The aliasing between results and instances is not modelled either.
  `results` holds references to the annotated dicts in Python. In the model,
  the results hold the annotated values, which are also stored in the array,
  so the two are equal but not linked.
- Generation.BatchGenerations: the failure fallback is modelled as raising
  inside `model.generate` or the post-pass, before `batch_prompts` is
  reassigned. An exception after line 74 would make the fallback use the
  decoded, expanded prompt list and break the count; the model does not
  express that case.
- Generation.GenerateCompletions: erroring calls of the tokenizer outside the
  `try` (line 39) are not modelled; only the `try` body may raise.
- QueryModel.QueryRun: exceptions raised by reading or writing the file, or
  by a malformed line in it (a missing "id"), are not modelled. Only the
  exceptions of the batch loop are modelled: ValueError for a zero batch
  size, RuntimeError on exhausted retries, UnboundLocalError on `outputs`,
  the length assertion, and a missing response field.
- Scoring.ScoreCompletions: the import of `encode_with_prompt_completion_format`
  is commented out (eval/utils.py:9), so the source as written raises NameError
  at line 184 on the first unrolled pair and returns only when no example has a
  completion. The model takes the scoring call as a parameter and describes the
  function as it would run with that helper imported.
- QueryTypes.Extract: a missing "content" key (chat, line 371) or "text" key
  (completion, line 438) is modelled (KeyError, a MalformedResponse in the
  model), but a "content" or "text" that is present and null is not. Python
  then sets `output` to None and the run goes on; the model has no value for it.
- StopCriteria.KeyWordsCriteria.Call: the `scores` argument and `**kwargs`
  are ignored by the source and are not parameters of the model.
