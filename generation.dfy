/**
 * `generate_completions` (eval/utils.py): prompts are cut into consecutive
 * batches, each batch is tokenized, generated, cut at stop sequences row by
 * row, decoded, and each completion is what follows the re-decoded prompt in
 * the decoded output. A batch that raises contributes empty strings, and the
 * run ends by asserting that there is one completion per prompt and return
 * sequence. The tokenizer, the model's `generate` and the detokenizer are
 * parameters of the model; a per-batch oracle says whether the batch raises.
 */
module Generation {
  import opened Wrappers
  import StopTruncation
  import opened Arithmetic

  /** A two-dimensional id tensor, as a sequence of rows. */
  type Tensor = seq<seq<int>>

  /** A tensor's rows all have the same length. */
  predicate IsRectangular(m: Tensor)
  {
    forall i :: 0 <= i < |m| ==> |m[i]| == |m[0]|
  }

  /** `shape[1]` of a tensor. */
  function Width(m: Tensor): nat
  {
    if |m| == 0 then 0 else |m[0]|
  }

  /**
   * The collaborators of the local backend.
   * - tokenize: `tokenizer(batch, padding="longest", add_special_tokens=False).input_ids`
   * - generate: `model.generate(input_ids, ..., stopping_criteria)`; its second
   *   argument is the stop id sequences when a `KeyWordsCriteria` is passed and
   *   None otherwise
   * - decode: `tokenizer.decode(row, skip_special_tokens=True)`
   */
  datatype Backend = Backend(
    tokenize: seq<string> -> Tensor,
    generate: (Tensor, Option<seq<seq<int>>>) -> Tensor,
    decode: seq<int> -> string,
    padTokenId: int)

  /**
   * What a call can raise: `range` with step 0, the progress bar's update
   * `len(batch_prompts) // num_return_sequences` with zero return sequences,
   * or the final cardinality assertion.
   */
  datatype GenerationError = ZeroBatchSize | ProgressDivisionByZero | CountMismatch(got: nat, expected: nat)

  /** What the generator returns is a tensor (rectangular), as torch guarantees. */
  ghost predicate ReturnsTensors(b: Backend)
  {
    forall ids, c :: IsRectangular(b.generate(ids, c))
  }

  /** Tokenizer and generator return the tensor shapes the source relies on. */
  ghost predicate WellShaped(b: Backend, n: nat)
  {
    && (forall batch :: |b.tokenize(batch)| == |batch|)
    && (forall ids, c :: |b.generate(ids, c)| == Mul(|ids|, n))
  }

  /** `stopping_criteria=[KeyWordsCriteria(stops)] if stops else None` */
  function Criterion(stops: seq<seq<int>>): Option<seq<seq<int>>>
  {
    if |stops| > 0 then Some(stops) else None
  }

  /** Python's `s[k:]` on a string: empty when k is past the end. */
  function PyDrop(s: string, k: nat): string
  {
    if k >= |s| then [] else s[k..]
  }

  /** `[p for p in ps for _ in range(n)]` */
  function Expand(ps: seq<string>, n: nat): (expanded: seq<string>)
  {
    if ps == [] then [] else seq(n, _ => ps[0]) + Expand(ps[1..], n)
  }

  /** Each prompt is repeated n times in place: entry `q * n + r` is prompt q. */
  lemma {:induction false} ExpandAt(ps: seq<string>, n: nat, q: nat, r: nat)
    requires q < |ps| && r < n
    ensures |Expand(ps, n)| == Mul(|ps|, n)
    ensures Mul(q, n) + r < |Expand(ps, n)|
    ensures Expand(ps, n)[Mul(q, n) + r] == ps[q]
  {
    ExpandLength(ps, n);
    MulBelow(q, r, n, |ps|);
    if q > 0 {
      ExpandAt(ps[1..], n, q - 1, r);
      var k := Mul(q - 1, n) + r;
      assert Mul(q, n) + r == n + k;
      assert Expand(ps, n)[n + k] == Expand(ps[1..], n)[k];
    }
  }

  lemma {:induction false} ExpandLength(ps: seq<string>, n: nat)
    ensures |Expand(ps, n)| == Mul(|ps|, n)
  {
    if ps != [] {
      ExpandLength(ps[1..], n);
    }
  }

  /** The stop post-pass applied to every row of the generated tensor. */
  function TruncateAll(outs: seq<seq<int>>, promptLen: nat, stops: seq<seq<int>>, pad: int): (rows: seq<seq<int>>)
    ensures |rows| == |outs|
    ensures forall k :: 0 <= k < |outs| ==> rows[k] == StopTruncation.TruncateRow(outs[k], promptLen, stops, pad)
  {
    if outs == [] then []
    else [StopTruncation.TruncateRow(outs[0], promptLen, stops, pad)] + TruncateAll(outs[1..], promptLen, stops, pad)
  }

  /** `tokenizer.batch_decode(rows, skip_special_tokens=True)` */
  function DecodeAll(decode: seq<int> -> string, rows: seq<seq<int>>): (texts: seq<string>)
    ensures |texts| == |rows|
    ensures forall k :: 0 <= k < |rows| ==> texts[k] == decode(rows[k])
  {
    if rows == [] then [] else [decode(rows[0])] + DecodeAll(decode, rows[1..])
  }

  /** `[output[len(prompt):] for prompt, output in zip(prompts, outputs)]`; zip stops at the shorter list. */
  function StripPrompts(prompts: seq<string>, outputs: seq<string>): (completions: seq<string>)
    ensures |completions| == Min(|prompts|, |outputs|)
    ensures forall k :: 0 <= k < |completions| ==> completions[k] == PyDrop(outputs[k], |prompts[k]|)
  {
    if prompts == [] || outputs == [] then []
    else [PyDrop(outputs[0], |prompts[0]|)] + StripPrompts(prompts[1..], outputs[1..])
  }

  /** `[""] * len(batch) * n` */
  function Blank(count: nat): (r: seq<string>)
    ensures |r| == count
    ensures forall k :: 0 <= k < count ==> r[k] == ""
  {
    seq(count, _ => "")
  }

  /** The rows handed to the detokenizer: stop-truncated when stop sequences are configured. */
  function OutputRows(ids: Tensor, b: Backend, stops: seq<seq<int>>): (rows: seq<seq<int>>)
    ensures var outs := b.generate(ids, Criterion(stops));
      && |rows| == |outs|
      && forall k :: 0 <= k < |outs| ==>
           rows[k] == if |stops| > 0 then StopTruncation.TruncateRow(outs[k], Width(ids), stops, b.padTokenId) else outs[k]
  {
    var outs := b.generate(ids, Criterion(stops));
    if |stops| > 0 then TruncateAll(outs, Width(ids), stops, b.padTokenId) else outs
  }

  /** The completions of one batch, `failed` saying whether its `try` body raised. */
  function BatchGenerations(batch: seq<string>, failed: bool, b: Backend, stops: seq<seq<int>>, n: nat): (gens: seq<string>)
  {
    if failed then Blank(Mul(|batch|, n))
    else
      var ids := b.tokenize(batch);
      StripPrompts(Expand(DecodeAll(b.decode, ids), n), DecodeAll(b.decode, OutputRows(ids, b, stops)))
  }

  /**
   * `for i in range(0, len(prompts), bs): generations += batch_fn(prompts[i:i+bs], i)`
   * from batch start `i` on: the batch loop, with the batch body as a parameter.
   */
  function ConcatBatches(prompts: seq<string>, i: nat, bs: nat, batchFn: (seq<string>, nat) -> seq<string>): (gens: seq<string>)
    requires bs > 0
    decreases |prompts| - i
  {
    if i >= |prompts| then []
    else batchFn(prompts[i..Min(i + bs, |prompts|)], i) + ConcatBatches(prompts, i + bs, bs, batchFn)
  }

  /** One step of the batch loop. */
  lemma ConcatStep(prompts: seq<string>, i: nat, bs: nat, batchFn: (seq<string>, nat) -> seq<string>)
    requires bs > 0 && i < |prompts|
    ensures ConcatBatches(prompts, i, bs, batchFn)
         == batchFn(prompts[i..Min(i + bs, |prompts|)], i) + ConcatBatches(prompts, i + bs, bs, batchFn)
  {
  }

  /** Appending the results of batch `i` to those before it keeps the batch loop's invariant. */
  lemma ConcatExtend(prompts: seq<string>, i: nat, bs: nat, batchFn: (seq<string>, nat) -> seq<string>,
                     done: seq<string>, next: seq<string>)
    requires bs > 0 && i < |prompts|
    requires done + ConcatBatches(prompts, i, bs, batchFn) == ConcatBatches(prompts, 0, bs, batchFn)
    requires next == batchFn(prompts[i..Min(i + bs, |prompts|)], i)
    ensures (done + next) + ConcatBatches(prompts, i + bs, bs, batchFn) == ConcatBatches(prompts, 0, bs, batchFn)
  {
    var rest := ConcatBatches(prompts, i + bs, bs, batchFn);
    ConcatStep(prompts, i, bs, batchFn);
    assert (done + next) + rest == done + (next + rest);
  }

  /** The body of the batch loop of `generate_completions`. */
  function BatchFn(b: Backend, stops: seq<seq<int>>, n: nat, fails: nat -> bool): (seq<string>, nat) -> seq<string>
  {
    (batch: seq<string>, start: nat) => BatchGenerations(batch, fails(start), b, stops, n)
  }

  /**
   * With the progress bar on, the first batch's update divides by
   * `num_return_sequences`, after that batch's completions are added.
   */
  predicate ProgressRaises(prompts: seq<string>, disableTqdm: bool, n: nat)
  {
    !disableTqdm && n == 0 && |prompts| > 0
  }

  /**
   * The value of a whole call: `range(0, len, 0)` raises; a negative step
   * gives no batches; a positive one may raise in the progress update.
   */
  function Generate(prompts: seq<string>, batchSize: int, b: Backend, stops: seq<seq<int>>, disableTqdm: bool,
                    n: nat, fails: nat -> bool): (r: Result<seq<string>, GenerationError>)
    ensures batchSize == 0 ==> r == Err(ZeroBatchSize)
    ensures batchSize > 0 && ProgressRaises(prompts, disableTqdm, n) ==> r == Err(ProgressDivisionByZero)
    ensures r.Ok? ==> |r.value| == Mul(|prompts|, n)
  {
    if batchSize == 0 then Err(ZeroBatchSize)
    else if batchSize > 0 && ProgressRaises(prompts, disableTqdm, n) then Err(ProgressDivisionByZero)
    else
      var g := if batchSize > 0 then ConcatBatches(prompts, 0, batchSize, BatchFn(b, stops, n, fails)) else [];
      if |g| == Mul(|prompts|, n) then Ok(g) else Err(CountMismatch(|g|, Mul(|prompts|, n)))
  }

  /** A batch that raises contributes `len(batch) * n` empty strings. */
  lemma FailedBatch(batch: seq<string>, b: Backend, stops: seq<seq<int>>, n: nat)
    ensures |BatchGenerations(batch, true, b, stops, n)| == Mul(|batch|, n)
    ensures forall j :: 0 <= j < Mul(|batch|, n) ==> BatchGenerations(batch, true, b, stops, n)[j] == ""
  {
  }

  /** With well-shaped collaborators every batch yields `len(batch) * n` completions. */
  lemma BatchLength(batch: seq<string>, failed: bool, b: Backend, stops: seq<seq<int>>, n: nat)
    requires WellShaped(b, n)
    ensures |BatchGenerations(batch, failed, b, stops, n)| == Mul(|batch|, n)
  {
    if !failed {
      var ids := b.tokenize(batch);
      ExpandLength(DecodeAll(b.decode, ids), n);
    }
  }

  /**
   * Pairing: in a batch that did not raise, completion `q * n + r` is the
   * decoded, stop-truncated output row `q * n + r` with the first
   * `len(decoded prompt q)` characters dropped.
   */
  lemma BatchPairing(batch: seq<string>, b: Backend, stops: seq<seq<int>>, n: nat, q: nat, r: nat)
    requires WellShaped(b, n)
    requires q < |batch| && r < n
    ensures var ids := b.tokenize(batch);
      var outs := b.generate(ids, Criterion(stops));
      var j := Mul(q, n) + r;
      && |BatchGenerations(batch, false, b, stops, n)| == Mul(|batch|, n)
      && j < |outs| && q < |ids|
      && var row := if |stops| > 0 then StopTruncation.TruncateRow(outs[j], Width(ids), stops, b.padTokenId) else outs[j];
         BatchGenerations(batch, false, b, stops, n)[j] == PyDrop(b.decode(row), |b.decode(ids[q])|)
  {
    var ids := b.tokenize(batch);
    var rows := OutputRows(ids, b, stops);
    StripAt(ids, rows, b.decode, n, q, r);
  }

  /** The pairing of decoded prompts, repeated n times, with decoded output rows. */
  lemma StripAt(ids: seq<seq<int>>, rows: seq<seq<int>>, decode: seq<int> -> string, n: nat, q: nat, r: nat)
    requires q < |ids| && r < n && |rows| == Mul(|ids|, n)
    ensures var g := StripPrompts(Expand(DecodeAll(decode, ids), n), DecodeAll(decode, rows));
      && |g| == Mul(|ids|, n)
      && Mul(q, n) + r < |g|
      && g[Mul(q, n) + r] == PyDrop(decode(rows[Mul(q, n) + r]), |decode(ids[q])|)
  {
    ExpandAt(DecodeAll(decode, ids), n, q, r);
  }

  /** Batches of well-shaped results concatenate to one result per remaining prompt and return sequence. */
  lemma {:induction false} ConcatLength(prompts: seq<string>, i: nat, bs: nat, n: nat,
                                        batchFn: (seq<string>, nat) -> seq<string>)
    requires bs > 0 && i <= |prompts|
    requires forall batch, start :: |batchFn(batch, start)| == Mul(|batch|, n)
    ensures |ConcatBatches(prompts, i, bs, batchFn)| == Mul(|prompts| - i, n)
    decreases |prompts| - i
  {
    if i < |prompts| {
      var hi := Min(i + bs, |prompts|);
      if i + bs <= |prompts| {
        ConcatLength(prompts, i + bs, bs, n, batchFn);
      }
      MulAdd(hi - i, |prompts| - hi, n);
    }
  }

  /** From batch start `i`, the results from any later batch start `i + m * bs` on form a suffix. */
  lemma {:induction false} ConcatSuffix(prompts: seq<string>, i: nat, bs: nat,
                                        batchFn: (seq<string>, nat) -> seq<string>, m: nat)
    requires bs > 0 && i + Mul(m, bs) <= |prompts|
    ensures var all := ConcatBatches(prompts, i, bs, batchFn);
      var tail := ConcatBatches(prompts, i + Mul(m, bs), bs, batchFn);
      |tail| <= |all| && all[|all| - |tail|..] == tail
    decreases m
  {
    if m > 0 {
      var start := i + Mul(m, bs);
      assert start == (i + bs) + Mul(m - 1, bs);
      ConcatStep(prompts, i, bs, batchFn);
      ConcatSuffix(prompts, i + bs, bs, batchFn, m - 1);
    }
  }

  /** The j-th result of the batch starting at `start` sits just before the results of the later batches. */
  lemma ConcatAt(prompts: seq<string>, i: nat, bs: nat, batchFn: (seq<string>, nat) -> seq<string>, m: nat, j: nat)
    requires bs > 0 && i + Mul(m, bs) < |prompts|
    requires var start := i + Mul(m, bs); j < |batchFn(prompts[start..Min(start + bs, |prompts|)], start)|
    ensures var start := i + Mul(m, bs);
      var all := ConcatBatches(prompts, i, bs, batchFn);
      var tail := ConcatBatches(prompts, start, bs, batchFn);
      && |tail| <= |all|
      && |all| - |tail| + j < |all|
      && all[|all| - |tail| + j] == batchFn(prompts[start..Min(start + bs, |prompts|)], start)[j]
  {
    var start := i + Mul(m, bs);
    ConcatSuffix(prompts, i, bs, batchFn, m);
    ConcatStep(prompts, start, bs, batchFn);
  }

  /**
   * Cardinality: with a positive batch size and well-shaped collaborators the
   * call returns exactly `len(prompts) * n` completions, whichever batches
   * raise, unless the progress update divides by zero.
   */
  lemma GenerateCardinality(prompts: seq<string>, batchSize: int, b: Backend, stops: seq<seq<int>>, disableTqdm: bool,
                            n: nat, fails: nat -> bool)
    requires batchSize > 0 && WellShaped(b, n)
    ensures Generate(prompts, batchSize, b, stops, disableTqdm, n, fails).Ok? <==> !ProgressRaises(prompts, disableTqdm, n)
    ensures Generate(prompts, batchSize, b, stops, disableTqdm, n, fails).Ok? ==>
      |Generate(prompts, batchSize, b, stops, disableTqdm, n, fails).value| == Mul(|prompts|, n)
  {
    var f := BatchFn(b, stops, n, fails);
    forall batch, start ensures |f(batch, start)| == Mul(|batch|, n) {
      BatchLength(batch, fails(start), b, stops, n);
    }
    ConcatLength(prompts, 0, batchSize, n, f);
  }

  /**
   * Pairing in the whole result: for the batch starting at prompt `start`
   * (a multiple of the batch size), entry `start * n + j` of the result is
   * completion j of that batch.
   */
  lemma GeneratePairing(prompts: seq<string>, batchSize: int, b: Backend, stops: seq<seq<int>>, disableTqdm: bool,
                        n: nat, fails: nat -> bool, m: nat, j: nat)
    requires batchSize > 0 && WellShaped(b, n)
    requires Mul(m, batchSize) < |prompts|
    requires var start := Mul(m, batchSize);
      j < Mul(|prompts[start..Min(start + batchSize, |prompts|)]|, n)
    ensures var start := Mul(m, batchSize);
      var batch := prompts[start..Min(start + batchSize, |prompts|)];
      && Generate(prompts, batchSize, b, stops, disableTqdm, n, fails).Ok?
      && |BatchGenerations(batch, fails(start), b, stops, n)| == Mul(|batch|, n)
      && Mul(start, n) + j < |Generate(prompts, batchSize, b, stops, disableTqdm, n, fails).value|
      && Generate(prompts, batchSize, b, stops, disableTqdm, n, fails).value[Mul(start, n) + j]
         == BatchGenerations(batch, fails(start), b, stops, n)[j]
  {
    var f := BatchFn(b, stops, n, fails);
    forall batch, start ensures |f(batch, start)| == Mul(|batch|, n) {
      BatchLength(batch, fails(start), b, stops, n);
    }
    ConcatPairing(prompts, batchSize, n, f, m, j);
  }

  /** With batches of `len(batch) * n` results, batch m's j-th result is entry `start * n + j`. */
  lemma ConcatPairing(prompts: seq<string>, bs: nat, n: nat, batchFn: (seq<string>, nat) -> seq<string>, m: nat, j: nat)
    requires bs > 0 && Mul(m, bs) < |prompts|
    requires forall batch, start :: |batchFn(batch, start)| == Mul(|batch|, n)
    requires var start := Mul(m, bs); j < |batchFn(prompts[start..Min(start + bs, |prompts|)], start)|
    ensures var start := Mul(m, bs);
      var all := ConcatBatches(prompts, 0, bs, batchFn);
      && |all| == Mul(|prompts|, n)
      && Mul(start, n) + j < |all|
      && all[Mul(start, n) + j] == batchFn(prompts[start..Min(start + bs, |prompts|)], start)[j]
  {
    var start := Mul(m, bs);
    var all := ConcatBatches(prompts, 0, bs, batchFn);
    var tail := ConcatBatches(prompts, start, bs, batchFn);
    ConcatLength(prompts, 0, bs, n, batchFn);
    ConcatAt(prompts, 0, bs, batchFn, m, j);
    ConcatLength(prompts, start, bs, n, batchFn);
    MulSub(start, |prompts|, n);
    var off := |all| - |tail|;
    assert off == Mul(start, n);
    assert all[Mul(start, n) + j] == all[off + j];
  }

  /**
   * Even when every batch raises, the call returns normally with
   * `len(prompts) * n` empty completions, whatever the collaborators do,
   * unless the progress update divides by zero.
   */
  lemma AllBatchesFail(prompts: seq<string>, batchSize: int, b: Backend, stops: seq<seq<int>>, disableTqdm: bool,
                       n: nat, fails: nat -> bool)
    requires batchSize > 0
    requires forall k :: fails(k)
    ensures Generate(prompts, batchSize, b, stops, disableTqdm, n, fails).Ok? <==> !ProgressRaises(prompts, disableTqdm, n)
    ensures var r := Generate(prompts, batchSize, b, stops, disableTqdm, n, fails);
      r.Ok? ==> |r.value| == Mul(|prompts|, n) && forall j :: 0 <= j < Mul(|prompts|, n) ==> r.value[j] == ""
  {
    var f := BatchFn(b, stops, n, fails);
    forall batch, start ensures f(batch, start) == Blank(Mul(|batch|, n)) {
    }
    AllBlankFrom(prompts, 0, batchSize, n, f);
  }

  lemma {:induction false} AllBlankFrom(prompts: seq<string>, i: nat, bs: nat, n: nat,
                                        batchFn: (seq<string>, nat) -> seq<string>)
    requires bs > 0 && i <= |prompts|
    requires forall batch, start :: batchFn(batch, start) == Blank(Mul(|batch|, n))
    ensures ConcatBatches(prompts, i, bs, batchFn) == Blank(Mul(|prompts| - i, n))
    decreases |prompts| - i
  {
    if i < |prompts| {
      var hi := Min(i + bs, |prompts|);
      var first, rest := hi - i, |prompts| - hi;
      ConcatStep(prompts, i, bs, batchFn);
      assert batchFn(prompts[i..hi], i) == Blank(Mul(first, n));
      var tail := ConcatBatches(prompts, i + bs, bs, batchFn);
      if i + bs <= |prompts| {
        AllBlankFrom(prompts, i + bs, bs, n, batchFn);
        assert tail == Blank(Mul(rest, n));
      } else {
        assert tail == [] == Blank(Mul(rest, n));
      }
      assert |prompts| - i == first + rest;
      MulAdd(first, rest, n);
      BlankAppend(Mul(first, n), Mul(rest, n));
    }
  }

  lemma BlankAppend(a: nat, b: nat)
    ensures Blank(a) + Blank(b) == Blank(a + b)
  {
    assert forall k :: 0 <= k < a + b ==> (Blank(a) + Blank(b))[k] == "";
  }

  /** The body of one loop iteration: the `try` block, or the empty-string fallback. */
  method GenerateBatch(batch: seq<string>, failed: bool, b: Backend, stops: seq<seq<int>>, n: nat)
    returns (batchGenerations: seq<string>)
    requires ReturnsTensors(b)
    ensures batchGenerations == BatchGenerations(batch, failed, b, stops, n)
  {
    var ids := b.tokenize(batch);
    if failed {
      return Blank(Mul(|batch|, n));
    }
    var outs := b.generate(ids, Criterion(stops));
    assert IsRectangular(outs);
    var outputs := new int[|outs|, Width(outs)]((r: int, c: int) =>
      if 0 <= r < |outs| && 0 <= c < |outs[r]| then outs[r][c] else 0);
    assert forall r :: 0 <= r < |outs| ==> StopTruncation.RowOf(outputs, r) == outs[r];
    if |stops| > 0 {
      StopTruncation.TruncateAtStops(outputs, Width(ids), stops, b.padTokenId);
    }
    var rows := seq(outputs.Length0, r requires 0 <= r < outputs.Length0 reads outputs =>
      StopTruncation.RowOf(outputs, r));
    assert rows == OutputRows(ids, b, stops);
    var texts := DecodeAll(b.decode, rows);
    var prompts := Expand(DecodeAll(b.decode, ids), n);
    batchGenerations := StripPrompts(prompts, texts);
  }

  /** `generate_completions`: the batch size check, the batch loop and the final cardinality assertion. */
  method GenerateCompletions(prompts: seq<string>, batchSize: int, stops: seq<seq<int>>, disableTqdm: bool, n: nat,
                             b: Backend, fails: nat -> bool)
    returns (r: Result<seq<string>, GenerationError>)
    requires ReturnsTensors(b)
    ensures r == Generate(prompts, batchSize, b, stops, disableTqdm, n, fails)
  {
    if batchSize == 0 {
      return Err(ZeroBatchSize);
    }
    var generations: seq<string> := [];
    if batchSize > 0 {
      var raised;
      generations, raised := RunBatches(prompts, batchSize, stops, disableTqdm, n, b, fails, BatchFn(b, stops, n, fails));
      if raised {
        return Err(ProgressDivisionByZero);
      }
    }
    if |generations| != Mul(|prompts|, n) {
      return Err(CountMismatch(|generations|, Mul(|prompts|, n)));
    }
    return Ok(generations);
  }

  /**
   * The batch loop, accumulating `generations += batch_generations` and then
   * updating the progress bar; `raised` reports the update's division by zero,
   * which ends the loop after the first batch.
   */
  method RunBatches(prompts: seq<string>, batchSize: nat, stops: seq<seq<int>>, disableTqdm: bool, n: nat,
                    b: Backend, fails: nat -> bool, ghost f: (seq<string>, nat) -> seq<string>)
    returns (generations: seq<string>, raised: bool)
    requires batchSize > 0 && ReturnsTensors(b)
    requires forall batch, start {:trigger BatchGenerations(batch, fails(start), b, stops, n)} ::
      f(batch, start) == BatchGenerations(batch, fails(start), b, stops, n)
    ensures raised <==> ProgressRaises(prompts, disableTqdm, n)
    ensures raised ==> generations == f(prompts[..Min(batchSize, |prompts|)], 0)
    ensures !raised ==> generations == ConcatBatches(prompts, 0, batchSize, f)
  {
    generations, raised := [], false;
    var i := 0;
    while i < |prompts|
      invariant i == 0 || !ProgressRaises(prompts, disableTqdm, n)
      invariant generations + ConcatBatches(prompts, i, batchSize, f) == ConcatBatches(prompts, 0, batchSize, f)
      decreases |prompts| - i
    {
      var batch := prompts[i..Min(i + batchSize, |prompts|)];
      var batchGenerations := RunBatch(batch, i, stops, n, b, fails, f);
      ConcatExtend(prompts, i, batchSize, f, generations, batchGenerations);
      generations := generations + batchGenerations;
      if !disableTqdm && n == 0 {
        assert i == 0 && generations == batchGenerations;
        return generations, true;
      }
      i := i + batchSize;
    }
    assert generations == generations + ConcatBatches(prompts, i, batchSize, f);
  }

  /** One iteration of the batch loop, seen through the batch function it computes. */
  method RunBatch(batch: seq<string>, start: nat, stops: seq<seq<int>>, n: nat, b: Backend,
                  fails: nat -> bool, ghost f: (seq<string>, nat) -> seq<string>)
    returns (batchGenerations: seq<string>)
    requires ReturnsTensors(b)
    requires forall batch, start {:trigger BatchGenerations(batch, fails(start), b, stops, n)} ::
      f(batch, start) == BatchGenerations(batch, fails(start), b, stops, n)
    ensures batchGenerations == f(batch, start)
  {
    batchGenerations := GenerateBatch(batch, fails(start), b, stops, n);
  }
}
