/**
 * The batch-wide stopping criterion that the generator consults after every
 * step (`KeyWordsCriteria` in eval/utils.py): generation may halt only when
 * every row of the batch ends with one of the configured stop sequences.
 */
module StopCriteria {

  /**
   * Python's `row[-k:]`. For 0 < k <= |row| this is the last k tokens; a k
   * larger than the row clips to the whole row; and since `-0 == 0`, k == 0
   * also gives the whole row.
   */
  function PyTail(row: seq<int>, k: nat): (tail: seq<int>)
  {
    if k == 0 || k >= |row| then row else row[|row| - k..]
  }

  /** `input_ids[i][-len(stop):].tolist() == stop` */
  predicate EndsWithStop(row: seq<int>, stop: seq<int>)
  {
    PyTail(row, |stop|) == stop
  }

  /** Some configured stop sequence ends this row. */
  predicate RowStopped(row: seq<int>, stops: seq<seq<int>>)
  {
    exists j :: 0 <= j < |stops| && EndsWithStop(row, stops[j])
  }

  /** Every row of the batch ends with some stop sequence. */
  predicate AllStopped(rows: seq<seq<int>>, stops: seq<seq<int>>)
  {
    forall i :: 0 <= i < |rows| ==> RowStopped(rows[i], stops)
  }

  /**
   * What the Python slice comparison means: a non-empty stop sequence ends a
   * row exactly when it fits and equals the row's last |stop| tokens, so a row
   * shorter than the stop sequence never matches it; an empty stop sequence
   * (the `-0` slice) matches only the empty row.
   */
  lemma EndsWithStopMeaning(row: seq<int>, stop: seq<int>)
    ensures EndsWithStop(row, stop) <==>
      (|stop| <= |row| && row[|row| - |stop|..] == stop && (stop == [] ==> row == []))
  {
    if |stop| > |row| {
      assert |PyTail(row, |stop|)| != |stop|;
    }
  }

  /** A row shorter than a stop sequence never ends with it. */
  lemma ShortRowNeverStops(row: seq<int>, stop: seq<int>)
    requires |row| < |stop|
    ensures !EndsWithStop(row, stop)
  {
    EndsWithStopMeaning(row, stop);
  }

  /** An empty batch satisfies the criterion (`all([]) == True`). */
  lemma EmptyBatchStops(stops: seq<seq<int>>)
    ensures AllStopped([], stops)
  {
  }

  /**
   * The stopping-criteria object handed to the generator. It holds the
   * configured stop id sequences and is called with the ids generated so far.
   */
  class KeyWordsCriteria {
    const stopSequences: seq<seq<int>>

    /** The source asserts that the first element is a list, so the list is non-empty. */
    constructor (stopIdSequences: seq<seq<int>>)
      requires |stopIdSequences| > 0
      ensures stopSequences == stopIdSequences
    {
      stopSequences := stopIdSequences;
    }

    /**
     * `__call__`: one flag per row, set when some stop sequence ends the row
     * (the inner loop breaks at the first match); the answer is `all(flags)`.
     */
    method Call(inputIds: seq<seq<int>>) returns (shouldStop: bool)
      ensures shouldStop <==> AllStopped(inputIds, stopSequences)
    {
      var flags: seq<bool> := [];
      var i := 0;
      while i < |inputIds|
        invariant 0 <= i <= |inputIds|
        invariant |flags| == i
        invariant forall k :: 0 <= k < i ==> (flags[k] <==> RowStopped(inputIds[k], stopSequences))
      {
        var rowShouldStop := false;
        var j := 0;
        while j < |stopSequences|
          invariant 0 <= j <= |stopSequences|
          invariant !rowShouldStop
          invariant forall q :: 0 <= q < j ==> !EndsWithStop(inputIds[i], stopSequences[q])
        {
          var stop := stopSequences[j];
          if PyTail(inputIds[i], |stop|) == stop {
            rowShouldStop := true;
            break;
          }
          j := j + 1;
        }
        flags := flags + [rowShouldStop];
        i := i + 1;
      }
      shouldStop := forall k | 0 <= k < |flags| :: flags[k];
    }
  }
}
