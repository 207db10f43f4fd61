/**
 * The per-row post-pass of `generate_completions` (eval/utils.py): because the
 * stopping criterion halts the whole batch at once, a row may hold a stop
 * sequence followed by more tokens. For every output row the pass scans the
 * generated positions (from the padded prompt length on) and, at the first
 * position where a whole stop sequence starts, overwrites that position and
 * everything after it with the pad token id.
 */
module StopTruncation {
  import opened Wrappers

  /** Python's `row[t:t+len]`: the slice is clipped at the end of the row. */
  function Window(row: seq<int>, t: nat, len: nat): (w: seq<int>)
    requires t <= |row|
  {
    row[t..Min(t + len, |row|)]
  }

  /** `row[t:t+len(stop)] == stop` */
  predicate StopAt(row: seq<int>, t: nat, stop: seq<int>)
    requires t <= |row|
  {
    Window(row, t, |stop|) == stop
  }

  /** `any(row[t:t+len(s)] == s for s in stops)` */
  predicate AnyStopAt(row: seq<int>, t: nat, stops: seq<seq<int>>)
    requires t <= |row|
  {
    exists j :: 0 <= j < |stops| && StopAt(row, t, stops[j])
  }

  /** The clipped slice matches only where the whole stop sequence fits. */
  lemma StopAtMeaning(row: seq<int>, t: nat, stop: seq<int>)
    requires t <= |row|
    ensures StopAt(row, t, stop) <==> t + |stop| <= |row| && row[t..t + |stop|] == stop
  {
    if t + |stop| > |row| {
      assert |Window(row, t, |stop|)| < |stop|;
    }
  }

  /** The first position at or after `from` where some stop sequence starts. */
  function FirstStop(row: seq<int>, from: nat, stops: seq<seq<int>>): (r: Option<nat>)
    ensures r.Some? ==> from <= r.value < |row| && AnyStopAt(row, r.value, stops)
    ensures r.Some? ==> forall t :: from <= t < r.value ==> !AnyStopAt(row, t, stops)
    ensures r.None? ==> forall t :: from <= t < |row| ==> !AnyStopAt(row, t, stops)
    decreases |row| - from
  {
    if from >= |row| then None
    else if AnyStopAt(row, from, stops) then Some(from)
    else FirstStop(row, from + 1, stops)
  }

  /** The row after the post-pass. */
  function TruncateRow(row: seq<int>, promptLen: nat, stops: seq<seq<int>>, pad: int): (r: seq<int>)
    ensures |r| == |row|
  {
    match FirstStop(row, promptLen, stops)
    case None => row
    case Some(k) => row[..k] + seq(|row| - k, _ => pad)
  }

  /**
   * The post-pass, characterised position by position: the prompt part is
   * untouched; when a stop sequence starts at some generated position, the
   * first such position `k` and everything after it become `pad` while
   * everything before `k` is kept; with no such position the row is kept.
   */
  lemma TruncateRowMeaning(row: seq<int>, promptLen: nat, stops: seq<seq<int>>, pad: int, k: nat)
    requires promptLen <= k < |row| && AnyStopAt(row, k, stops)
    requires forall t :: promptLen <= t < k ==> !AnyStopAt(row, t, stops)
    ensures |TruncateRow(row, promptLen, stops, pad)| == |row|
    ensures forall j :: 0 <= j < k ==> TruncateRow(row, promptLen, stops, pad)[j] == row[j]
    ensures forall j :: k <= j < |row| ==> TruncateRow(row, promptLen, stops, pad)[j] == pad
  {
    assert FirstStop(row, promptLen, stops) == Some(k);
  }

  /** With no stop sequence starting at a generated position the row is unchanged. */
  lemma TruncateRowNoStop(row: seq<int>, promptLen: nat, stops: seq<seq<int>>, pad: int)
    requires forall t :: promptLen <= t < |row| ==> !AnyStopAt(row, t, stops)
    ensures TruncateRow(row, promptLen, stops, pad) == row
  {
    assert FirstStop(row, promptLen, stops).None?;
  }

  /** The post-pass never touches the prompt part of a row, and keeps its length. */
  lemma TruncateRowKeepsPrompt(row: seq<int>, promptLen: nat, stops: seq<seq<int>>, pad: int)
    ensures |TruncateRow(row, promptLen, stops, pad)| == |row|
    ensures forall j :: 0 <= j < promptLen && j < |row| ==> TruncateRow(row, promptLen, stops, pad)[j] == row[j]
  {
  }

  /**
   * After the pass, let `cut` be where the padding starts (the row's length if
   * nothing was cut). No stop sequence lies wholly inside the kept generated
   * part `[promptLen, cut)`: any window there equals the original row's
   * window, which the first-match search already rejected.
   */
  lemma NoStopBeforeCut(row: seq<int>, promptLen: nat, stops: seq<seq<int>>, pad: int, t: nat, j: nat)
    requires 0 <= j < |stops|
    requires promptLen <= t
    requires var cut := match FirstStop(row, promptLen, stops) case None => |row| case Some(k) => k;
      t < cut && t + |stops[j]| <= cut
    ensures t <= |TruncateRow(row, promptLen, stops, pad)|
    ensures !StopAt(TruncateRow(row, promptLen, stops, pad), t, stops[j])
  {
    var r := TruncateRow(row, promptLen, stops, pad);
    var cut := match FirstStop(row, promptLen, stops) case None => |row| case Some(k) => k;
    var s := stops[j];
    StopAtMeaning(r, t, s);
    StopAtMeaning(row, t, s);
    assert r[t..t + |s|] == row[t..t + |s|];
    assert !AnyStopAt(row, t, stops);
  }

  /**
   * The padding written by the pass can itself complete a stop sequence that
   * straddles the cut: with stops `[5, 0]` and `[7]` and pad 0, the row
   * `[5, 7, 9]` is cut at position 1 (where `[7]` starts), and the result
   * `[5, 0, 0]` has `[5, 0]` at position 0.
   */
  lemma PaddingCanCompleteAStop()
    ensures TruncateRow([5, 7, 9], 0, [[5, 0], [7]], 0) == [5, 0, 0]
    ensures StopAt([5, 0, 0], 0, [5, 0])
  {
    var row := [5, 7, 9];
    var stops := [[5, 0], [7]];
    assert !StopAt(row, 0, stops[0]) by { assert Window(row, 0, 2) == [5, 7]; }
    assert !StopAt(row, 0, stops[1]) by { assert Window(row, 0, 1) == [5]; }
    assert StopAt(row, 1, stops[1]) by { assert Window(row, 1, 1) == [7]; }
    assert FirstStop(row, 1, stops) == Some(1);
    assert FirstStop(row, 0, stops) == Some(1);
    assert Window([5, 0, 0], 0, 2) == [5, 0];
  }

  /** Row `i` of a two-dimensional output tensor. */
  function RowOf(a: array2<int>, i: nat): seq<int>
    requires i < a.Length0
    reads a
  {
    seq(a.Length1, j requires 0 <= j < a.Length1 reads a => a[i, j])
  }

  /** `batch_outputs[i, t:t+len(stop)].tolist() == stop`, compared token by token. */
  method WindowEquals(a: array2<int>, i: nat, t: nat, stop: seq<int>) returns (eq: bool)
    requires i < a.Length0 && t <= a.Length1
    ensures eq == StopAt(RowOf(a, i), t, stop)
  {
    ghost var row := RowOf(a, i);
    StopAtMeaning(row, t, stop);
    if t + |stop| > a.Length1 {
      return false;
    }
    var q := 0;
    while q < |stop|
      invariant 0 <= q <= |stop|
      invariant forall p :: 0 <= p < q ==> row[t + p] == stop[p]
    {
      if a[i, t + q] != stop[q] {
        assert row[t..t + |stop|][q] != stop[q];
        return false;
      }
      q := q + 1;
    }
    assert row[t..t + |stop|] == stop;
    return true;
  }

  /** `any(...)` over the stop sequences at position `t` of row `i`. */
  method AnyStopStartsAt(a: array2<int>, i: nat, t: nat, stops: seq<seq<int>>) returns (found: bool)
    requires i < a.Length0 && t <= a.Length1
    ensures found == AnyStopAt(RowOf(a, i), t, stops)
  {
    var j := 0;
    while j < |stops|
      invariant 0 <= j <= |stops|
      invariant forall q :: 0 <= q < j ==> !StopAt(RowOf(a, i), t, stops[q])
    {
      var eq := WindowEquals(a, i, t, stops[j]);
      if eq {
        return true;
      }
      j := j + 1;
    }
    return false;
  }

  /** The post-pass on one row of the tensor; the other rows are untouched. */
  method TruncateRowInPlace(a: array2<int>, i: nat, promptLen: nat, stops: seq<seq<int>>, pad: int)
    requires i < a.Length0
    modifies a
    ensures RowOf(a, i) == TruncateRow(old(RowOf(a, i)), promptLen, stops, pad)
    ensures forall q, j :: 0 <= q < a.Length0 && q != i && 0 <= j < a.Length1 ==> a[q, j] == old(a[q, j])
  {
    ghost var row := RowOf(a, i);
    var t := promptLen;
    while t < a.Length1
      invariant promptLen <= t
      invariant forall u :: promptLen <= u < t && u < |row| ==> !AnyStopAt(row, u, stops)
      invariant forall q, p :: 0 <= q < a.Length0 && 0 <= p < a.Length1 ==> a[q, p] == old(a[q, p])
      decreases a.Length1 - t
    {
      var found := AnyStopStartsAt(a, i, t, stops);
      if found {
        var j := t;
        while j < a.Length1
          invariant t <= j <= a.Length1
          invariant forall p :: 0 <= p < t ==> a[i, p] == row[p]
          invariant forall p :: t <= p < j ==> a[i, p] == pad
          invariant forall q, p :: 0 <= q < a.Length0 && q != i && 0 <= p < a.Length1 ==> a[q, p] == old(a[q, p])
        {
          a[i, j] := pad;
          j := j + 1;
        }
        TruncateRowMeaning(row, promptLen, stops, pad, t);
        assert RowOf(a, i) == TruncateRow(row, promptLen, stops, pad);
        return;
      }
      t := t + 1;
    }
    TruncateRowNoStop(row, promptLen, stops, pad);
  }

  /**
   * The whole post-pass: every row of the tensor becomes its truncated self.
   * `promptLen` is the padded prompt width `batch_input_ids.shape[1]`.
   */
  method TruncateAtStops(outputs: array2<int>, promptLen: nat, stops: seq<seq<int>>, pad: int)
    modifies outputs
    ensures forall i :: 0 <= i < outputs.Length0 ==>
      RowOf(outputs, i) == TruncateRow(old(RowOf(outputs, i)), promptLen, stops, pad)
  {
    var i := 0;
    while i < outputs.Length0
      invariant 0 <= i <= outputs.Length0
      invariant forall q :: 0 <= q < i ==>
        RowOf(outputs, q) == TruncateRow(old(RowOf(outputs, q)), promptLen, stops, pad)
      invariant forall q :: i <= q < outputs.Length0 ==> RowOf(outputs, q) == old(RowOf(outputs, q))
    {
      label before:
      TruncateRowInPlace(outputs, i, promptLen, stops, pad);
      forall q | 0 <= q < outputs.Length0 && q != i
        ensures RowOf(outputs, q) == old@before(RowOf(outputs, q))
      {
      }
      i := i + 1;
    }
  }
}
