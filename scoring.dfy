/**
 * `score_completions` (eval/utils.py): every scoring example `{prompt,
 * completions}` is unrolled into (prompt, completion) pairs in input order,
 * each pair is scored by one call of the model, and the scores are rolled up
 * into a two-level table `table[prompt][completion]`, later pairs overwriting
 * earlier ones. The model call (encoding, forward pass, negated loss) is a
 * parameter: `scorer(k, pair)` is the score the k-th call returns, so two
 * calls on the same pair may return different scores.
 */
module Scoring {

  datatype ScoringExample = ScoringExample(prompt: string, completions: seq<string>)

  datatype Pair = Pair(prompt: string, completion: string)

  /** The pairs of one example, one per completion, in order. */
  function PairsOf(prompt: string, completions: seq<string>): (pairs: seq<Pair>)
    ensures |pairs| == |completions|
    ensures forall k :: 0 <= k < |completions| ==> pairs[k] == Pair(prompt, completions[k])
  {
    if completions == [] then []
    else PairsOf(prompt, completions[..|completions| - 1]) + [Pair(prompt, completions[|completions| - 1])]
  }

  /** The number of completions over all examples. */
  function TotalCompletions(examples: seq<ScoringExample>): nat
  {
    if examples == [] then 0
    else TotalCompletions(examples[..|examples| - 1]) + |examples[|examples| - 1].completions|
  }

  /** The unrolled examples: the pairs of each example, example after example. */
  function Unrolled(examples: seq<ScoringExample>): (pairs: seq<Pair>)
    ensures |pairs| == TotalCompletions(examples)
  {
    if examples == [] then []
    else
      var last := examples[|examples| - 1];
      Unrolled(examples[..|examples| - 1]) + PairsOf(last.prompt, last.completions)
  }

  /** The score list: call k scores pair k. */
  function Scores<S>(pairs: seq<Pair>, scorer: (nat, Pair) -> S): (scores: seq<S>)
    ensures |scores| == |pairs|
    ensures forall k :: 0 <= k < |pairs| ==> scores[k] == scorer(k, pairs[k])
  {
    seq(|pairs|, k requires 0 <= k < |pairs| => scorer(k, pairs[k]))
  }

  /** `if prompt not in t: t[prompt] = {}` followed by `t[prompt][completion] = score`. */
  function Insert<S>(t: map<string, map<string, S>>, pair: Pair, score: S): (t': map<string, map<string, S>>)
    ensures pair.prompt in t' && pair.completion in t'[pair.prompt] && t'[pair.prompt][pair.completion] == score
  {
    var row := if pair.prompt in t then t[pair.prompt] else map[];
    t[pair.prompt := row[pair.completion := score]]
  }

  /** The roll-up loop over `zip(unrolled, scores)`, as a fold from the left. */
  function RollUp<S>(pairs: seq<Pair>, scores: seq<S>): (t: map<string, map<string, S>>)
    requires |scores| == |pairs|
  {
    if pairs == [] then map[]
    else Insert(RollUp(pairs[..|pairs| - 1], scores[..|pairs| - 1]), pairs[|pairs| - 1], scores[|pairs| - 1])
  }

  /** The value `score_completions` returns. */
  function ScoreTable<S>(examples: seq<ScoringExample>, scorer: (nat, Pair) -> S): (t: map<string, map<string, S>>)
  {
    var pairs := Unrolled(examples);
    RollUp(pairs, Scores(pairs, scorer))
  }

  /** A pair is unrolled exactly when some example has that prompt and lists that completion. */
  lemma {:induction false} UnrolledPairs(examples: seq<ScoringExample>, pair: Pair)
    ensures pair in Unrolled(examples) <==>
      exists i :: 0 <= i < |examples| && examples[i].prompt == pair.prompt && pair.completion in examples[i].completions
  {
    if examples != [] {
      var init := examples[..|examples| - 1];
      var last := examples[|examples| - 1];
      UnrolledPairs(init, pair);
      var own := PairsOf(last.prompt, last.completions);
      assert pair in own <==> last.prompt == pair.prompt && pair.completion in last.completions by {
        if pair in own {
          var k :| 0 <= k < |own| && own[k] == pair;
          assert last.completions[k] == pair.completion;
        }
        if last.prompt == pair.prompt && pair.completion in last.completions {
          var k :| 0 <= k < |last.completions| && last.completions[k] == pair.completion;
          assert own[k] == pair;
        }
      }
      if exists i :: 0 <= i < |examples| && examples[i].prompt == pair.prompt && pair.completion in examples[i].completions {
        var i :| 0 <= i < |examples| && examples[i].prompt == pair.prompt && pair.completion in examples[i].completions;
        if i < |init| {
          assert init[i] == examples[i];
        }
      }
    }
  }

  /** A prompt occurs among the unrolled pairs exactly when some example with that prompt has a completion. */
  lemma {:induction false} UnrolledPrompts(examples: seq<ScoringExample>, prompt: string)
    ensures (exists k :: 0 <= k < |Unrolled(examples)| && Unrolled(examples)[k].prompt == prompt) <==>
      exists i :: 0 <= i < |examples| && examples[i].prompt == prompt && |examples[i].completions| > 0
  {
    var pairs := Unrolled(examples);
    if k :| 0 <= k < |pairs| && pairs[k].prompt == prompt {
      UnrolledPairs(examples, pairs[k]);
    }
    if i :| 0 <= i < |examples| && examples[i].prompt == prompt && |examples[i].completions| > 0 {
      var pair := Pair(prompt, examples[i].completions[0]);
      UnrolledPairs(examples, pair);
      var k :| 0 <= k < |pairs| && pairs[k] == pair;
      assert pairs[k].prompt == prompt;
    }
  }

  /** The table's prompts are the prompts of the pairs. */
  lemma {:induction false} RollUpPrompts<S>(pairs: seq<Pair>, scores: seq<S>, prompt: string)
    requires |scores| == |pairs|
    ensures prompt in RollUp(pairs, scores) <==> exists k :: 0 <= k < |pairs| && pairs[k].prompt == prompt
  {
    if pairs != [] {
      var n := |pairs| - 1;
      RollUpPrompts(pairs[..n], scores[..n], prompt);
      if k :| 0 <= k < n && pairs[..n][k].prompt == prompt {
        assert pairs[k].prompt == prompt;
      }
      if k :| 0 <= k < |pairs| && pairs[k].prompt == prompt {
        if k < n {
          assert pairs[..n][k].prompt == prompt;
        }
      }
    }
  }

  /** The table has an entry for (prompt, completion) exactly when that pair was unrolled. */
  lemma {:induction false} RollUpEntries<S>(pairs: seq<Pair>, scores: seq<S>, pair: Pair)
    requires |scores| == |pairs|
    ensures var t := RollUp(pairs, scores);
      (pair.prompt in t && pair.completion in t[pair.prompt]) <==> pair in pairs
  {
    if pairs != [] {
      var n := |pairs| - 1;
      RollUpEntries(pairs[..n], scores[..n], pair);
      assert pairs == pairs[..n] + [pairs[n]];
    }
  }

  /**
   * Last wins: the entry for pair k is score k when no later pair is the same
   * pair; earlier occurrences of the pair are overwritten.
   */
  lemma {:induction false} RollUpLastWins<S>(pairs: seq<Pair>, scores: seq<S>, k: nat)
    requires |scores| == |pairs| && k < |pairs|
    requires forall k' :: k < k' < |pairs| ==> pairs[k'] != pairs[k]
    ensures var t := RollUp(pairs, scores);
      && pairs[k].prompt in t && pairs[k].completion in t[pairs[k].prompt]
      && t[pairs[k].prompt][pairs[k].completion] == scores[k]
  {
    var n := |pairs| - 1;
    if k < n {
      RollUpLastWins(pairs[..n], scores[..n], k);
      assert pairs[n] != pairs[k];
    }
  }

  /** The scorer is called once per unrolled pair: the sum of the completion-list lengths. */
  lemma ScorerCalls<S>(examples: seq<ScoringExample>, scorer: (nat, Pair) -> S)
    ensures |Scores(Unrolled(examples), scorer)| == TotalCompletions(examples)
  {
  }

  /** The keys of the result are exactly the prompts whose completion list is non-empty. */
  lemma ScoreTablePrompts<S>(examples: seq<ScoringExample>, scorer: (nat, Pair) -> S, prompt: string)
    ensures prompt in ScoreTable(examples, scorer) <==>
      exists i :: 0 <= i < |examples| && examples[i].prompt == prompt && |examples[i].completions| > 0
  {
    var pairs := Unrolled(examples);
    RollUpPrompts(pairs, Scores(pairs, scorer), prompt);
    UnrolledPrompts(examples, prompt);
  }

  /** `table[p]` has an entry for c exactly when some example with prompt p lists c. */
  lemma ScoreTableEntries<S>(examples: seq<ScoringExample>, scorer: (nat, Pair) -> S, prompt: string, completion: string)
    ensures var t := ScoreTable(examples, scorer);
      (prompt in t && completion in t[prompt]) <==>
      exists i :: 0 <= i < |examples| && examples[i].prompt == prompt && completion in examples[i].completions
  {
    var pairs := Unrolled(examples);
    RollUpEntries(pairs, Scores(pairs, scorer), Pair(prompt, completion));
    UnrolledPairs(examples, Pair(prompt, completion));
  }

  /** `table[p][c]` is the score of the last call on (p, c). */
  lemma ScoreTableLastWins<S>(examples: seq<ScoringExample>, scorer: (nat, Pair) -> S, k: nat)
    requires k < |Unrolled(examples)|
    requires forall k' :: k < k' < |Unrolled(examples)| ==> Unrolled(examples)[k'] != Unrolled(examples)[k]
    ensures var pair := Unrolled(examples)[k];
      var t := ScoreTable(examples, scorer);
      && pair.prompt in t && pair.completion in t[pair.prompt]
      && t[pair.prompt][pair.completion] == scorer(k, pair)
  {
    var pairs := Unrolled(examples);
    RollUpLastWins(pairs, Scores(pairs, scorer), k);
  }

  /** With a scorer that depends only on the pair, every entry is that pair's score. */
  lemma ScoreTablePure<S>(examples: seq<ScoringExample>, score: Pair -> S, prompt: string, completion: string)
    requires exists i :: 0 <= i < |examples| && examples[i].prompt == prompt && completion in examples[i].completions
    ensures var t := ScoreTable(examples, (k: nat, pair: Pair) => score(pair));
      && prompt in t && completion in t[prompt]
      && t[prompt][completion] == score(Pair(prompt, completion))
  {
    var scorer := (k: nat, pair: Pair) => score(pair);
    var pairs := Unrolled(examples);
    var pair := Pair(prompt, completion);
    UnrolledPairs(examples, pair);
    var k := LastIndex(pairs, pair);
    RollUpLastWins(pairs, Scores(pairs, scorer), k);
  }

  /** The index of the last occurrence of x. */
  lemma {:induction false} LastIndex<T>(s: seq<T>, x: T) returns (k: nat)
    requires x in s
    ensures k < |s| && s[k] == x
    ensures forall k' :: k < k' < |s| ==> s[k'] != x
  {
    if s[|s| - 1] == x {
      k := |s| - 1;
    } else {
      k := LastIndex(s[..|s| - 1], x);
    }
  }

  /** `score_completions`: the unroll loop, the scoring loop and the roll-up loop. */
  method ScoreCompletions<S>(examples: seq<ScoringExample>, scorer: (nat, Pair) -> S)
    returns (table: map<string, map<string, S>>)
    ensures table == ScoreTable(examples, scorer)
  {
    var unrolled := Unroll(examples);
    var scores := ScoreAll(unrolled, scorer);
    table := RollUpScores(unrolled, scores);
  }

  /** The scoring loop: one scorer call per unrolled pair, in order. */
  method ScoreAll<S>(unrolled: seq<Pair>, scorer: (nat, Pair) -> S) returns (scores: seq<S>)
    ensures scores == Scores(unrolled, scorer)
  {
    scores := [];
    var k := 0;
    while k < |unrolled|
      invariant k <= |unrolled| && |scores| == k
      invariant forall k' :: 0 <= k' < k ==> scores[k'] == scorer(k', unrolled[k'])
    {
      scores := scores + [scorer(k, unrolled[k])];
      k := k + 1;
    }
  }

  /** The roll-up loop over `zip(unrolled_examples, scores)`. */
  method RollUpScores<S>(unrolled: seq<Pair>, scores: seq<S>) returns (table: map<string, map<string, S>>)
    requires |scores| == |unrolled|
    ensures table == RollUp(unrolled, scores)
  {
    table := map[];
    var k := 0;
    while k < |unrolled|
      invariant k <= |unrolled|
      invariant table == RollUp(unrolled[..k], scores[..k])
    {
      assert unrolled[..k + 1][..k] == unrolled[..k] && scores[..k + 1][..k] == scores[..k];
      ghost var before := table;
      var pair := unrolled[k];
      if pair.prompt !in table {
        table := table[pair.prompt := map[]];
      }
      table := table[pair.prompt := table[pair.prompt][pair.completion := scores[k]]];
      assert table == Insert(before, pair, scores[k]);
      k := k + 1;
    }
    assert unrolled[..k] == unrolled && scores[..k] == scores;
  }

  /** The unroll loop: `for example in examples: for completion in example["completions"]: append`. */
  method Unroll(examples: seq<ScoringExample>) returns (unrolled: seq<Pair>)
    ensures unrolled == Unrolled(examples)
  {
    unrolled := [];
    var e := 0;
    while e < |examples|
      invariant e <= |examples|
      invariant unrolled == Unrolled(examples[..e])
    {
      assert examples[..e + 1][..e] == examples[..e];
      var prompt := examples[e].prompt;
      var completions := examples[e].completions;
      ghost var before := unrolled;
      var j := 0;
      while j < |completions|
        invariant j <= |completions|
        invariant unrolled == before + PairsOf(prompt, completions[..j])
      {
        assert completions[..j + 1][..j] == completions[..j];
        unrolled := unrolled + [Pair(prompt, completions[j])];
        j := j + 1;
      }
      assert completions[..j] == completions;
      e := e + 1;
    }
    assert examples[..e] == examples;
  }
}
