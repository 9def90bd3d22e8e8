/** The rating aggregator's arithmetic, shared by both rating handlers: the
    range check on a submitted vote, the fold that totals the votes, and the
    mean. Votes are integers and the mean is an exact `real`. */
module Votes {
  import opened Http

  const MIN_VOTE: int := 1
  const MAX_VOTE: int := 5

  predicate ValidVote(v: int) {
    MIN_VOTE <= v <= MAX_VOTE
  }

  predicate AllValid(votes: seq<int>) {
    forall i :: 0 <= i < |votes| ==> ValidVote(votes[i])
  }

  /** The handlers' guard `!v || v < 1 || v > 5`, read with JavaScript truthiness. */
  predicate Rejected(field: Field<int>) {
    FalsyNumber(field) || field.value < MIN_VOTE || field.value > MAX_VOTE
  }

  /** Checking a submitted vote: the accepted value, or nothing. */
  function CheckVote(field: Field<int>): (r: Option<int>)
    ensures r.Some? <==> field.Present? && ValidVote(field.value)
    ensures r.Some? ==> r.value == field.value
  {
    if Rejected(field) then None else Some(field.value)
  }

  /** `votes.reduce((acc, v) => acc + v, acc)`: a left fold, as the handlers total the votes. */
  function Reduce(acc: int, votes: seq<int>): int
    decreases |votes|
  {
    if |votes| == 0 then acc else Reduce(acc + votes[0], votes[1..])
  }

  /** The sum of the votes, by structural recursion: the reference the fold is proved against. */
  function Sum(votes: seq<int>): int
    decreases |votes|
  {
    if |votes| == 0 then 0 else votes[0] + Sum(votes[1..])
  }

  /** The handlers' fold computes the sum, whatever the starting accumulator. */
  lemma {:induction false} ReduceIsSum(acc: int, votes: seq<int>)
    ensures Reduce(acc, votes) == acc + Sum(votes)
    decreases |votes|
  {
    if |votes| > 0 {
      ReduceIsSum(acc + votes[0], votes[1..]);
    }
  }

  /** Appending a vote adds it to the sum. */
  lemma {:induction false} SumAppend(votes: seq<int>, v: int)
    ensures Sum(votes + [v]) == Sum(votes) + v
    decreases |votes|
  {
    if |votes| > 0 {
      assert (votes + [v])[1..] == votes[1..] + [v];
      SumAppend(votes[1..], v);
    } else {
      assert votes + [v] == [v];
    }
  }

  /** With every vote in range, the sum lies between count * 1 and count * 5. */
  lemma {:induction false} SumBounds(votes: seq<int>)
    requires AllValid(votes)
    ensures MIN_VOTE * |votes| <= Sum(votes) <= MAX_VOTE * |votes|
    decreases |votes|
  {
    if |votes| > 0 {
      assert ValidVote(votes[0]);
      SumBounds(votes[1..]);
    }
  }

  /** The mean of a non-empty collection, total / count, as the exact quotient
      that the handlers' floating-point division approximates. */
  function Mean(votes: seq<int>): (avg: real)
    requires |votes| > 0
    ensures avg * (|votes| as real) == Sum(votes) as real
  {
    ReduceIsSum(0, votes);
    (Reduce(0, votes) as real) / (|votes| as real)
  }

  /** With every vote in range, the mean is in range too. */
  lemma MeanInRange(votes: seq<int>)
    requires |votes| > 0
    ensures AllValid(votes) ==> MIN_VOTE as real <= Mean(votes) <= MAX_VOTE as real
  {
    if !AllValid(votes) {
      return;
    }
    SumBounds(votes);
    var n := |votes| as real;
    var total := Sum(votes) as real;
    var avg := Mean(votes);
    assert avg * n == total;
    assert n <= total <= 5.0 * n by {
      assert |votes| <= Sum(votes) <= 5 * |votes|;
    }
    ScaledBounds(avg, n, total);
  }

  /** A quotient of a total between n and 5n by a positive n lies in [1, 5]. */
  lemma ScaledBounds(x: real, n: real, total: real)
    requires n > 0.0
    requires x * n == total
    requires n <= total <= 5.0 * n
    ensures 1.0 <= x <= 5.0
  {
    assert (x - 1.0) * n == total - n;
    assert (5.0 - x) * n == 5.0 * n - total;
  }

  /** The running `(sum, count)` a cache beside the store would keep. */
  datatype Tally = Tally(sum: int, count: nat)

  /** The full recomputation each read performs. */
  function Recount(votes: seq<int>): (t: Tally)
    ensures t.count == |votes|
    ensures t.sum == Sum(votes)
  {
    ReduceIsSum(0, votes);
    Tally(Reduce(0, votes), |votes|)
  }

  /** The incremental update a cache would apply on each accepted vote. */
  function Record(t: Tally, v: int): Tally {
    Tally(t.sum + v, t.count + 1)
  }

  /** Appending a vote v shifts `(sum, count)` by `(v, 1)`. */
  lemma RecordMatchesRecount(votes: seq<int>, v: int)
    ensures Record(Recount(votes), v) == Recount(votes + [v])
  {
    SumAppend(votes, v);
  }

  /** The cache after replaying the votes, one `Record` per vote, from zero. */
  function Replay(votes: seq<int>): Tally
    decreases |votes|
  {
    if |votes| == 0 then Tally(0, 0) else Record(Replay(votes[..|votes| - 1]), votes[|votes| - 1])
  }

  /** An incremental cache stays exactly consistent with the recomputation. */
  lemma {:induction false} ReplayMatchesRecount(votes: seq<int>)
    ensures Replay(votes) == Recount(votes)
    decreases |votes|
  {
    if |votes| > 0 {
      var init := votes[..|votes| - 1];
      ReplayMatchesRecount(init);
      RecordMatchesRecount(init, votes[|votes| - 1]);
      assert init + [votes[|votes| - 1]] == votes;
    }
  }

  /** The mean as a cache would report it: 0 for no votes. */
  function MeanOf(t: Tally): real {
    if t.count == 0 then 0.0 else (t.sum as real) / (t.count as real)
  }

  /** Reporting from the cache gives the same figure as a full read. */
  lemma CachedMeanMatches(votes: seq<int>)
    requires |votes| > 0
    ensures MeanOf(Replay(votes)) == Mean(votes)
  {
    ReplayMatchesRecount(votes);
  }
}
