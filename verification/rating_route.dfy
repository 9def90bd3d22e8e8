/** The rating router of routes/rating.js, where a vote is stored in the field
    `rating`: `GET /` returns the aggregate beside every stored rating and
    `POST /` validates and appends one rating. */
module RatingRoute {
  import opened Http
  import opened Votes

  /** The body of `GET /`. */
  datatype Aggregate = Aggregate(averageRating: real, totalVotes: nat, ratings: seq<int>)

  /** `GET /`: the count, the exact mean (0 when there are no votes) and the
      ratings themselves; 500 when the store read fails. */
  function GetAggregate(votes: seq<int>, read: ReadOutcome): (r: Reply<Aggregate>)
    ensures r.Success? <==> read == ReadOk
    ensures read == ReadFail ==> r == Failure(SERVER_ERROR, StorageError)
    ensures r.Success? ==> r.status == OK
    ensures r.Success? ==> r.body.totalVotes == |votes| && r.body.ratings == votes
    ensures r.Success? ==>
              r.body.averageRating == (if |votes| > 0 then (Sum(votes) as real) / (|votes| as real) else 0.0)
  {
    match read
    case ReadFail => Failure(SERVER_ERROR, StorageError)
    case ReadOk =>
      var totalVotes := |votes|;
      var totalRating := Reduce(0, votes);
      ReduceIsSum(0, votes);
      var averageRating := if totalVotes > 0 then (totalRating as real) / (totalVotes as real) else 0.0;
      Success(OK, Aggregate(averageRating, totalVotes, votes))
  }

  /** `POST /`: a missing, zero or out-of-range rating is refused with 400;
      otherwise the rating is appended once and returned with 201, or 500 when
      the save fails. */
  function PostRating(votes: seq<int>, rating: Field<int>, save: SaveOutcome): (h: Handled<int, seq<int>>)
    ensures h.reply.status == BAD_REQUEST <==> !(rating.Present? && 1 <= rating.value <= 5)
    ensures h.reply.status == BAD_REQUEST ==> h.reply == Failure(BAD_REQUEST, ValidationError)
    ensures h.reply.Failure? ==> h.store == votes
    ensures h.reply.Success? <==> rating.Present? && 1 <= rating.value <= 5 && save == SaveOk
    ensures rating.Present? && 1 <= rating.value <= 5 && save == SaveFail ==> h.reply == Failure(SERVER_ERROR, StorageError)
    ensures h.reply.Success? ==>
              && h.reply == Success(CREATED, rating.value)
              && |h.store| == |votes| + 1
              && h.store[..|votes|] == votes
              && h.store[|votes|] == rating.value
    ensures AllValid(votes) ==> AllValid(h.store)
  {
    if Rejected(rating) then
      Handled(Failure(BAD_REQUEST, ValidationError), votes)
    else
      match save
      case SaveFail => Handled(Failure(SERVER_ERROR, StorageError), votes)
      case SaveOk => Handled(Success(CREATED, rating.value), votes + [rating.value])
  }

  /** An accepted rating shows up once more in the next read, and the read's
      figures move from `(sum, count)` to `(sum + r, count + 1)`. */
  lemma AcceptedRatingReadBack(votes: seq<int>, r: int)
    requires 1 <= r <= 5
    ensures var votes' := PostRating(votes, Present(r), SaveOk).store;
            var agg := GetAggregate(votes', ReadOk).body;
            && agg.totalVotes == |votes| + 1
            && multiset(agg.ratings) == multiset(votes) + multiset{r}
            && Recount(agg.ratings) == Record(Recount(votes), r)
  {
    assert PostRating(votes, Present(r), SaveOk).store == votes + [r];
    RecordMatchesRecount(votes, r);
  }
}
