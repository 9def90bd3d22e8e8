/** The rating handlers of server.js: `GET /rating` and `POST /rating`, where a
    vote is stored in the field `value`. */
module RatingServer {
  import opened Http
  import opened Votes

  /** The body of `GET /rating`: the mean and the number of voters. */
  datatype Summary = Summary(rating: real, voters: nat)

  /** `GET /rating`: `{ rating: 0, voters: 0 }` for no votes, otherwise the exact
      mean and the vote count; 500 when the store read fails. */
  function GetRating(votes: seq<int>, read: ReadOutcome): (r: Reply<Summary>)
    ensures r.Success? <==> read == ReadOk
    ensures read == ReadFail ==> r == Failure(SERVER_ERROR, StorageError)
    ensures r.Success? ==> r.status == OK && r.body.voters == |votes|
    ensures r.Success? && |votes| == 0 ==> r.body == Summary(0.0, 0)
    ensures r.Success? && |votes| > 0 ==> r.body.rating * (r.body.voters as real) == Sum(votes) as real
    ensures r.Success? && |votes| > 0 && AllValid(votes) ==> 1.0 <= r.body.rating <= 5.0
  {
    match read
    case ReadFail => Failure(SERVER_ERROR, StorageError)
    case ReadOk =>
      if |votes| == 0 then Success(OK, Summary(0.0, 0))
      else
        MeanInRange(votes);
        Success(OK, Summary(Mean(votes), |votes|))
  }

  /** `POST /rating`: a missing, zero or out-of-range value is refused with 400;
      otherwise the vote is appended and echoed with 201, or 500 when the save fails. */
  function PostRating(votes: seq<int>, value: Field<int>, save: SaveOutcome): (h: Handled<int, seq<int>>)
    ensures h.reply.status == BAD_REQUEST <==> !(value.Present? && 1 <= value.value <= 5)
    ensures h.reply.status == BAD_REQUEST ==> h.reply == Failure(BAD_REQUEST, ValidationError)
    ensures h.reply.Failure? ==> h.store == votes
    ensures h.reply.Success? <==> value.Present? && 1 <= value.value <= 5 && save == SaveOk
    ensures value.Present? && 1 <= value.value <= 5 && save == SaveFail ==> h.reply == Failure(SERVER_ERROR, StorageError)
    ensures h.reply.Success? ==>
              && h.reply == Success(CREATED, value.value)
              && |h.store| == |votes| + 1
              && h.store[..|votes|] == votes
              && h.store[|votes|] == value.value
    ensures AllValid(votes) ==> AllValid(h.store)
  {
    match CheckVote(value)
    case None => Handled(Failure(BAD_REQUEST, ValidationError), votes)
    case Some(v) =>
      match save
      case SaveFail => Handled(Failure(SERVER_ERROR, StorageError), votes)
      case SaveOk => Handled(Success(CREATED, v), votes + [v])
  }

  /** A vote v accepted by `POST /rating` moves the `(sum, count)` that the
      next `GET /rating` divides from `(sum, count)` to `(sum + v, count + 1)`. */
  lemma AcceptedVoteShiftsTally(votes: seq<int>, v: int)
    requires 1 <= v <= 5
    ensures Recount(PostRating(votes, Present(v), SaveOk).store) == Record(Recount(votes), v)
  {
    RecordMatchesRecount(votes, v);
  }
}
