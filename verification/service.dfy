/** The routes of server.js put together: the service state is the three
    collections, and each request is handled by exactly one handler, which
    touches only its own collection. */
module Service {
  import opened Http
  import opened Feed
  import opened Votes
  import Comments
  import RatingServer
  import Chat

  datatype State = State(comments: seq<Comments.Comment>, votes: seq<int>, history: seq<Chat.Interaction>)

  /** What the store keeps true: stamps follow insertion order, every vote is in range. */
  predicate Good(s: State) {
    Stamped(s.comments) && AllValid(s.votes) && Stamped(s.history)
  }

  datatype Request =
    | ListComments
    | AddComment(text: Field<string>)
    | ReadRating
    | SubmitRating(value: Field<int>)
    | ListHistory
    | Ask(message: Field<string>)
  {
    predicate IsRead() {
      ListComments? || ReadRating? || ListHistory?
    }
  }

  /** The collaborators' behaviour on this request: the store read, the store
      write and the provider call. Each handler consults only what it uses. */
  datatype Env = Env(read: ReadOutcome, save: SaveOutcome, provider: Chat.ProviderOutcome)

  datatype Body =
    | CommentList(comments: seq<Comments.Comment>)
    | CommentCreated(comment: Comments.Comment)
    | RatingSummary(summary: RatingServer.Summary)
    | VoteCreated(vote: int)
    | HistoryList(history: seq<Chat.Interaction>)
    | ChatReply(message: string)
    | ErrorBody(error: ErrorKind)

  datatype Response = Response(status: nat, body: Body)

  datatype Transition = Transition(response: Response, next: State, sent: Option<Chat.ProviderRequest>)

  function Wrap<T>(r: Reply<T>, body: T -> Body): Response {
    match r
    case Success(status, b) => Response(status, body(b))
    case Failure(status, e) => Response(status, ErrorBody(e))
  }

  /** Dispatch one request to its handler. */
  function Step(s: State, req: Request, env: Env): (t: Transition)
    ensures req.IsRead() ==> t.next == s && t.sent == None
    ensures t.sent.Some? ==> req.Ask?
    ensures !req.AddComment? ==> t.next.comments == s.comments
    ensures !req.SubmitRating? ==> t.next.votes == s.votes
    ensures !req.Ask? ==> t.next.history == s.history
    ensures Good(s) ==> Good(t.next)
  {
    match req
    case ListComments =>
      Transition(Wrap(Comments.ListComments(s.comments, env.read), l => CommentList(l)), s, None)
    case AddComment(text) =>
      var h := Comments.AddComment(s.comments, text, env.save);
      Transition(Wrap(h.reply, c => CommentCreated(c)), s.(comments := h.store), None)
    case ReadRating =>
      Transition(Wrap(RatingServer.GetRating(s.votes, env.read), m => RatingSummary(m)), s, None)
    case SubmitRating(value) =>
      var h := RatingServer.PostRating(s.votes, value, env.save);
      Transition(Wrap(h.reply, v => VoteCreated(v)), s.(votes := h.store), None)
    case ListHistory =>
      Transition(Wrap(Chat.History(s.history, env.read), l => HistoryList(l)), s, None)
    case Ask(message) =>
      var r := Chat.Ask(s.history, message, env.provider, env.save);
      Transition(Wrap(r.reply, m => ChatReply(m)), s.(history := r.history), r.sent)
  }

  /** Listing is a pure read: repeating it with no write between gives the
      same response and still changes nothing. */
  lemma ReadsAreRepeatable(s: State, req: Request, env: Env)
    requires req.IsRead()
    ensures var t := Step(s, req, env);
            var t' := Step(t.next, req, env);
            t'.response == t.response && t'.next == s
  {
  }

  /** A refused request (status 400) changes no collection and calls no provider. */
  lemma RefusalChangesNothing(s: State, req: Request, env: Env)
    ensures var t := Step(s, req, env);
            t.response.status == BAD_REQUEST ==> t.next == s && t.sent == None
  {
  }

  /** Any run of requests from a good state ends in a good state. */
  lemma {:induction false} RunKeepsGood(s: State, reqs: seq<Request>, envs: seq<Env>)
    requires |reqs| == |envs|
    requires Good(s)
    ensures Good(Run(s, reqs, envs))
    decreases |reqs|
  {
    if |reqs| > 0 {
      RunKeepsGood(Step(s, reqs[0], envs[0]).next, reqs[1..], envs[1..]);
    }
  }

  /** The state after handling the requests in order. */
  function Run(s: State, reqs: seq<Request>, envs: seq<Env>): State
    requires |reqs| == |envs|
    decreases |reqs|
  {
    if |reqs| == 0 then s else Run(Step(s, reqs[0], envs[0]).next, reqs[1..], envs[1..])
  }

  /** Every vote ever accepted keeps the rating read in [1, 5]. */
  lemma RatingStaysInRange(s: State, reqs: seq<Request>, envs: seq<Env>)
    requires |reqs| == |envs|
    requires Good(s)
    ensures var end := Run(s, reqs, envs);
            var r := RatingServer.GetRating(end.votes, ReadOk);
            |end.votes| > 0 ==> 1.0 <= r.body.rating <= 5.0
  {
    RunKeepsGood(s, reqs, envs);
  }
}
