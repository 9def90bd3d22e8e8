# Comment feed, rating aggregator and chat gateway — a Dafny model

This project models the request handlers of a small backend service:

- a comment feed (`GET/POST /comments`);
- a five-point rating aggregator, in two variants:
  - `server.js` stores a vote in the field `value`;
  - the router `routes/rating.js` stores it in the field `rating`;
- a chat gateway (`POST /chatbot/ask`, `GET /chatbot/history`) that forwards a user message to a completion provider and records the exchange.

The HTTP layer, MongoDB and the provider become abstract inputs:

- Each collection is an immutable sequence in insertion order.
- A store read is `ReadOk | ReadFail`, and a store write is `SaveOk | SaveFail`.
- The provider call is an abstract `ProviderOutcome`. It is either `CallFailed`, or `Answered` with an optional `choices` array whose entries may lack `message`.
- Each handler is a pure function. It returns the reply and the collection it leaves behind. `Chat.Ask` also returns the request it sent to the provider, if it sent one.

Modules:

- `Http`: status codes, request-body fields with JavaScript truthiness, replies and store outcomes.
- `Feed`: stamped entries. `createdAt` is a logical time equal to the insertion index. The listing is `NewestFirst`, and the module proves it is the unique sort by `createdAt` descending.
- `Votes`: the range check, the `reduce` fold and its reference sum, the exact mean, and an incremental `(sum, count)` tally.
- `Comments`, `RatingServer`, `RatingRoute`, `Chat`: the handlers.
- `Service`: the dispatch of `server.js` over the three collections.

The rating router in `routes/rating.js` is not mounted by `server.js`, so `Service` uses the `server.js` variant. `RatingRoute` stands on its own.

A failed history save is not caught separately. `await newChat.save()` (server.js:131) is inside the same `try` as the provider call, so a rejected save lands in the `catch` at server.js:134-136 and the client gets the generic 500 without the reply text. `Chat.Ask` models that.

## Model

| member | source | states |
|---|---|---|
| Feed.Insert | server.js:48-49 | saving appends exactly one entry carrying the document, leaves earlier entries untouched, and keeps the store's insertion-order stamps |
| Feed.List | server.js:32-40 | the listing route of both GET /comments and GET /chatbot/history (server.js:91-99): 500 iff the read fails; otherwise 200 with every entry, the most recent at the head, sorted by createdAt descending on a well-stamped store |
| Feed.InsertedListedFirst | server.js:34-49 | right after a save, the new entry heads the listing and the previous listing follows unchanged |
| Feed.NewestFirst | server.js:34 | the listing has every position reversed: entry i of the listing is the (n-1-i)-th inserted |
| Feed.NewestFirstSameEntries | server.js:34 | the listing holds exactly the stored entries (same multiset) |
| Feed.NewestFirstIsSorted | server.js:93 | on a well-stamped store the listing is sorted strictly by createdAt descending and is a permutation of the store |
| Feed.NewestFirstIsTheOnlySort | server.js:93 | any permutation of a well-stamped store sorted by createdAt descending equals the listing, so `sort({createdAt: -1})` is the reverse of insertion order |
| Feed.DescendingGap | server.js:34 | in a strictly createdAt-descending listing, stamps j-i positions apart differ by at least j-i |
| Comments.AddComment | server.js:43-55 | 400 iff the text is missing or empty, and then nothing is stored; non-empty text with a good save appends exactly one comment carrying that text and returns it with 201; a failed save is 500 and stores nothing |
| Comments.AddedCommentListedFirst | server.js:34-50 | right after an add, the new comment heads the listing and the previous listing follows unchanged |
| Votes.CheckVote | server.js:76 | the guard `!value \|\| value < 1 \|\| value > 5` accepts exactly the present values in 1..5, and 0 or missing is rejected |
| Votes.ReduceIsSum | routes/rating.js:15 | the `reduce` left fold from an accumulator equals that accumulator plus the sum of the votes |
| Votes.SumAppend | routes/rating.js:14-16 | appending v adds v to the total |
| Votes.SumBounds | server.js:63 | if every vote is in 1..5, the total lies between count and 5 * count |
| Votes.Mean | server.js:63-64 | the exact mean times the count equals the sum |
| Votes.MeanInRange | server.js:63-66 | if every vote is in 1..5, the mean lies in [1, 5] |
| Votes.Recount | routes/rating.js:14-15 | the full recomputation yields count = number of votes and total = their sum |
| Votes.RecordMatchesRecount | routes/rating.js:14-16 | appending v turns (sum, count) into (sum + v, count + 1) |
| Votes.ReplayMatchesRecount | routes/rating.js:14-16 | an incremental cache fed each accepted vote agrees with the full recomputation |
| Votes.CachedMeanMatches | server.js:63-64 | the mean reported from the cache equals the mean of a full read |
| RatingServer.GetRating | server.js:58-71 | 500 iff the read fails; no votes gives rating 0 and voters 0; otherwise voters = count, rating * voters = sum, and a rating in [1, 5] when all votes are in range |
| RatingServer.PostRating | server.js:74-88 | 400 iff the value is missing or outside 1..5 (0 included), and then the votes are unchanged; an accepted vote with a good save is appended exactly once after the untouched earlier votes and echoed with 201; a failed save is 500 and stores nothing |
| RatingServer.AcceptedVoteShiftsTally | server.js:63-83 | a vote v accepted by POST /rating turns the (sum, count) that the next GET /rating divides into (sum + v, count + 1) |
| RatingRoute.GetAggregate | routes/rating.js:6-22 | 500 iff the read fails; otherwise totalVotes = count, ratings = the stored votes unchanged, averageRating = sum / count, or 0 with no votes, with no `toFixed` rounding |
| RatingRoute.PostRating | routes/rating.js:25-38 | 400 iff the rating is missing or outside 1..5, and then the store is unchanged; otherwise it is appended exactly once and returned with 201, or 500 with nothing stored when the save fails |
| RatingRoute.AcceptedRatingReadBack | routes/rating.js:14-34 | after an accepted rating r, the next read's ratings are the earlier ones plus one more r (as a multiset), and its (sum, count) is the old one shifted by (r, 1) |
| Chat.RequestFor | server.js:113-116 | the outgoing request has exactly one message, `{role: "user", content: message}`, addressed to `gpt-3.5-turbo` |
| Chat.FirstContent | server.js:127 | the reply text is extracted iff the call succeeded with a non-empty `choices` whose first entry has a `message`, and it is that message's content |
| Chat.Ask | server.js:102-138 | 400 iff the message is missing or empty, and then there is no provider call and no record; otherwise exactly one single-message request is sent; 200 iff the call succeeded, `choices[0].message` exists and the save succeeded, and then the reply is that content and exactly one record `{message, response: reply}` is appended; every other path is the same 500 generic error with no record |
| Chat.AskAddsAtMostOne | server.js:127-136 | an ask adds one history record exactly when it replies 200 and otherwise leaves the history unchanged |
| Chat.AnsweredAskListedFirst | server.js:91-133 | after an ask whose provider reply has `choices[0].message` (any further choices ignored), the reply is that content and GET /chatbot/history starts with `{message, response: content}`, the earlier listing following unchanged |
| Service.Step | server.js:32-138 | reads change nothing and call no provider; only an ask calls the provider; each request changes only its own collection; the store invariant (stamps in insertion order, votes in 1..5) is preserved |
| Service.ReadsAreRepeatable | server.js:32-99 | two consecutive reads under the same store read outcome, with no write between them, return the same response and leave the state unchanged |
| Service.RefusalChangesNothing | server.js:43-106 | a request refused with 400 changes no collection and makes no provider call |
| Service.RunKeepsGood | server.js:43-138 | any sequence of requests from a good state ends in a good state |
| Service.RatingStaysInRange | server.js:58-83 | after any sequence of requests from a good state, a non-empty rating read lies in [1, 5] |

## Left out

- Express and router setup, `cors`, `dotenv`, the startup logs and `app.listen` (server.js:1-17, 141-146): these are plumbing with no decision logic.
- The MongoDB connection (server.js:19-24) and the Mongoose models required at server.js:8-10: the models are not part of this model. The store is abstracted as sequences plus read and save outcomes. A failed save stores nothing.
- An unsorted `find()` (server.js:60, routes/rating.js:8) is modelled as returning the documents in insertion order; MongoDB does not guarantee this. So the order of `ratings` in `RatingRoute.GetAggregate` is an assumption; sums, counts and means do not depend on it.
- `createdAt` is a logical time equal to the insertion index, so `sort({createdAt: -1})` is the reverse of insertion order. Ties between equal wall-clock timestamps are not modelled.
- The axios transport, the endpoint URL, the `Authorization` header and the API-key log line (server.js:26-27, 111-123): only the request payload and an abstract outcome are kept.
- `average.toFixed(1)` (server.js:66): float-to-string formatting is not modelled. `RatingServer.GetRating` reports the exact `real` mean, so it is number-valued on both branches, whereas the source returns a string once there are votes.
- JavaScript numbers are IEEE-754 doubles: `total / ratings.length` (server.js:64) and `totalRating / totalVotes` (routes/rating.js:16) return the nearest double (10/3 gives 3.3333333333333335). `Votes.Mean`, `RatingServer.GetRating` and `RatingRoute.GetAggregate` report the exact `real` quotient that this double approximates. The [1, 5] bound carries over, because division is correctly rounded and 1 and 5 are representable.
- JavaScript coercion beyond "missing or 0 is rejected": votes are modelled as `int`. So the string `"3"` passing the comparison and a non-integer such as `2.5` passing the guard (server.js:76, routes/rating.js:28) are not represented. The guard itself never checks integrality.
- `Chat.FirstContent`: a `message` object without a `content` field is not represented, since content is always a string here. In the source `botReply` would then be `undefined`, and whether the save accepts it depends on the schema, which is not part of this model.
- The `Array.isArray` check (routes/rating.js:10): it guards driver behaviour, not application logic.
- The response messages (`"Rating ditambahkan"`, the Indonesian error texts) and console logging: a reply is modelled as a status plus an error kind or body.
- Concurrency between in-flight requests: each request is modelled as one atomic step on the state. The provider call has no timeout (server.js:111-123), so a provider that never answers leaves the request hanging with no reply; the model only represents calls that complete, with an answer or a failure.

