/** The chat gateway of server.js: `POST /chatbot/ask` and `GET /chatbot/history`.
    One ask runs validate → call the completion provider → take the first
    choice's content → save the exchange → reply. The provider and the store
    write are abstract outcomes handed in by the caller. */
module Chat {
  import opened Http
  import opened Feed

  /** The model every request is addressed to. */
  const MODEL: string := "gpt-3.5-turbo"
  /** The role of the single message each request carries. */
  const USER_ROLE: string := "user"

  /** One message of the outgoing request. */
  datatype ChatMessage = ChatMessage(role: string, content: string)

  /** The payload posted to the provider: `{ messages, model }`. */
  datatype ProviderRequest = ProviderRequest(messages: seq<ChatMessage>, model: string)

  /** `choices[i]`: its `message` object, which a malformed reply may lack. */
  datatype Choice = Choice(message: Option<ReplyMessage>)
  datatype ReplyMessage = ReplyMessage(content: string)

  /** What a completed provider call comes back with: a reply body whose
      `choices` field may be missing, or a failure (network error, non-2xx
      status, rejected key). A call that never completes is not represented. */
  datatype ProviderOutcome = Answered(choices: Option<seq<Choice>>) | CallFailed

  /** One saved exchange: `{ message, response }`. */
  datatype Exchange = Exchange(message: string, response: string)

  type Interaction = Entry<Exchange>

  /** Everything one ask does that can be observed: the reply, the provider
      request it sent (if any) and the history it leaves behind. */
  datatype AskResult = AskResult(reply: Reply<string>, sent: Option<ProviderRequest>, history: seq<Interaction>)

  /** The single-turn request built from the user's message. */
  function RequestFor(message: string): (q: ProviderRequest)
    ensures |q.messages| == 1
    ensures q.messages[0].role == USER_ROLE && q.messages[0].content == message
    ensures q.model == MODEL
  {
    ProviderRequest([ChatMessage(USER_ROLE, message)], MODEL)
  }

  /** `response.data.choices[0].message.content`; `None` where that
      expression would throw. */
  function FirstContent(outcome: ProviderOutcome): (c: Option<string>)
    ensures c.Some? <==>
              && outcome.Answered?
              && outcome.choices.Some?
              && |outcome.choices.value| > 0
              && outcome.choices.value[0].message.Some?
    ensures c.Some? ==> c.value == outcome.choices.value[0].message.value.content
  {
    match outcome
    case CallFailed => None
    case Answered(None) => None
    case Answered(Some(choices)) =>
      if |choices| == 0 then None
      else match choices[0].message
        case None => None
        case Some(m) => Some(m.content)
  }

  /** The one path on which an ask stores an exchange and replies 200. */
  predicate Succeeds(message: Field<string>, provider: ProviderOutcome, save: SaveOutcome) {
    !FalsyText(message) && FirstContent(provider).Some? && save == SaveOk
  }

  /** `POST /chatbot/ask`. An empty or missing message is refused with 400
      before any provider call. Otherwise the request is sent; a failed call,
      a reply without `choices[0].message` or a failed history save all end in
      the same 500 with the generic error and no reply text. Only when all
      three steps succeed is the exchange saved and the content returned. */
  function Ask(history: seq<Interaction>, message: Field<string>, provider: ProviderOutcome, save: SaveOutcome): (r: AskResult)
    ensures r.reply.status == BAD_REQUEST <==> message == Missing || message == Present("")
    ensures r.reply.status == BAD_REQUEST ==>
              r.reply == Failure(BAD_REQUEST, ValidationError) && r.sent == None && r.history == history
    ensures r.sent.Some? <==> message.Present? && message.value != ""
    ensures r.sent.Some? ==>
              && |r.sent.value.messages| == 1
              && r.sent.value.messages[0] == ChatMessage(USER_ROLE, message.value)
              && r.sent.value.model == MODEL
    ensures r.reply.Success? <==> Succeeds(message, provider, save)
    ensures r.reply.Success? ==>
              && r.reply.status == OK
              && r.reply.body == provider.choices.value[0].message.value.content
              && |r.history| == |history| + 1
              && r.history[..|history|] == history
              && r.history[|history|].doc == Exchange(message.value, r.reply.body)
    ensures r.sent.Some? && !r.reply.Success? ==>
              r.reply == Failure(SERVER_ERROR, GatewayError) && r.history == history
    ensures Stamped(history) ==> Stamped(r.history)
  {
    if FalsyText(message) then
      AskResult(Failure(BAD_REQUEST, ValidationError), None, history)
    else
      var request := RequestFor(message.value);
      match FirstContent(provider)
      case None => AskResult(Failure(SERVER_ERROR, GatewayError), Some(request), history)
      case Some(botReply) =>
        match save
        case SaveFail => AskResult(Failure(SERVER_ERROR, GatewayError), Some(request), history)
        case SaveOk =>
          AskResult(Success(OK, botReply), Some(request), Insert(history, Exchange(message.value, botReply)))
  }

  /** `GET /chatbot/history`: the feed's listing route over the exchanges. */
  function History(history: seq<Interaction>, read: ReadOutcome): Reply<seq<Interaction>> {
    List(history, read)
  }

  /** An ask adds at most one record, and adds one exactly when it replies 200. */
  lemma AskAddsAtMostOne(history: seq<Interaction>, message: Field<string>, provider: ProviderOutcome, save: SaveOutcome)
    ensures var r := Ask(history, message, provider, save);
            && (|r.history| == |history| + 1 <==> r.reply.Success?)
            && (!r.reply.Success? ==> r.history == history)
  {
  }

  /** After an ask whose provider reply has `choices[0].message`, with the
      save succeeding, the reply is that content and the history listing starts
      with `{ message, response }`; later choices play no part. */
  lemma AnsweredAskListedFirst(history: seq<Interaction>, message: string, provider: ProviderOutcome)
    requires message != ""
    requires FirstContent(provider).Some?
    ensures var content := FirstContent(provider).value;
            var r := Ask(history, Present(message), provider, SaveOk);
            var listed := History(r.history, ReadOk);
            && r.reply == Success(OK, content)
            && listed.Success?
            && listed.body[0].doc == Exchange(message, content)
            && listed.body[1..] == History(history, ReadOk).body
  {
    InsertedListedFirst(history, Exchange(message, FirstContent(provider).value));
  }
}
