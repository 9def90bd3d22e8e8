/** The comment feed of server.js: `GET /comments` and `POST /comments`.
    A comment is its text, stamped by the store with its creation time. */
module Comments {
  import opened Http
  import opened Feed

  type Comment = Entry<string>

  /** `GET /comments`: the feed's listing route over the comments. */
  function ListComments(store: seq<Comment>, read: ReadOutcome): Reply<seq<Comment>> {
    List(store, read)
  }

  /** `POST /comments`: empty or missing text is refused with 400; otherwise the
      comment is saved and returned with 201, or 500 when the save fails. */
  function AddComment(store: seq<Comment>, text: Field<string>, save: SaveOutcome): (h: Handled<Comment, seq<Comment>>)
    ensures h.reply.status == BAD_REQUEST <==> text == Missing || text == Present("")
    ensures h.reply.status == BAD_REQUEST ==> h.reply == Failure(BAD_REQUEST, ValidationError)
    ensures h.reply.Failure? ==> h.store == store
    ensures h.reply.Success? <==> text.Present? && text.value != "" && save == SaveOk
    ensures text.Present? && text.value != "" && save == SaveFail ==> h.reply == Failure(SERVER_ERROR, StorageError)
    ensures h.reply.Success? ==>
              && h.reply.status == CREATED
              && |h.store| == |store| + 1
              && h.store[..|store|] == store
              && h.store[|store|] == h.reply.body
              && h.reply.body.doc == text.value
    ensures Stamped(store) ==> Stamped(h.store)
  {
    if FalsyText(text) then
      Handled(Failure(BAD_REQUEST, ValidationError), store)
    else
      match save
      case SaveFail => Handled(Failure(SERVER_ERROR, StorageError), store)
      case SaveOk =>
        var store' := Insert(store, text.value);
        Handled(Success(CREATED, store'[|store|]), store')
  }

  /** Right after a successful add, the new comment heads the listing and the
      earlier listing follows it unchanged. */
  lemma AddedCommentListedFirst(store: seq<Comment>, text: string)
    requires text != ""
    ensures var h := AddComment(store, Present(text), SaveOk);
            var r := ListComments(h.store, ReadOk);
            && r.Success?
            && r.body[0] == h.reply.body
            && r.body[0].doc == text
            && r.body[1..] == ListComments(store, ReadOk).body
  {
    InsertedListedFirst(store, text);
  }
}
