/** `POST /api/chat`: validate the message, require the OpenAI key and relay the
    model's reply. */
module ChatRoute {
  import opened Js
  import opened Http

  const InvalidMessage := "Invalid input message."
  const MissingAiConfiguration := "Server missing AI configuration."
  const NotUnderstood := "⚠️ I couldn’t understand that. Try again."
  const Failed := "Failed to process chat request."

  datatype Reply = Reply(reply: string)

  function ReplyJson(r: Reply): Value {
    Obj(map["reply" := Str(r.reply)])
  }

  /** The negation of `!message || typeof message !== "string"`. */
  predicate ValidMessage(message: Value) {
    Truthy(message) && message.Str?
  }

  /** `const message = body?.message`, so a null body is a 400 and not a 500. */
  function Post(body: Body, openAiKey: bool, completion: Completion): Response<Reply> {
    match OptionalField(body, "message")
    case None => ServerError(Failed)
    case Some(message) =>
      if !ValidMessage(message) then BadRequest(InvalidMessage)
      else if !openAiKey then ServerError(MissingAiConfiguration)
      else
        match completion
        case CompletionThrew => ServerError(Failed)
        case Answered(content) => Success(Reply(OrText(content, NotUnderstood)))
  }

  /** A missing, empty or non-string message is a 400 before the key is checked;
      a body that is JSON `null` is such a request. */
  lemma InvalidMessageRejectedFirst(body: Body, k: bool, c: Completion)
    requires body.Json? && !ValidMessage(Get(body.value, "message"))
    ensures Post(body, k, c) == BadRequest(InvalidMessage)
    ensures Post(Json(Null), k, c) == BadRequest(InvalidMessage)
  {
  }

  lemma MissingKeyRejected(message: string, c: Completion)
    requires message != ""
    ensures Post(Json(Obj(map["message" := Str(message)])), false, c) == ServerError(MissingAiConfiguration)
  {
  }

  /** Every 200 carries a non-empty reply: the model's text, or the fixed text when
      the model returned nothing or "". */
  lemma ReplyNeverEmpty(body: Body, k: bool, c: Completion)
    requires Post(body, k, c).Success?
    ensures Post(body, k, c).body.reply != ""
    ensures c.Answered? && (c.content.None? || c.content.value == "") ==> Post(body, k, c).body.reply == NotUnderstood
    ensures c.Answered? && c.content.Some? && c.content.value != "" ==> Post(body, k, c).body.reply == c.content.value
  {
  }

  /** Every thrown error reaches the catch: a body that does not parse, and a model
      call that throws for a valid message with the key present, give the generic
      500. */
  lemma ThrownIsServerError(body: Body, k: bool, c: Completion)
    ensures Post(Unparseable, k, c) == ServerError(Failed)
    ensures body.Json? && ValidMessage(Get(body.value, "message")) ==>
              Post(body, true, CompletionThrew) == ServerError(Failed)
  {
  }

  /** Which message a 500 carries: the generic one exactly for a thrown error, the
      configuration one otherwise. */
  lemma ServerErrors(body: Body, k: bool, c: Completion)
    requires Post(body, k, c).ServerError?
    ensures Post(body, k, c).error in {Failed, MissingAiConfiguration}
    ensures Post(body, k, c).error == Failed <==> body.Unparseable? || (k && c.CompletionThrew?)
  {
  }
}
