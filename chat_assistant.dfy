/** The `ChatAssistant` widget: a message list that only ever grows at the end, an
    input box and a loading flag. A send appends the user's message, clears the
    box, posts the text and appends exactly one bot message, the reply or a fixed
    error text. */
module ChatAssistant {
  import opened Js
  import opened Text
  import opened Http
  import ChatRoute

  const NoReply := "⚠️ I couldn’t process that request right now."
  const NetworkError := "⚠️ Network or server error."

  datatype Role = User | Bot

  /** `{ role, text }`; `text` is whatever the answer carried. */
  datatype Message = Message(role: Role, text: Value)

  /** `res.data.reply || fallback`; reading `reply` of a null or undefined answer
      throws into the same catch as a failed request. */
  function BotText(response: Fetch): (v: Value)
    ensures Truthy(v)
  {
    match response
    case Rejected => Str(NetworkError)
    case Delivered(data) =>
      if Nullish(data) then Str(NetworkError) else Or(Get(data, "reply"), Str(NoReply))
  }

  class Assistant {
    var messages: seq<Message>
    var input: string
    var loading: bool

    constructor ()
      ensures messages == [] && input == "" && !loading
    {
      messages := [];
      input := "";
      loading := false;
    }

    method Edit(text: string)
      modifies this`input
      ensures input == text
    {
      input := text;
    }

    /** The statements of `handleSend` before the request is awaited. It answers
        the text to post, or None when the trimmed input is empty and nothing
        happens. */
    method BeginSend() returns (sent: Option<string>)
      modifies this`messages, this`input, this`loading
      ensures old(Trim(input)) == "" ==> sent == None && unchanged(this)
      ensures old(Trim(input)) != "" ==>
                && sent == Some(old(input))
                && messages == old(messages) + [Message(User, Str(old(input)))]
                && input == "" && loading
    {
      if Trim(input) == "" {
        return None;
      }
      sent := Some(input);
      messages := messages + [Message(User, Str(input))];
      input := "";
      loading := true;
    }

    /** The statements after the request settles, with the `finally`. */
    method FinishSend(response: Fetch)
      modifies this`messages, this`loading
      ensures messages == old(messages) + [Message(Bot, BotText(response))]
      ensures !loading
    {
      var text: Value;
      match response {
        case Rejected =>
          text := Str(NetworkError);
        case Delivered(data) =>
          if Nullish(data) {
            text := Str(NetworkError);
          } else {
            text := Or(Get(data, "reply"), Str(NoReply));
          }
      }
      messages := messages + [Message(Bot, text)];
      loading := false;
    }

    /** A whole send: with a blank input nothing changes; otherwise the list gains
        the user's message and one bot message, in that order, after the old ones. */
    method HandleSend(response: Fetch)
      modifies this`messages, this`input, this`loading
      ensures old(Trim(input)) == "" ==> unchanged(this)
      ensures old(Trim(input)) != "" ==>
                && messages == old(messages) + [Message(User, Str(old(input))), Message(Bot, BotText(response))]
                && input == "" && !loading
      ensures old(messages) <= messages
    {
      var sent := BeginSend();
      if sent.Some? {
        FinishSend(response);
      }
    }
  }

  /** A bot message is never blank: the reply when it is truthy, else a fixed text
      that tells a failed request from an empty answer. */
  lemma BotTextCases(response: Fetch)
    ensures response.Rejected? ==> BotText(response) == Str(NetworkError)
    ensures response.Delivered? && !Nullish(response.data) && Truthy(Get(response.data, "reply")) ==>
              BotText(response) == Get(response.data, "reply")
    ensures response.Delivered? && !Nullish(response.data) && !Truthy(Get(response.data, "reply")) ==>
              BotText(response) == Str(NoReply)
    ensures BotText(response) != Str(NoReply) || response.Delivered?
  {
  }

  /** End to end with the chat route: a 200 delivers the route's reply unchanged,
      since the route never answers an empty one, and any other status shows the
      network error. */
  lemma RouteReplyShown(message: string, k: bool, c: Completion)
    ensures var r := ChatRoute.Post(Json(Obj(map["message" := Str(message)])), k, c);
            var shown := BotText(Deliver(r, ChatRoute.ReplyJson));
            && (r.Success? ==> shown == Str(r.body.reply))
            && (!r.Success? ==> shown == Str(NetworkError))
  {
    var r := ChatRoute.Post(Json(Obj(map["message" := Str(message)])), k, c);
    if r.Success? {
      ChatRoute.ReplyNeverEmpty(Json(Obj(map["message" := Str(message)])), k, c);
      assert Get(ChatRoute.ReplyJson(r.body), "reply") == Str(r.body.reply);
    }
  }
}
