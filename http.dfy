/** What the four API routes share: the parsed request body, the outcomes of the
    external calls they make, and the three shapes of response they return. */
module Http {
  import opened Js

  /** The result of `await req.json()`. */
  datatype Body = Unparseable | Json(value: Value)

  /** `const { key } = await req.json()`: None when parsing fails or when the body
      is null, which destructuring cannot read (both reach the route's catch). */
  function Destructure(body: Body, key: string): Option<Value> {
    match body
    case Unparseable => None
    case Json(v) => if Nullish(v) then None else Some(Get(v, key))
  }

  /** `(await req.json())?.key`: only a body that does not parse throws. */
  function OptionalField(body: Body, key: string): Option<Value> {
    match body
    case Unparseable => None
    case Json(v) => Some(Get(v, key))
  }

  /** A call to `openai.chat.completions.create`: it throws, or it answers and
      `choices?.[0]?.message?.content` is a string or is null/undefined (None). */
  datatype Completion = CompletionThrew | Answered(content: Option<string>)

  /** An HTTP lookup through axios (VirusTotal, BreachDirectory): it throws, or it
      answers with the parsed body `data`. */
  datatype Lookup = LookupThrew | Replied(data: Value)

  /** The value of `choices?.[0]?.message?.content`: absent content reads as
      null or undefined, which `||` and `??` treat alike. */
  function ContentValue(content: Option<string>): Value {
    if content.Some? then Str(content.value) else Null
  }

  /** `content || fallback`, on strings. */
  function OrText(content: Option<string>, fallback: string): (r: string)
    ensures Str(r) == Or(ContentValue(content), Str(fallback))
  {
    if content.Some? && content.value != "" then content.value else fallback
  }

  /** `content ?? fallback`, on strings. */
  function CoalesceText(content: Option<string>, fallback: string): (r: string)
    ensures Str(r) == Coalesce(ContentValue(content), Str(fallback))
  {
    if content.Some? then content.value else fallback
  }

  /** The `||` fallback never yields the empty string when the fallback text is not
      empty; the `??` fallback passes an empty reply through. */
  lemma FallbackDifference(fallback: string)
    requires fallback != ""
    ensures OrText(Some(""), fallback) == fallback
    ensures CoalesceText(Some(""), fallback) == ""
    ensures forall c :: OrText(c, fallback) != ""
  {
  }

  /** `NextResponse.json(...)` with status 400, 500 or 200. */
  datatype Response<R> = BadRequest(error: string) | ServerError(error: string) | Success(body: R) {
    function Status(): int {
      match this
      case BadRequest(_) => 400
      case ServerError(_) => 500
      case Success(_) => 200
    }
  }

  /** What the browser sees: axios rejects every status outside 2xx, and resolves
      with the parsed JSON body otherwise. */
  datatype Fetch = Rejected | Delivered(data: Value)

  function Deliver<R>(r: Response<R>, json: R -> Value): (f: Fetch)
    ensures f.Delivered? <==> r.Status() == 200
    ensures f.Delivered? ==> r.Success? && f.data == json(r.body)
  {
    if r.Success? then Delivered(json(r.body)) else Rejected
  }
}
