/** `POST /api/analyze/dataleak`: validate the email, require the RapidAPI key, look
    the address up in BreachDirectory (a failed lookup means "no breaches"), and
    normalise the breach list when the model is available. */
module DataLeakRoute {
  import opened Js
  import opened Text
  import opened Http

  const InvalidEmail := "Invalid email format."
  const MissingRapidApiKey := "Server missing RapidAPI key for BreachDirectory. Please configure RAPIDAPI_KEY."
  const AiUnavailable := "AI summarization unavailable — missing OpenAI API Key on server."
  const NoSummary := "AI summary unavailable."
  const SourceNote := "Data from BreachDirectory (RapidAPI)."
  const Failed := "Failed to check data leak."

  /** The body of a 200 response. `leaks` is the raw breach value when no model is
      configured and the normalised list otherwise; only the latter has a `note`. */
  datatype Report = Report(email: string, breached: bool, leaks: Value, aiSummary: string, note: Option<string>)

  function ReportJson(r: Report): Value {
    var fields := map["email" := Str(r.email), "breached" := Bool(r.breached), "leaks" := r.leaks, "aiSummary" := Str(r.aiSummary)];
    Obj(if r.note.Some? then fields["note" := Str(r.note.value)] else fields)
  }

  /** The negation of `!email || typeof email !== "string" || !email.includes("@")`. */
  predicate ValidEmail(email: Value) {
    Truthy(email) && email.Str? && Includes(email.s, "@")
  }

  /** The value `breaches` ends with: `response.data.result` when the lookup answered
      with a truthy `success` and a truthy `result`, else the initial `[]`. */
  function Breaches(lookup: Lookup): Value {
    if lookup.Replied? && Truthy(Get(lookup.data, "success")) && Truthy(Get(lookup.data, "result"))
    then Get(lookup.data, "result")
    else Arr([])
  }

  /** The `let breached`/`let breaches` block and its inner try/catch: a failed
      lookup is logged and swallowed. */
  method LookupBreaches(lookup: Lookup) returns (breached: bool, breaches: Value)
    ensures breaches == Breaches(lookup)
    ensures breached == HasEntries(breaches)
  {
    breached := false;
    breaches := Arr([]);
    match lookup {
      case LookupThrew =>
      case Replied(data) =>
        if Truthy(Get(data, "success")) && Truthy(Get(data, "result")) {
          breaches := Get(data, "result");
          breached := HasEntries(breaches);
        }
    }
  }

  /** `b.name || b.title || "Unknown Source"` */
  function SourceName(b: Value): Value {
    Or(Or(Get(b, "name"), Get(b, "title")), Str("Unknown Source"))
  }

  /** One entry of the normalised `leaks` list. */
  function Normalise(b: Value): Value {
    Obj(map[
      "name" := SourceName(b),
      "domain" := Or(Get(b, "domain"), Str("N/A")),
      "date" := Or(Get(b, "date"), Str("Unknown")),
      "dataClasses" := Or(Get(b, "data_classes"), Arr([Str("Email"), Str("Password")]))
    ])
  }

  function NormaliseAll(items: seq<Value>): (r: seq<Value>)
    ensures |r| == |items|
  {
    seq(|items|, i requires 0 <= i < |items| => Normalise(items[i]))
  }

  /** The names that the prompt lists after "Examples:":
      `breaches.slice(0, 3).map((b) => b.name || b.title || "Unknown Source")`. */
  function ExampleNames(items: seq<Value>): seq<Value> {
    var k := if |items| < 3 then |items| else 3;
    seq(k, i requires 0 <= i < k => SourceName(items[i]))
  }

  /** Every breach record can be read: `b.name` throws on null or undefined. */
  predicate Readable(items: seq<Value>) {
    forall i :: 0 <= i < |items| ==> !Nullish(items[i])
  }

  /** The part after the model check: build the prompt, call the model and
      normalise the list; `slice`/`map` exist only on an array of readable records,
      anything else throws into the route's catch. */
  function Summarise(email: string, breached: bool, breaches: Value, completion: Completion): Response<Report> {
    if !breaches.Arr? || !Readable(breaches.items) then ServerError(Failed)
    else
      match completion
      case CompletionThrew => ServerError(Failed)
      case Answered(content) =>
        Success(Report(email, breached, Arr(NormaliseAll(breaches.items)), OrText(content, NoSummary), Some(SourceNote)))
  }

  function Post(body: Body, rapidApiKey: bool, lookup: Lookup, aiConfigured: bool, completion: Completion)
    : Response<Report>
  {
    match Destructure(body, "email")
    case None => ServerError(Failed)
    case Some(email) =>
      if !ValidEmail(email) then BadRequest(InvalidEmail)
      else if !rapidApiKey then ServerError(MissingRapidApiKey)
      else
        var breaches := Breaches(lookup);
        var breached := HasEntries(breaches);
        if !aiConfigured then Success(Report(email.s, breached, breaches, AiUnavailable, None))
        else Summarise(email.s, breached, breaches, completion)
  }

  /** A missing or non-string email, or one without "@", is a 400 whatever the
      configuration and the collaborators do. */
  lemma InvalidEmailRejectedFirst(body: Body, k: bool, l: Lookup, ai: bool, c: Completion)
    requires Destructure(body, "email").Some? && !ValidEmail(Destructure(body, "email").value)
    ensures Post(body, k, l, ai, c) == BadRequest(InvalidEmail)
  {
  }

  lemma MissingKeyRejected(email: string, l: Lookup, ai: bool, c: Completion)
    requires Includes(email, "@")
    ensures Post(Json(Obj(map["email" := Str(email)])), false, l, ai, c) == ServerError(MissingRapidApiKey)
  {
  }

  /** On every 200, `breached` says whether the breach value has entries. Without a
      model `leaks` is the raw breach value and the summary the fixed unavailable
      text; with one `leaks` is the normalised list of the same length, with the
      source note. */
  lemma BreachedMatchesLeaks(body: Body, k: bool, l: Lookup, ai: bool, c: Completion)
    requires Post(body, k, l, ai, c).Success?
    ensures var r := Post(body, k, l, ai, c).body;
            r.breached == HasEntries(Breaches(l))
            && (!ai ==> r.leaks == Breaches(l))
            && (ai ==> r.leaks.Arr? && r.breached == (|r.leaks.items| > 0))
            && (ai ==> Breaches(l).Arr? && r.leaks == Arr(NormaliseAll(Breaches(l).items)))
            && (ai ==> r.note == Some(SourceNote))
            && (!ai ==> r.aiSummary == AiUnavailable && r.note.None?)
  {
  }

  /** A lookup that throws or answers without `success` and `result` leaves no
      breaches, and the request still succeeds. */
  lemma FailedLookupDegrades(email: string, l: Lookup, ai: bool, content: Option<string>)
    requires Includes(email, "@")
    requires l.LookupThrew? || !Truthy(Get(l.data, "success")) || !Truthy(Get(l.data, "result"))
    ensures var r := Post(Json(Obj(map["email" := Str(email)])), true, l, ai, Answered(content));
            r.Success? && !r.body.breached && r.body.leaks == Arr([])
  {
  }

  /** Normalisation keeps the order of the breaches and defaults each field. */
  lemma NormaliseDefaults(items: seq<Value>, i: int)
    requires 0 <= i < |items|
    ensures var b := items[i];
            var n := NormaliseAll(items)[i];
            && Get(n, "name") == (if Truthy(Get(b, "name")) then Get(b, "name")
                                  else if Truthy(Get(b, "title")) then Get(b, "title")
                                  else Str("Unknown Source"))
            && Get(n, "domain") == (if Truthy(Get(b, "domain")) then Get(b, "domain") else Str("N/A"))
            && Get(n, "date") == (if Truthy(Get(b, "date")) then Get(b, "date") else Str("Unknown"))
            && Get(n, "dataClasses") == (if Truthy(Get(b, "data_classes")) then Get(b, "data_classes")
                                         else Arr([Str("Email"), Str("Password")]))
  {
  }

  /** The prompt names at most three breaches, the first ones, by the same name the
      normalised list gives them. */
  lemma ExamplesArePrefix(items: seq<Value>)
    ensures |ExampleNames(items)| <= 3
    ensures |ExampleNames(items)| == |items| || |ExampleNames(items)| == 3
    ensures forall i :: 0 <= i < |ExampleNames(items)| ==> ExampleNames(items)[i] == Get(NormaliseAll(items)[i], "name")
  {
  }

  lemma EmptySummaryReplaced(email: string, breaches: seq<Value>, content: Option<string>)
    requires Readable(breaches)
    requires content.None? || content.value == ""
    ensures Summarise(email, |breaches| > 0, Arr(breaches), Answered(content)).body.aiSummary == NoSummary
  {
  }

  /** A 500 comes only from a missing key (with its own message) or from a thrown
      error (with the generic one). */
  lemma ServerErrors(body: Body, k: bool, l: Lookup, ai: bool, c: Completion)
    requires Post(body, k, l, ai, c).ServerError?
    ensures Post(body, k, l, ai, c).error == MissingRapidApiKey <==> Destructure(body, "email").Some? && ValidEmail(Destructure(body, "email").value) && !k
    ensures Post(body, k, l, ai, c).error in {MissingRapidApiKey, Failed}
  {
  }
}
