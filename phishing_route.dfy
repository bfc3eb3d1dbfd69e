/** `POST /api/analyze/phishing`: validate the URL, flag it by keyword, and ask the
    language model for an explanation when a client is configured. */
module PhishingRoute {
  import opened Js
  import opened Text
  import opened Http

  const SuspiciousPatterns: seq<string> := ["login", "verify", "bank", "account", "free", "update"]

  const InvalidUrl := "Invalid URL provided."
  const AiUnavailable := "AI risk explanation unavailable (missing OpenAI API key on server)."
  const NoExplanation := "Could not generate AI explanation."
  const Failed := "Failed to analyze URL."

  /** The body of a 200 response. */
  datatype Report = Report(url: string, isSuspicious: bool, explanation: string)

  function ReportJson(r: Report): Value {
    Obj(map["url" := Str(r.url), "isSuspicious" := Bool(r.isSuspicious), "explanation" := Str(r.explanation)])
  }

  /** The negation of `!url || typeof url !== "string" || !url.startsWith("http")`. */
  predicate ValidUrl(url: Value) {
    Truthy(url) && url.Str? && StartsWith(url.s, "http")
  }

  /** `patterns.some((p) => s.includes(p))` */
  predicate SomeIncluded(s: string, patterns: seq<string>)
    decreases |patterns|
  {
    |patterns| > 0 && (Includes(s, patterns[0]) || SomeIncluded(s, patterns[1..]))
  }

  predicate IsSuspicious(url: string) {
    SomeIncluded(Lower(url), SuspiciousPatterns)
  }

  function Post(body: Body, aiConfigured: bool, completion: Completion): Response<Report> {
    match Destructure(body, "url")
    case None => ServerError(Failed)
    case Some(url) =>
      if !ValidUrl(url) then BadRequest(InvalidUrl)
      else
        var suspicious := IsSuspicious(url.s);
        if !aiConfigured then Success(Report(url.s, suspicious, AiUnavailable))
        else
          match completion
          case CompletionThrew => ServerError(Failed)
          case Answered(content) => Success(Report(url.s, suspicious, OrText(content, NoExplanation)))
  }

  /** A URL passes validation exactly when it is a string beginning with the
      case-sensitive prefix "http" (the truthiness test is implied). */
  lemma ValidUrlIff(url: Value)
    ensures ValidUrl(url) <==> url.Str? && |url.s| >= 4 && url.s[..4] == "http"
  {
  }

  lemma {:induction false} SomeIncludedIff(s: string, patterns: seq<string>)
    ensures SomeIncluded(s, patterns) <==> exists i :: 0 <= i < |patterns| && Occurs(patterns[i], s)
    decreases |patterns|
  {
    if |patterns| > 0 {
      IncludesIff(s, patterns[0]);
      SomeIncludedIff(s, patterns[1..]);
      if exists i :: 0 <= i < |patterns| && Occurs(patterns[i], s) {
        var i :| 0 <= i < |patterns| && Occurs(patterns[i], s);
        if i > 0 {
          assert patterns[1..][i - 1] == patterns[i];
        }
      }
      if exists i :: 0 <= i < |patterns[1..]| && Occurs(patterns[1..][i], s) {
        var i :| 0 <= i < |patterns[1..]| && Occurs(patterns[1..][i], s);
        assert patterns[i + 1] == patterns[1..][i];
      }
    }
  }

  /** A URL is suspicious exactly when one of the six keywords occurs in its
      lower-cased form. */
  lemma IsSuspiciousIff(url: string)
    ensures IsSuspicious(url) <==> exists p :: p in SuspiciousPatterns && Occurs(p, Lower(url))
  {
    SomeIncludedIff(Lower(url), SuspiciousPatterns);
    if exists p :: p in SuspiciousPatterns && Occurs(p, Lower(url)) {
      var p :| p in SuspiciousPatterns && Occurs(p, Lower(url));
      var i :| 0 <= i < |SuspiciousPatterns| && SuspiciousPatterns[i] == p;
    }
  }

  /** Changing the letter case of a URL does not change its verdict, for the
      ASCII case mapping modelled here. */
  lemma SuspicionIgnoresCase(url: string)
    ensures IsSuspicious(Upper(url)) == IsSuspicious(url)
    ensures IsSuspicious(Lower(url)) == IsSuspicious(url)
  {
    LowerOfUpper(url);
    LowerIdempotent(url);
  }


  lemma SuspiciousExample()
    ensures IsSuspicious("http://Bank")
  {
    var s := "http://Bank";
    assert Lower(s)[7..11] == "bank";
    assert MatchAt(Lower(s), "bank", 7);
    assert SuspiciousPatterns[2] == "bank";
    assert Occurs("bank", Lower(s));
    IsSuspiciousIff(s);
  }

  lemma SafeExample()
    ensures !IsSuspicious("https://example.com")
  {
    var s := "https://example.com";
    assert Lower(s) == s;
    forall p | p in SuspiciousPatterns ensures !Occurs(p, s) {
      var c := if p == "login" then 'g' else if p == "verify" then 'v'
               else if p == "bank" then 'b' else if p == "free" then 'f' else 'u';
      AbsentLetter(p, s, c);
    }
    IsSuspiciousIff(s);
  }

  /** An invalid URL is answered with 400 before the AI configuration or the model is
      consulted. */
  lemma InvalidUrlRejectedFirst(body: Body, ai1: bool, ai2: bool, c1: Completion, c2: Completion)
    requires Destructure(body, "url").Some? && !ValidUrl(Destructure(body, "url").value)
    ensures Post(body, ai1, c1) == Post(body, ai2, c2) == BadRequest(InvalidUrl)
    ensures Post(body, ai1, c1).Status() == 400
  {
  }

  /** Both 200 responses echo the URL and carry the same verdict, which depends on
      the URL alone and not on the model. */
  lemma VerdictIndependentOfAi(url: string, ai1: bool, ai2: bool, c1: Completion, c2: Completion)
    requires StartsWith(url, "http")
    requires Post(Json(Obj(map["url" := Str(url)])), ai1, c1).Success?
    requires Post(Json(Obj(map["url" := Str(url)])), ai2, c2).Success?
    ensures Post(Json(Obj(map["url" := Str(url)])), ai1, c1).body.url == url
    ensures Post(Json(Obj(map["url" := Str(url)])), ai1, c1).body.isSuspicious
         == Post(Json(Obj(map["url" := Str(url)])), ai2, c2).body.isSuspicious
         == IsSuspicious(url)
  {
  }

  /** Without a model client the answer is still 200, with the fixed explanation. */
  lemma MissingAiDegrades(url: string, c: Completion)
    requires StartsWith(url, "http")
    ensures Post(Json(Obj(map["url" := Str(url)])), false, c)
         == Success(Report(url, IsSuspicious(url), AiUnavailable))
  {
  }

  /** An empty or absent model answer is replaced by the fixed text (`||`). */
  lemma EmptyExplanationReplaced(url: string, content: Option<string>)
    requires StartsWith(url, "http")
    requires content.None? || content.value == ""
    ensures Post(Json(Obj(map["url" := Str(url)])), true, Answered(content)).body.explanation == NoExplanation
  {
  }

  /** Every 500 answer carries the same generic text, and it arises only from a
      thrown error: an unreadable body or a failed model call. */
  lemma ServerErrorOnlyWhenThrown(body: Body, ai: bool, c: Completion)
    requires Post(body, ai, c).ServerError?
    ensures Post(body, ai, c).error == Failed
    ensures Destructure(body, "url").None? || (ai && c.CompletionThrew?)
  {
  }

  /** Every thrown error reaches the catch: a body that does not parse, a JSON
      `null` body that cannot be destructured, and a model call that throws for a
      valid URL all give the generic 500. */
  lemma ThrownIsServerError(body: Body, ai: bool, c: Completion)
    ensures Post(Unparseable, ai, c) == ServerError(Failed)
    ensures Post(Json(Null), ai, c) == ServerError(Failed)
    ensures Destructure(body, "url").Some? && ValidUrl(Destructure(body, "url").value) ==>
              Post(body, true, CompletionThrew) == ServerError(Failed)
  {
  }
}
