/** `POST /api/analyze/ip`: validate the address, require the VirusTotal key, read
    the malicious-engine count from the report and ask the model for a summary. */
module IpRoute {
  import opened Js
  import opened Http

  const NoIp := "No IP or domain provided."
  const MissingVirusTotalKey := "Server is missing VirusTotal API Key."
  const AiUnavailable := "AI threat explanation unavailable. Server is missing OpenAI configuration."
  const NoExplanation := "AI could not generate an explanation."
  const Failed := "Failed to check IP."

  /** The body of a 200 response; `maliciousCount` is whatever the report holds. */
  datatype Report = Report(ip: string, maliciousCount: Value, explanation: string)

  function ReportJson(r: Report): Value {
    Obj(map["ip" := Str(r.ip), "maliciousCount" := r.maliciousCount, "explanation" := Str(r.explanation)])
  }

  /** The negation of `!ip || typeof ip !== "string"`. */
  predicate ValidIp(ip: Value) {
    Truthy(ip) && ip.Str?
  }

  /** `vt.data?.data?.attributes || {}` */
  function Attributes(data: Value): Value {
    Or(Get(Get(data, "data"), "attributes"), Obj(map[]))
  }

  /** `attributes?.last_analysis_stats?.malicious ?? 0` */
  function MaliciousCount(attributes: Value): Value {
    Coalesce(Get(Get(attributes, "last_analysis_stats"), "malicious"), Num(0))
  }

  function Post(body: Body, virusTotalKey: bool, lookup: Lookup, aiConfigured: bool, completion: Completion)
    : Response<Report>
  {
    match Destructure(body, "ip")
    case None => ServerError(Failed)
    case Some(ip) =>
      if !ValidIp(ip) then BadRequest(NoIp)
      else if !virusTotalKey then ServerError(MissingVirusTotalKey)
      else
        match lookup
        case LookupThrew => ServerError(Failed)
        case Replied(data) =>
          var count := MaliciousCount(Attributes(data));
          if !aiConfigured then Success(Report(ip.s, count, AiUnavailable))
          else
            match completion
            case CompletionThrew => ServerError(Failed)
            case Answered(content) => Success(Report(ip.s, count, CoalesceText(content, NoExplanation)))
  }

  /** The address is checked before the key: a missing, empty or non-string `ip` is
      a 400 whatever the configuration and the collaborators do. */
  lemma InvalidIpRejectedFirst(body: Body, k: bool, l: Lookup, ai: bool, c: Completion)
    requires Destructure(body, "ip").Some?
    requires var ip := Destructure(body, "ip").value; ip.Str? ==> ip.s == ""
    ensures Post(body, k, l, ai, c) == BadRequest(NoIp)
  {
  }

  /** A valid address without the VirusTotal key is a 500 with the configuration
      message, before any lookup. */
  lemma MissingKeyRejected(ip: string, l: Lookup, ai: bool, c: Completion)
    requires ip != ""
    ensures Post(Json(Obj(map["ip" := Str(ip)])), false, l, ai, c) == ServerError(MissingVirusTotalKey)
  {
  }

  /** The count is the report's `last_analysis_stats.malicious` when present and
      not null, and 0 otherwise, including when the report has no attributes. */
  lemma MaliciousCountDefault(stats: Record, rest: Record)
    ensures var data := Obj(map["data" := Obj(map["attributes" := Obj(rest["last_analysis_stats" := Obj(stats)])])]);
            MaliciousCount(Attributes(data)) == if "malicious" in stats && !Nullish(stats["malicious"]) then stats["malicious"] else Num(0)
    ensures MaliciousCount(Attributes(Obj(map[]))) == Num(0)
  {
  }

  /** A failed VirusTotal call is not degraded: it is the generic 500. */
  lemma FailedLookupIsError(ip: string, ai: bool, c: Completion)
    requires ip != ""
    ensures Post(Json(Obj(map["ip" := Str(ip)])), true, LookupThrew, ai, c) == ServerError(Failed)
  {
  }

  /** Without a model client the report still carries the address and the count. */
  lemma MissingAiDegrades(ip: string, data: Value, c: Completion)
    requires ip != ""
    ensures Post(Json(Obj(map["ip" := Str(ip)])), true, Replied(data), false, c)
         == Success(Report(ip, MaliciousCount(Attributes(data)), AiUnavailable))
  {
  }

  /** With `??` an empty model answer is passed through; only a null or absent one
      is replaced. */
  lemma ExplanationCoalesces(ip: string, data: Value, content: Option<string>)
    requires ip != ""
    ensures var r := Post(Json(Obj(map["ip" := Str(ip)])), true, Replied(data), true, Answered(content));
            r.Success? && r.body.explanation == (if content.Some? then content.value else NoExplanation)
    ensures Post(Json(Obj(map["ip" := Str(ip)])), true, Replied(data), true, Answered(Some(""))).body.explanation == ""
  {
  }

  /** Every 200 echoes the address it was given and the count the report holds. */
  lemma SuccessCarriesCount(body: Body, k: bool, l: Lookup, ai: bool, c: Completion)
    requires Post(body, k, l, ai, c).Success?
    ensures Destructure(body, "ip").Some? && ValidIp(Destructure(body, "ip").value)
    ensures Post(body, k, l, ai, c).body.ip == Destructure(body, "ip").value.s
    ensures k && l.Replied? && Post(body, k, l, ai, c).body.maliciousCount == MaliciousCount(Attributes(l.data))
  {
  }
}
